/** The truck allocator as a pure specification: greedy first-fit of the order lines,
    in order, into trucks of at most 2000 kg, and what it guarantees (every line packed
    once, weight conserved, capacity kept except by a truck carrying one line alone). */
module Allocation {
  import opened Orders

  const MaxTruckWeightKg: real := 2000.0

  /** A truck's manifest as a value: its gtin/quantity entries in packing order and its
      total weight in kilograms. */
  datatype Load = Load(lines: seq<OrderLine>, totalWeightKg: real)

  /** The weight of a line in kilograms; a gtin without a product weighs nothing. */
  function LineWeightKg(products: map<string, Product>, line: OrderLine): real
  {
    if line.gtin in products then products[line.gtin].weight * (line.quantity as real) / 1000.0 else 0.0
  }

  /** Whether a line of weight `w` still fits on a truck. */
  predicate Fits(load: Load, w: real)
  {
    load.totalWeightKg + w <= MaxTruckWeightKg
  }

  /** The index of the first truck a line of weight `w` fits on, or the number of trucks
      when none does. */
  function FirstFitting(trucks: seq<Load>, w: real): (j: nat)
    ensures j <= |trucks|
    ensures j < |trucks| ==> Fits(trucks[j], w)
    ensures forall k :: 0 <= k < j ==> !Fits(trucks[k], w)
  {
    if trucks == [] then 0
    else if Fits(trucks[0], w) then 0
    else 1 + FirstFitting(trucks[1..], w)
  }

  /** Placing one line: onto the first truck it fits on, else onto a new truck at the end. */
  function Place(trucks: seq<Load>, line: OrderLine, w: real): seq<Load>
  {
    var j := FirstFitting(trucks, w);
    if j < |trucks| then trucks[j := Load(trucks[j].lines + [line], trucks[j].totalWeightKg + w)]
    else trucks + [Load([line], w)]
  }

  /** First fit: the line joins the lowest-index truck it fits on, and a new truck is opened
      at the end exactly when it fits on none. */
  lemma PlaceIsFirstFit(trucks: seq<Load>, line: OrderLine, w: real)
    ensures (forall k :: 0 <= k < |trucks| ==> !Fits(trucks[k], w)) <==> |Place(trucks, line, w)| == |trucks| + 1
    ensures (forall k :: 0 <= k < |trucks| ==> !Fits(trucks[k], w)) ==>
      Place(trucks, line, w) == trucks + [Load([line], w)]
    ensures forall j :: 0 <= j < |trucks| && Fits(trucks[j], w) && (forall k :: 0 <= k < j ==> !Fits(trucks[k], w)) ==>
      Place(trucks, line, w) == trucks[j := Load(trucks[j].lines + [line], trucks[j].totalWeightKg + w)]
  {
  }

  /** The trucks after packing all lines in order. */
  function Allocate(lines: seq<OrderLine>, products: map<string, Product>): seq<Load>
  {
    if lines == [] then []
    else
      var n := |lines| - 1;
      Place(Allocate(lines[..n], products), lines[n], LineWeightKg(products, lines[n]))
  }

  /** The total weight of the lines. */
  function SumWeights(lines: seq<OrderLine>, products: map<string, Product>): real
  {
    if lines == [] then 0.0
    else
      var n := |lines| - 1;
      SumWeights(lines[..n], products) + LineWeightKg(products, lines[n])
  }

  /** The sum of the trucks' total weights. */
  function SumTotals(trucks: seq<Load>): real
  {
    if trucks == [] then 0.0 else trucks[0].totalWeightKg + SumTotals(trucks[1..])
  }

  /** All the entries on all the trucks. */
  function Packed(trucks: seq<Load>): multiset<OrderLine>
  {
    if trucks == [] then multiset{} else multiset(trucks[0].lines) + Packed(trucks[1..])
  }

  // ---------------------------------------------------------------------------
  // Truck count

  /** There is at most one truck per line, at least one for a non-empty order, and no
      truck is empty. */
  lemma {:induction false} TruckCountBounds(lines: seq<OrderLine>, products: map<string, Product>)
    ensures |Allocate(lines, products)| <= |lines|
    ensures |lines| > 0 ==> |Allocate(lines, products)| >= 1
    ensures forall j :: 0 <= j < |Allocate(lines, products)| ==> |Allocate(lines, products)[j].lines| >= 1
  {
    if lines != [] {
      TruckCountBounds(lines[..|lines| - 1], products);
    }
  }

  // ---------------------------------------------------------------------------
  // Capacity

  /** Every truck is within capacity, except one that carries a single line. */
  predicate WithinCapacity(trucks: seq<Load>)
  {
    forall j :: 0 <= j < |trucks| ==> trucks[j].totalWeightKg <= MaxTruckWeightKg || |trucks[j].lines| == 1
  }

  lemma {:induction false} CapacityRespected(lines: seq<OrderLine>, products: map<string, Product>)
    ensures WithinCapacity(Allocate(lines, products))
  {
    if lines != [] {
      CapacityRespected(lines[..|lines| - 1], products);
    }
  }

  // ---------------------------------------------------------------------------
  // Weight

  /** Each truck's total weight is the weight of the lines it carries. */
  predicate TotalsExact(trucks: seq<Load>, products: map<string, Product>)
  {
    forall j :: 0 <= j < |trucks| ==> trucks[j].totalWeightKg == SumWeights(trucks[j].lines, products)
  }

  lemma {:induction false} TruckTotalsExact(lines: seq<OrderLine>, products: map<string, Product>)
    ensures TotalsExact(Allocate(lines, products), products)
  {
    if lines != [] {
      var n := |lines| - 1;
      var before := Allocate(lines[..n], products);
      TruckTotalsExact(lines[..n], products);
      var w := LineWeightKg(products, lines[n]);
      var j := FirstFitting(before, w);
      if j < |before| {
        assert (before[j].lines + [lines[n]])[..|before[j].lines|] == before[j].lines;
      } else {
        assert [lines[n]][..0] == [];
      }
    }
  }

  lemma {:induction false} SumTotalsUpdate(trucks: seq<Load>, j: nat, load: Load)
    requires j < |trucks|
    ensures SumTotals(trucks[j := load]) == SumTotals(trucks) - trucks[j].totalWeightKg + load.totalWeightKg
  {
    if j > 0 {
      assert trucks[j := load][1..] == trucks[1..][j - 1 := load];
      SumTotalsUpdate(trucks[1..], j - 1, load);
    }
  }

  lemma {:induction false} SumTotalsAppend(trucks: seq<Load>, load: Load)
    ensures SumTotals(trucks + [load]) == SumTotals(trucks) + load.totalWeightKg
  {
    if trucks != [] {
      assert (trucks + [load])[1..] == trucks[1..] + [load];
      SumTotalsAppend(trucks[1..], load);
    }
  }

  /** Conservation: the trucks together carry exactly the weight of the order. */
  lemma {:induction false} WeightConserved(lines: seq<OrderLine>, products: map<string, Product>)
    ensures SumTotals(Allocate(lines, products)) == SumWeights(lines, products)
  {
    if lines != [] {
      var n := |lines| - 1;
      var before := Allocate(lines[..n], products);
      WeightConserved(lines[..n], products);
      var w := LineWeightKg(products, lines[n]);
      assert SumWeights(lines, products) == SumWeights(lines[..n], products) + w;
      assert Allocate(lines, products) == Place(before, lines[n], w);
      var j := FirstFitting(before, w);
      if j < |before| {
        SumTotalsUpdate(before, j, Load(before[j].lines + [lines[n]], before[j].totalWeightKg + w));
      } else {
        SumTotalsAppend(before, Load([lines[n]], w));
      }
    }
  }

  // ---------------------------------------------------------------------------
  // Every line packed once

  lemma {:induction false} PackedUpdate(trucks: seq<Load>, j: nat, line: OrderLine, t: real)
    requires j < |trucks|
    ensures Packed(trucks[j := Load(trucks[j].lines + [line], t)]) == Packed(trucks) + multiset{line}
  {
    var load := Load(trucks[j].lines + [line], t);
    if j == 0 {
      assert trucks[j := load][1..] == trucks[1..];
    } else {
      assert trucks[j := load][1..] == trucks[1..][j - 1 := load];
      PackedUpdate(trucks[1..], j - 1, line, t);
    }
  }

  lemma {:induction false} PackedAppend(trucks: seq<Load>, load: Load)
    ensures Packed(trucks + [load]) == Packed(trucks) + multiset(load.lines)
  {
    if trucks != [] {
      assert (trucks + [load])[1..] == trucks[1..] + [load];
      PackedAppend(trucks[1..], load);
    } else {
      assert ([] + [load])[1..] == [];
    }
  }

  /** Placing a line adds exactly that line to the entries. */
  lemma PackedPlace(trucks: seq<Load>, line: OrderLine, w: real)
    ensures Packed(Place(trucks, line, w)) == Packed(trucks) + multiset{line}
  {
    var j := FirstFitting(trucks, w);
    if j < |trucks| {
      PackedUpdate(trucks, j, line, trucks[j].totalWeightKg + w);
    } else {
      PackedAppend(trucks, Load([line], w));
    }
  }

  /** The trucks carry exactly the order's lines (gtin and quantity), each as often as the
      order has it. */
  lemma {:induction false} AllLinesPacked(lines: seq<OrderLine>, products: map<string, Product>)
    ensures Packed(Allocate(lines, products)) == multiset(lines)
  {
    if lines != [] {
      var n := |lines| - 1;
      var before := Allocate(lines[..n], products);
      var w := LineWeightKg(products, lines[n]);
      assert Allocate(lines, products) == Place(before, lines[n], w);
      AllLinesPacked(lines[..n], products);
      assert lines == lines[..n] + [lines[n]];
      assert multiset(lines) == multiset(lines[..n]) + multiset{lines[n]};
      PackedPlace(before, lines[n], w);
    }
  }

  /** An entry on some truck is in `Packed`, and what is in `Packed` is on some truck. */
  lemma {:induction false} PackedMembers(trucks: seq<Load>, x: OrderLine)
    ensures x in Packed(trucks) <==> exists j :: 0 <= j < |trucks| && x in trucks[j].lines
  {
    if trucks != [] {
      PackedMembers(trucks[1..], x);
      if x in Packed(trucks[1..]) {
        var j :| 0 <= j < |trucks[1..]| && x in trucks[1..][j].lines;
        assert x in trucks[j + 1].lines;
      }
      if exists j :: 0 <= j < |trucks| && x in trucks[j].lines {
        var j :| 0 <= j < |trucks| && x in trucks[j].lines;
        if j > 0 {
          assert x in trucks[1..][j - 1].lines;
        }
      }
    }
  }

  /** No gtin occurs twice across the trucks: not twice on one truck, and not on two trucks. */
  predicate GtinsOnce(trucks: seq<Load>)
  {
    forall j1, a, j2, b ::
      0 <= j1 < |trucks| && 0 <= a < |trucks[j1].lines| && 0 <= j2 < |trucks| && 0 <= b < |trucks[j2].lines|
      && trucks[j1].lines[a].gtin == trucks[j2].lines[b].gtin
      ==> j1 == j2 && a == b
  }

  /** Every entry on the trucks is one of `lines`. */
  predicate PackedFrom(trucks: seq<Load>, lines: seq<OrderLine>)
  {
    forall j, a :: 0 <= j < |trucks| && 0 <= a < |trucks[j].lines| ==> trucks[j].lines[a] in lines
  }

  /** With distinct gtins, each truck's gtin dictionary never receives a key twice, and no
      gtin is split over two trucks. */
  lemma {:induction false} GtinsPartitioned(lines: seq<OrderLine>, products: map<string, Product>)
    requires DistinctGtins(lines)
    ensures GtinsOnce(Allocate(lines, products))
    ensures PackedFrom(Allocate(lines, products), lines)
  {
    if lines != [] {
      var n := |lines| - 1;
      var prefix := lines[..n];
      var line := lines[n];
      DistinctGtinsPrefix(lines, n);
      GtinsPartitioned(prefix, products);
      var before := Allocate(prefix, products);
      var w := LineWeightKg(products, line);
      assert Allocate(lines, products) == Place(before, line, w);
      forall j, a | 0 <= j < |before| && 0 <= a < |before[j].lines|
        ensures before[j].lines[a].gtin != line.gtin && before[j].lines[a] in lines
      {
        var x := before[j].lines[a];
        var i :| 0 <= i < n && prefix[i] == x;
        assert lines[i] == x;
      }
      PlaceNewGtin(before, line, w, lines);
    }
  }

  /** Placing a line whose gtin is on no truck yet keeps every gtin once. */
  lemma PlaceNewGtin(trucks: seq<Load>, line: OrderLine, w: real, lines: seq<OrderLine>)
    requires GtinsOnce(trucks)
    requires forall i, a :: 0 <= i < |trucks| && 0 <= a < |trucks[i].lines| ==>
      trucks[i].lines[a].gtin != line.gtin && trucks[i].lines[a] in lines
    requires line in lines
    ensures GtinsOnce(Place(trucks, line, w))
    ensures PackedFrom(Place(trucks, line, w), lines)
  {
    var j := FirstFitting(trucks, w);
    if j < |trucks| {
      NewGtinUpdate(trucks, j, line, trucks[j].totalWeightKg + w);
    } else {
      NewGtinAppend(trucks, line, w);
    }
  }

  lemma NewGtinUpdate(trucks: seq<Load>, j: nat, line: OrderLine, t: real)
    requires j < |trucks| && GtinsOnce(trucks)
    requires forall i, a :: 0 <= i < |trucks| && 0 <= a < |trucks[i].lines| ==> trucks[i].lines[a].gtin != line.gtin
    ensures GtinsOnce(trucks[j := Load(trucks[j].lines + [line], t)])
  {
    var after := trucks[j := Load(trucks[j].lines + [line], t)];
    forall i, a | 0 <= i < |after| && 0 <= a < |after[i].lines|
      ensures after[i].lines[a] == (if i == j && a == |trucks[j].lines| then line else trucks[i].lines[a])
    {
    }
  }

  lemma NewGtinAppend(trucks: seq<Load>, line: OrderLine, w: real)
    requires GtinsOnce(trucks)
    requires forall i, a :: 0 <= i < |trucks| && 0 <= a < |trucks[i].lines| ==> trucks[i].lines[a].gtin != line.gtin
    ensures GtinsOnce(trucks + [Load([line], w)])
  {
  }

  /** With distinct gtins, every line of the order is on exactly one truck, with its
      quantity unchanged, and that truck carries its gtin once. */
  lemma EachLineOnOneTruck(lines: seq<OrderLine>, products: map<string, Product>, i: nat)
    requires DistinctGtins(lines)
    requires i < |lines|
    ensures exists j, a :: (0 <= j < |Allocate(lines, products)| && 0 <= a < |Allocate(lines, products)[j].lines|
      && Allocate(lines, products)[j].lines[a] == lines[i])
    ensures forall j1, a, j2, b ::
      0 <= j1 < |Allocate(lines, products)| && 0 <= a < |Allocate(lines, products)[j1].lines|
      && 0 <= j2 < |Allocate(lines, products)| && 0 <= b < |Allocate(lines, products)[j2].lines|
      && Allocate(lines, products)[j1].lines[a].gtin == lines[i].gtin
      && Allocate(lines, products)[j2].lines[b].gtin == lines[i].gtin
      ==> j1 == j2 && a == b
  {
    var trucks := Allocate(lines, products);
    AllLinesPacked(lines, products);
    GtinsPartitioned(lines, products);
    assert lines[i] in multiset(lines);
    PackedMembers(trucks, lines[i]);
    var j :| 0 <= j < |trucks| && lines[i] in trucks[j].lines;
    var a :| 0 <= a < |trucks[j].lines| && trucks[j].lines[a] == lines[i];
  }

  // ---------------------------------------------------------------------------
  // Worked examples

  /** 3 units of a 500 g product and 2 of a 400 g product share one truck of 2.3 kg. */
  lemma ExampleLightLinesShareATruck()
    ensures var products := map["A" := Product(1, 500.0), "B" := Product(2, 400.0)];
      Allocate([OrderLine("A", 3), OrderLine("B", 2)], products)
        == [Load([OrderLine("A", 3), OrderLine("B", 2)], 2.3)]
  {
    var products := map["A" := Product(1, 500.0), "B" := Product(2, 400.0)];
    var lines := [OrderLine("A", 3), OrderLine("B", 2)];
    assert lines[..1] == [OrderLine("A", 3)] && [OrderLine("A", 3)][..0] == [];
    var first := [Load([OrderLine("A", 3)], 1.5)];
    assert Allocate(lines[..1], products) == first;
    assert LineWeightKg(products, lines[1]) == 0.8;
    assert FirstFitting(first, 0.8) == 0;
    assert Allocate(lines, products) == Place(first, lines[1], 0.8);
    assert [OrderLine("A", 3)] + [lines[1]] == lines;
    assert Place(first, lines[1], 0.8) == [Load(lines, 1.5 + 0.8)];
  }

  /** A single 3000 kg line is packed alone on one truck, over the cap. */
  lemma ExampleOversizeLineAlone()
    ensures var products := map["A" := Product(1, 1000000.0)];
      Allocate([OrderLine("A", 3)], products) == [Load([OrderLine("A", 3)], 3000.0)]
  {
    assert [OrderLine("A", 3)][..0] == [];
  }

  /** Two 1100 kg lines do not share a truck. */
  lemma ExampleHeavyLinesSplit()
    ensures var products := map["A" := Product(1, 1100000.0), "B" := Product(2, 1100000.0)];
      Allocate([OrderLine("A", 1), OrderLine("B", 1)], products)
        == [Load([OrderLine("A", 1)], 1100.0), Load([OrderLine("B", 1)], 1100.0)]
  {
    var products := map["A" := Product(1, 1100000.0), "B" := Product(2, 1100000.0)];
    var lines := [OrderLine("A", 1), OrderLine("B", 1)];
    assert lines[..1] == [OrderLine("A", 1)] && [OrderLine("A", 1)][..0] == [];
    assert Allocate(lines[..1], products) == [Load([OrderLine("A", 1)], 1100.0)];
  }
}
