/** The three validation stages of an outbound order as pure functions, and `Validate`,
    which runs them in sequence and yields the batch of stock alterations to remove or
    the error of the first stage that fails. */
module Validation {
  import opened Orders
  import opened Ledger

  // ---------------------------------------------------------------------------
  // Stage 1: duplicate gtins (fail fast)

  /** The index of the first line whose gtin already occurred on an earlier line. */
  function FirstRepeat(lines: seq<OrderLine>): (r: Option<nat>)
    ensures r.None? <==> DistinctGtins(lines)
    ensures r.Some? ==>
      r.value < |lines| && DistinctGtins(lines[..r.value]) && lines[r.value].gtin in Gtins(lines[..r.value])
  {
    if lines == [] then None
    else
      var n := |lines| - 1;
      var prefix := lines[..n];
      match FirstRepeat(prefix)
      case Some(i) =>
        assert prefix[..i] == lines[..i];
        assert Gtins(prefix[..i]) == Gtins(lines[..i]);
        Some(i)
      case None =>
        if lines[n].gtin in Gtins(prefix) then Some(n)
        else
          assert forall i :: 0 <= i < n ==> lines[i].gtin == Gtins(prefix)[i];
          None
  }

  /** The repeat that the scan reports is the earliest one: a line that repeats an
      earlier gtin, with all lines before it distinct, is the one `FirstRepeat` finds. */
  lemma FirstRepeatIsEarliest(lines: seq<OrderLine>, i: nat)
    requires i < |lines|
    requires DistinctGtins(lines[..i])
    requires lines[i].gtin in Gtins(lines[..i])
    ensures FirstRepeat(lines).Some? && FirstRepeat(lines).value == i
  {
    var k := GtinIndex(lines[..i], lines[i].gtin);
    assert lines[k].gtin == lines[i].gtin;
    assert !DistinctGtins(lines);
    var j := FirstRepeat(lines).value;
    var m := GtinIndex(lines[..j], lines[j].gtin);
    PrefixDistinctAt(lines, i, m, j);
    PrefixDistinctAt(lines, j, k, i);
  }

  /** A position at which a gtin of the lines occurs. */
  lemma GtinIndex(lines: seq<OrderLine>, g: string) returns (k: nat)
    requires g in Gtins(lines)
    ensures k < |lines| && lines[k].gtin == g
  {
    k :| 0 <= k < |Gtins(lines)| && Gtins(lines)[k] == g;
  }

  /** Two lines inside a distinct prefix have different gtins. */
  lemma PrefixDistinctAt(lines: seq<OrderLine>, n: nat, a: nat, b: nat)
    requires n <= |lines| && DistinctGtins(lines[..n])
    requires a < b < |lines|
    ensures b < n ==> lines[a].gtin != lines[b].gtin
  {
    if b < n {
      assert lines[..n][a] == lines[a] && lines[..n][b] == lines[b];
    }
  }

  // ---------------------------------------------------------------------------
  // Stage 2: product resolution (accumulate, then fail)

  /** The product lookup by gtin: the catalog restricted to the requested gtins. */
  function ProductsByGtin(catalog: map<string, Product>, gtins: seq<string>): map<string, Product>
  {
    map g | g in gtins && g in catalog :: catalog[g]
  }

  /** The gtins of the lines that have no product, in line order. */
  function UnknownGtins(lines: seq<OrderLine>, products: map<string, Product>): (r: seq<string>)
    ensures |r| <= |lines|
  {
    if lines == [] then []
    else
      var n := |lines| - 1;
      UnknownGtins(lines[..n], products) + (if lines[n].gtin in products then [] else [lines[n].gtin])
  }

  /** The unknown gtins are exactly the order's gtins that have no product. */
  lemma {:induction false} UnknownGtinsMembers(lines: seq<OrderLine>, products: map<string, Product>)
    ensures forall g :: g in UnknownGtins(lines, products) <==> g in Gtins(lines) && g !in products
    decreases |lines|
  {
    if lines != [] {
      var n := |lines| - 1;
      assert Gtins(lines) == Gtins(lines[..n]) + [lines[n].gtin];
      UnknownGtinsMembers(lines[..n], products);
    }
  }

  /** Line indices listed in strictly increasing order. */
  predicate Increasing(idx: seq<nat>)
  {
    forall a, b :: 0 <= a < b < |idx| ==> idx[a] < idx[b]
  }

  /** Appending an index above all listed ones keeps the list increasing. */
  lemma IncreasingExtend(pre: seq<nat>, n: nat)
    requires Increasing(pre) && forall k :: 0 <= k < |pre| ==> pre[k] < n
    ensures Increasing(pre + [n]) && n !in pre
    ensures forall i :: i in pre + [n] <==> i in pre || i == n
  {
  }

  /** `r` lists the gtins of exactly the lines at `idx`, which are the lines without a
      product, one each, in increasing index order. */
  predicate ListsUnknown(lines: seq<OrderLine>, products: map<string, Product>, idx: seq<nat>, r: seq<string>)
  {
    && |idx| == |r| && Increasing(idx)
    && (forall k :: 0 <= k < |idx| ==> idx[k] < |lines| && r[k] == lines[idx[k]].gtin)
    && (forall i :: 0 <= i < |lines| ==> (i in idx <==> lines[i].gtin !in products))
  }

  /** One more line extends the listing by its gtin exactly when it has no product. */
  lemma ListsUnknownStep(lines: seq<OrderLine>, products: map<string, Product>, idx: seq<nat>, r: seq<string>)
    requires 0 < |lines| && ListsUnknown(lines[..|lines| - 1], products, idx, r)
    ensures var n := |lines| - 1;
      if lines[n].gtin in products then ListsUnknown(lines, products, idx, r)
      else ListsUnknown(lines, products, idx + [n], r + [lines[n].gtin])
  {
    var n := |lines| - 1;
    assert forall i :: 0 <= i < n ==> lines[..n][i] == lines[i];
    IncreasingExtend(idx, n);
  }

  /** The unknown gtins come one per line without a product, in line order: entry k is the
      gtin of line idx[k], the indices increase, and they are exactly the lines without one. */
  lemma {:induction false} UnknownGtinsInOrder(lines: seq<OrderLine>, products: map<string, Product>)
    returns (idx: seq<nat>)
    ensures ListsUnknown(lines, products, idx, UnknownGtins(lines, products))
    decreases |lines|
  {
    if lines == [] {
      idx := [];
    } else {
      var n := |lines| - 1;
      var pre := UnknownGtinsInOrder(lines[..n], products);
      ListsUnknownStep(lines, products, pre, UnknownGtins(lines[..n], products));
      idx := if lines[n].gtin in products then pre else pre + [n];
    }
  }

  /** The stock alterations for the lines that have a product, in line order. */
  function Alterations(lines: seq<OrderLine>, products: map<string, Product>): (r: seq<StockAlteration>)
    ensures |r| <= |lines|
  {
    if lines == [] then []
    else
      var n := |lines| - 1;
      var line := lines[n];
      Alterations(lines[..n], products)
        + (if line.gtin in products then [StockAlteration(products[line.gtin].id, line.quantity)] else [])
  }

  /** When every line has a product, the alterations are aligned with the lines: one per
      line, carrying that line's product id and quantity. */
  lemma {:induction false} AlterationsAligned(lines: seq<OrderLine>, products: map<string, Product>)
    requires forall i :: 0 <= i < |lines| ==> lines[i].gtin in products
    ensures |Alterations(lines, products)| == |lines|
    ensures forall i :: 0 <= i < |lines| ==>
      Alterations(lines, products)[i] == StockAlteration(products[lines[i].gtin].id, lines[i].quantity)
    decreases |lines|
  {
    if lines != [] {
      var n := |lines| - 1;
      assert forall i :: 0 <= i < n ==> lines[..n][i] == lines[i];
      AlterationsAligned(lines[..n], products);
    }
  }

  /** Resolving one more line extends both stage-2 results by that line's share. */
  lemma ResolutionStep(lines: seq<OrderLine>, i: nat, products: map<string, Product>)
    requires i < |lines|
    ensures UnknownGtins(lines[..i + 1], products)
      == UnknownGtins(lines[..i], products) + (if lines[i].gtin in products then [] else [lines[i].gtin])
    ensures Alterations(lines[..i + 1], products)
      == Alterations(lines[..i], products)
         + (if lines[i].gtin in products then [StockAlteration(products[lines[i].gtin].id, lines[i].quantity)] else [])
  {
    assert lines[..i + 1][..i] == lines[..i];
  }

  // ---------------------------------------------------------------------------
  // Stage 3: stock sufficiency (accumulate, then fail)

  /** What is wrong, if anything, with taking `item` (for `line`) out of `stock`. */
  function LineProblem(line: OrderLine, item: StockAlteration, stock: map<int, int>): Option<StockProblem>
  {
    if item.productId !in stock then Some(NoStockHeld(line.gtin))
    else if item.quantity > stock[item.productId] then
      Some(NotEnoughStock(line.gtin, stock[item.productId], item.quantity))
    else None
  }

  /** Predicate form of a line that stock can satisfy. */
  predicate Satisfiable(item: StockAlteration, stock: map<int, int>)
  {
    item.productId in stock && item.quantity <= stock[item.productId]
  }

  /** The problems of all alterations, paired by index with the lines, in order. */
  function StockProblems(lines: seq<OrderLine>, items: seq<StockAlteration>, stock: map<int, int>): (r: seq<StockProblem>)
    requires |items| <= |lines|
    ensures |r| <= |items|
  {
    if items == [] then []
    else
      var n := |items| - 1;
      StockProblems(lines, items[..n], stock)
        + (match LineProblem(lines[n], items[n], stock) case Some(p) => [p] case None => [])
  }

  /** `r` lists the problems of exactly the alterations at `idx`, which are the ones stock
      cannot satisfy, one each, in increasing index order. */
  predicate ListsProblems(lines: seq<OrderLine>, items: seq<StockAlteration>, stock: map<int, int>,
                          idx: seq<nat>, r: seq<StockProblem>)
  {
    && |idx| == |r| && Increasing(idx)
    && (forall k :: 0 <= k < |idx| ==>
          idx[k] < |items| && idx[k] < |lines| && LineProblem(lines[idx[k]], items[idx[k]], stock) == Some(r[k]))
    && (forall i :: 0 <= i < |items| ==> (i in idx <==> !Satisfiable(items[i], stock)))
  }

  /** One more alteration that stock can satisfy adds no problem. */
  lemma ListsProblemsKeep(lines: seq<OrderLine>, items: seq<StockAlteration>, stock: map<int, int>,
                          idx: seq<nat>, r: seq<StockProblem>)
    requires 0 < |items| <= |lines|
    requires ListsProblems(lines, items[..|items| - 1], stock, idx, r)
    requires Satisfiable(items[|items| - 1], stock)
    ensures ListsProblems(lines, items, stock, idx, r)
  {
    var n := |items| - 1;
    assert forall i :: 0 <= i < n ==> items[..n][i] == items[i];
  }

  /** One more alteration that stock cannot satisfy adds its own problem at the end. */
  lemma ListsProblemsAdd(lines: seq<OrderLine>, items: seq<StockAlteration>, stock: map<int, int>,
                         idx: seq<nat>, r: seq<StockProblem>, p: StockProblem)
    requires 0 < |items| <= |lines|
    requires ListsProblems(lines, items[..|items| - 1], stock, idx, r)
    requires LineProblem(lines[|items| - 1], items[|items| - 1], stock) == Some(p)
    ensures ListsProblems(lines, items, stock, idx + [|items| - 1], r + [p])
  {
    var n := |items| - 1;
    assert forall i :: 0 <= i < n ==> items[..n][i] == items[i];
    IncreasingExtend(idx, n);
  }

  /** The problems come one per failing alteration, in line order: entry k is the problem
      of alteration idx[k], the indices increase, and they are exactly the alterations that
      stock cannot satisfy. */
  lemma {:induction false} StockProblemsInOrder(lines: seq<OrderLine>, items: seq<StockAlteration>, stock: map<int, int>)
    returns (idx: seq<nat>)
    requires |items| <= |lines|
    ensures ListsProblems(lines, items, stock, idx, StockProblems(lines, items, stock))
    decreases |items|
  {
    if items == [] {
      idx := [];
    } else {
      var n := |items| - 1;
      var pre := StockProblemsInOrder(lines, items[..n], stock);
      var before := StockProblems(lines, items[..n], stock);
      match LineProblem(lines[n], items[n], stock)
      case None =>
        assert StockProblems(lines, items, stock) == before;
        ListsProblemsKeep(lines, items, stock, pre, before);
        idx := pre;
      case Some(p) =>
        assert StockProblems(lines, items, stock) == before + [p];
        ListsProblemsAdd(lines, items, stock, pre, before, p);
        idx := pre + [n];
    }
  }

  /** No problem is reported exactly when stock can satisfy every alteration. */
  lemma NoStockProblemsExactly(lines: seq<OrderLine>, items: seq<StockAlteration>, stock: map<int, int>)
    requires |items| <= |lines|
    ensures StockProblems(lines, items, stock) == [] <==> forall i :: 0 <= i < |items| ==> Satisfiable(items[i], stock)
  {
    var idx := StockProblemsInOrder(lines, items, stock);
    if idx != [] {
      assert idx[0] in idx;
    }
  }

  /** Each alteration stock cannot satisfy is reported: "no stock held" when its product has
      no entry, else "not enough stock" with the held and requested quantities. */
  lemma StockProblemsCollected(lines: seq<OrderLine>, items: seq<StockAlteration>, stock: map<int, int>, i: nat)
    requires |items| <= |lines| && i < |items|
    ensures items[i].productId !in stock ==> NoStockHeld(lines[i].gtin) in StockProblems(lines, items, stock)
    ensures items[i].productId in stock && items[i].quantity > stock[items[i].productId] ==>
      NotEnoughStock(lines[i].gtin, stock[items[i].productId], items[i].quantity) in StockProblems(lines, items, stock)
  {
    var idx := StockProblemsInOrder(lines, items, stock);
    if !Satisfiable(items[i], stock) {
      var k :| 0 <= k < |idx| && idx[k] == i;
      assert LineProblem(lines[i], items[i], stock) == Some(StockProblems(lines, items, stock)[k]);
    }
  }

  // ---------------------------------------------------------------------------
  // The pipeline

  /** The three stages in sequence, on the product catalog and the ledger as they are
      when the request arrives. Success carries the batch for the stock removal. */
  function Validate(catalog: map<string, Product>, held: map<StockKey, int>, request: OrderRequest)
    : Result<seq<StockAlteration>, OrderError>
  {
    var lines := request.orderLines;
    match FirstRepeat(lines)
    case Some(i) => Failure(DuplicateGtin(lines[i].gtin))
    case None =>
      var products := ProductsByGtin(catalog, Gtins(lines));
      var unknown := UnknownGtins(lines, products);
      if |unknown| > 0 then Failure(UnknownProducts(unknown))
      else
        var items := Alterations(lines, products);
        var problems := StockProblems(lines, items, StockFor(held, request.warehouseId, ProductIds(items)));
        if |problems| > 0 then Failure(InsufficientStock(problems))
        else Success(items)
  }

  /** Whether every line, looked up in the catalog, can be taken from the warehouse's stock. */
  predicate InStock(catalog: map<string, Product>, held: map<StockKey, int>, request: OrderRequest)
    requires forall i :: 0 <= i < |request.orderLines| ==> request.orderLines[i].gtin in catalog
  {
    forall i :: 0 <= i < |request.orderLines| ==>
      var line := request.orderLines[i];
      var k := StockKey(request.warehouseId, catalog[line.gtin].id);
      k in held && line.quantity <= held[k]
  }

  /** A repeated gtin fails the order with the first repeated gtin, before any lookup. */
  lemma DuplicateRejected(catalog: map<string, Product>, held: map<StockKey, int>, request: OrderRequest)
    requires !DistinctGtins(request.orderLines)
    ensures exists i :: (0 <= i < |request.orderLines|
      && DistinctGtins(request.orderLines[..i])
      && request.orderLines[i].gtin in Gtins(request.orderLines[..i])
      && Validate(catalog, held, request) == Failure(DuplicateGtin(request.orderLines[i].gtin)))
  {
    var i := FirstRepeat(request.orderLines).value;
  }

  /** With distinct gtins, an order naming an unknown gtin fails with exactly the unknown
      gtins, whatever the stock: one per line the catalog lacks, in line order (the lines
      at `idx`), so none twice. */
  lemma UnknownRejected(catalog: map<string, Product>, held: map<StockKey, int>, request: OrderRequest)
    returns (idx: seq<nat>)
    requires DistinctGtins(request.orderLines)
    requires exists i :: 0 <= i < |request.orderLines| && request.orderLines[i].gtin !in catalog
    ensures Validate(catalog, held, request).Failure?
    ensures Validate(catalog, held, request).error.UnknownProducts?
    ensures forall g :: (g in Validate(catalog, held, request).error.gtins
      <==> g in Gtins(request.orderLines) && g !in catalog)
    ensures ListsUnknown(request.orderLines, catalog, idx, Validate(catalog, held, request).error.gtins)
    ensures var gtins := Validate(catalog, held, request).error.gtins;
      forall a, b :: 0 <= a < b < |gtins| ==> gtins[a] != gtins[b]
  {
    var lines := request.orderLines;
    var i :| 0 <= i < |lines| && lines[i].gtin !in catalog;
    var products := ProductsByGtin(catalog, Gtins(lines));
    var unknown := UnknownGtins(lines, products);
    UnknownGtinsMembers(lines, products);
    assert Gtins(lines)[i] == lines[i].gtin;
    assert lines[i].gtin in unknown;
    assert Validate(catalog, held, request) == Failure(UnknownProducts(unknown));
    idx := UnknownGtinsInOrder(lines, products);
    forall j | 0 <= j < |lines| ensures lines[j].gtin in products <==> lines[j].gtin in catalog {
      assert Gtins(lines)[j] == lines[j].gtin;
    }
    assert ListsUnknown(lines, catalog, idx, unknown);
    forall a, b | 0 <= a < b < |unknown| ensures unknown[a] != unknown[b] {
      assert idx[a] < idx[b];
    }
  }

  /** Every line has a product exactly when the resolution stage reports no unknown gtin;
      the products it then uses are the catalog's. */
  lemma ResolutionSucceedsExactly(catalog: map<string, Product>, lines: seq<OrderLine>)
    ensures var products := ProductsByGtin(catalog, Gtins(lines));
      (|UnknownGtins(lines, products)| == 0 <==> forall i :: 0 <= i < |lines| ==> lines[i].gtin in catalog)
      && forall i :: 0 <= i < |lines| && lines[i].gtin in catalog ==>
           lines[i].gtin in products && products[lines[i].gtin] == catalog[lines[i].gtin]
  {
    var products := ProductsByGtin(catalog, Gtins(lines));
    var unknown := UnknownGtins(lines, products);
    UnknownGtinsMembers(lines, products);
    forall i | 0 <= i < |lines| ensures lines[i].gtin in Gtins(lines) {
      assert Gtins(lines)[i] == lines[i].gtin;
    }
    if |unknown| > 0 {
      var k := GtinIndex(lines, unknown[0]);
      assert unknown[0] !in products;
    }
  }

  /** For a batch aligned with the lines, the stock stage finds no problem exactly when the
      warehouse holds enough of every line's product. */
  lemma StockSucceedsExactly(catalog: map<string, Product>, held: map<StockKey, int>, request: OrderRequest,
                             items: seq<StockAlteration>)
    requires forall i :: 0 <= i < |request.orderLines| ==> request.orderLines[i].gtin in catalog
    requires |items| == |request.orderLines|
    requires forall i :: 0 <= i < |items| ==>
      items[i] == StockAlteration(catalog[request.orderLines[i].gtin].id, request.orderLines[i].quantity)
    ensures var stock := StockFor(held, request.warehouseId, ProductIds(items));
      (forall i :: 0 <= i < |items| ==> Satisfiable(items[i], stock)) <==> InStock(catalog, held, request)
  {
    var stock := StockFor(held, request.warehouseId, ProductIds(items));
    forall i | 0 <= i < |items|
      ensures Satisfiable(items[i], stock) <==>
        var k := StockKey(request.warehouseId, catalog[request.orderLines[i].gtin].id);
        k in held && request.orderLines[i].quantity <= held[k]
    {
      assert ProductIds(items)[i] == items[i].productId;
    }
  }

  /** What the warehouse's stock lacks for one line of a known product, if anything:
      no entry at all, or fewer units held than the line asks for. */
  function Shortfall(catalog: map<string, Product>, held: map<StockKey, int>, warehouseId: int, line: OrderLine)
    : Option<StockProblem>
    requires line.gtin in catalog
  {
    var k := StockKey(warehouseId, catalog[line.gtin].id);
    if k !in held then Some(NoStockHeld(line.gtin))
    else if line.quantity > held[k] then Some(NotEnoughStock(line.gtin, held[k], line.quantity))
    else None
  }

  /** For a batch aligned with the lines, each alteration's problem is its line's shortfall. */
  lemma LineProblemIsShortfall(catalog: map<string, Product>, held: map<StockKey, int>, request: OrderRequest,
                               items: seq<StockAlteration>, i: nat)
    requires forall i :: 0 <= i < |request.orderLines| ==> request.orderLines[i].gtin in catalog
    requires |items| == |request.orderLines| && i < |items|
    requires forall i :: 0 <= i < |items| ==>
      items[i] == StockAlteration(catalog[request.orderLines[i].gtin].id, request.orderLines[i].quantity)
    ensures LineProblem(request.orderLines[i], items[i], StockFor(held, request.warehouseId, ProductIds(items)))
      == Shortfall(catalog, held, request.warehouseId, request.orderLines[i])
  {
    assert ProductIds(items)[i] == items[i].productId;
  }

  /** An order with distinct, known gtins that the warehouse cannot fill fails with
      `InsufficientStock`, listing one problem per line that falls short, in line order
      (the lines at `idx`), each that line's shortfall. */
  lemma StockRejected(catalog: map<string, Product>, held: map<StockKey, int>, request: OrderRequest)
    returns (idx: seq<nat>)
    requires DistinctGtins(request.orderLines)
    requires forall i :: 0 <= i < |request.orderLines| ==> request.orderLines[i].gtin in catalog
    requires !InStock(catalog, held, request)
    ensures Validate(catalog, held, request).Failure?
    ensures Validate(catalog, held, request).error.InsufficientStock?
    ensures var problems := Validate(catalog, held, request).error.problems;
      && |idx| == |problems| && Increasing(idx)
      && (forall k :: 0 <= k < |idx| ==>
            idx[k] < |request.orderLines|
            && Shortfall(catalog, held, request.warehouseId, request.orderLines[idx[k]]) == Some(problems[k]))
      && (forall i :: 0 <= i < |request.orderLines| ==>
            (i in idx <==> Shortfall(catalog, held, request.warehouseId, request.orderLines[i]).Some?))
  {
    var lines := request.orderLines;
    var products := ProductsByGtin(catalog, Gtins(lines));
    ValidateAcceptsExactly(catalog, held, request);
    ResolutionSucceedsExactly(catalog, lines);
    assert forall i :: 0 <= i < |lines| ==> lines[i].gtin in products;
    var items := Alterations(lines, products);
    AlterationsAligned(lines, products);
    var stock := StockFor(held, request.warehouseId, ProductIds(items));
    var problems := StockProblems(lines, items, stock);
    assert Validate(catalog, held, request) == Failure(InsufficientStock(problems));
    idx := StockProblemsInOrder(lines, items, stock);
    forall i | 0 <= i < |lines|
      ensures LineProblem(lines[i], items[i], stock) == Shortfall(catalog, held, request.warehouseId, lines[i])
    {
      LineProblemIsShortfall(catalog, held, request, items, i);
    }
  }

  /** The order passes validation exactly when its gtins are distinct, all known, and the
      warehouse holds enough of each; the batch is then aligned line by line with the order. */
  lemma ValidateAcceptsExactly(catalog: map<string, Product>, held: map<StockKey, int>, request: OrderRequest)
    ensures Validate(catalog, held, request).Success? <==>
      DistinctGtins(request.orderLines)
      && (forall i :: 0 <= i < |request.orderLines| ==> request.orderLines[i].gtin in catalog)
      && InStock(catalog, held, request)
    ensures Validate(catalog, held, request).Success? ==>
      var items := Validate(catalog, held, request).value;
      |items| == |request.orderLines|
      && forall i :: 0 <= i < |items| ==>
        items[i] == StockAlteration(catalog[request.orderLines[i].gtin].id, request.orderLines[i].quantity)
  {
    var lines := request.orderLines;
    var products := ProductsByGtin(catalog, Gtins(lines));
    ResolutionSucceedsExactly(catalog, lines);
    if !DistinctGtins(lines) {
      assert Validate(catalog, held, request).Failure?;
    } else if !forall i :: 0 <= i < |lines| ==> lines[i].gtin in catalog {
      assert |UnknownGtins(lines, products)| > 0;
      assert Validate(catalog, held, request).Failure?;
    } else {
      var items := Alterations(lines, products);
      var stock := StockFor(held, request.warehouseId, ProductIds(items));
      assert forall i :: 0 <= i < |lines| ==> lines[i].gtin in products;
      AlterationsAligned(lines, products);
      StockSucceedsExactly(catalog, held, request, items);
      NoStockProblemsExactly(lines, items, stock);
      assert Validate(catalog, held, request).Success? <==> StockProblems(lines, items, stock) == [];
    }
  }

  /** Whether the catalog gives different gtins different product ids. */
  predicate UniqueProductIds(catalog: map<string, Product>)
  {
    forall g1, g2 :: g1 in catalog && g2 in catalog && g1 != g2 ==> catalog[g1].id != catalog[g2].id
  }

  /** The batch of an accepted order: one alteration per line, for that line's catalog
      product; with unique product ids, no product is named twice. */
  lemma AcceptedBatch(catalog: map<string, Product>, held: map<StockKey, int>, request: OrderRequest)
    returns (items: seq<StockAlteration>)
    requires Validate(catalog, held, request).Success?
    ensures items == Validate(catalog, held, request).value
    ensures forall i :: 0 <= i < |request.orderLines| ==> request.orderLines[i].gtin in catalog
    ensures InStock(catalog, held, request)
    ensures |items| == |request.orderLines|
    ensures forall i :: 0 <= i < |items| ==>
      items[i] == StockAlteration(catalog[request.orderLines[i].gtin].id, request.orderLines[i].quantity)
    ensures UniqueProductIds(catalog) ==> DistinctProducts(items)
  {
    var lines := request.orderLines;
    ValidateAcceptsExactly(catalog, held, request);
    items := Validate(catalog, held, request).value;
    if UniqueProductIds(catalog) {
      forall i, j | 0 <= i < j < |items| ensures items[i].productId != items[j].productId {
        assert lines[i].gtin != lines[j].gtin;
      }
    }
  }

  /** When the order is accepted and its batch removed, every ordered product's stock in the
      warehouse drops by its line's quantity. */
  lemma AcceptedOrderDeducts(catalog: map<string, Product>, held: map<StockKey, int>, request: OrderRequest, i: nat)
    requires UniqueProductIds(catalog)
    requires Validate(catalog, held, request).Success?
    requires i < |request.orderLines|
    ensures request.orderLines[i].gtin in catalog
    ensures var k := StockKey(request.warehouseId, catalog[request.orderLines[i].gtin].id);
      var after := Deducted(held, request.warehouseId, Validate(catalog, held, request).value);
      k in held && k in after && after[k] == held[k] - request.orderLines[i].quantity
  {
    var items := AcceptedBatch(catalog, held, request);
    var k := StockKey(request.warehouseId, catalog[request.orderLines[i].gtin].id);
    DeductedEffect(held, request.warehouseId, items, k);
    QuantityForDistinct(items, i);
  }

  /** When the order is accepted and its batch removed, the ledger keeps its entries, and an
      entry of another warehouse or of a product the order does not name is unchanged. */
  lemma AcceptedOrderLeavesOthers(catalog: map<string, Product>, held: map<StockKey, int>, request: OrderRequest,
                                  k: StockKey)
    requires Validate(catalog, held, request).Success?
    ensures var after := Deducted(held, request.warehouseId, Validate(catalog, held, request).value);
      && (k in after <==> k in held)
      && (k in held && (k.warehouseId != request.warehouseId
                        || forall i :: 0 <= i < |request.orderLines| && request.orderLines[i].gtin in catalog ==>
                             k.productId != catalog[request.orderLines[i].gtin].id)
          ==> after[k] == held[k])
  {
    var items := AcceptedBatch(catalog, held, request);
    DeductedEffect(held, request.warehouseId, items, k);
    if k.warehouseId == request.warehouseId
       && forall i :: 0 <= i < |request.orderLines| && request.orderLines[i].gtin in catalog ==>
            k.productId != catalog[request.orderLines[i].gtin].id
    {
      forall i | 0 <= i < |items| ensures items[i].productId != k.productId {
        assert request.orderLines[i].gtin in catalog;
      }
      QuantityForAbsent(items, k.productId);
    }
  }
}
