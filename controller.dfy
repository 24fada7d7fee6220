/** The outbound order controller: the order pipeline `Post` (three validation stages, the
    batch stock removal, truck allocation) and the first-fit allocator `GetTruckShipments`,
    over trucks whose manifests are filled in place. */
module Controller {
  import opened Orders
  import opened Validation
  import opened Ledger
  import opened Allocation

  /** One truck's manifest: gtin/quantity entries in insertion order and total weight. */
  class Truck {
    var gtinQuantities: seq<OrderLine>
    var totalWeightKg: real

    constructor ()
      ensures gtinQuantities == [] && totalWeightKg == 0.0
    {
      gtinQuantities := [];
      totalWeightKg := 0.0;
    }

    /** Adding an entry to the gtin dictionary; a gtin already present would throw. */
    method AddGtinQuantity(gtin: string, quantity: int)
      requires gtin !in Gtins(gtinQuantities)
      modifies this
      ensures gtinQuantities == old(gtinQuantities) + [OrderLine(gtin, quantity)]
      ensures totalWeightKg == old(totalWeightKg)
    {
      gtinQuantities := gtinQuantities + [OrderLine(gtin, quantity)];
    }
  }

  /** The trucks hold, one by one, the given manifests. */
  ghost predicate Mirrors(trucks: seq<Truck>, loads: seq<Load>)
    reads trucks
  {
    |trucks| == |loads|
    && forall k :: 0 <= k < |trucks| ==>
         trucks[k].gtinQuantities == loads[k].lines && trucks[k].totalWeightKg == loads[k].totalWeightKg
  }

  /** No truck appears twice. */
  predicate DistinctTrucks(trucks: seq<Truck>)
  {
    forall a, b :: 0 <= a < b < |trucks| ==> trucks[a] != trucks[b]
  }

  /** The reply to an accepted order: the trucks and how many there are. */
  datatype OrderResponse = OrderResponse(truckShipments: seq<Truck>, requiredNumberOfTrucks: int)

  /** The number of trucks an order needs. */
  function CalculateNumberOfTrucks(trucks: seq<Truck>): int
  {
    |trucks|
  }

  /** Stage 1: scan the gtins in order and stop at the first one seen before. */
  method FindDuplicate(lines: seq<OrderLine>) returns (gtins: seq<string>, duplicate: Option<string>)
    ensures FirstRepeat(lines).Some? ==> duplicate == Some(lines[FirstRepeat(lines).value].gtin)
    ensures FirstRepeat(lines).None? ==> duplicate == None && gtins == Gtins(lines)
  {
    gtins := [];
    for i := 0 to |lines|
      invariant DistinctGtins(lines[..i])
      invariant gtins == Gtins(lines[..i])
    {
      if lines[i].gtin in gtins {
        FirstRepeatIsEarliest(lines, i);
        return gtins, Some(lines[i].gtin);
      }
      assert lines[..i + 1] == lines[..i] + [lines[i]];
      DistinctGtinsExtend(lines[..i], lines[i]);
      gtins := gtins + [lines[i].gtin];
    }
    assert lines[..|lines|] == lines;
    duplicate := None;
  }

  /** Stage 2: look every line up, collecting the unknown gtins and, for the others, the
      stock alterations and product ids. */
  method ResolveProducts(lines: seq<OrderLine>, products: map<string, Product>)
    returns (lineItems: seq<StockAlteration>, productIds: seq<int>, unknown: seq<string>)
    ensures unknown == UnknownGtins(lines, products)
    ensures lineItems == Alterations(lines, products)
    ensures productIds == ProductIds(lineItems)
  {
    lineItems, productIds, unknown := [], [], [];
    for i := 0 to |lines|
      invariant unknown == UnknownGtins(lines[..i], products)
      invariant lineItems == Alterations(lines[..i], products)
      invariant productIds == ProductIds(lineItems)
    {
      var orderLine := lines[i];
      ResolutionStep(lines, i, products);
      if orderLine.gtin !in products {
        unknown := unknown + [orderLine.gtin];
      } else {
        var product := products[orderLine.gtin];
        ProductIdsAppend(lineItems, StockAlteration(product.id, orderLine.quantity));
        lineItems := lineItems + [StockAlteration(product.id, orderLine.quantity)];
        productIds := productIds + [product.id];
      }
    }
    assert lines[..|lines|] == lines;
  }

  /** Stage 3: check each alteration against the stock read, collecting every problem. */
  method CheckStock(lines: seq<OrderLine>, lineItems: seq<StockAlteration>, stock: map<int, int>)
    returns (problems: seq<StockProblem>)
    requires |lineItems| <= |lines|
    ensures problems == StockProblems(lines, lineItems, stock)
  {
    problems := [];
    for i := 0 to |lineItems|
      invariant problems == StockProblems(lines, lineItems[..i], stock)
    {
      var lineItem := lineItems[i];
      var orderLine := lines[i];
      assert lineItems[..i + 1][..i] == lineItems[..i];
      if lineItem.productId !in stock {
        problems := problems + [NoStockHeld(orderLine.gtin)];
        continue;
      }
      var held := stock[lineItem.productId];
      if lineItem.quantity > held {
        problems := problems + [NotEnoughStock(orderLine.gtin, held, lineItem.quantity)];
      }
    }
    assert lineItems[..|lineItems|] == lineItems;
  }

  class OutboundOrderController {
    /** What the product repository serves: gtin to product. */
    const catalog: map<string, Product>
    const stockRepository: StockLedger

    constructor (catalog: map<string, Product>, stockRepository: StockLedger)
      ensures this.catalog == catalog && this.stockRepository == stockRepository
    {
      this.catalog := catalog;
      this.stockRepository := stockRepository;
    }

    /** First-fit packing of the lines, in order, onto new trucks. */
    method GetTruckShipments(gtins: seq<string>, orderLines: seq<OrderLine>) returns (truckShipments: seq<Truck>)
      requires DistinctGtins(orderLines)
      ensures forall k :: 0 <= k < |truckShipments| ==> fresh(truckShipments[k])
      ensures DistinctTrucks(truckShipments)
      ensures Mirrors(truckShipments, Allocate(orderLines, ProductsByGtin(catalog, gtins)))
    {
      var products := ProductsByGtin(catalog, gtins);
      truckShipments := [];
      ghost var loads: seq<Load> := [];
      for i := 0 to |orderLines|
        invariant forall k :: 0 <= k < |truckShipments| ==> fresh(truckShipments[k])
        invariant DistinctTrucks(truckShipments)
        invariant loads == Allocate(orderLines[..i], products)
        invariant Mirrors(truckShipments, loads)
      {
        var orderLine := orderLines[i];
        var totalProductWeightKg: real := LineWeightKg(products, orderLine);
        ghost var after := NextLoads(orderLines, i, products, loads, totalProductWeightKg);
        NewGtinOnNoTruck(orderLines, i, products);
        truckShipments := LoadFirstFit(truckShipments, orderLine, totalProductWeightKg, loads);
        loads := after;
      }
      assert orderLines[..|orderLines|] == orderLines;
    }

    /** Process an outbound order: the three validation stages, then the stock removal as
        one batch, then the truck allocation. */
    method Post(request: OrderRequest) returns (response: Result<OrderResponse, OrderError>)
      modifies stockRepository
      ensures match Validate(catalog, old(stockRepository.held), request)
        case Failure(e) =>
          && response == Failure(e)
          && stockRepository.held == old(stockRepository.held)
          && stockRepository.removals == old(stockRepository.removals)
        case Success(items) =>
          && response.Success?
          && stockRepository.held == Deducted(old(stockRepository.held), request.warehouseId, items)
          && stockRepository.removals == old(stockRepository.removals) + [Removal(request.warehouseId, items)]
          && Mirrors(response.value.truckShipments,
                     Allocate(request.orderLines, ProductsByGtin(catalog, Gtins(request.orderLines))))
          && response.value.requiredNumberOfTrucks == |response.value.truckShipments|
          && response.value.requiredNumberOfTrucks <= |request.orderLines|
          && (|request.orderLines| > 0 ==> response.value.requiredNumberOfTrucks >= 1)
    {
      var lines := request.orderLines;
      var gtins, duplicate := FindDuplicate(lines);
      if duplicate.Some? {
        return Failure(DuplicateGtin(duplicate.value));
      }

      var products := ProductsByGtin(catalog, gtins);
      var lineItems, productIds, unknown := ResolveProducts(lines, products);
      if |unknown| > 0 {
        return Failure(UnknownProducts(unknown));
      }

      var stock := StockFor(stockRepository.held, request.warehouseId, productIds);
      var problems := CheckStock(lines, lineItems, stock);
      if |problems| > 0 {
        return Failure(InsufficientStock(problems));
      }

      stockRepository.RemoveStock(request.warehouseId, lineItems);
      var truckShipments := GetTruckShipments(gtins, lines);
      TruckCountBounds(lines, ProductsByGtin(catalog, gtins));
      var numberOfTrucks := CalculateNumberOfTrucks(truckShipments);
      return Success(OrderResponse(truckShipments, numberOfTrucks));
    }
  }

  /** The body of the allocator's loop for one line: the first truck whose total plus the
      line's weight is within the cap takes the line; if none does, a new truck is opened
      for it. `loads` are the manifests the trucks hold beforehand. */
  method LoadFirstFit(trucks: seq<Truck>, orderLine: OrderLine, totalProductWeightKg: real, ghost loads: seq<Load>)
    returns (truckShipments: seq<Truck>)
    requires DistinctTrucks(trucks) && Mirrors(trucks, loads)
    requires forall k :: 0 <= k < |loads| ==> orderLine.gtin !in Gtins(loads[k].lines)
    modifies set k | 0 <= k < |trucks| :: trucks[k]
    ensures |truckShipments| >= |trucks| && truckShipments[..|trucks|] == trucks
    ensures forall k :: |trucks| <= k < |truckShipments| ==> fresh(truckShipments[k])
    ensures DistinctTrucks(truckShipments)
    ensures Mirrors(truckShipments, Place(loads, orderLine, totalProductWeightKg))
  {
    var maxTruckWeightKg := MaxTruckWeightKg;
    truckShipments := trucks;
    var productAdded := false;
    var j := 0;
    while j < |truckShipments|
      invariant 0 <= j <= |truckShipments|
      invariant !productAdded
      invariant Mirrors(truckShipments, loads)
      invariant forall k :: 0 <= k < j ==> !Fits(loads[k], totalProductWeightKg)
    {
      var truck := truckShipments[j];
      if truck.totalWeightKg + totalProductWeightKg <= maxTruckWeightKg {
        PlaceOnto(loads, orderLine, totalProductWeightKg, j);
        truck.AddGtinQuantity(orderLine.gtin, orderLine.quantity);
        truck.totalWeightKg := truck.totalWeightKg + totalProductWeightKg;
        productAdded := true;
        assert Mirrors(truckShipments, Place(loads, orderLine, totalProductWeightKg)) by {
          forall k | 0 <= k < |truckShipments|
            ensures truckShipments[k].gtinQuantities == Place(loads, orderLine, totalProductWeightKg)[k].lines
            ensures truckShipments[k].totalWeightKg == Place(loads, orderLine, totalProductWeightKg)[k].totalWeightKg
          {
            if k != j {
              assert truckShipments[k] != truck;
            }
          }
        }
        break;
      }
      j := j + 1;
    }
    if !productAdded {
      PlaceOnNew(loads, orderLine, totalProductWeightKg);
      var nextTruckShipment := new Truck();
      truckShipments := truckShipments + [nextTruckShipment];
      nextTruckShipment.AddGtinQuantity(orderLine.gtin, orderLine.quantity);
      nextTruckShipment.totalWeightKg := nextTruckShipment.totalWeightKg + totalProductWeightKg;
      assert Mirrors(truckShipments, Place(loads, orderLine, totalProductWeightKg)) by {
        forall k | 0 <= k < |truckShipments|
          ensures truckShipments[k].gtinQuantities == Place(loads, orderLine, totalProductWeightKg)[k].lines
          ensures truckShipments[k].totalWeightKg == Place(loads, orderLine, totalProductWeightKg)[k].totalWeightKg
        {
          if k < |loads| {
            assert truckShipments[k] != nextTruckShipment;
          }
        }
      }
    }
  }

  /** The first truck that fits takes the line: the value counterpart of adding the entry
      and the weight to truck `j`. */
  lemma PlaceOnto(trucks: seq<Load>, line: OrderLine, w: real, j: nat)
    requires j < |trucks| && Fits(trucks[j], w)
    requires forall k :: 0 <= k < j ==> !Fits(trucks[k], w)
    ensures Place(trucks, line, w) == trucks[j := Load(trucks[j].lines + [line], trucks[j].totalWeightKg + w)]
  {
    PlaceIsFirstFit(trucks, line, w);
  }

  /** No truck fits: the value counterpart of opening a new truck for the line. */
  lemma PlaceOnNew(trucks: seq<Load>, line: OrderLine, w: real)
    requires forall k :: 0 <= k < |trucks| ==> !Fits(trucks[k], w)
    ensures Place(trucks, line, w) == trucks + [Load([line], w)]
  {
    PlaceIsFirstFit(trucks, line, w);
  }

  /** The manifests after line `i`, given those before it and the line's weight as the
      allocator computes it. */
  lemma NextLoads(lines: seq<OrderLine>, i: nat, products: map<string, Product>, loads: seq<Load>, w: real)
    returns (after: seq<Load>)
    requires i < |lines| && loads == Allocate(lines[..i], products)
    requires w == LineWeightKg(products, lines[i])
    ensures after == Place(loads, lines[i], w) == Allocate(lines[..i + 1], products)
  {
    assert lines[..i + 1][..i] == lines[..i];
    after := Place(loads, lines[i], w);
  }

  /** The gtin of line `i` is on none of the trucks packed from the lines before it. */
  lemma NewGtinOnNoTruck(lines: seq<OrderLine>, i: nat, products: map<string, Product>)
    requires DistinctGtins(lines) && i < |lines|
    ensures forall j :: 0 <= j < |Allocate(lines[..i], products)| ==>
              lines[i].gtin !in Gtins(Allocate(lines[..i], products)[j].lines)
  {
    DistinctGtinsPrefix(lines, i);
    GtinsPartitioned(lines[..i], products);
    forall j | 0 <= j < |Allocate(lines[..i], products)|
      ensures lines[i].gtin !in Gtins(Allocate(lines[..i], products)[j].lines)
    {
      var truck := Allocate(lines[..i], products)[j];
      forall a | 0 <= a < |truck.lines| ensures truck.lines[a].gtin != lines[i].gtin {
        var m :| 0 <= m < i && lines[..i][m] == truck.lines[a];
        assert lines[m] == truck.lines[a];
      }
      assert forall a :: 0 <= a < |truck.lines| ==> Gtins(truck.lines)[a] != lines[i].gtin;
    }
  }
}
