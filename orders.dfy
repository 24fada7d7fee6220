/** Values exchanged by the outbound-order pipeline: order lines, products as the
    product repository returns them, stock alterations, and the error kinds the
    pipeline raises. */
module Orders {

  datatype Option<T> = None | Some(value: T)

  datatype Result<T, E> = Success(value: T) | Failure(error: E)

  /** One requested line: a product gtin and the quantity to ship. */
  datatype OrderLine = OrderLine(gtin: string, quantity: int)

  /** The outbound order request: the warehouse and the lines in request order. */
  datatype OrderRequest = OrderRequest(warehouseId: int, orderLines: seq<OrderLine>)

  /** A product record: its id and its weight per unit, in grams. */
  datatype Product = Product(id: int, weight: real)

  /** "Remove `quantity` units of product `productId`". */
  datatype StockAlteration = StockAlteration(productId: int, quantity: int)

  /** One entry of the stock-sufficiency error list. */
  datatype StockProblem =
    | NoStockHeld(gtin: string)
    | NotEnoughStock(gtin: string, held: int, toRemove: int)

  /** The three exceptions the validation stages throw, as values. */
  datatype OrderError =
    | DuplicateGtin(gtin: string)                     // ValidationException
    | UnknownProducts(gtins: seq<string>)             // NoSuchEntityException
    | InsufficientStock(problems: seq<StockProblem>)  // InsufficientStockException

  /** The gtins of the lines, in line order. */
  function Gtins(lines: seq<OrderLine>): seq<string>
  {
    seq(|lines|, i requires 0 <= i < |lines| => lines[i].gtin)
  }

  /** No two lines share a gtin. */
  predicate DistinctGtins(lines: seq<OrderLine>)
  {
    forall i, j :: 0 <= i < j < |lines| ==> lines[i].gtin != lines[j].gtin
  }

  /** A line whose gtin is new keeps the lines distinct. */
  lemma DistinctGtinsExtend(lines: seq<OrderLine>, line: OrderLine)
    requires DistinctGtins(lines) && line.gtin !in Gtins(lines)
    ensures DistinctGtins(lines + [line])
  {
    var all := lines + [line];
    forall i, j | 0 <= i < j < |all| ensures all[i].gtin != all[j].gtin {
      if j == |lines| {
        assert Gtins(lines)[i] == all[i].gtin;
      }
    }
  }

  /** A prefix of distinct lines is distinct. */
  lemma DistinctGtinsPrefix(lines: seq<OrderLine>, n: nat)
    requires DistinctGtins(lines) && n <= |lines|
    ensures DistinctGtins(lines[..n])
  {
    forall i, j | 0 <= i < j < n ensures lines[..n][i].gtin != lines[..n][j].gtin {
      assert lines[..n][i] == lines[i] && lines[..n][j] == lines[j];
    }
  }

  /** The product ids of a batch of alterations, in batch order. */
  function ProductIds(items: seq<StockAlteration>): seq<int>
  {
    seq(|items|, i requires 0 <= i < |items| => items[i].productId)
  }

  /** One more alteration adds its product id at the end. */
  lemma ProductIdsAppend(items: seq<StockAlteration>, item: StockAlteration)
    ensures ProductIds(items + [item]) == ProductIds(items) + [item.productId]
  {
    var all := items + [item];
    assert forall i :: 0 <= i < |items| ==> all[i] == items[i];
  }
}
