/**
 * The pricing oracle the handler tests compare against (SaleHandlerTestData): `MapToSale`
 * builds the lines of a sale from a create command, each priced with the same discount
 * rule as the handlers, and `CalculateTotalAmount` sums them with an accumulator.
 *
 * `Guid.NewGuid()` is the oracle `newGuid`, whose argument counts the calls made so far;
 * `Guid.Parse` is `parseGuid`; `DateTime.UtcNow` is the parameter `now`.
 */
module SaleHandlerTestData {
  import opened Results
  import opened Guids
  import opened DateTimes
  import opened Entities
  import opened SaleCommands
  import opened Pricing

  datatype TestDataError =
    | PriceFailed(pricingError: PricingError)   // ArgumentException from CalculateDiscount
    | InvalidGuidText(text: string)             // FormatException from Guid.Parse

  /** `CalculateTotalAmount`: add the line totals front to back. */
  method CalculateTotalAmount(items: seq<SaleItem>) returns (total: real)
    ensures total == SumTotals(items)
  {
    total := 0.0;
    var i := 0;
    while i < |items|
      invariant 0 <= i <= |items|
      invariant total == SumTotals(items[..i])
    {
      assert items[..i + 1][..i] == items[..i];
      total := total + items[i].totalAmount;
      i := i + 1;
    }
    assert items[..i] == items;
  }

  /** The lines the loop of `MapToSale` adds for `items`, the first at fresh id number
      `start`: for each request the discount first, then the fresh id, then the product id
      parsed from its text. The first request that throws ends the loop with its error. */
  function MapLines(items: seq<SaleItemCommand>, parseGuid: string -> Option<Guid>, newGuid: nat -> Guid, start: nat)
    : Result<seq<SaleItem>, TestDataError>
    decreases |items|
  {
    if items == [] then Success([])
    else
      var item := items[0];
      match CalculateDiscount(item.quantity, item.unitPrice)
      case Failure(e) => Failure(PriceFailed(e))
      case Success(discount) =>
        match parseGuid(item.productId)
        case None => Failure(InvalidGuidText(item.productId))
        case Some(productId) =>
          var line := SaleItem(newGuid(start), Empty, productId, item.productName, item.quantity, item.unitPrice,
                               discount, Gross(item.quantity, item.unitPrice) - discount);
          match MapLines(items[1..], parseGuid, newGuid, start + 1)
          case Failure(e) => Failure(e)
          case Success(rest) => Success([line] + rest)
  }

  /** A request `MapToSale` can turn into a line. */
  predicate Maps(item: SaleItemCommand, parseGuid: string -> Option<Guid>) {
    item.quantity <= QuantityLimit && parseGuid(item.productId).Some?
  }

  /** The error the first request that cannot be turned into a line raises. */
  function LineError(item: SaleItemCommand): TestDataError {
    if item.quantity > QuantityLimit then PriceFailed(QuantityAboveLimit) else InvalidGuidText(item.productId)
  }

  /** `line` is the one made for `item` under fresh id `id`: priced, with the parsed product
      id and the request's name, quantity and price, and no sale id yet. */
  predicate IsLineFor(line: SaleItem, item: SaleItemCommand, parseGuid: string -> Option<Guid>, id: Guid) {
    && IsPriced(line)
    && line.id == id && line.saleId == Empty
    && parseGuid(item.productId) == Some(line.productId)
    && line.productName == item.productName
    && line.quantity == item.quantity
    && line.unitPrice == item.unitPrice
  }

  /** The loop fails exactly when some request cannot be turned into a line. */
  lemma {:induction false} MapLinesSucceedsIff(items: seq<SaleItemCommand>, parseGuid: string -> Option<Guid>,
                                               newGuid: nat -> Guid, start: nat)
    ensures MapLines(items, parseGuid, newGuid, start).Success? <==> forall i :: 0 <= i < |items| ==> Maps(items[i], parseGuid)
    decreases |items|
  {
    if items != [] {
      MapLinesSucceedsIff(items[1..], parseGuid, newGuid, start + 1);
      assert forall i :: 1 <= i < |items| ==> items[1..][i - 1] == items[i];
    }
  }

  /** The lines come out one per request, in order, each under the next fresh id. */
  lemma {:induction false} MapLinesContents(items: seq<SaleItemCommand>, parseGuid: string -> Option<Guid>,
                                            newGuid: nat -> Guid, start: nat)
    requires MapLines(items, parseGuid, newGuid, start).Success?
    ensures var lines := MapLines(items, parseGuid, newGuid, start).value;
      |lines| == |items| && forall i :: 0 <= i < |items| ==> IsLineFor(lines[i], items[i], parseGuid, newGuid(start + i))
    decreases |items|
  {
    if items != [] {
      MapLinesContents(items[1..], parseGuid, newGuid, start + 1);
      var lines := MapLines(items, parseGuid, newGuid, start).value;
      var rest := MapLines(items[1..], parseGuid, newGuid, start + 1).value;
      forall i | 0 <= i < |items| ensures IsLineFor(lines[i], items[i], parseGuid, newGuid(start + i)) {
        if i > 0 {
          assert lines[i] == rest[i - 1] && items[i] == items[1..][i - 1];
        }
      }
    }
  }

  /** A failing loop fails with the error of the first request that cannot be turned into
      a line. */
  lemma {:induction false} MapLinesFirstError(items: seq<SaleItemCommand>, parseGuid: string -> Option<Guid>,
                                              newGuid: nat -> Guid, start: nat, j: nat)
    requires j < |items| && !Maps(items[j], parseGuid) && forall i :: 0 <= i < j ==> Maps(items[i], parseGuid)
    ensures MapLines(items, parseGuid, newGuid, start) == Failure(LineError(items[j]))
    decreases |items|
  {
    if j > 0 {
      assert forall i :: 0 <= i < j - 1 ==> items[1..][i] == items[i + 1];
      MapLinesFirstError(items[1..], parseGuid, newGuid, start + 1, j - 1);
    }
  }

  /** What `MapToSale` returns: a sale under the fresh id taken after all the lines, with
      the parsed customer and branch, the clock reading as its date, the lines and their
      sum. */
  function MapToSaleSpec(command: CreateSaleCommand, parseGuid: string -> Option<Guid>, newGuid: nat -> Guid, now: DateTime)
    : Result<SaleData, TestDataError>
  {
    match MapLines(command.items, parseGuid, newGuid, 0)
    case Failure(e) => Failure(e)
    case Success(lines) =>
      match (parseGuid(command.customerId), parseGuid(command.branchId))
      case (None, _) => Failure(InvalidGuidText(command.customerId))
      case (Some(_), None) => Failure(InvalidGuidText(command.branchId))
      case (Some(customerId), Some(branchId)) =>
        Success(NewSaleData.(id := newGuid(|command.items|), customerId := customerId, customerName := command.customerName,
                             branchId := branchId, branchName := command.branchName, saleDate := now,
                             items := lines, totalAmount := SumTotals(lines)))
  }

  /** `MapToSale`: build the list of priced lines, then the sale around it. */
  method MapToSale(command: CreateSaleCommand, parseGuid: string -> Option<Guid>, newGuid: nat -> Guid, now: DateTime)
    returns (r: Result<SaleData, TestDataError>)
    ensures r == MapToSaleSpec(command, parseGuid, newGuid, now)
  {
    var items := command.items;
    var lines: seq<SaleItem> := [];
    var j := 0;
    assert items[0..] == items;
    assert forall rest: seq<SaleItem> :: lines + rest == rest;
    while j < |items|
      invariant 0 <= j <= |items| && |lines| == j
      invariant MapLines(items, parseGuid, newGuid, 0) ==
        match MapLines(items[j..], parseGuid, newGuid, j)
        case Failure(e) => Failure(e)
        case Success(rest) => Success(lines + rest)
    {
      assert items[j..][0] == items[j] && items[j..][1..] == items[j + 1..];
      var item := items[j];
      var discount := CalculateDiscount(item.quantity, item.unitPrice);
      if discount.Failure? {
        return Failure(PriceFailed(discount.error));
      }
      var id := newGuid(j);
      var productId := parseGuid(item.productId);
      if productId.None? {
        return Failure(InvalidGuidText(item.productId));
      }
      var line := SaleItem(id, Empty, productId.value, item.productName, item.quantity, item.unitPrice,
                           discount.value, Gross(item.quantity, item.unitPrice) - discount.value);
      assert lines + [line] + [] == lines + [line];
      assert forall rest: seq<SaleItem> :: lines + ([line] + rest) == (lines + [line]) + rest;
      lines := lines + [line];
      j := j + 1;
    }
    assert items[j..] == [] && lines + [] == lines;

    var saleId := newGuid(|items|);
    var customerId := parseGuid(command.customerId);
    if customerId.None? {
      return Failure(InvalidGuidText(command.customerId));
    }
    var branchId := parseGuid(command.branchId);
    if branchId.None? {
      return Failure(InvalidGuidText(command.branchId));
    }
    var total := CalculateTotalAmount(lines);
    r := Success(NewSaleData.(id := saleId, customerId := customerId.value, customerName := command.customerName,
                              branchId := branchId.value, branchName := command.branchName, saleDate := now,
                              items := lines, totalAmount := total));
  }

  /** A successful `MapToSale` has one priced line per request, in order, and a total that
      is the sum of the line totals. */
  lemma MapToSaleContents(command: CreateSaleCommand, parseGuid: string -> Option<Guid>, newGuid: nat -> Guid, now: DateTime)
    requires MapToSaleSpec(command, parseGuid, newGuid, now).Success?
    ensures var sale := MapToSaleSpec(command, parseGuid, newGuid, now).value;
      && sale.id == newGuid(|command.items|) && sale.saleDate == now
      && |sale.items| == |command.items|
      && (forall i :: 0 <= i < |sale.items| ==>
            && IsPriced(sale.items[i])
            && sale.items[i].productName == command.items[i].productName
            && sale.items[i].quantity == command.items[i].quantity
            && sale.items[i].unitPrice == command.items[i].unitPrice)
      && sale.totalAmount == SumTotals(sale.items)
  {
    MapLinesContents(command.items, parseGuid, newGuid, 0);
    var sale := MapToSaleSpec(command, parseGuid, newGuid, now).value;
    forall i | 0 <= i < |sale.items| ensures IsPriced(sale.items[i]) && sale.items[i].productName == command.items[i].productName
      && sale.items[i].quantity == command.items[i].quantity && sale.items[i].unitPrice == command.items[i].unitPrice {
      assert IsLineFor(sale.items[i], command.items[i], parseGuid, newGuid(i));
    }
  }

  /** The generated requests have quantities 1..20, so the oracle's discount never throws
      on them: `MapToSale` fails only on an id text that is not a Guid. */
  lemma GeneratedQuantitiesNeverThrow(command: CreateSaleCommand, parseGuid: string -> Option<Guid>,
                                      newGuid: nat -> Guid, now: DateTime)
    requires forall i :: 0 <= i < |command.items| ==> 1 <= command.items[i].quantity <= 20
    ensures !MapToSaleSpec(command, parseGuid, newGuid, now).Failure?
        || MapToSaleSpec(command, parseGuid, newGuid, now).error.InvalidGuidText?
  {
    var r := MapLines(command.items, parseGuid, newGuid, 0);
    if r.Failure? {
      MapLinesSucceedsIff(command.items, parseGuid, newGuid, 0);
      var j := FirstUnmapped(command.items, parseGuid);
      MapLinesFirstError(command.items, parseGuid, newGuid, 0, j);
    }
  }

  /** The position of the first request that cannot be turned into a line. */
  lemma {:induction false} FirstUnmapped(items: seq<SaleItemCommand>, parseGuid: string -> Option<Guid>) returns (j: nat)
    requires exists i :: 0 <= i < |items| && !Maps(items[i], parseGuid)
    ensures j < |items| && !Maps(items[j], parseGuid) && forall i :: 0 <= i < j ==> Maps(items[i], parseGuid)
    decreases |items|
  {
    if !Maps(items[0], parseGuid) {
      j := 0;
    } else {
      var k :| 0 <= k < |items| && !Maps(items[k], parseGuid);
      assert !Maps(items[1..][k - 1], parseGuid);
      var t := FirstUnmapped(items[1..], parseGuid);
      assert forall i :: 1 <= i < t + 1 ==> items[i] == items[1..][i - 1];
      j := t + 1;
    }
  }
}
