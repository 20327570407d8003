/**
 * CreateSaleHandler (application layer): validate the command, map it to a new sale, price
 * every line in place, sum the line totals, stamp the sale number and date, and add the
 * sale to the store.
 *
 * The clock is read twice, once inside `GenerateSaleNumber` and once for `SaleDate`; the
 * two readings, the fresh Guid the sale number is cut from and the key the store generates
 * are parameters. The mapper's conversion of the id texts to `Guid`s is the oracle
 * `parseGuid`.
 */
module CreateSaleHandler {
  import opened Results
  import opened Text
  import opened Guids
  import opened DateTimes
  import opened Entities
  import opened FluentRules
  import opened SaleCommands
  import opened Pricing
  import opened SaleStore
  import CreateSaleValidator

  datatype CreateError =
    | ValidationFailed(failures: Failures)   // ValidationException
    | MappingFailed                          // the mapper could not convert an id text
    | StoreFailed(storeError: StoreError)

  /** `GenerateSaleNumber`: "SALE-", the clock reading as yyyyMMdd, "-", and the first six
      characters of a fresh Guid's text, upper-cased. */
  function GenerateSaleNumber(now: DateTime, guid: Guid): (r: string)
    ensures |r| == 20
    ensures r[..5] == "SALE-" && r[13] == '-'
    ensures forall i :: 5 <= i < 13 ==> IsDecimalDigit(r[i])
    ensures forall i :: 14 <= i < 20 ==> IsUpperHexDigit(r[i])
  {
    var stamp := FormatYyyyMMdd(now);
    var prefix := ToText(guid)[..6];
    UpperOfLowerHex(prefix);
    var r := "SALE-" + stamp + "-" + ToUpper(prefix);
    assert forall i :: 5 <= i < 13 ==> r[i] == stamp[i - 5];
    assert forall i :: 14 <= i < 20 ==> r[i] == ToUpper(prefix)[i - 14];
    r
  }

  /** The date digits of a sale number decode back to the clock reading, and the suffix is
      the Guid's first six hexadecimal digits, upper-cased. */
  lemma SaleNumberRoundTrip(now: DateTime, guid: Guid)
    ensures var r := GenerateSaleNumber(now, guid);
      && Value(r[5..9], 10) == now.year && Value(r[9..11], 10) == now.month && Value(r[11..13], 10) == now.day
      && forall i :: 0 <= i < 6 ==> r[14 + i] == ToUpperChar(HexDigits(guid)[i])
  {
    var r := GenerateSaleNumber(now, guid);
    var s := FormatYyyyMMdd(now);
    assert r[5..13] == s;
    assert r[5..9] == s[..4] && r[9..11] == s[4..6] && r[11..13] == s[6..];
    FormatYyyyMMddRoundTrip(now);
    assert r[14..] == ToUpper(ToText(guid)[..6]);
  }

  /** When both clock readings fall on the same day, the sale number carries the day of
      `SaleDate`. */
  lemma SaleNumberCarriesSaleDay(numberTime: DateTime, saleTime: DateTime, guid: Guid)
    requires SameDay(numberTime, saleTime)
    ensures GenerateSaleNumber(numberTime, guid)[5..13] == FormatYyyyMMdd(saleTime)
  {
    SameDaySameDigits(numberTime, saleTime);
    var r := GenerateSaleNumber(numberTime, guid);
    assert r[5..13] == FormatYyyyMMdd(numberTime);
  }

  /** The mapper's copy of the requested lines: a new line per request, in order, with an
      empty id and sale id, the product id converted from its text, name, quantity and price
      copied, and nothing priced yet. It fails when a product id is not a Guid text. */
  function MapItems(items: seq<SaleItemCommand>, parseGuid: string -> Option<Guid>): (r: Option<seq<SaleItem>>)
    ensures r.Some? <==> forall i :: 0 <= i < |items| ==> parseGuid(items[i].productId).Some?
    ensures r.Some? ==> |r.value| == |items| && forall i :: 0 <= i < |items| ==>
      r.value[i] == SaleItem(Empty, Empty, parseGuid(items[i].productId).value,
                             items[i].productName, items[i].quantity, items[i].unitPrice, 0.0, 0.0)
    decreases |items|
  {
    if items == [] then Some([])
    else
      var rest := MapItems(items[1..], parseGuid);
      match parseGuid(items[0].productId)
      case None => None
      case Some(productId) =>
        if rest.None? then None
        else
          var first := SaleItem(Empty, Empty, productId, items[0].productName, items[0].quantity, items[0].unitPrice, 0.0, 0.0);
          assert forall i :: 1 <= i < |items| ==> items[i] == items[1..][i - 1];
          Some([first] + rest.value)
  }

  /** The mapper's copy of the command: a `new Sale()` with the customer and branch ids
      converted, the names copied and the lines mapped. */
  function MapToEntity(command: CreateSaleCommand, parseGuid: string -> Option<Guid>): (r: Option<SaleData>)
    ensures r.Some? <==>
      && parseGuid(command.customerId).Some? && parseGuid(command.branchId).Some?
      && MapItems(command.items, parseGuid).Some?
    ensures r.Some? ==> r.value == NewSaleData.(
      customerId := parseGuid(command.customerId).value, customerName := command.customerName,
      branchId := parseGuid(command.branchId).value, branchName := command.branchName,
      items := MapItems(command.items, parseGuid).value)
  {
    match (parseGuid(command.customerId), parseGuid(command.branchId), MapItems(command.items, parseGuid))
    case (Some(customerId), Some(branchId), Some(items)) =>
      Some(NewSaleData.(customerId := customerId, customerName := command.customerName,
                        branchId := branchId, branchName := command.branchName, items := items))
    case _ => None
  }

  /** The sale a successful `Handle` adds: the mapped sale under the store's key, its lines
      priced, its total their sum, its number and date stamped. `None` when the mapping or
      the pricing fails. */
  function CreatedSale(command: CreateSaleCommand, parseGuid: string -> Option<Guid>,
                       numberTime: DateTime, saleTime: DateTime, numberGuid: Guid, key: Guid): Option<SaleData>
  {
    match MapToEntity(command, parseGuid)
    case None => None
    case Some(sale) =>
      match PriceAll(sale.items)
      case Failure(_) => None
      case Success(items) =>
        Some(sale.(id := key, items := items, totalAmount := SumTotals(items),
                   saleNumber := GenerateSaleNumber(numberTime, numberGuid), saleDate := saleTime))
  }

  /** The created sale is the mapped one, keyed, priced, summed and stamped. */
  lemma StampedSale(command: CreateSaleCommand, parseGuid: string -> Option<Guid>,
                    numberTime: DateTime, saleTime: DateTime, numberGuid: Guid, key: Guid)
    returns (sale: SaleData)
    requires CreatedSale(command, parseGuid, numberTime, saleTime, numberGuid, key).Some?
    ensures CreatedSale(command, parseGuid, numberTime, saleTime, numberGuid, key) == Some(sale)
    ensures var mapped := MapToEntity(command, parseGuid).value;
      && PriceAll(mapped.items).Success?
      && sale == mapped.(id := key, items := PriceAll(mapped.items).value,
                         totalAmount := SumTotals(PriceAll(mapped.items).value),
                         saleNumber := GenerateSaleNumber(numberTime, numberGuid), saleDate := saleTime)
  {
    sale := CreatedSale(command, parseGuid, numberTime, saleTime, numberGuid, key).value;
  }

  /** A command that passes validation and maps never meets the quantity above 20: the
      sale is always priced. */
  lemma ValidCommandPrices(command: CreateSaleCommand, parseGuid: string -> Option<Guid>,
                           numberTime: DateTime, saleTime: DateTime, numberGuid: Guid, key: Guid)
    requires CreateSaleValidator.ValidateCommand(command) == []
    ensures CreatedSale(command, parseGuid, numberTime, saleTime, numberGuid, key).Some? <==>
      MapToEntity(command, parseGuid).Some?
  {
    if MapToEntity(command, parseGuid).Some? {
      var items := MapToEntity(command, parseGuid).value.items;
      CreateSaleValidator.AcceptedQuantitiesInRange(command);
      PriceAllSpec(items);
    }
  }

  /** The created sale: one priced line per requested line, in order, each with the
      converted product id and the requested name, quantity and price and an empty id and
      sale id; the total is the sum of the line totals; the customer and branch come from
      the command; the sale is not cancelled. */
  lemma CreatedSaleContents(command: CreateSaleCommand, parseGuid: string -> Option<Guid>,
                            numberTime: DateTime, saleTime: DateTime, numberGuid: Guid, key: Guid)
    requires CreatedSale(command, parseGuid, numberTime, saleTime, numberGuid, key).Some?
    ensures var sale := CreatedSale(command, parseGuid, numberTime, saleTime, numberGuid, key).value;
      && sale.id == key && !sale.isCancelled
      && sale.saleNumber == GenerateSaleNumber(numberTime, numberGuid) && sale.saleDate == saleTime
      && sale.customerId == parseGuid(command.customerId).value && sale.customerName == command.customerName
      && sale.branchId == parseGuid(command.branchId).value && sale.branchName == command.branchName
      && |sale.items| == |command.items|
      && (forall i :: 0 <= i < |sale.items| ==>
            && IsPriced(sale.items[i])
            && sale.items[i].id == Empty && sale.items[i].saleId == Empty
            && sale.items[i].productId == parseGuid(command.items[i].productId).value
            && sale.items[i].productName == command.items[i].productName
            && sale.items[i].quantity == command.items[i].quantity
            && sale.items[i].unitPrice == command.items[i].unitPrice)
      && sale.totalAmount == SumTotals(sale.items)
  {
    var mapped := MapToEntity(command, parseGuid).value;
    PriceAllPrices(mapped.items);
  }

  /** A validated sale has a positive total on every line and a non-negative sale total. */
  lemma ValidSaleTotals(command: CreateSaleCommand, parseGuid: string -> Option<Guid>,
                        numberTime: DateTime, saleTime: DateTime, numberGuid: Guid, key: Guid)
    requires CreateSaleValidator.ValidateCommand(command) == []
    requires CreatedSale(command, parseGuid, numberTime, saleTime, numberGuid, key).Some?
    ensures var sale := CreatedSale(command, parseGuid, numberTime, saleTime, numberGuid, key).value;
      && (forall i :: 0 <= i < |sale.items| ==> sale.items[i].totalAmount > 0.0)
      && sale.totalAmount >= 0.0
  {
    var sale := CreatedSale(command, parseGuid, numberTime, saleTime, numberGuid, key).value;
    CreatedSaleContents(command, parseGuid, numberTime, saleTime, numberGuid, key);
    CreateSaleValidator.AcceptedQuantitiesInRange(command);
    forall i | 0 <= i < |sale.items| ensures sale.items[i].totalAmount > 0.0 {
      LineTotalTiers(sale.items[i].quantity, sale.items[i].unitPrice);
    }
    PricedTotalNonNegative(sale.items);
  }

  /** The pricing loop of `Handle`: each line in turn gets its discount and then its total.
      The caller has made sure that no line is above the quantity limit. */
  method PriceLines(sale: Sale)
    requires PriceAll(sale.items).Success?
    modifies sale
    ensures sale.items == PriceAll(old(sale.items)).value
    ensures sale.Data().(items := []) == old(sale.Data()).(items := [])
  {
    ghost var lines := sale.items;
    PriceAllSpec(lines);
    var i := 0;
    while i < |sale.items|
      invariant 0 <= i <= |sale.items| == |lines|
      invariant sale.items[..i] == PriceAll(lines).value[..i]
      invariant sale.items[i..] == lines[i..]
      invariant sale.Data().(items := []) == old(sale.Data()).(items := [])
    {
      assert sale.items[i] == lines[i];
      var priced := PriceItem(sale.items[i]);
      sale.items := sale.items[i := priced.value];
      assert sale.items[..i + 1] == sale.items[..i] + [priced.value];
      i := i + 1;
    }
    assert sale.items == sale.items[..i];
  }

  /** The body of `Handle` between mapping and storing: the mapped sale as an object, its
      lines priced by the pricing loop, its total summed, its number and date stamped. */
  method BuildSale(mapped: SaleData, numberTime: DateTime, saleTime: DateTime, numberGuid: Guid)
    returns (sale: Sale)
    requires PriceAll(mapped.items).Success?
    ensures fresh(sale)
    ensures sale.Data() == mapped.(items := PriceAll(mapped.items).value,
                                   totalAmount := SumTotals(PriceAll(mapped.items).value),
                                   saleNumber := GenerateSaleNumber(numberTime, numberGuid), saleDate := saleTime)
  {
    sale := new Sale.FromData(mapped);
    PriceLines(sale);
    sale.totalAmount := SumTotals(sale.items);
    sale.saleNumber := GenerateSaleNumber(numberTime, numberGuid);
    sale.saleDate := saleTime;
  }

  /** `Handle`. An invalid command is rejected before anything else happens; a command the
      mapper cannot convert is rejected before the store is called; otherwise the priced,
      stamped sale is added under the store's key. */
  method Handle(command: CreateSaleCommand, repository: SaleRepository, parseGuid: string -> Option<Guid>,
                numberTime: DateTime, saleTime: DateTime, numberGuid: Guid, generatedKey: Guid)
    returns (r: Result<SaleData, CreateError>)
    requires repository.Valid()
    modifies repository
    ensures repository.Valid()
    ensures r.Failure? ==> repository.sales == old(repository.sales)
    ensures CreateSaleValidator.ValidateCommand(command) != [] ==>
      && r == Failure(ValidationFailed(CreateSaleValidator.ValidateCommand(command)))
      && repository.calls == old(repository.calls)
    ensures CreateSaleValidator.ValidateCommand(command) == [] && MapToEntity(command, parseGuid).None? ==>
      r == Failure(MappingFailed) && repository.calls == old(repository.calls)
    ensures (CreateSaleValidator.ValidateCommand(command) == [] && MapToEntity(command, parseGuid).Some?
             && generatedKey in old(repository.sales)) ==>
      && r == Failure(StoreFailed(DuplicateKey(generatedKey)))
      && CreatedSale(command, parseGuid, numberTime, saleTime, numberGuid, generatedKey).Some?
      && repository.calls == old(repository.calls)
           + [Create(CreatedSale(command, parseGuid, numberTime, saleTime, numberGuid, generatedKey).value.(id := Empty))]
    ensures r.Success? <==>
      && CreateSaleValidator.ValidateCommand(command) == []
      && MapToEntity(command, parseGuid).Some?
      && generatedKey !in old(repository.sales)
    ensures r.Success? ==>
      && Some(r.value) == CreatedSale(command, parseGuid, numberTime, saleTime, numberGuid, generatedKey)
      && repository.sales == old(repository.sales)[generatedKey := r.value]
      && repository.calls == old(repository.calls) + [Create(r.value.(id := Empty))]
  {
    var failures := CreateSaleValidator.ValidateCommand(command);
    if failures != [] {
      return Failure(ValidationFailed(failures));
    }
    var mapped := MapToEntity(command, parseGuid);
    if mapped.None? {
      return Failure(MappingFailed);
    }
    ValidCommandPrices(command, parseGuid, numberTime, saleTime, numberGuid, generatedKey);
    ghost var stamped := StampedSale(command, parseGuid, numberTime, saleTime, numberGuid, generatedKey);
    var sale := BuildSale(mapped.value, numberTime, saleTime, numberGuid);
    assert sale.Data() == stamped.(id := Empty);

    var created := repository.CreateAsync(sale, generatedKey);
    if created.Failure? {
      return Failure(StoreFailed(created.error));
    }
    r := Success(created.value);
  }
}
