/**
 * UpdateSaleHandler: validate the command, load the sale, overwrite its customer and
 * branch, reconcile its lines with the requested ones, reprice every line and store it.
 *
 * Reconciliation keys the requested lines by product (`ToDictionary`, which fails on a
 * repeated product), then walks the current lines in order (`RemoveAll` with a predicate
 * that has effects): a line whose product is still pending is overwritten from its request
 * and its product is consumed; any other line is dropped. The requests left pending become
 * new lines (`AddRange`).
 */
module UpdateSaleHandler {
  import opened Results
  import Text
  import opened Numbers
  import opened Guids
  import opened Entities
  import opened FluentRules
  import opened SaleCommands
  import opened Pricing
  import opened SaleStore
  import UpdateSaleCommandValidator

  /** The exceptions `Handle` can end with. */
  datatype UpdateError =
    | ValidationFailed(failures: Failures)      // ValidationException
    | SaleNotFound(id: Guid)                    // KeyNotFoundException
    | InvalidGuidText(text: string)             // FormatException from Guid.Parse
    | DuplicateProductId(productId: Guid)       // ArgumentException from ToDictionary
    | PriceFailed(pricingError: PricingError)   // ArgumentException from CalculateDiscount

  /** The requested lines keyed by product. */
  type Requests = map<Guid, UpdateSaleItemCommand>

  /** The set of products a list of requested lines names. */
  function RequestedProducts(items: seq<UpdateSaleItemCommand>): set<Guid> {
    set i | 0 <= i < |items| :: items[i].productId
  }

  /** The set of products a list of sale lines holds. */
  function LineProducts(items: seq<SaleItem>): set<Guid> {
    set i | 0 <= i < |items| :: items[i].productId
  }

  predicate DistinctProducts(items: seq<UpdateSaleItemCommand>) {
    forall i, j :: 0 <= i < j < |items| ==> items[i].productId != items[j].productId
  }

  /** `Items.ToDictionary(i => i.ProductId)`: adds the lines in order and fails with the
      product of the first line whose product was already added. */
  function ToDictionary(items: seq<UpdateSaleItemCommand>): Result<Requests, Guid>
    decreases |items|
  {
    if items == [] then Success(map[])
    else
      match ToDictionary(items[..|items| - 1])
      case Failure(k) => Failure(k)
      case Success(m) =>
        var last := items[|items| - 1];
        if last.productId in m then Failure(last.productId) else Success(m[last.productId := last])
  }

  lemma RequestedProductsSnoc(items: seq<UpdateSaleItemCommand>)
    requires items != []
    ensures RequestedProducts(items) == RequestedProducts(items[..|items| - 1]) + {items[|items| - 1].productId}
  {
    var prefix := items[..|items| - 1];
    assert forall i :: 0 <= i < |prefix| ==> prefix[i] == items[i];
    assert forall i :: 0 <= i < |items| - 1 ==> items[i].productId in RequestedProducts(prefix);
  }

  /** A built dictionary holds every line under its product, and nothing else. */
  lemma {:induction false} ToDictionaryContents(items: seq<UpdateSaleItemCommand>)
    requires ToDictionary(items).Success?
    ensures ToDictionary(items).value.Keys == RequestedProducts(items)
    ensures forall i :: 0 <= i < |items| ==> ToDictionary(items).value[items[i].productId] == items[i]
    decreases |items|
  {
    if items != [] {
      var n := |items| - 1;
      var prefix := items[..n];
      ToDictionaryContents(prefix);
      RequestedProductsSnoc(items);
      var m := ToDictionary(prefix).value;
      assert ToDictionary(items).value == m[items[n].productId := items[n]];
      forall i | 0 <= i < n ensures ToDictionary(items).value[items[i].productId] == items[i] {
        assert prefix[i] == items[i];
        assert items[i].productId in m;
      }
    }
  }

  /** The product a failed build names occurs on two lines. */
  lemma {:induction false} ToDictionaryFailure(items: seq<UpdateSaleItemCommand>)
    requires ToDictionary(items).Failure?
    ensures exists i, j :: 0 <= i < j < |items| && items[i].productId == ToDictionary(items).error && items[j].productId == ToDictionary(items).error
    decreases |items|
  {
    var n := |items| - 1;
    var prefix := items[..n];
    match ToDictionary(prefix)
    case Failure(k) =>
      ToDictionaryFailure(prefix);
      var i, j :| 0 <= i < j < |prefix| && prefix[i].productId == k && prefix[j].productId == k;
      assert items[i] == prefix[i] && items[j] == prefix[j];
    case Success(m) =>
      ToDictionaryContents(prefix);
      RequestedProductsSnoc(items);
      var i :| 0 <= i < n && prefix[i].productId == items[n].productId;
      assert items[i] == prefix[i];
  }

  /** The dictionary is built exactly when no product repeats. */
  lemma {:induction false} ToDictionarySucceedsIff(items: seq<UpdateSaleItemCommand>)
    ensures ToDictionary(items).Success? <==> DistinctProducts(items)
    decreases |items|
  {
    if ToDictionary(items).Failure? {
      ToDictionaryFailure(items);
    } else if items != [] {
      var n := |items| - 1;
      var prefix := items[..n];
      ToDictionarySucceedsIff(prefix);
      ToDictionaryContents(prefix);
      assert forall i :: 0 <= i < n ==> prefix[i] == items[i];
      assert items[n].productId !in RequestedProducts(prefix);
      forall i, j | 0 <= i < j < |items| ensures items[i].productId != items[j].productId {
        if j == n {
          assert items[i].productId in RequestedProducts(prefix);
        }
      }
    }
  }

  /** Each request is stored under its own product. */
  predicate KeyedByProduct(m: Requests) {
    forall k :: k in m ==> m[k].productId == k
  }

  lemma ToDictionaryKeyed(items: seq<UpdateSaleItemCommand>)
    requires ToDictionary(items).Success?
    ensures KeyedByProduct(ToDictionary(items).value)
  {
    ToDictionaryContents(items);
    var m := ToDictionary(items).value;
    forall k | k in m ensures m[k].productId == k {
      var i :| 0 <= i < |items| && items[i].productId == k;
    }
  }

  /** `UpdateItem`: the request's name, quantity and price overwrite the line's; every
      other field, the computed amounts included, is kept. */
  function UpdateItem(item: SaleItem, req: UpdateSaleItemCommand): (r: SaleItem)
    ensures r.id == item.id && r.saleId == item.saleId && r.productId == item.productId
    ensures r.discount == item.discount && r.totalAmount == item.totalAmount
    ensures r.productName == req.productName && r.quantity == req.quantity && r.unitPrice == req.unitPrice
  {
    item.(productName := req.productName, quantity := req.quantity, unitPrice := req.unitPrice)
  }

  /** `CreateItem`: a new line for the sale, priced from the request, under a fresh id. */
  function CreateItem(saleId: Guid, newId: Guid, req: UpdateSaleItemCommand): (r: Result<SaleItem, PricingError>)
    ensures r.Failure? <==> req.quantity > QuantityLimit
    ensures r.Success? ==>
      && r.value.id == newId && r.value.saleId == saleId && r.value.productId == req.productId
      && r.value.productName == req.productName && r.value.quantity == req.quantity && r.value.unitPrice == req.unitPrice
      && IsPriced(r.value)
  {
    match CalculateDiscount(req.quantity, req.unitPrice)
    case Failure(e) => Failure(e)
    case Success(d) =>
      Success(SaleItem(newId, saleId, req.productId, req.productName, req.quantity, req.unitPrice, d, Gross(req.quantity, req.unitPrice) - d))
  }

  /** The lines the `RemoveAll` pass keeps, overwritten, in their current order. */
  function KeptItems(cur: seq<SaleItem>, pending: Requests): seq<SaleItem>
    decreases |cur|
  {
    if cur == [] then []
    else if cur[0].productId in pending then
      [UpdateItem(cur[0], pending[cur[0].productId])] + KeptItems(cur[1..], pending - {cur[0].productId})
    else KeptItems(cur[1..], pending)
  }

  /** The requests still pending after the `RemoveAll` pass. */
  function Leftover(cur: seq<SaleItem>, pending: Requests): Requests
    decreases |cur|
  {
    if cur == [] then pending
    else if cur[0].productId in pending then Leftover(cur[1..], pending - {cur[0].productId})
    else Leftover(cur[1..], pending)
  }

  lemma MultisetOfDisjointUnion(a: set<Guid>, b: set<Guid>)
    requires a !! b
    ensures multiset(a + b) == multiset(a) + multiset(b)
  {
    forall x ensures multiset(a + b)[x] == (multiset(a) + multiset(b))[x] {
    }
  }

  lemma LineProductsCons(cur: seq<SaleItem>)
    requires cur != []
    ensures LineProducts(cur) == {cur[0].productId} + LineProducts(cur[1..])
  {
    assert forall i :: 1 <= i < |cur| ==> cur[i] == cur[1..][i - 1];
    assert forall i :: 0 <= i < |cur| - 1 ==> cur[1..][i] == cur[i + 1];
  }

  /** After the pass, the pending requests are exactly those whose product no current line
      holds, each unchanged. */
  lemma {:induction false} LeftoverSpec(cur: seq<SaleItem>, pending: Requests)
    ensures forall k :: k in Leftover(cur, pending) <==> k in pending && k !in LineProducts(cur)
    ensures forall k :: k in Leftover(cur, pending) ==> Leftover(cur, pending)[k] == pending[k]
    decreases |cur|
  {
    if cur != [] {
      LineProductsCons(cur);
      if cur[0].productId in pending {
        LeftoverSpec(cur[1..], pending - {cur[0].productId});
      } else {
        LeftoverSpec(cur[1..], pending);
      }
    }
  }

  lemma TakenKeys(keys: set<Guid>, c: Guid, later: set<Guid>)
    requires c in keys
    ensures keys * ({c} + later) == {c} + (keys - {c}) * later
    ensures {c} !! (keys - {c}) * later
  {
  }

  lemma UntakenKeys(keys: set<Guid>, c: Guid, later: set<Guid>)
    requires c !in keys
    ensures keys * ({c} + later) == keys * later
  {
  }

  /** The kept lines hold each requested product that some current line holds, once. */
  lemma {:induction false} KeptProducts(cur: seq<SaleItem>, pending: Requests)
    ensures multiset(Pids(KeptItems(cur, pending))) == multiset(pending.Keys * LineProducts(cur))
    decreases |cur|
  {
    if cur != [] {
      var c := cur[0];
      var rest := cur[1..];
      LineProductsCons(cur);
      if c.productId in pending {
        var after := pending - {c.productId};
        assert after.Keys == pending.Keys - {c.productId};
        KeptProducts(rest, after);
        var first := UpdateItem(c, pending[c.productId]);
        PidsAppend([first], KeptItems(rest, after));
        assert Pids([first]) == [c.productId];
        TakenKeys(pending.Keys, c.productId, LineProducts(rest));
        MultisetOfDisjointUnion({c.productId}, after.Keys * LineProducts(rest));
      } else {
        KeptProducts(rest, pending);
        UntakenKeys(pending.Keys, c.productId, LineProducts(rest));
      }
    }
  }

  /** `i` is the first position of its product in `cur`. */
  predicate IsFirstOf(cur: seq<SaleItem>, i: int)
    requires 0 <= i < |cur|
  {
    forall t :: 0 <= t < i ==> cur[t].productId != cur[i].productId
  }

  /** `item` is the first current line of a requested product, overwritten from that
      product's request. */
  predicate IsOverwrittenFirstLine(cur: seq<SaleItem>, pending: Requests, item: SaleItem) {
    exists i :: 0 <= i < |cur| && IsFirstOf(cur, i) && cur[i].productId in pending
      && item == UpdateItem(cur[i], pending[cur[i].productId])
  }

  /** A first line of the tail, for the requests left after the head, is a first line of
      the whole list. */
  lemma LiftFirstLine(cur: seq<SaleItem>, pending: Requests, after: Requests, x: SaleItem)
    requires cur != []
    requires after == if cur[0].productId in pending then pending - {cur[0].productId} else pending
    requires IsOverwrittenFirstLine(cur[1..], after, x)
    ensures IsOverwrittenFirstLine(cur, pending, x)
  {
    var rest := cur[1..];
    var i :| 0 <= i < |rest| && IsFirstOf(rest, i) && rest[i].productId in after
      && x == UpdateItem(rest[i], after[rest[i].productId]);
    var p := rest[i].productId;
    assert cur[i + 1] == rest[i];
    assert p in pending && after[p] == pending[p] && p != cur[0].productId;
    assert IsFirstOf(cur, i + 1) by {
      forall t | 0 <= t < i + 1 ensures cur[t].productId != p {
        if t > 0 {
          assert cur[t] == rest[t - 1];
        }
      }
    }
  }

  /** Every kept line is the first current line of a requested product, overwritten from
      that product's request. */
  lemma {:induction false} KeptItemsAreFirstLines(cur: seq<SaleItem>, pending: Requests)
    ensures forall j :: 0 <= j < |KeptItems(cur, pending)| ==> IsOverwrittenFirstLine(cur, pending, KeptItems(cur, pending)[j])
    decreases |cur|
  {
    if cur != [] {
      var c := cur[0];
      var after := if c.productId in pending then pending - {c.productId} else pending;
      KeptItemsAreFirstLines(cur[1..], after);
      var kept := KeptItems(cur[1..], after);
      var head := if c.productId in pending then [UpdateItem(c, pending[c.productId])] else [];
      assert KeptItems(cur, pending) == head + kept;
      forall j | 0 <= j < |KeptItems(cur, pending)|
        ensures IsOverwrittenFirstLine(cur, pending, KeptItems(cur, pending)[j])
      {
        if j < |head| {
          assert IsFirstOf(cur, 0);
        } else {
          assert KeptItems(cur, pending)[j] == kept[j - |head|];
          LiftFirstLine(cur, pending, after, kept[j - |head|]);
        }
      }
    }
  }

  predicate DistinctLines(cur: seq<SaleItem>) {
    forall i, j :: 0 <= i < j < |cur| ==> cur[i].productId != cur[j].productId
  }

  /** A request naming exactly the current products, each line once, keeps every line in
      place, overwritten from its request, and leaves nothing to create. */
  lemma {:induction false} SameProductsKeepEveryLine(cur: seq<SaleItem>, pending: Requests)
    requires DistinctLines(cur) && pending.Keys == LineProducts(cur)
    ensures Leftover(cur, pending) == map[]
    ensures |KeptItems(cur, pending)| == |cur|
    ensures forall i :: 0 <= i < |cur| ==> KeptItems(cur, pending)[i] == UpdateItem(cur[i], pending[cur[i].productId])
    decreases |cur|
  {
    if cur != [] {
      var c := cur[0];
      var rest := cur[1..];
      assert forall i :: 0 <= i < |rest| ==> rest[i] == cur[i + 1];
      assert c.productId in LineProducts(cur);
      var after := pending - {c.productId};
      assert after.Keys == LineProducts(rest) by {
        assert forall i :: 1 <= i < |cur| ==> cur[i] == rest[i - 1];
        assert LineProducts(cur) == {c.productId} + LineProducts(rest);
        assert c.productId !in LineProducts(rest);
      }
      SameProductsKeepEveryLine(rest, after);
      forall i | 1 <= i < |cur| ensures after[cur[i].productId] == pending[cur[i].productId] {
        assert cur[i].productId != c.productId;
      }
    } else {
      assert pending.Keys == {};
    }
  }

  lemma MultisetRemoveKey(pending: Requests, k: Guid)
    requires k in pending
    ensures multiset((pending - {k}).Keys) + multiset{k} == multiset(pending.Keys)
  {
    assert pending.Keys == (pending - {k}).Keys + {k};
    MultisetOfDisjointUnion((pending - {k}).Keys, {k});
  }

  /** Line `t` of `news` was created for its pending request under the `t`-th fresh id. */
  predicate CreatedInOrder(news: seq<SaleItem>, left: Requests, saleId: Guid, newGuid: nat -> Guid) {
    forall t :: 0 <= t < |news| ==>
      news[t].productId in left && CreateItem(saleId, newGuid(t), left[news[t].productId]) == Success(news[t])
  }

  lemma CreatedInOrderSnoc(news: seq<SaleItem>, left: Requests, saleId: Guid, newGuid: nat -> Guid, x: SaleItem)
    requires CreatedInOrder(news, left, saleId, newGuid)
    requires x.productId in left && CreateItem(saleId, newGuid(|news|), left[x.productId]) == Success(x)
    ensures CreatedInOrder(news + [x], left, saleId, newGuid)
  {
  }

  /** `news` are the lines `AddRange` appends for the pending requests `left`: one per
      pending product, the `j`-th created under the `j`-th fresh id and priced from its
      request. */
  predicate AreNewItems(news: seq<SaleItem>, left: Requests, saleId: Guid, newGuid: nat -> Guid) {
    multiset(Pids(news)) == multiset(left.Keys) && CreatedInOrder(news, left, saleId, newGuid)
  }

  /** The appended lines carry the sale's id and fresh ids, one per pending product, with
      name, quantity and price from the request, and are priced. */
  lemma NewItemsFields(news: seq<SaleItem>, left: Requests, saleId: Guid, newGuid: nat -> Guid)
    requires AreNewItems(news, left, saleId, newGuid)
    ensures |news| == |left|
    ensures forall k :: k in left <==> k in Pids(news)
    ensures forall j :: 0 <= j < |news| ==>
      && news[j].id == newGuid(j) && news[j].saleId == saleId
      && news[j].productName == left[news[j].productId].productName
      && news[j].quantity == left[news[j].productId].quantity
      && news[j].unitPrice == left[news[j].productId].unitPrice
      && IsPriced(news[j])
  {
    assert |multiset(Pids(news))| == |Pids(news)|;
    assert |multiset(left.Keys)| == |left.Keys|;
    forall k ensures k in left <==> k in Pids(news) {
      assert k in left <==> k in multiset(left.Keys);
      assert k in Pids(news) <==> k in multiset(Pids(news));
    }
  }

  /** `UpdateSaleMetadata`: parse and assign the customer, then the branch. A text that is
      not a Guid stops the method with the fields assigned before it kept. */
  method UpdateSaleMetadata(sale: Sale, command: UpdateSaleCommand, parseGuid: string -> Option<Guid>)
    returns (outcome: Outcome<UpdateError>)
    modifies sale
    ensures parseGuid(command.customerId).None? ==>
      outcome == Fail(InvalidGuidText(command.customerId)) && sale.Data() == old(sale.Data())
    ensures parseGuid(command.customerId).Some? && parseGuid(command.branchId).None? ==>
      && outcome == Fail(InvalidGuidText(command.branchId))
      && sale.Data() == old(sale.Data()).(customerId := parseGuid(command.customerId).value, customerName := command.customerName)
    ensures parseGuid(command.customerId).Some? && parseGuid(command.branchId).Some? ==>
      && outcome == Pass
      && sale.Data() == old(sale.Data()).(
           customerId := parseGuid(command.customerId).value, customerName := command.customerName,
           branchId := parseGuid(command.branchId).value, branchName := command.branchName)
  {
    var customer := parseGuid(command.customerId);
    if customer.None? {
      return Fail(InvalidGuidText(command.customerId));
    }
    sale.customerId := customer.value;
    sale.customerName := command.customerName;
    var branch := parseGuid(command.branchId);
    if branch.None? {
      return Fail(InvalidGuidText(command.branchId));
    }
    sale.branchId := branch.value;
    sale.branchName := command.branchName;
    outcome := Pass;
  }

  /** The `RemoveAll` pass: walk the current lines in order, keeping and overwriting each
      line whose product is still pending and consuming that product. */
  method RemoveAllPass(cur: seq<SaleItem>, m: Requests) returns (kept: seq<SaleItem>, pending: Requests)
    ensures kept == KeptItems(cur, m) && pending == Leftover(cur, m)
  {
    pending := m;
    kept := [];
    var i := 0;
    while i < |cur|
      invariant 0 <= i <= |cur|
      invariant kept + KeptItems(cur[i..], pending) == KeptItems(cur, m)
      invariant Leftover(cur[i..], pending) == Leftover(cur, m)
    {
      var item := cur[i];
      assert cur[i..][0] == item && cur[i..][1..] == cur[i + 1..];
      if item.productId in pending {
        kept := kept + [UpdateItem(item, pending[item.productId])];
        pending := pending - {item.productId};
      }
      i := i + 1;
    }
    assert cur[i..] == [];
  }

  /** One step of the `AddRange` pass keeps the products accounted for: each pending
      product is either already added or still pending. */
  lemma AddStepAccounts(news: seq<SaleItem>, pending: Requests, left: Requests, x: SaleItem)
    requires multiset(Pids(news)) + multiset(pending.Keys) == multiset(left.Keys)
    requires x.productId in pending
    ensures multiset(Pids(news + [x])) + multiset((pending - {x.productId}).Keys) == multiset(left.Keys)
  {
    PidsAppend(news, [x]);
    assert Pids([x]) == [x.productId];
    MultisetRemoveKey(pending, x.productId);
  }

  /** The requests behind a complete set of new lines all have quantities within the limit. */
  lemma NewItemsWithinLimit(news: seq<SaleItem>, left: Requests, saleId: Guid, newGuid: nat -> Guid)
    requires AreNewItems(news, left, saleId, newGuid)
    ensures forall k :: k in left ==> left[k].quantity <= QuantityLimit
  {
    NewItemsFields(news, left, saleId, newGuid);
    forall k | k in left ensures left[k].quantity <= QuantityLimit {
      var t :| 0 <= t < |news| && Pids(news)[t] == k;
      assert CreateItem(saleId, newGuid(t), left[k]) == Success(news[t]);
    }
  }

  /** The `AddRange` pass: create a new line for each pending request, taking the requests
      in an unspecified order and stopping at the first one that cannot be priced. `news`
      holds the lines created up to that point, in creation order. */
  method AddRangePass(saleId: Guid, left: Requests, newGuid: nat -> Guid)
    returns (news: seq<SaleItem>, outcome: Outcome<UpdateError>)
    requires KeyedByProduct(left)
    ensures outcome.Pass? <==> forall k :: k in left ==> left[k].quantity <= QuantityLimit
    ensures outcome.Fail? ==> outcome == Fail(PriceFailed(QuantityAboveLimit))
    ensures outcome.Pass? ==> AreNewItems(news, left, saleId, newGuid)
    ensures CreatedInOrder(news, left, saleId, newGuid)
  {
    news := [];
    var pending := left;
    while pending != map[]
      invariant forall k :: k in pending ==> k in left && pending[k] == left[k]
      invariant multiset(Pids(news)) + multiset(pending.Keys) == multiset(left.Keys)
      invariant CreatedInOrder(news, left, saleId, newGuid)
      decreases |pending|
    {
      var pid :| pid in pending;
      var created := CreateItem(saleId, newGuid(|news|), pending[pid]);
      if created.Failure? {
        assert left[pid].quantity > QuantityLimit;
        return news, Fail(PriceFailed(created.error));
      }
      AddStepAccounts(news, pending, left, created.value);
      CreatedInOrderSnoc(news, left, saleId, newGuid, created.value);
      news := news + [created.value];
      pending := pending - {pid};
    }
    NewItemsWithinLimit(news, left, saleId, newGuid);
    outcome := Pass;
  }

  /** `UpdateSaleItems`: key the requests by product, run the `RemoveAll` pass over the
      current lines and the `AddRange` pass over the requests left pending. */
  method UpdateSaleItems(sale: Sale, command: UpdateSaleCommand, newGuid: nat -> Guid)
    returns (outcome: Outcome<UpdateError>)
    modifies sale
    ensures sale.Data().(items := []) == old(sale.Data()).(items := [])
    ensures ToDictionary(command.items).Failure? ==>
      outcome == Fail(DuplicateProductId(ToDictionary(command.items).error)) && sale.items == old(sale.items)
    ensures ToDictionary(command.items).Success? ==>
      var m := ToDictionary(command.items).value;
      var kept := KeptItems(old(sale.items), m);
      var left := Leftover(old(sale.items), m);
      && |kept| <= |sale.items|
      && sale.items[..|kept|] == kept
      && (outcome.Pass? <==> forall k :: k in left ==> left[k].quantity <= QuantityLimit)
      && (outcome.Fail? ==> outcome == Fail(PriceFailed(QuantityAboveLimit)))
      && (outcome.Pass? ==> AreNewItems(sale.items[|kept|..], left, sale.id, newGuid))
  {
    var requests := ToDictionary(command.items);
    if requests.Failure? {
      return Fail(DuplicateProductId(requests.error));
    }
    var kept, pending := RemoveAllPass(sale.items, requests.value);
    ToDictionaryKeyed(command.items);
    LeftoverSpec(sale.items, requests.value);
    var news;
    news, outcome := AddRangePass(sale.id, pending, newGuid);
    sale.items := kept + news;
    assert sale.items[..|kept|] == kept && sale.items[|kept|..] == news;
  }

  /** A line list that is the first `k` lines of `before` priced and the rest untouched,
      where line `k` is the first one above the quantity limit. */
  predicate StoppedAtFirstOverLimit(before: seq<SaleItem>, after: seq<SaleItem>) {
    && |after| == |before|
    && exists k :: 0 <= k < |before| && before[k].quantity > QuantityLimit
         && (forall t :: 0 <= t < k ==> before[t].quantity <= QuantityLimit && PriceItem(before[t]) == Success(after[t]))
         && after[k..] == before[k..]
  }

  /** `RecalculateSaleTotals`: price each line in place, in order, then set the sale total
      to the sum of the line totals. */
  method RecalculateSaleTotals(sale: Sale) returns (outcome: Outcome<PricingError>)
    modifies sale
    ensures sale.Data().(items := [], totalAmount := 0.0) == old(sale.Data()).(items := [], totalAmount := 0.0)
    ensures PriceAll(old(sale.items)).Success? ==>
      outcome == Pass && sale.items == PriceAll(old(sale.items)).value && sale.totalAmount == SumTotals(sale.items)
    ensures PriceAll(old(sale.items)).Failure? ==>
      && outcome == Fail(QuantityAboveLimit) && sale.totalAmount == old(sale.totalAmount)
      && StoppedAtFirstOverLimit(old(sale.items), sale.items)
  {
    ghost var before := sale.items;
    PriceAllSpec(before);
    var i := 0;
    while i < |sale.items|
      invariant 0 <= i <= |sale.items| == |before|
      invariant forall t :: 0 <= t < i ==> before[t].quantity <= QuantityLimit && PriceItem(before[t]) == Success(sale.items[t])
      invariant sale.items[i..] == before[i..]
      invariant sale.Data().(items := []) == old(sale.Data()).(items := [])
    {
      assert sale.items[i] == before[i];
      var priced := PriceItem(sale.items[i]);
      if priced.Failure? {
        assert StoppedAtFirstOverLimit(before, sale.items);
        return Fail(priced.error);
      }
      sale.items := sale.items[i := priced.value];
      i := i + 1;
    }
    assert sale.items == PriceAll(before).value;
    sale.totalAmount := SumTotals(sale.items);
    outcome := Pass;
  }

  /** The requests of a command that passes validation all have quantities 1..20 and
      positive prices. */
  lemma ValidRequests(command: UpdateSaleCommand)
    requires UpdateSaleCommandValidator.ValidateCommand(command) == [] && ToDictionary(command.items).Success?
    ensures forall k :: k in ToDictionary(command.items).value ==>
      1 <= ToDictionary(command.items).value[k].quantity <= QuantityLimit && ToDictionary(command.items).value[k].unitPrice > 0.0
  {
    UpdateSaleCommandValidator.AcceptedQuantitiesInRange(command);
    ToDictionaryContents(command.items);
    var m := ToDictionary(command.items).value;
    forall k | k in m ensures 1 <= m[k].quantity <= QuantityLimit && m[k].unitPrice > 0.0 {
      var i :| 0 <= i < |command.items| && command.items[i].productId == k;
    }
  }

  /** Lines kept from requests within the limit can all be priced. */
  lemma KeptItemsPrice(cur: seq<SaleItem>, m: Requests)
    requires forall k :: k in m ==> m[k].quantity <= QuantityLimit
    ensures PriceAll(KeptItems(cur, m)).Success?
  {
    var kept := KeptItems(cur, m);
    KeptItemsAreFirstLines(cur, m);
    forall j | 0 <= j < |kept| ensures kept[j].quantity <= QuantityLimit {
      assert IsOverwrittenFirstLine(cur, m, kept[j]);
    }
    PriceAllSpec(kept);
  }

  /** Every request, once keyed by product, is within the quantity limit. */
  predicate RequestsWithinLimit(items: seq<UpdateSaleItemCommand>) {
    ToDictionary(items).Success? ==>
      forall k :: k in ToDictionary(items).value ==> ToDictionary(items).value[k].quantity <= QuantityLimit
  }

  lemma ValidCommandWithinLimit(command: UpdateSaleCommand)
    requires UpdateSaleCommandValidator.ValidateCommand(command) == []
    ensures RequestsWithinLimit(command.items)
  {
    if ToDictionary(command.items).Success? {
      ValidRequests(command);
    }
  }

  /** Requests within the limit leave the `AddRange` pass nothing above it. */
  lemma LeftoverWithinLimit(cur: seq<SaleItem>, items: seq<UpdateSaleItemCommand>)
    requires RequestsWithinLimit(items)
    ensures ToDictionary(items).Success? ==>
      var left := Leftover(cur, ToDictionary(items).value);
      forall k :: k in left ==> left[k].quantity <= QuantityLimit
  {
    if ToDictionary(items).Success? {
      LeftoverSpec(cur, ToDictionary(items).value);
    }
  }

  /** What a successful update makes of the stored sale `before`: identity, number, date
      and cancellation kept; customer and branch from the command; the kept lines repriced,
      followed by the new lines; the total the sum of the line totals. */
  ghost predicate IsUpdateOf(before: SaleData, command: UpdateSaleCommand, parseGuid: string -> Option<Guid>,
                             newGuid: nat -> Guid, after: SaleData)
  {
    && ToDictionary(command.items).Success?
    && parseGuid(command.customerId).Some? && parseGuid(command.branchId).Some?
    && var m := ToDictionary(command.items).value;
       var kept := KeptItems(before.items, m);
       && after.id == before.id && after.saleNumber == before.saleNumber
       && after.saleDate == before.saleDate && after.isCancelled == before.isCancelled
       && after.customerId == parseGuid(command.customerId).value && after.customerName == command.customerName
       && after.branchId == parseGuid(command.branchId).value && after.branchName == command.branchName
       && |kept| <= |after.items|
       && PriceAll(kept) == Success(after.items[..|kept|])
       && AreNewItems(after.items[|kept|..], Leftover(before.items, m), before.id, newGuid)
       && after.totalAmount == SumTotals(after.items)
  }

  /** Repricing the lines a validated command reconciles succeeds, and the sale with the
      command's customer and branch, those repriced lines and their sum is the update. */
  lemma ReconciledUpdate(before: SaleData, command: UpdateSaleCommand, parseGuid: string -> Option<Guid>,
                         newGuid: nat -> Guid, items: seq<SaleItem>)
    requires ToDictionary(command.items).Success?
    requires parseGuid(command.customerId).Some? && parseGuid(command.branchId).Some?
    requires var m := ToDictionary(command.items).value;
      forall k :: k in m ==> m[k].quantity <= QuantityLimit
    requires var m := ToDictionary(command.items).value;
      var kept := KeptItems(before.items, m);
      && |kept| <= |items| && items[..|kept|] == kept
      && AreNewItems(items[|kept|..], Leftover(before.items, m), before.id, newGuid)
    ensures PriceAll(items).Success?
    ensures IsUpdateOf(before, command, parseGuid, newGuid,
      before.(customerId := parseGuid(command.customerId).value, customerName := command.customerName,
              branchId := parseGuid(command.branchId).value, branchName := command.branchName,
              items := PriceAll(items).value, totalAmount := SumTotals(PriceAll(items).value)))
  {
    var m := ToDictionary(command.items).value;
    var kept := KeptItems(before.items, m);
    var news := items[|kept|..];
    assert items == kept + news;
    KeptItemsPrice(before.items, m);
    NewItemsFields(news, Leftover(before.items, m), before.id, newGuid);
    PriceAllAppendPriced(kept, news);
    PriceAllSpec(kept);
    var repriced := PriceAll(items).value;
    assert repriced == PriceAll(kept).value + news;
    assert repriced[..|kept|] == PriceAll(kept).value && repriced[|kept|..] == news;
  }

  lemma AppendTwo(calls: seq<StoreCall>, first: StoreCall, second: StoreCall)
    ensures calls + [first] + [second] == calls + [first, second]
  {
  }

  /** The handler's steps on the loaded sale: update the metadata, reconcile the lines,
      reprice. The first step that throws ends it, with its error. */
  method ApplyUpdate(sale: Sale, command: UpdateSaleCommand, parseGuid: string -> Option<Guid>, newGuid: nat -> Guid)
    returns (outcome: Outcome<UpdateError>)
    requires RequestsWithinLimit(command.items)
    modifies sale
    ensures sale.id == old(sale.id)
    ensures parseGuid(command.customerId).None? ==> outcome == Fail(InvalidGuidText(command.customerId))
    ensures parseGuid(command.customerId).Some? && parseGuid(command.branchId).None? ==>
      outcome == Fail(InvalidGuidText(command.branchId))
    ensures parseGuid(command.customerId).Some? && parseGuid(command.branchId).Some? && ToDictionary(command.items).Failure? ==>
      outcome == Fail(DuplicateProductId(ToDictionary(command.items).error))
    ensures outcome.Pass? <==>
      parseGuid(command.customerId).Some? && parseGuid(command.branchId).Some? && ToDictionary(command.items).Success?
    ensures outcome.Pass? ==> IsUpdateOf(old(sale.Data()), command, parseGuid, newGuid, sale.Data())
  {
    ghost var before := sale.Data();
    outcome := UpdateSaleMetadata(sale, command, parseGuid);
    if outcome.Fail? {
      return;
    }

    LeftoverWithinLimit(before.items, command.items);
    outcome := UpdateSaleItems(sale, command, newGuid);
    if outcome.Fail? {
      return;
    }

    ghost var reconciledItems := sale.items;
    ReconciledUpdate(before, command, parseGuid, newGuid, reconciledItems);
    var repriced := RecalculateSaleTotals(sale);
    assert sale.Data() == before.(
      customerId := parseGuid(command.customerId).value, customerName := command.customerName,
      branchId := parseGuid(command.branchId).value, branchName := command.branchName,
      items := PriceAll(reconciledItems).value, totalAmount := SumTotals(PriceAll(reconciledItems).value));
  }

  /** `Handle`: validate, load, apply the update, store. A failing step ends the handler
      with the store as it was, except for the lookup it has made. */
  method Handle(command: UpdateSaleCommand, repository: SaleRepository,
                parseGuid: string -> Option<Guid>, newGuid: nat -> Guid)
    returns (r: Result<SaleData, UpdateError>)
    requires repository.Valid()
    modifies repository
    ensures repository.Valid()
    ensures r.Failure? ==> repository.sales == old(repository.sales)
    ensures UpdateSaleCommandValidator.ValidateCommand(command) != [] ==>
      && r == Failure(ValidationFailed(UpdateSaleCommandValidator.ValidateCommand(command)))
      && repository.calls == old(repository.calls)
    ensures UpdateSaleCommandValidator.ValidateCommand(command) == [] && command.id !in old(repository.sales) ==>
      r == Failure(SaleNotFound(command.id)) && repository.calls == old(repository.calls) + [GetById(command.id)]
    ensures UpdateSaleCommandValidator.ValidateCommand(command) == [] && command.id in old(repository.sales) ==>
      && (parseGuid(command.customerId).None? ==> r == Failure(InvalidGuidText(command.customerId)))
      && (parseGuid(command.customerId).Some? && parseGuid(command.branchId).None? ==>
            r == Failure(InvalidGuidText(command.branchId)))
      && (parseGuid(command.customerId).Some? && parseGuid(command.branchId).Some? && ToDictionary(command.items).Failure? ==>
            r == Failure(DuplicateProductId(ToDictionary(command.items).error)))
    ensures UpdateSaleCommandValidator.ValidateCommand(command) == [] && r.Failure? ==>
      repository.calls == old(repository.calls) + [GetById(command.id)]
    ensures r.Success? <==>
      && UpdateSaleCommandValidator.ValidateCommand(command) == []
      && command.id in old(repository.sales)
      && parseGuid(command.customerId).Some? && parseGuid(command.branchId).Some?
      && ToDictionary(command.items).Success?
    ensures r.Success? ==>
      && IsUpdateOf(old(repository.sales)[command.id], command, parseGuid, newGuid, r.value)
      && repository.sales == old(repository.sales)[command.id := r.value]
      && repository.calls == old(repository.calls) + [GetById(command.id), Update(command.id)]
  {
    var failures := UpdateSaleCommandValidator.ValidateCommand(command);
    if failures != [] {
      return Failure(ValidationFailed(failures));
    }
    var sale := repository.GetByIdAsync(command.id);
    if sale == null {
      return Failure(SaleNotFound(command.id));
    }
    ValidCommandWithinLimit(command);
    ghost var before := sale.Data();
    assert before == old(repository.sales)[command.id];
    var applied := ApplyUpdate(sale, command, parseGuid, newGuid);
    if applied.Fail? {
      return Failure(applied.error);
    }
    ghost var after := sale.Data();
    assert IsUpdateOf(before, command, parseGuid, newGuid, after);
    var stored := repository.UpdateAsync(sale.id, sale);
    assert stored == Success(after);
    AppendTwo(old(repository.calls), GetById(command.id), Update(command.id));
    r := Success(stored.value);
  }

  /** After an update the sale holds each requested product exactly once, and nothing else. */
  lemma {:induction false} UpdateHoldsRequestedProducts(before: SaleData, command: UpdateSaleCommand,
      parseGuid: string -> Option<Guid>, newGuid: nat -> Guid, after: SaleData)
    requires IsUpdateOf(before, command, parseGuid, newGuid, after)
    ensures multiset(Pids(after.items)) == multiset(RequestedProducts(command.items))
  {
    var m := ToDictionary(command.items).value;
    var kept := KeptItems(before.items, m);
    var left := Leftover(before.items, m);
    var repriced := after.items[..|kept|];
    var news := after.items[|kept|..];
    assert after.items == repriced + news;
    PidsAppend(repriced, news);
    PriceAllSpec(kept);
    assert Pids(repriced) == Pids(kept) by {
      forall j | 0 <= j < |kept| ensures repriced[j].productId == kept[j].productId {
        assert PriceItem(kept[j]) == Success(repriced[j]);
      }
    }
    KeptProducts(before.items, m);
    LeftoverSpec(before.items, m);
    assert left.Keys == m.Keys - LineProducts(before.items);
    ToDictionaryContents(command.items);
    assert m.Keys == m.Keys * LineProducts(before.items) + left.Keys;
    MultisetOfDisjointUnion(m.Keys * LineProducts(before.items), left.Keys);
  }

  /** After an update every line is priced. */
  lemma UpdatePricesEveryLine(before: SaleData, command: UpdateSaleCommand,
      parseGuid: string -> Option<Guid>, newGuid: nat -> Guid, after: SaleData)
    requires IsUpdateOf(before, command, parseGuid, newGuid, after)
    ensures forall j :: 0 <= j < |after.items| ==> IsPriced(after.items[j])
  {
    var m := ToDictionary(command.items).value;
    var kept := KeptItems(before.items, m);
    var n := |kept|;
    PriceAllSpec(kept);
    NewItemsFields(after.items[n..], Leftover(before.items, m), before.id, newGuid);
    forall j | 0 <= j < |after.items| ensures IsPriced(after.items[j]) {
      if j < n {
        assert PriceItem(kept[j]) == Success(after.items[j]);
      } else {
        assert after.items[j] == after.items[n..][j - n];
      }
    }
  }

  /** `line` is the first current line of a requested product, overwritten from that
      product's request and repriced. */
  ghost predicate IsRepricedFirstLine(cur: seq<SaleItem>, m: Requests, line: SaleItem) {
    exists i :: 0 <= i < |cur| && IsFirstOf(cur, i) && cur[i].productId in m
      && SameLine(line, UpdateItem(cur[i], m[cur[i].productId]))
  }

  /** After an update the lines in front are the current lines kept: each the first line of
      its product, keeping its id, sale and product, with the request's name, quantity and
      price. */
  lemma UpdateKeepsFirstLines(before: SaleData, command: UpdateSaleCommand,
      parseGuid: string -> Option<Guid>, newGuid: nat -> Guid, after: SaleData)
    requires IsUpdateOf(before, command, parseGuid, newGuid, after)
    ensures forall j :: 0 <= j < |KeptItems(before.items, ToDictionary(command.items).value)| ==>
      IsRepricedFirstLine(before.items, ToDictionary(command.items).value, after.items[j])
  {
    var m := ToDictionary(command.items).value;
    var kept := KeptItems(before.items, m);
    PriceAllSpec(kept);
    KeptItemsAreFirstLines(before.items, m);
    forall j | 0 <= j < |kept| ensures IsRepricedFirstLine(before.items, m, after.items[j]) {
      assert PriceItem(kept[j]) == Success(after.items[j]);
      assert IsOverwrittenFirstLine(before.items, m, kept[j]);
      var i :| 0 <= i < |before.items| && IsFirstOf(before.items, i) && before.items[i].productId in m
        && kept[j] == UpdateItem(before.items[i], m[before.items[i].productId]);
    }
  }

  /** `line` is the `t`-th line created for `before`: the `t`-th fresh id, the sale's id,
      and a product the sale did not have. */
  predicate IsFreshLine(before: SaleData, newGuid: nat -> Guid, t: nat, line: SaleItem) {
    line.id == newGuid(t) && line.saleId == before.id && line.productId !in LineProducts(before.items)
  }

  lemma NewLineIsFresh(before: SaleData, m: Requests, newGuid: nat -> Guid, news: seq<SaleItem>, t: nat)
    requires AreNewItems(news, Leftover(before.items, m), before.id, newGuid) && t < |news|
    ensures IsFreshLine(before, newGuid, t, news[t])
  {
    NewItemsFields(news, Leftover(before.items, m), before.id, newGuid);
    LeftoverSpec(before.items, m);
    assert news[t].productId in Pids(news);
  }

  /** After an update the lines behind the kept ones are new: the sale's id, the next fresh
      ids in turn, and products the sale did not have. */
  lemma UpdateAppendsNewLines(before: SaleData, command: UpdateSaleCommand,
      parseGuid: string -> Option<Guid>, newGuid: nat -> Guid, after: SaleData)
    requires IsUpdateOf(before, command, parseGuid, newGuid, after)
    ensures var n := |KeptItems(before.items, ToDictionary(command.items).value)|;
      forall j :: n <= j < |after.items| ==> IsFreshLine(before, newGuid, j - n, after.items[j])
  {
    var m := ToDictionary(command.items).value;
    var n := |KeptItems(before.items, m)|;
    var left := Leftover(before.items, m);
    var news := after.items[n..];
    forall j | n <= j < |after.items| ensures IsFreshLine(before, newGuid, j - n, after.items[j]) {
      NewLineIsFresh(before, m, newGuid, news, j - n);
      assert after.items[j] == news[j - n];
    }
  }

  /** After an update every line carries its product's requested name, quantity and price. */
  lemma UpdateLinesCarryRequests(before: SaleData, command: UpdateSaleCommand,
      parseGuid: string -> Option<Guid>, newGuid: nat -> Guid, after: SaleData)
    requires IsUpdateOf(before, command, parseGuid, newGuid, after)
    ensures forall j :: 0 <= j < |after.items| ==> CarriesRequest(ToDictionary(command.items).value, after.items[j])
  {
    var m := ToDictionary(command.items).value;
    var kept := KeptItems(before.items, m);
    var n := |kept|;
    var left := Leftover(before.items, m);
    var news := after.items[n..];
    UpdateKeepsFirstLines(before, command, parseGuid, newGuid, after);
    NewItemsFields(news, left, before.id, newGuid);
    LeftoverSpec(before.items, m);
    forall j | 0 <= j < |after.items| ensures CarriesRequest(m, after.items[j]) {
      if j < n {
        assert IsRepricedFirstLine(before.items, m, after.items[j]);
      } else {
        assert after.items[j] == news[j - n];
        assert news[j - n].productId in left;
      }
    }
  }

  /** `line` is for a requested product and holds that request's name, quantity and price. */
  predicate CarriesRequest(m: Requests, line: SaleItem) {
    && line.productId in m
    && line.productName == m[line.productId].productName
    && line.quantity == m[line.productId].quantity
    && line.unitPrice == m[line.productId].unitPrice
  }

  /** A request naming exactly the current products, one line each, creates no line and
      keeps every line's id, in place. */
  lemma SameProductsKeepIds(before: SaleData, command: UpdateSaleCommand,
      parseGuid: string -> Option<Guid>, newGuid: nat -> Guid, after: SaleData)
    requires IsUpdateOf(before, command, parseGuid, newGuid, after)
    requires DistinctLines(before.items) && RequestedProducts(command.items) == LineProducts(before.items)
    ensures |after.items| == |before.items|
    ensures forall i :: 0 <= i < |before.items| ==> after.items[i].id == before.items[i].id
  {
    var m := ToDictionary(command.items).value;
    ToDictionaryContents(command.items);
    SameProductsKeepEveryLine(before.items, m);
    var kept := KeptItems(before.items, m);
    PriceAllSpec(kept);
    NewItemsFields(after.items[|kept|..], Leftover(before.items, m), before.id, newGuid);
    forall i | 0 <= i < |before.items| ensures after.items[i].id == before.items[i].id {
      assert PriceItem(kept[i]) == Success(after.items[i]);
    }
  }

  /** A validated update leaves a sale whose total is not negative. */
  lemma ValidUpdateTotalNonNegative(before: SaleData, command: UpdateSaleCommand,
      parseGuid: string -> Option<Guid>, newGuid: nat -> Guid, after: SaleData)
    requires IsUpdateOf(before, command, parseGuid, newGuid, after)
    requires UpdateSaleCommandValidator.ValidateCommand(command) == []
    ensures after.totalAmount >= 0.0
  {
    ValidRequests(command);
    AcceptedRequestsTotalNonNegative(before, command, parseGuid, newGuid, after);
  }

  /** An update by requests of 1 to 20 units at positive prices has a non-negative total. */
  lemma AcceptedRequestsTotalNonNegative(before: SaleData, command: UpdateSaleCommand,
      parseGuid: string -> Option<Guid>, newGuid: nat -> Guid, after: SaleData)
    requires IsUpdateOf(before, command, parseGuid, newGuid, after)
    requires forall k :: k in ToDictionary(command.items).value ==>
      1 <= ToDictionary(command.items).value[k].quantity <= 20 && ToDictionary(command.items).value[k].unitPrice > 0.0
    ensures after.totalAmount >= 0.0
  {
    var m := ToDictionary(command.items).value;
    UpdateLinesCarryRequests(before, command, parseGuid, newGuid, after);
    UpdatePricesEveryLine(before, command, parseGuid, newGuid, after);
    forall j | 0 <= j < |after.items| ensures 1 <= after.items[j].quantity && after.items[j].unitPrice > 0.0 {
      assert CarriesRequest(m, after.items[j]);
    }
    PricedTotalNonNegative(after.items);
  }

  /** No rule forbids a product twice: this command passes validation, yet keying its lines
      by product fails on the repeated product. */
  lemma DuplicateProductsPassValidation()
    ensures var line := UpdateSaleItemCommand(1, "abc", 1, 10.0);
      var command := UpdateSaleCommand(1, "abc", "abc", "abc", "abc", [line, line]);
      && UpdateSaleCommandValidator.ValidateCommand(command) == []
      && ToDictionary(command.items) == Failure(1)
  {
    var line := UpdateSaleItemCommand(1, "abc", 1, 10.0);
    var command := UpdateSaleCommand(1, "abc", "abc", "abc", "abc", [line, line]);
    assert !Text.IsBlank("abc") by {
      assert !Text.IsWhiteSpace("abc"[0]);
    }
    assert UpdateSaleCommandValidator.IsAcceptableItem(line);
    UpdateSaleCommandValidator.CommandPassesIff(command);
    assert command.items[..1] == [line] && command.items[..1][..0] == [];
  }
}
