/**
 * The quantity-tier discount and the line and sale totals. The update handler, the create
 * handler and the unit-test data builder each carry a private, textually identical copy of
 * `CalculateDiscount`; the model has the one definition below, shared by all three.
 */
module Pricing {
  import opened Results
  import opened Entities

  /** The `ArgumentException` thrown for a quantity above the per-product limit. */
  datatype PricingError = QuantityAboveLimit

  const QuantityLimit: int := 20
  const QuantityLimitMessage: string := "Cannot sell more than 20 items of the same product."

  /** The gross amount of a line, `unitPrice * quantity`. */
  function Gross(quantity: int, unitPrice: real): real {
    unitPrice * quantity as real
  }

  /** The discount for a line: 20 % from 10 units, 10 % from 4 units, none below, and an
      error above 20 units. There is no lower bound: zero and negative quantities get no
      discount. */
  function CalculateDiscount(quantity: int, unitPrice: real): (r: Result<real, PricingError>)
    ensures r.Failure? <==> quantity > QuantityLimit
  {
    if quantity > QuantityLimit then Failure(QuantityAboveLimit)
    else if quantity >= 10 then Success(unitPrice * quantity as real * 0.20)
    else if quantity >= 4 then Success(unitPrice * quantity as real * 0.10)
    else Success(0.0)
  }

  /** The discount table, one row per tier, stated on the gross amount. */
  lemma DiscountTiers(quantity: int, unitPrice: real)
    ensures quantity > 20 ==> CalculateDiscount(quantity, unitPrice) == Failure(QuantityAboveLimit)
    ensures 10 <= quantity <= 20 ==> CalculateDiscount(quantity, unitPrice) == Success(Gross(quantity, unitPrice) / 5.0)
    ensures 4 <= quantity <= 9 ==> CalculateDiscount(quantity, unitPrice) == Success(Gross(quantity, unitPrice) / 10.0)
    ensures quantity <= 3 ==> CalculateDiscount(quantity, unitPrice) == Success(0.0)
  {
  }

  /** For a non-negative gross amount the discount lies between zero and the gross amount. */
  lemma DiscountBounded(quantity: int, unitPrice: real)
    requires quantity <= 20 && 0 <= quantity && 0.0 <= unitPrice
    ensures 0.0 <= CalculateDiscount(quantity, unitPrice).value <= Gross(quantity, unitPrice)
  {
    assert 0.0 <= Gross(quantity, unitPrice) by { NonNegativeProduct(unitPrice, quantity as real); }
  }

  lemma NonNegativeProduct(a: real, b: real)
    requires 0.0 <= a && 0.0 <= b
    ensures 0.0 <= a * b
  {
  }

  /** For a positive price, more units never earn a smaller discount. */
  lemma DiscountMonotone(q1: int, q2: int, unitPrice: real)
    requires q1 <= q2 <= 20 && 0.0 <= unitPrice
    ensures CalculateDiscount(q1, unitPrice).value <= CalculateDiscount(q2, unitPrice).value
  {
    var g1, g2 := Gross(q1, unitPrice), Gross(q2, unitPrice);
    MultiplyMonotone(unitPrice, q1 as real, q2 as real);
    assert g1 <= g2;
    var d1, d2 := CalculateDiscount(q1, unitPrice).value, CalculateDiscount(q2, unitPrice).value;
    if q2 <= 3 {
      assert d1 == 0.0 && d2 == 0.0;
    } else {
      NonNegativeProduct(unitPrice, q2 as real);
      assert d2 >= g2 / 10.0;
      if q1 <= 3 {
        assert d1 == 0.0;
      } else {
        NonNegativeProduct(unitPrice, q1 as real);
        assert d1 <= g1 / 5.0;
        assert (q1 >= 10 ==> d1 == g1 / 5.0 && d2 == g2 / 5.0) && (q1 < 10 ==> d1 == g1 / 10.0);
      }
    }
  }

  lemma MultiplyMonotone(a: real, b: real, c: real)
    requires 0.0 <= a && b <= c
    ensures a * b <= a * c
  {
  }

  /** The line total `unitPrice * quantity - discount`. */
  function LineTotal(quantity: int, unitPrice: real): (r: Result<real, PricingError>)
    ensures r.Failure? <==> quantity > QuantityLimit
  {
    match CalculateDiscount(quantity, unitPrice)
    case Failure(e) => Failure(e)
    case Success(d) => Success(Gross(quantity, unitPrice) - d)
  }

  /** For a quantity the validators accept and a positive price, a line total is positive
      and is the gross amount, 90 % of it or 80 % of it, by tier. */
  lemma LineTotalTiers(quantity: int, unitPrice: real)
    requires 1 <= quantity <= 20 && unitPrice > 0.0
    ensures var t := LineTotal(quantity, unitPrice).value;
      var g := Gross(quantity, unitPrice);
      && t > 0.0
      && (quantity <= 3 ==> t == g)
      && (4 <= quantity <= 9 ==> t == g * 0.9)
      && (10 <= quantity ==> t == g * 0.8)
  {
    var g := Gross(quantity, unitPrice);
    assert g > 0.0 by { PositiveProduct(unitPrice, quantity as real); }
  }

  lemma PositiveProduct(a: real, b: real)
    requires 0.0 < a && 0.0 < b
    ensures 0.0 < a * b
  {
  }

  /** A line whose `Discount` and `TotalAmount` are the ones its quantity and price call for. */
  predicate IsPriced(item: SaleItem) {
    && item.quantity <= QuantityLimit
    && CalculateDiscount(item.quantity, item.unitPrice) == Success(item.discount)
    && item.totalAmount == Gross(item.quantity, item.unitPrice) - item.discount
  }

  /** Two lines that agree on everything but the computed `Discount` and `TotalAmount`. */
  predicate SameLine(a: SaleItem, b: SaleItem) {
    a.(discount := 0.0, totalAmount := 0.0) == b.(discount := 0.0, totalAmount := 0.0)
  }

  /** One pass of a pricing loop's body: set `Discount`, then `TotalAmount` from it. Fails,
      leaving nothing assigned, when the quantity is above the limit. */
  function PriceItem(item: SaleItem): (r: Result<SaleItem, PricingError>)
    ensures r.Failure? <==> item.quantity > QuantityLimit
    ensures r.Success? ==> IsPriced(r.value) && SameLine(r.value, item)
  {
    match CalculateDiscount(item.quantity, item.unitPrice)
    case Failure(e) => Failure(e)
    case Success(d) => Success(item.(discount := d, totalAmount := Gross(item.quantity, item.unitPrice) - d))
  }

  /** Pricing one line is idempotent: a priced line prices to itself. */
  lemma PriceItemIdempotent(item: SaleItem)
    requires IsPriced(item)
    ensures PriceItem(item) == Success(item)
  {
  }

  /** The pricing loop over a whole list, stopping at the first line it cannot price. */
  function PriceAll(items: seq<SaleItem>): Result<seq<SaleItem>, PricingError>
    decreases |items|
  {
    if items == [] then Success([])
    else match PriceItem(items[0])
      case Failure(e) => Failure(e)
      case Success(first) =>
        match PriceAll(items[1..])
        case Failure(e) => Failure(e)
        case Success(rest) => Success([first] + rest)
  }

  /** The loop succeeds exactly when no line is above the limit, and then prices every line
      in place, in order. */
  lemma {:induction false} PriceAllSpec(items: seq<SaleItem>)
    ensures PriceAll(items).Success? <==> forall i :: 0 <= i < |items| ==> items[i].quantity <= QuantityLimit
    ensures PriceAll(items).Success? ==>
      && |PriceAll(items).value| == |items|
      && forall i :: 0 <= i < |items| ==> PriceItem(items[i]) == Success(PriceAll(items).value[i])
    decreases |items|
  {
    if items != [] {
      PriceAllSpec(items[1..]);
      assert forall i :: 1 <= i < |items| ==> items[1..][i - 1] == items[i];
    }
  }

  /** Every line of a priced list is priced and keeps its other fields. */
  lemma PriceAllPrices(items: seq<SaleItem>)
    requires PriceAll(items).Success?
    ensures |PriceAll(items).value| == |items|
    ensures forall i :: 0 <= i < |items| ==> IsPriced(PriceAll(items).value[i]) && SameLine(PriceAll(items).value[i], items[i])
  {
    PriceAllSpec(items);
  }

  /** Repricing a list whose tail is already priced leaves that tail as it is. */
  lemma PriceAllAppendPriced(a: seq<SaleItem>, b: seq<SaleItem>)
    requires PriceAll(a).Success?
    requires forall i :: 0 <= i < |b| ==> IsPriced(b[i])
    ensures PriceAll(a + b) == Success(PriceAll(a).value + b)
  {
    PriceAllSpec(a);
    PriceAllSpec(a + b);
    assert forall i :: 0 <= i < |a + b| ==> (a + b)[i].quantity <= QuantityLimit by {
      forall i | 0 <= i < |a + b| ensures (a + b)[i].quantity <= QuantityLimit {
        if i >= |a| {
          assert (a + b)[i] == b[i - |a|];
        }
      }
    }
    var v := PriceAll(a + b).value;
    var w := PriceAll(a).value + b;
    forall i | 0 <= i < |v| ensures v[i] == w[i] {
      if i < |a| {
        assert (a + b)[i] == a[i];
      } else {
        assert (a + b)[i] == b[i - |a|];
        PriceItemIdempotent(b[i - |a|]);
      }
    }
    assert v == w;
  }

  /** `Items.Sum(i => i.TotalAmount)`: the left-to-right sum of the line totals. */
  function SumTotals(items: seq<SaleItem>): real
    decreases |items|
  {
    if items == [] then 0.0 else SumTotals(items[..|items| - 1]) + items[|items| - 1].totalAmount
  }

  lemma {:induction false} SumTotalsAppend(a: seq<SaleItem>, b: seq<SaleItem>)
    ensures SumTotals(a + b) == SumTotals(a) + SumTotals(b)
    decreases |b|
  {
    if b == [] {
      assert a + b == a;
    } else {
      assert (a + b)[..|a + b| - 1] == a + b[..|b| - 1];
      assert (a + b)[|a + b| - 1] == b[|b| - 1];
      SumTotalsAppend(a, b[..|b| - 1]);
    }
  }

  /** The sum agrees with the sum taken from the other end. */
  lemma {:induction false} SumTotalsFromFront(items: seq<SaleItem>)
    ensures items != [] ==> SumTotals(items) == items[0].totalAmount + SumTotals(items[1..])
  {
    if items != [] {
      assert items == [items[0]] + items[1..];
      SumTotalsAppend([items[0]], items[1..]);
      assert [items[0]][..0] == [];
    }
  }

  /** A sale whose lines all have non-negative totals has a non-negative total. */
  lemma {:induction false} SumTotalsNonNegative(items: seq<SaleItem>)
    requires forall i :: 0 <= i < |items| ==> items[i].totalAmount >= 0.0
    ensures SumTotals(items) >= 0.0
    decreases |items|
  {
    if items != [] {
      SumTotalsNonNegative(items[..|items| - 1]);
    }
  }

  /** Lines priced from quantities 1 to 20 at positive prices always give a non-negative
      sale total. */
  lemma PricedTotalNonNegative(items: seq<SaleItem>)
    requires forall i :: 0 <= i < |items| ==> IsPriced(items[i]) && 1 <= items[i].quantity && items[i].unitPrice > 0.0
    ensures SumTotals(items) >= 0.0
  {
    forall i | 0 <= i < |items| ensures items[i].totalAmount >= 0.0 {
      LineTotalTiers(items[i].quantity, items[i].unitPrice);
    }
    SumTotalsNonNegative(items);
  }
}
