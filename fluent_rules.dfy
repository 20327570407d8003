/**
 * The FluentValidation rules the sale validators are built from, with the library's
 * semantics: every rule of a validator runs (the default cascade mode), failures are
 * reported in the order the rules are declared, and a child validator attached with
 * `RuleForEach(...).SetValidator(...)` reports its failures under `Items[i].<Property>`.
 */
module FluentRules {
  import opened Results
  import opened Text
  import opened Guids
  import opened DateTimes

  /** The built-in validator that rejected a property value. */
  datatype Rule =
    | NotEmpty
    | Length(min: nat, max: nat)
    | InclusiveBetween(from: int, to: int)
    | GreaterThan(valueToCompare: real)
    | GreaterThanOrEqualTo(otherProperty: string)

  /** One entry of `ValidationResult.Errors`. `customMessage` is the text given with
      `WithMessage`; the library's default message templates are not modelled. */
  datatype ValidationFailure = ValidationFailure(propertyName: string, rule: Rule, customMessage: Option<string>)

  type Failures = seq<ValidationFailure>

  /** `NotEmpty()` on a string: fails for the empty string and for all-white-space text. */
  function NotEmptyText(property: string, value: string): (r: Failures)
    ensures r == [] <==> !IsBlank(value)
    ensures r != [] ==> r == [ValidationFailure(property, NotEmpty, None)]
  {
    if IsBlank(value) then [ValidationFailure(property, NotEmpty, None)] else []
  }

  /** `NotEmpty()` on a `Guid`: fails for `Guid.Empty`. */
  function NotEmptyGuid(property: string, value: Guid): (r: Failures)
    ensures r == [] <==> value != Empty
    ensures r != [] ==> r == [ValidationFailure(property, NotEmpty, None)]
  {
    if value == Empty then [ValidationFailure(property, NotEmpty, None)] else []
  }

  /** `NotEmpty()` on a list, with an optional `WithMessage` text. */
  function NotEmptyList(property: string, count: nat, message: Option<string>): (r: Failures)
    ensures r == [] <==> count > 0
    ensures r != [] ==> r == [ValidationFailure(property, NotEmpty, message)]
  {
    if count == 0 then [ValidationFailure(property, NotEmpty, message)] else []
  }

  /** `Length(min, max)`: both bounds inclusive, on `string.Length`, which counts UTF-16
      code units. */
  function LengthBetween(property: string, value: string, min: nat, max: nat): (r: Failures)
    ensures r == [] <==> min <= Utf16Length(value) <= max
    ensures r != [] ==> r == [ValidationFailure(property, Length(min, max), None)]
  {
    var n := Utf16Length(value);
    if n < min || n > max then [ValidationFailure(property, Length(min, max), None)] else []
  }

  /** `InclusiveBetween(from, to)` on an `int`. */
  function Between(property: string, value: int, from: int, to: int): (r: Failures)
    ensures r == [] <==> from <= value <= to
    ensures r != [] ==> r == [ValidationFailure(property, InclusiveBetween(from, to), None)]
  {
    if value < from || value > to then [ValidationFailure(property, InclusiveBetween(from, to), None)] else []
  }

  /** `GreaterThan(bound)` on a number (a `decimal` price or an `int` page). */
  function Above(property: string, value: real, bound: real): (r: Failures)
    ensures r == [] <==> value > bound
    ensures r != [] ==> r == [ValidationFailure(property, GreaterThan(bound), None)]
  {
    if value > bound then [] else [ValidationFailure(property, GreaterThan(bound), None)]
  }

  /** `GreaterThanOrEqualTo(x => x.Other)` on a nullable `DateTime`. Like every comparison
      validator of the library, it passes when the property itself is null. */
  function NotBefore(property: string, value: Option<DateTime>, other: string, otherValue: DateTime): (r: Failures)
    ensures r == [] <==> (value.Some? ==> !Before(value.value, otherValue))
    ensures r != [] ==> r == [ValidationFailure(property, GreaterThanOrEqualTo(other), None)]
  {
    if value.Some? && Before(value.value, otherValue) then [ValidationFailure(property, GreaterThanOrEqualTo(other), None)] else []
  }

  /** The failures of a child validator, re-rooted under `prefix` (e.g. "Items[2]."). */
  function Nested(prefix: string, failures: Failures): (r: Failures)
    ensures |r| == |failures|
    ensures forall k :: 0 <= k < |r| ==> r[k] == failures[k].(propertyName := prefix + failures[k].propertyName)
  {
    if failures == [] then []
    else [failures[0].(propertyName := prefix + failures[0].propertyName)] + Nested(prefix, failures[1..])
  }

  function ElementPrefix(collection: string, index: nat): string {
    collection + "[" + NatToString(index) + "]."
  }

  /** `RuleForEach(collection).SetValidator(validate)`, starting at element `start`. */
  function ForEach<T>(collection: string, items: seq<T>, validate: T -> Failures, start: nat): Failures
    decreases |items|
  {
    if items == [] then []
    else Nested(ElementPrefix(collection, start), validate(items[0])) + ForEach(collection, items[1..], validate, start + 1)
  }

  /** The collection passes exactly when every element passes its child validator. */
  lemma {:induction false} ForEachPassesIff<T>(collection: string, items: seq<T>, validate: T -> Failures, start: nat)
    ensures ForEach(collection, items, validate, start) == [] <==> forall i :: 0 <= i < |items| ==> validate(items[i]) == []
    decreases |items|
  {
    if items != [] {
      ForEachPassesIff(collection, items[1..], validate, start + 1);
      assert forall i :: 1 <= i < |items| ==> items[i] == items[1..][i - 1];
    }
  }

  /** Element `i` failing its child validator makes the collection fail under `Items[i].`. */
  lemma {:induction false} ForEachReportsElement<T>(collection: string, items: seq<T>, validate: T -> Failures, start: nat, i: nat, f: ValidationFailure)
    requires i < |items| && f in validate(items[i])
    ensures f.(propertyName := ElementPrefix(collection, start + i) + f.propertyName) in ForEach(collection, items, validate, start)
    decreases |items|
  {
    var k :| 0 <= k < |validate(items[i])| && validate(items[i])[k] == f;
    if i == 0 {
      assert Nested(ElementPrefix(collection, start), validate(items[0]))[k] == f.(propertyName := ElementPrefix(collection, start) + f.propertyName);
    } else {
      assert items[1..][i - 1] == items[i];
      ForEachReportsElement(collection, items[1..], validate, start + 1, i - 1, f);
    }
  }

  /** Two child validators that agree through a field-for-field mapping of the elements
      report the same failures for a collection and for its mapped image. */
  lemma {:induction false} ForEachAgreesThroughMap<A, B>(collection: string, xs: seq<A>, f: A -> Failures, g: A -> B, h: B -> Failures, start: nat)
    requires forall x :: f(x) == h(g(x))
    ensures ForEach(collection, xs, f, start) == ForEach(collection, MapSeq(xs, g), h, start)
    decreases |xs|
  {
    if xs != [] {
      assert MapSeq(xs, g)[1..] == MapSeq(xs[1..], g);
      ForEachAgreesThroughMap(collection, xs[1..], f, g, h, start + 1);
    }
  }

  function MapSeq<A, B>(xs: seq<A>, g: A -> B): (ys: seq<B>)
    ensures |ys| == |xs| && forall i :: 0 <= i < |xs| ==> ys[i] == g(xs[i])
  {
    seq(|xs|, i requires 0 <= i < |xs| => g(xs[i]))
  }
}
