/**
 * UpdateSaleCommandValidator and UpdateSaleItemValidator (application layer). The rules
 * mirror the create validator, except that a line's `ProductId` is a `Guid`, so `NotEmpty`
 * rejects `Guid.Empty`; the command's `Id` has no rule.
 */
module UpdateSaleCommandValidator {
  import opened Results
  import opened Text
  import opened Guids
  import opened FluentRules
  import opened SaleCommands

  const EmptyItemsMessage: string := "A sale must have at least one item."

  /** UpdateSaleItemValidator: the failures for one requested line, in rule order. */
  function ValidateItem(item: UpdateSaleItemCommand): Failures {
    NotEmptyGuid("ProductId", item.productId)
    + NotEmptyText("ProductName", item.productName)
    + Between("Quantity", item.quantity, 1, 20)
    + Above("UnitPrice", item.unitPrice, 0.0)
  }

  /** UpdateSaleCommandValidator: the failures for a command, in rule order. */
  function ValidateCommand(c: UpdateSaleCommand): Failures {
    CommandRuleFailures(c) + ForEach("Items", c.items, ValidateItem, 0)
  }

  predicate IsAcceptableName(s: string) {
    !IsBlank(s) && 3 <= Utf16Length(s) <= 100
  }

  predicate IsAcceptableItem(item: UpdateSaleItemCommand) {
    && item.productId != Empty
    && !IsBlank(item.productName)
    && 1 <= item.quantity <= 20
    && item.unitPrice > 0.0
  }

  predicate IsAcceptableCommand(c: UpdateSaleCommand) {
    && !IsBlank(c.customerId)
    && IsAcceptableName(c.customerName)
    && !IsBlank(c.branchId)
    && IsAcceptableName(c.branchName)
    && |c.items| > 0
    && forall i :: 0 <= i < |c.items| ==> IsAcceptableItem(c.items[i])
  }

  /** A command passes exactly when it meets the rule table. */
  lemma CommandPassesIff(c: UpdateSaleCommand)
    ensures ValidateCommand(c) == [] <==> IsAcceptableCommand(c)
  {
    CommandRulesPassIff(c);
    ForEachPassesIff("Items", c.items, ValidateItem, 0);
  }

  /** The command-level rules pass exactly when the ids and names are acceptable and there
      is an item. */
  lemma CommandRulesPassIff(c: UpdateSaleCommand)
    ensures CommandRuleFailures(c) == [] <==>
      && !IsBlank(c.customerId)
      && IsAcceptableName(c.customerName)
      && !IsBlank(c.branchId)
      && IsAcceptableName(c.branchName)
      && |c.items| > 0
  {
    NameRulesPassIff("CustomerName", c.customerName);
    NameRulesPassIff("BranchName", c.branchName);
  }

  lemma NameRulesPassIff(property: string, s: string)
    ensures NotEmptyText(property, s) + LengthBetween(property, s, 3, 100) == [] <==> IsAcceptableName(s)
  {
  }

  /** No rule reads `Id`: changing it never changes the failures. */
  lemma IdUnconstrained(c: UpdateSaleCommand, id: Guid)
    ensures ValidateCommand(c.(id := id)) == ValidateCommand(c)
  {
  }

  /** A command that passes has every requested quantity within 1..20, so the handler's
      discount calculation never meets a quantity above 20 for it. */
  lemma AcceptedQuantitiesInRange(c: UpdateSaleCommand)
    requires ValidateCommand(c) == []
    ensures |c.items| > 0
    ensures forall i :: 0 <= i < |c.items| ==> 1 <= c.items[i].quantity <= 20 && c.items[i].unitPrice > 0.0
  {
    CommandPassesIff(c);
  }

  /** A line with `Guid.Empty` as its product is reported under `Items[i].ProductId`. */
  lemma EmptyProductIdReported(c: UpdateSaleCommand, i: nat)
    requires i < |c.items| && c.items[i].productId == Empty
    ensures ValidationFailure(ElementPrefix("Items", i) + "ProductId", NotEmpty, None) in ValidateCommand(c)
  {
    var f := ValidationFailure("ProductId", NotEmpty, None);
    assert ValidateItem(c.items[i])[0] == f;
    ForEachReportsElement("Items", c.items, ValidateItem, 0, i, f);
  }

  /** The failures of the command-level rules, before the element rules. */
  function CommandRuleFailures(c: UpdateSaleCommand): Failures {
    NotEmptyText("CustomerId", c.customerId)
    + NotEmptyText("CustomerName", c.customerName) + LengthBetween("CustomerName", c.customerName, 3, 100)
    + NotEmptyText("BranchId", c.branchId)
    + NotEmptyText("BranchName", c.branchName) + LengthBetween("BranchName", c.branchName, 3, 100)
    + NotEmptyList("Items", |c.items|, Some(EmptyItemsMessage))
  }
}
