/**
 * CreateSaleCommandValidator and its item validator SaleItemValidator (application layer):
 * the failure list FluentValidation produces for a command, the rule table it encodes, and
 * the boundary cases the rules fix.
 */
module CreateSaleValidator {
  import opened Results
  import opened Text
  import opened FluentRules
  import opened SaleCommands

  const EmptyItemsMessage: string := "A sale must have at least one item."

  /** SaleItemValidator: the failures for one requested line, in rule order. */
  function ValidateItem(item: SaleItemCommand): Failures {
    NotEmptyText("ProductId", item.productId)
    + NotEmptyText("ProductName", item.productName)
    + Between("Quantity", item.quantity, 1, 20)
    + Above("UnitPrice", item.unitPrice, 0.0)
  }

  /** CreateSaleCommandValidator: the failures for a command, in rule order. */
  function ValidateCommand(c: CreateSaleCommand): Failures {
    NotEmptyText("CustomerId", c.customerId)
    + NotEmptyText("CustomerName", c.customerName) + LengthBetween("CustomerName", c.customerName, 3, 100)
    + NotEmptyText("BranchId", c.branchId)
    + NotEmptyText("BranchName", c.branchName) + LengthBetween("BranchName", c.branchName, 3, 100)
    + NotEmptyList("Items", |c.items|, Some(EmptyItemsMessage))
    + ForEach("Items", c.items, ValidateItem, 0)
  }

  /** A customer or branch name the rules accept: not blank, 3 to 100 UTF-16 code units. */
  predicate IsAcceptableName(s: string) {
    !IsBlank(s) && 3 <= Utf16Length(s) <= 100
  }

  /** The item rules as one condition. */
  predicate IsAcceptableItem(item: SaleItemCommand) {
    && !IsBlank(item.productId)
    && !IsBlank(item.productName)
    && 1 <= item.quantity <= 20
    && item.unitPrice > 0.0
  }

  /** The command rules as one condition. */
  predicate IsAcceptableCommand(c: CreateSaleCommand) {
    && !IsBlank(c.customerId)
    && IsAcceptableName(c.customerName)
    && !IsBlank(c.branchId)
    && IsAcceptableName(c.branchName)
    && |c.items| > 0
    && forall i :: 0 <= i < |c.items| ==> IsAcceptableItem(c.items[i])
  }

  predicate Reports(failures: Failures, property: string) {
    exists f :: f in failures && f.propertyName == property
  }

  /** An item passes exactly when it meets the rule table, and each failing rule is reported
      under the property it constrains. */
  lemma ItemPassesIff(item: SaleItemCommand)
    ensures ValidateItem(item) == [] <==> IsAcceptableItem(item)
    ensures Reports(ValidateItem(item), "Quantity") <==> !(1 <= item.quantity <= 20)
    ensures Reports(ValidateItem(item), "UnitPrice") <==> item.unitPrice <= 0.0
    ensures Reports(ValidateItem(item), "ProductId") <==> IsBlank(item.productId)
    ensures Reports(ValidateItem(item), "ProductName") <==> IsBlank(item.productName)
  {
    var fs := ValidateItem(item);
    if !(1 <= item.quantity <= 20) {
      assert ValidationFailure("Quantity", InclusiveBetween(1, 20), None) in fs;
    }
    if item.unitPrice <= 0.0 {
      assert ValidationFailure("UnitPrice", GreaterThan(0.0), None) in fs;
    }
    if IsBlank(item.productId) {
      assert ValidationFailure("ProductId", NotEmpty, None) in fs;
    }
    if IsBlank(item.productName) {
      assert ValidationFailure("ProductName", NotEmpty, None) in fs;
    }
  }

  /** A command passes exactly when it meets the rule table. */
  lemma CommandPassesIff(c: CreateSaleCommand)
    ensures ValidateCommand(c) == [] <==> IsAcceptableCommand(c)
  {
    ForEachPassesIff("Items", c.items, ValidateItem, 0);
    forall i | 0 <= i < |c.items| ensures ValidateItem(c.items[i]) == [] <==> IsAcceptableItem(c.items[i]) {
      ItemPassesIff(c.items[i]);
    }
  }

  /** A command that passes has every requested quantity within 1..20 and a positive
      price, so the handler's discount calculation never meets a quantity above 20. */
  lemma AcceptedQuantitiesInRange(c: CreateSaleCommand)
    requires ValidateCommand(c) == []
    ensures |c.items| > 0
    ensures forall i :: 0 <= i < |c.items| ==> 1 <= c.items[i].quantity <= 20 && c.items[i].unitPrice > 0.0
  {
    CommandPassesIff(c);
  }

  /** An empty item list is reported on `Items` with the custom message. */
  lemma EmptyItemsReported(c: CreateSaleCommand)
    requires c.items == []
    ensures ValidationFailure("Items", NotEmpty, Some(EmptyItemsMessage)) in ValidateCommand(c)
  {
    var head := NotEmptyText("CustomerId", c.customerId)
      + NotEmptyText("CustomerName", c.customerName) + LengthBetween("CustomerName", c.customerName, 3, 100)
      + NotEmptyText("BranchId", c.branchId)
      + NotEmptyText("BranchName", c.branchName) + LengthBetween("BranchName", c.branchName, 3, 100);
    assert ValidateCommand(c) == head + [ValidationFailure("Items", NotEmpty, Some(EmptyItemsMessage))];
  }

  /** An empty customer name is reported on `CustomerName`. */
  lemma EmptyCustomerNameReported(c: CreateSaleCommand)
    requires c.customerName == ""
    ensures Reports(ValidateCommand(c), "CustomerName")
  {
    assert ValidateCommand(c)[|NotEmptyText("CustomerId", c.customerId)|] == ValidationFailure("CustomerName", NotEmpty, None);
  }

  /** `new CreateSaleCommand()` is rejected. */
  lemma DefaultCommandRejected()
    ensures ValidateCommand(DefaultCreateSaleCommand) != []
  {
    assert ValidateCommand(DefaultCreateSaleCommand)[0] == ValidationFailure("CustomerId", NotEmpty, None);
  }

  /** Quantity 0, quantity 21 and price 0 are each rejected; quantities 1 and 20 are
      accepted when the other fields are. */
  lemma ItemBoundaries(item: SaleItemCommand)
    ensures ValidateItem(item.(quantity := 0)) != []
    ensures ValidateItem(item.(quantity := 21)) != []
    ensures ValidateItem(item.(unitPrice := 0.0)) != []
    ensures IsAcceptableItem(item) ==> ValidateItem(item.(quantity := 1)) == [] && ValidateItem(item.(quantity := 20)) == []
  {
    ItemPassesIff(item.(quantity := 0));
    ItemPassesIff(item.(quantity := 21));
    ItemPassesIff(item.(unitPrice := 0.0));
    ItemPassesIff(item.(quantity := 1));
    ItemPassesIff(item.(quantity := 20));
  }

  /** The name length bounds are inclusive: 3 and 100 characters pass, 2 and 101 fail. */
  lemma NameLengthBoundsInclusive()
    ensures IsAcceptableName(seq(3, _ => 'a')) && IsAcceptableName(seq(100, _ => 'a'))
    ensures !IsAcceptableName(seq(2, _ => 'a')) && !IsAcceptableName(seq(101, _ => 'a'))
  {
    Utf16LengthOfBmp(seq(2, _ => 'a'));
    Utf16LengthOfBmp(seq(3, _ => 'a'));
    Utf16LengthOfBmp(seq(100, _ => 'a'));
    Utf16LengthOfBmp(seq(101, _ => 'a'));
    assert seq(3, _ => 'a')[0] == 'a';
    assert seq(100, _ => 'a')[0] == 'a';
  }

  /** The length is the UTF-16 length: a name of two characters outside the Basic
      Multilingual Plane is four code units long and passes the 3 to 100 bound. */
  lemma SurrogatePairsCountTwice()
    ensures var name := "\U{20000}\U{20000}";
      && |name| == 2
      && LengthBetween("CustomerName", name, 3, 100) == []
      && IsAcceptableName(name)
  {
    var name := "\U{20000}\U{20000}";
    assert name[..1][..0] == [];
    assert Utf16Length(name[..1]) == 2;
    assert !IsWhiteSpace(name[0]);
  }
}
