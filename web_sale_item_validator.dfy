/** SaleItemValidator of the web layer: the rules for one line of a create request. */
module WebSaleItemValidator {
  import opened FluentRules
  import opened SaleRequests
  import CreateSaleValidator

  function ValidateItem(item: CreateSaleItemRequest): Failures {
    NotEmptyText("ProductId", item.productId)
    + NotEmptyText("ProductName", item.productName)
    + Between("Quantity", item.quantity, 1, 20)
    + Above("UnitPrice", item.unitPrice, 0.0)
  }

  /** The web rules agree with the application's SaleItemValidator on the mapped command. */
  lemma AgreesWithCommandValidator(item: CreateSaleItemRequest)
    ensures ValidateItem(item) == CreateSaleValidator.ValidateItem(ToSaleItemCommand(item))
  {
  }
}
