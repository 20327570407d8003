/** UpdateSaleItemRequestValidator of the web layer: the rules for one line of an update request. */
module WebUpdateSaleItemRequestValidator {
  import opened FluentRules
  import opened SaleRequests
  import UpdateSaleCommandValidator

  function ValidateItem(item: UpdateSaleItemRequest): Failures {
    NotEmptyGuid("ProductId", item.productId)
    + NotEmptyText("ProductName", item.productName)
    + Between("Quantity", item.quantity, 1, 20)
    + Above("UnitPrice", item.unitPrice, 0.0)
  }

  lemma AgreesWithCommandValidator(item: UpdateSaleItemRequest)
    ensures ValidateItem(item) == UpdateSaleCommandValidator.ValidateItem(ToUpdateSaleItemCommand(item))
  {
  }
}
