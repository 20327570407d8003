/**
 * UpdateSaleRequestValidator of the web layer. Its documentation lists `Id` as required,
 * but no rule reads `Id`; the controller replaces it with the route id before the command
 * is sent, so the model follows the rules as declared.
 */
module WebUpdateSaleRequestValidator {
  import opened Results
  import opened Guids
  import opened FluentRules
  import opened SaleRequests
  import WebUpdateSaleItemRequestValidator
  import UpdateSaleCommandValidator

  const EmptyItemsMessage: string := "A sale must have at least one item."

  function ValidateRequest(r: UpdateSaleRequest): Failures {
    NotEmptyText("CustomerId", r.customerId)
    + NotEmptyText("CustomerName", r.customerName) + LengthBetween("CustomerName", r.customerName, 3, 100)
    + NotEmptyText("BranchId", r.branchId)
    + NotEmptyText("BranchName", r.branchName) + LengthBetween("BranchName", r.branchName, 3, 100)
    + NotEmptyList("Items", |r.items|, Some(EmptyItemsMessage))
    + ForEach("Items", r.items, WebUpdateSaleItemRequestValidator.ValidateItem, 0)
  }

  /** Whatever route id the controller puts into the command, the request validator and
      the command validator report the same failures. */
  lemma {:induction false} AgreesWithCommandValidator(r: UpdateSaleRequest, routeId: Guid)
    ensures ValidateRequest(r) == UpdateSaleCommandValidator.ValidateCommand(ToUpdateSaleCommand(r, routeId))
  {
    forall x ensures WebUpdateSaleItemRequestValidator.ValidateItem(x) == UpdateSaleCommandValidator.ValidateItem(ToUpdateSaleItemCommand(x)) {
      WebUpdateSaleItemRequestValidator.AgreesWithCommandValidator(x);
    }
    ForEachAgreesThroughMap("Items", r.items, WebUpdateSaleItemRequestValidator.ValidateItem, ToUpdateSaleItemCommand, UpdateSaleCommandValidator.ValidateItem, 0);
  }

  /** The body's `Id` is never checked: `Guid.Empty` there passes as well as any other. */
  lemma IdNotChecked(r: UpdateSaleRequest, id: Guid)
    ensures ValidateRequest(r.(id := id)) == ValidateRequest(r)
    ensures ValidateRequest(r.(id := Empty)) == ValidateRequest(r)
  {
  }
}
