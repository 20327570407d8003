/** CreateSaleRequestValidator of the web layer. */
module WebCreateSaleRequestValidator {
  import opened Results
  import opened FluentRules
  import opened SaleRequests
  import WebSaleItemValidator
  import CreateSaleValidator

  const EmptyItemsMessage: string := "A sale must have at least one item."

  function ValidateRequest(r: CreateSaleRequest): Failures {
    NotEmptyText("CustomerId", r.customerId)
    + NotEmptyText("CustomerName", r.customerName) + LengthBetween("CustomerName", r.customerName, 3, 100)
    + NotEmptyText("BranchId", r.branchId)
    + NotEmptyText("BranchName", r.branchName) + LengthBetween("BranchName", r.branchName, 3, 100)
    + NotEmptyList("Items", |r.items|, Some(EmptyItemsMessage))
    + ForEach("Items", r.items, WebSaleItemValidator.ValidateItem, 0)
  }

  /** The request validator reports exactly the failures the command validator reports
      for the command the controller maps the request to, so a request the web layer
      accepts is never rejected by the application layer, and conversely. */
  lemma {:induction false} AgreesWithCommandValidator(r: CreateSaleRequest)
    ensures ValidateRequest(r) == CreateSaleValidator.ValidateCommand(ToCreateSaleCommand(r))
  {
    forall x ensures WebSaleItemValidator.ValidateItem(x) == CreateSaleValidator.ValidateItem(ToSaleItemCommand(x)) {
      WebSaleItemValidator.AgreesWithCommandValidator(x);
    }
    ForEachAgreesThroughMap("Items", r.items, WebSaleItemValidator.ValidateItem, ToSaleItemCommand, CreateSaleValidator.ValidateItem, 0);
  }

  /** Hence a request passes exactly when its mapped command meets the create rule table. */
  lemma RequestPassesIff(r: CreateSaleRequest)
    ensures ValidateRequest(r) == [] <==> CreateSaleValidator.IsAcceptableCommand(ToCreateSaleCommand(r))
  {
    AgreesWithCommandValidator(r);
    CreateSaleValidator.CommandPassesIff(ToCreateSaleCommand(r));
  }
}
