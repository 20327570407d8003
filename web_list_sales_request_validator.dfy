/** ListSalesRequestValidator of the web layer. */
module WebListSalesRequestValidator {
  import opened FluentRules
  import opened SaleRequests
  import ListSaleValidator

  function ValidateRequest(r: ListSaleRequest): Failures {
    Above("Page", r.page as real, 0.0)
    + Between("PageSize", r.pageSize, 1, 100)
    + (if r.startDate.Some? then NotBefore("EndDate", r.endDate, "StartDate", r.startDate.value) else [])
  }

  lemma AgreesWithCommandValidator(r: ListSaleRequest)
    ensures ValidateRequest(r) == ListSaleValidator.ValidateCommand(ToListSaleCommand(r))
  {
  }

  /** A request left at its defaults (page 1 of 10, no dates, no filters) passes both the
      web validator and the command validator. */
  lemma DefaultRequestAccepted()
    ensures ValidateRequest(DefaultListSaleRequest) == []
    ensures ListSaleValidator.ValidateCommand(ToListSaleCommand(DefaultListSaleRequest)) == []
  {
  }
}
