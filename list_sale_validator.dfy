/**
 * ListSaleValidator (application layer): paging bounds and, when a start date is given,
 * an end date not before it.
 */
module ListSaleValidator {
  import opened Results
  import opened Guids
  import opened DateTimes
  import opened FluentRules
  import opened SaleCommands

  /** The failures for a list query, in rule order. The end-date rule only runs when a
      start date is present, and passes when the end date is absent. */
  function ValidateCommand(c: ListSaleCommand): Failures {
    Above("Page", c.page as real, 0.0)
    + Between("PageSize", c.pageSize, 1, 100)
    + (if c.startDate.Some? then NotBefore("EndDate", c.endDate, "StartDate", c.startDate.value) else [])
  }

  /** The rules as one condition. */
  predicate IsAcceptableCommand(c: ListSaleCommand) {
    && c.page > 0
    && 1 <= c.pageSize <= 100
    && (c.startDate.Some? && c.endDate.Some? ==> !Before(c.endDate.value, c.startDate.value))
  }

  lemma CommandPassesIff(c: ListSaleCommand)
    ensures ValidateCommand(c) == [] <==> IsAcceptableCommand(c)
  {
  }

  /** `new ListSaleCommand()` (page 0, page size 0) fails on both paging rules and on nothing else. */
  lemma DefaultCommandRejected()
    ensures ValidateCommand(DefaultListSaleCommand)
         == [ValidationFailure("Page", GreaterThan(0.0), None), ValidationFailure("PageSize", InclusiveBetween(1, 100), None)]
  {
  }

  /** An end date before the start date is reported on `EndDate`; an open-ended range
      (start date only) is not. */
  lemma DateRangeRule(c: ListSaleCommand, start: DateTime, end: DateTime)
    requires c.page > 0 && 1 <= c.pageSize <= 100
    ensures Before(end, start) ==>
      ValidateCommand(c.(startDate := Some(start), endDate := Some(end))) == [ValidationFailure("EndDate", GreaterThanOrEqualTo("StartDate"), None)]
    ensures ValidateCommand(c.(startDate := Some(start), endDate := None)) == []
    ensures ValidateCommand(c.(startDate := None, endDate := Some(end))) == []
  {
  }

  /** The handler tests' query, page 1 of 10 over an ordered date range, passes. */
  lemma OrderedRangeAccepted(start: DateTime, end: DateTime, customerId: Guid, branchId: Guid)
    requires !Before(end, start)
    ensures ValidateCommand(ListSaleCommand(Some(start), Some(end), Some(customerId), Some(branchId), 1, 10)) == []
  {
  }
}
