/**
 * The web-layer request bodies (CreateSaleRequest, UpdateSaleRequest, ListSaleRequest) and
 * the field-for-field copies into the application commands that the controller's mapper
 * performs.
 */
module SaleRequests {
  import opened Results
  import opened Numbers
  import opened Guids
  import opened DateTimes
  import opened SaleCommands
  import opened FluentRules

  datatype CreateSaleItemRequest = CreateSaleItemRequest(productId: string, productName: string, quantity: Int32, unitPrice: real)

  datatype CreateSaleRequest = CreateSaleRequest(
    customerId: string,
    customerName: string,
    branchId: string,
    branchName: string,
    items: seq<CreateSaleItemRequest>)

  datatype UpdateSaleItemRequest = UpdateSaleItemRequest(productId: Guid, productName: string, quantity: Int32, unitPrice: real)

  datatype UpdateSaleRequest = UpdateSaleRequest(
    id: Guid,
    customerId: string,
    customerName: string,
    branchId: string,
    branchName: string,
    items: seq<UpdateSaleItemRequest>)

  datatype ListSaleRequest = ListSaleRequest(
    startDate: Option<DateTime>,
    endDate: Option<DateTime>,
    customerId: Option<Guid>,
    branchId: Option<Guid>,
    page: Int32,
    pageSize: Int32)

  /** `new ListSaleRequest()`: no filters, `Page = 1`, `PageSize = 10`. */
  const DefaultListSaleRequest := ListSaleRequest(None, None, None, None, 1, 10)

  function ToSaleItemCommand(r: CreateSaleItemRequest): SaleItemCommand {
    SaleItemCommand(r.productId, r.productName, r.quantity, r.unitPrice)
  }

  function ToCreateSaleCommand(r: CreateSaleRequest): CreateSaleCommand {
    CreateSaleCommand(r.customerId, r.customerName, r.branchId, r.branchName,
      MapSeq(r.items, ToSaleItemCommand))
  }

  function ToUpdateSaleItemCommand(r: UpdateSaleItemRequest): UpdateSaleItemCommand {
    UpdateSaleItemCommand(r.productId, r.productName, r.quantity, r.unitPrice)
  }

  /** The controller overwrites the command's `Id` with the route id after mapping. */
  function ToUpdateSaleCommand(r: UpdateSaleRequest, routeId: Guid): UpdateSaleCommand {
    UpdateSaleCommand(routeId, r.customerId, r.customerName, r.branchId, r.branchName,
      MapSeq(r.items, ToUpdateSaleItemCommand))
  }

  function ToListSaleCommand(r: ListSaleRequest): ListSaleCommand {
    ListSaleCommand(r.startDate, r.endDate, r.customerId, r.branchId, r.page, r.pageSize)
  }
}
