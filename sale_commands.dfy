/**
 * The application-layer commands handed to the sale handlers (CreateSaleCommand,
 * UpdateSaleCommand, ListSaleCommand), field for field. Amounts are C# `decimal`,
 * which is exact base-10 arithmetic and is modelled by `real`.
 */
module SaleCommands {
  import opened Results
  import opened Numbers
  import opened Guids
  import opened DateTimes

  /** One requested line of a new sale; the product id is still text. */
  datatype SaleItemCommand = SaleItemCommand(productId: string, productName: string, quantity: Int32, unitPrice: real)

  datatype CreateSaleCommand = CreateSaleCommand(
    customerId: string,
    customerName: string,
    branchId: string,
    branchName: string,
    items: seq<SaleItemCommand>)

  /** `new CreateSaleCommand()`: every string empty, no items. */
  const DefaultCreateSaleCommand := CreateSaleCommand("", "", "", "", [])

  /** One requested line of an update; the product id is already a `Guid`. */
  datatype UpdateSaleItemCommand = UpdateSaleItemCommand(productId: Guid, productName: string, quantity: Int32, unitPrice: real)

  datatype UpdateSaleCommand = UpdateSaleCommand(
    id: Guid,
    customerId: string,
    customerName: string,
    branchId: string,
    branchName: string,
    items: seq<UpdateSaleItemCommand>)

  datatype ListSaleCommand = ListSaleCommand(
    startDate: Option<DateTime>,
    endDate: Option<DateTime>,
    customerId: Option<Guid>,
    branchId: Option<Guid>,
    page: Int32,
    pageSize: Int32)

  /** `new ListSaleCommand()`: no filters, `Page` and `PageSize` both 0. */
  const DefaultListSaleCommand := ListSaleCommand(None, None, None, None, 0, 0)
}
