/**
 * The sale aggregate. A `SaleItem` is a line record kept in the sale's item list; a `Sale`
 * is the object the handlers edit in place, and `SaleData` is a snapshot of its fields,
 * the form in which the store keeps sales and the handlers return them.
 */
module Entities {
  import opened Numbers
  import opened Guids
  import opened DateTimes

  datatype SaleItem = SaleItem(
    id: Guid,
    saleId: Guid,
    productId: Guid,
    productName: string,
    quantity: Int32,
    unitPrice: real,
    discount: real,
    totalAmount: real)

  datatype SaleData = SaleData(
    id: Guid,
    saleNumber: string,
    saleDate: DateTime,
    customerId: Guid,
    customerName: string,
    branchId: Guid,
    branchName: string,
    totalAmount: real,
    isCancelled: bool,
    items: seq<SaleItem>)

  /** `new Sale()`: empty ids and strings, `DateTime.MinValue`, no items. */
  const NewSaleData := SaleData(Empty, "", MinValue, Empty, "", Empty, "", 0.0, false, [])

  /** The product ids of a list of lines, in list order. */
  function Pids(items: seq<SaleItem>): (r: seq<Guid>)
    ensures |r| == |items| && forall i :: 0 <= i < |items| ==> r[i] == items[i].productId
  {
    seq(|items|, i requires 0 <= i < |items| => items[i].productId)
  }

  lemma PidsAppend(a: seq<SaleItem>, b: seq<SaleItem>)
    ensures Pids(a + b) == Pids(a) + Pids(b)
  {
  }

  class Sale {
    var id: Guid
    var saleNumber: string
    var saleDate: DateTime
    var customerId: Guid
    var customerName: string
    var branchId: Guid
    var branchName: string
    var totalAmount: real
    var isCancelled: bool
    var items: seq<SaleItem>

    /** The current state of the object as a value. */
    function Data(): SaleData
      reads this
    {
      SaleData(id, saleNumber, saleDate, customerId, customerName, branchId, branchName, totalAmount, isCancelled, items)
    }

    /** A sale object holding the fields of `d`. */
    constructor FromData(d: SaleData)
      ensures Data() == d
    {
      id := d.id;
      saleNumber := d.saleNumber;
      saleDate := d.saleDate;
      customerId := d.customerId;
      customerName := d.customerName;
      branchId := d.branchId;
      branchName := d.branchName;
      totalAmount := d.totalAmount;
      isCancelled := d.isCancelled;
      items := d.items;
    }
  }
}
