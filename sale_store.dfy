/**
 * The sale repository as the handlers see it: a map from sale id to the stored sale, with
 * a log of the calls made on it so that a contract can say which calls a handler issued.
 */
module SaleStore {
  import opened Results
  import opened Guids
  import opened Entities

  datatype StoreCall = GetById(id: Guid) | Update(id: Guid) | Create(sale: SaleData)

  datatype StoreError =
    | KeyNotFound(id: Guid)    // `UpdateAsync` on an id that is not stored
    | DuplicateKey(id: Guid)   // `CreateAsync` of a sale whose key is already stored

  class SaleRepository {
    var sales: map<Guid, SaleData>
    var calls: seq<StoreCall>

    /** Every sale is stored under its own id. */
    predicate Valid()
      reads this
    {
      forall k :: k in sales ==> sales[k].id == k
    }

    constructor (initial: map<Guid, SaleData>)
      requires forall k :: k in initial ==> initial[k].id == k
      ensures Valid() && sales == initial && calls == []
    {
      sales := initial;
      calls := [];
    }

    /** `GetByIdAsync`: a new object holding the stored sale, or null when none is stored. */
    method GetByIdAsync(id: Guid) returns (sale: Sale?)
      modifies this
      ensures sales == old(sales) && calls == old(calls) + [GetById(id)]
      ensures sale == null <==> id !in sales
      ensures sale != null ==> fresh(sale) && sale.Data() == sales[id]
    {
      calls := calls + [GetById(id)];
      if id in sales {
        sale := new Sale.FromData(sales[id]);
      } else {
        sale := null;
      }
    }

    /** `UpdateAsync`: overwrite the stored sale with the given one, or fail with
        `KeyNotFound` when nothing is stored under `id`. The key itself cannot change. */
    method UpdateAsync(id: Guid, sale: Sale) returns (r: Result<SaleData, StoreError>)
      requires Valid() && sale.id == id
      modifies this
      ensures Valid()
      ensures calls == old(calls) + [Update(id)]
      ensures id !in old(sales) ==> r == Failure(KeyNotFound(id)) && sales == old(sales)
      ensures id in old(sales) ==> r == Success(sale.Data()) && sales == old(sales)[id := sale.Data()]
    {
      calls := calls + [Update(id)];
      if id !in sales {
        return Failure(KeyNotFound(id));
      }
      sales := sales[id := sale.Data()];
      r := Success(sale.Data());
    }

    /** `CreateAsync`: add the sale. A sale whose id is `Guid.Empty` receives the key the
        store generates, `generatedKey`; adding a key that is already stored fails. */
    method CreateAsync(sale: Sale, generatedKey: Guid) returns (r: Result<SaleData, StoreError>)
      requires Valid()
      modifies this, sale
      ensures Valid()
      ensures var key := if old(sale.id) == Empty then generatedKey else old(sale.id);
        && calls == old(calls) + [Create(old(sale.Data()))]
        && (key in old(sales) ==> r == Failure(DuplicateKey(key)) && sales == old(sales) && sale.Data() == old(sale.Data()))
        && (key !in old(sales) ==>
              && sale.Data() == old(sale.Data()).(id := key)
              && r == Success(sale.Data())
              && sales == old(sales)[key := sale.Data()])
    {
      calls := calls + [Create(sale.Data())];
      var key := if sale.id == Empty then generatedKey else sale.id;
      if key in sales {
        return Failure(DuplicateKey(key));
      }
      sale.id := key;
      sales := sales[key := sale.Data()];
      r := Success(sale.Data());
    }
  }
}
