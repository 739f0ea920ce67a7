/**
 * The product service (`ProductService`): create, list, read, update and
 * destroy rows of the `products` table. Rows are returned as stored; the
 * owner id a product names is not checked against anything.
 */
module ProductService {
  import opened Js
  import opened Table

  /**
   * A stored product. `price` is a DECIMAL(10, 2) column, held here as a
   * whole number of hundredths; `description` may be null.
   */
  datatype Product = Product(name: string, description: Option<string>, price: int, stock: int,
                             sku: string, userId: string, isActive: bool)

  /** The column values `createProduct` is given; a missing `stock` is 0 and a missing `isActive` is `true`. */
  datatype NewProduct = NewProduct(name: string, description: Option<string>, price: int, stock: Option<int>,
                                   sku: string, userId: string, isActive: Option<bool>)

  /** `updateData`: the fields it holds, each to be overwritten; `description` may be set to null. */
  datatype ProductPatch = ProductPatch(name: Option<string>, description: Option<Option<string>>,
                                       price: Option<int>, stock: Option<int>, sku: Option<string>,
                                       userId: Option<string>, isActive: Option<bool>)

  /** The body of `getAllProducts`. */
  datatype ProductPage = ProductPage(products: seq<Row<Product>>, pagination: Pagination)

  const NotFoundMessage := "Product not found"
  const DeletedMessage := "Product deleted successfully"

  /** The `sku` column, which has a unique index. */
  function SkuOf(p: Product): string
  {
    p.sku
  }

  /** The row `Product.create(productData)` inserts under the generated id at the current time. */
  function Inserted(id: string, now: int, data: NewProduct): (row: Row<Product>)
    ensures row.id == id && row.createdAt == now
    ensures row.attrs.name == data.name && row.attrs.description == data.description
    ensures row.attrs.price == data.price
    ensures row.attrs.sku == data.sku && row.attrs.userId == data.userId
    ensures row.attrs.stock == (if data.stock.Some? then data.stock.value else 0)
    ensures row.attrs.isActive == (data.isActive.None? || data.isActive.value)
  {
    Row(id, now, Product(data.name, data.description, data.price,
                         if data.stock.Some? then data.stock.value else 0,
                         data.sku, data.userId,
                         if data.isActive.Some? then data.isActive.value else true))
  }

  /** `product.update(updateData)` on the columns: a field the patch holds takes its value, every other keeps its own. */
  function Patched(p: Product, patch: ProductPatch): (r: Product)
    ensures patch.name.Some? ==> r.name == patch.name.value
    ensures patch.name.None? ==> r.name == p.name
    ensures patch.description.Some? ==> r.description == patch.description.value
    ensures patch.description.None? ==> r.description == p.description
    ensures patch.price.Some? ==> r.price == patch.price.value
    ensures patch.price.None? ==> r.price == p.price
    ensures patch.stock.Some? ==> r.stock == patch.stock.value
    ensures patch.stock.None? ==> r.stock == p.stock
    ensures patch.sku.Some? ==> r.sku == patch.sku.value
    ensures patch.sku.None? ==> r.sku == p.sku
    ensures patch.userId.Some? ==> r.userId == patch.userId.value
    ensures patch.userId.None? ==> r.userId == p.userId
    ensures patch.isActive.Some? ==> r.isActive == patch.isActive.value
    ensures patch.isActive.None? ==> r.isActive == p.isActive
  {
    Product(if patch.name.Some? then patch.name.value else p.name,
            if patch.description.Some? then patch.description.value else p.description,
            if patch.price.Some? then patch.price.value else p.price,
            if patch.stock.Some? then patch.stock.value else p.stock,
            if patch.sku.Some? then patch.sku.value else p.sku,
            if patch.userId.Some? then patch.userId.value else p.userId,
            if patch.isActive.Some? then patch.isActive.value else p.isActive)
  }

  /** The products table. */
  class Products {
    var rows: seq<Row<Product>>

    /** The primary key and the sku column are unique. */
    ghost predicate Valid()
      reads this
    {
      DistinctIds(rows) && UniqueColumn(rows, SkuOf)
    }

    /** An empty table. */
    constructor()
      ensures rows == [] && Valid()
    {
      rows := [];
    }

    /**
     * `createProduct(productData)`: the row is inserted and returned, for any
     * `userId`; an id or a sku already in the table raises the
     * unique-constraint error and inserts nothing.
     */
    method Create(id: string, now: int, data: NewProduct) returns (r: Result<Row<Product>>)
      requires Valid()
      modifies this
      ensures Valid()
      ensures HasId(old(rows), id) ==> r == Err(UniqueViolation("id", id)) && rows == old(rows)
      ensures !HasId(old(rows), id) && Taken(old(rows), SkuOf, data.sku, id) ==>
        r == Err(UniqueViolation("sku", data.sku)) && rows == old(rows)
      ensures !HasId(old(rows), id) && !Taken(old(rows), SkuOf, data.sku, id) ==>
        r == Ok(Inserted(id, now, data)) && rows == old(rows) + [Inserted(id, now, data)]
    {
      if Find(rows, id).Some? {
        return Err(UniqueViolation("id", id));
      }
      if exists i :: 0 <= i < |rows| && rows[i].id != id && rows[i].attrs.sku == data.sku {
        return Err(UniqueViolation("sku", data.sku));
      }
      var row := Inserted(id, now, data);
      AppendSpec(rows, row, id);
      AppendKeepsUnique(rows, row, SkuOf);
      rows := rows + [row];
      r := Ok(row);
    }

    /**
     * `getAllProducts(limit, offset)`: the page of products newest first
     * starting at `offset`, and the count of the whole table with the number
     * of pages it fills (none for an empty table).
     */
    method GetAll(limit: nat := 10, offset: nat := 0) returns (page: ProductPage)
      ensures page.products == Window(SortNewestFirst(rows), offset, limit)
      ensures page.pagination == Pagination(|rows|, limit, offset, Pages(|rows|, limit))
      ensures |page.products| == if offset >= |rows| then 0 else Min(limit, |rows| - offset)
      ensures forall i, j :: 0 <= i < j < |page.products| ==>
        page.products[i].createdAt >= page.products[j].createdAt
      ensures forall i :: 0 <= i < |page.products| ==> page.products[i] in rows
      ensures rows == [] && limit > 0 ==> page.pagination.pages == Some(0)
    {
      PageSpec(rows, offset, limit);
      page := ProductPage(Window(SortNewestFirst(rows), offset, limit),
                          Pagination(|rows|, limit, offset, Pages(|rows|, limit)));
    }

    /** `getProductById(id)`: the stored row, or "Product not found". */
    method GetById(id: string) returns (r: Result<Row<Product>>)
      ensures r.Ok? <==> HasId(rows, id)
      ensures r.Err? ==> r.error == PlainError(NotFoundMessage)
      ensures r.Ok? ==> r.value in rows && r.value.id == id
    {
      var found := Find(rows, id);
      if found.None? {
        return Err(PlainError(NotFoundMessage));
      }
      r := Ok(found.value);
    }

    /**
     * `updateProduct(id, updateData)`: the row keeps its id and creation time
     * and takes the patched fields, and is returned as updated. An absent id
     * is "Product not found" and a sku another row holds is a
     * unique-constraint error; neither changes the table.
     */
    method Update(id: string, patch: ProductPatch) returns (r: Result<Row<Product>>)
      requires Valid()
      modifies this
      ensures Valid()
      ensures !HasId(old(rows), id) ==> r == Err(PlainError(NotFoundMessage)) && rows == old(rows)
      ensures HasId(old(rows), id) ==>
        var stored := Find(old(rows), id).value;
        var updated := Row(id, stored.createdAt, Patched(stored.attrs, patch));
        if Taken(old(rows), SkuOf, updated.attrs.sku, id) then
          r == Err(UniqueViolation("sku", updated.attrs.sku)) && rows == old(rows)
        else
          r == Ok(updated) && rows == Replace(old(rows), updated) && Find(rows, id) == Some(updated)
    {
      var found := Find(rows, id);
      if found.None? {
        return Err(PlainError(NotFoundMessage));
      }
      var stored := found.value;
      var updated := Row(id, stored.createdAt, Patched(stored.attrs, patch));
      if exists i :: 0 <= i < |rows| && rows[i].id != id && rows[i].attrs.sku == updated.attrs.sku {
        return Err(UniqueViolation("sku", updated.attrs.sku));
      }
      ReplaceSpec(rows, updated, SkuOf);
      rows := Replace(rows, updated);
      r := Ok(updated);
    }

    /**
     * `deleteProduct(id)`: exactly that row is destroyed and the confirmation
     * returned; an absent id is "Product not found" and changes nothing.
     */
    method Delete(id: string) returns (r: Result<Value>)
      requires Valid()
      modifies this
      ensures Valid()
      ensures !HasId(old(rows), id) ==> r == Err(PlainError(NotFoundMessage)) && rows == old(rows)
      ensures HasId(old(rows), id) ==>
        && r == Ok(Obj(map["message" := Str(DeletedMessage)]))
        && rows == Remove(old(rows), id)
        && |rows| == |old(rows)| - 1
        && Find(rows, id) == None
    {
      var found := Find(rows, id);
      if found.None? {
        return Err(PlainError(NotFoundMessage));
      }
      RemoveOne(rows, id);
      RemoveKeepsUnique(rows, id, SkuOf);
      RemovedNotFound(rows, id);
      rows := Remove(rows, id);
      r := Ok(Obj(map["message" := Str(DeletedMessage)]));
    }
  }
}
