/**
 * Partial product update: update_product keeps only the fields of the
 * request body that are present (not None) and sets those, plus a new
 * `updated_at`, on the stored product.
 */
module Products {
  import opened Records

  /** An update field turns `before` into `after`: the supplied value if there is one, else unchanged. */
  predicate Takes<T(==)>(supplied: Option<T>, before: T, after: T)
  {
    match supplied
    case Some(v) => after == v
    case None => after == before
  }

  /** The request body that supplies no field. */
  const NoChange: ProductUpdate := ProductUpdate(None, None, None, None, None, None, None, None, None, None, None)

  function Pick<T>(supplied: Option<T>, current: T): T
  {
    match supplied
    case Some(v) => v
    case None => current
  }

  /** The product after update_product: supplied fields overwritten, the rest kept, `updated_at` set. */
  function ApplyUpdate(p: Product, u: ProductUpdate, now: int): (r: Product)
    ensures (r.id, r.createdAt, r.updatedAt) == (p.id, p.createdAt, now)
    ensures && Takes(u.name, p.name, r.name)
            && Takes(u.description, p.description, r.description)
            && Takes(u.price, p.price, r.price)
            && Takes(u.stock, p.stock, r.stock)
            && Takes(u.sku, p.sku, r.sku)
            && Takes(u.categoryId, p.categoryId, r.categoryId)
            && Takes(u.images, p.images, r.images)
            && Takes(u.isActive, p.isActive, r.isActive)
            && Takes(u.unit, p.unit, r.unit)
            && Takes(u.brand, p.brand, r.brand)
            && Takes(u.specifications, p.specifications, r.specifications)
    ensures u == NoChange ==> r == p.(updatedAt := now)
  {
    p.(name := Pick(u.name, p.name),
       description := Pick(u.description, p.description),
       price := Pick(u.price, p.price),
       stock := Pick(u.stock, p.stock),
       sku := Pick(u.sku, p.sku),
       categoryId := Pick(u.categoryId, p.categoryId),
       images := Pick(u.images, p.images),
       isActive := Pick(u.isActive, p.isActive),
       unit := Pick(u.unit, p.unit),
       brand := Pick(u.brand, p.brand),
       specifications := Pick(u.specifications, p.specifications),
       updatedAt := now)
  }

  /** Sending the same update twice at the same instant is the same as sending it once. */
  lemma ApplyUpdateIdempotent(p: Product, u: ProductUpdate, now: int)
    ensures ApplyUpdate(ApplyUpdate(p, u, now), u, now) == ApplyUpdate(p, u, now)
  {
  }
}
