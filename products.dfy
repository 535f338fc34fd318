/** The product catalog (`src/products/products.service.ts`): product
    records, the queries over the product table, and `ProductsService`, whose
    `create`, `update` and `delete` change the table in place. The table is a
    map from id to row; slugify is the service's `generate` oracle. */
module Products {
  import opened Common
  import opened SlugGenerator

  datatype Product = Product(id: Id, title: string, photo: string, price: int, slug: string)

  /** `CreateProductDTO`: everything but the slug is required. */
  datatype CreateProductData = CreateProductData(title: string, photo: string, price: int, slug: Option<string>)

  /** `UpdateProductDTO`: every field is optional; `None` is a field the
      request leaves out, which the update does not write. */
  datatype UpdateProductData = UpdateProductData(title: Option<string>, photo: Option<string>,
                                                 price: Option<int>, slug: Option<string>)

  type Store = map<Id, Product>

  const ProductNotFound := "Product with that id has not been found"

  /** Every row is stored under its own primary key. */
  ghost predicate Keyed(store: Store)
  {
    forall id :: id in store ==> store[id].id == id
  }

  /** `findBy({ id: In(ids) })`: the stored products whose id is listed.
      Unknown ids are skipped and repeated ids give one row, so the result
      can be smaller than the list; the rows come back in no particular
      order, hence a set. */
  function FindByIds(store: Store, ids: seq<Id>): (found: set<Product>)
    requires Keyed(store)
    ensures forall p :: p in found ==> p.id in ids && p.id in store && store[p.id] == p
    ensures forall i :: 0 <= i < |ids| && ids[i] in store ==> store[ids[i]] in found
  {
    set id | id in ids && id in store :: store[id]
  }

  /** The query never returns more rows than ids were asked for. */
  lemma {:induction false} FindByIdsBounded(store: Store, ids: seq<Id>)
    requires Keyed(store)
    ensures |FindByIds(store, ids)| <= |ids|
  {
    if ids != [] {
      FindByIdsBounded(store, ids[1..]);
      var rest := FindByIds(store, ids[1..]);
      var head := if ids[0] in store then {store[ids[0]]} else {};
      assert FindByIds(store, ids) <= rest + head by {
        forall p | p in FindByIds(store, ids) ensures p in rest + head {
          if p.id != ids[0] {
            var k :| 0 <= k < |ids| && ids[k] == p.id;
            assert ids[1..][k - 1] == p.id;
          }
        }
      }
      SubsetCardinality(FindByIds(store, ids), rest + head);
    }
  }

  lemma SubsetCardinality<T>(a: set<T>, b: set<T>)
    requires a <= b
    ensures |a| <= |b|
  {
    assert b == a + (b - a);
  }

  /** `findOne({ where: { id } })`. */
  function FindOneById(store: Store, id: Id): (r: Option<Product>)
    requires Keyed(store)
    ensures r.Some? <==> id in store
    ensures r.Some? ==> r.value.id == id && r.value in store.Values
  {
    if id in store then Some(store[id]) else None
  }

  /** `findOne({ where: { slug } })`: some product with that slug, or null.
      The product table has no unique constraint on slug, so which of several
      matching rows comes back is the database's choice. */
  ghost function FindOneBySlug(store: Store, slug: string): (r: Option<Product>)
    ensures r.Some? <==> exists id :: id in store && store[id].slug == slug
    ensures r.Some? ==> r.value.slug == slug && r.value in store.Values
  {
    if exists id :: id in store && store[id].slug == slug then
      var id :| id in store && store[id].slug == slug;
      Some(store[id])
    else None
  }

  /** `find({ where: { title } })`: exactly the products with that title. */
  function FindByTitle(store: Store, title: string): (found: set<Product>)
    ensures forall p :: p in found <==> p in store.Values && p.title == title
  {
    set id | id in store && store[id].title == title :: store[id]
  }

  /** `productsRepo.create({ ...productData, slug: productData.slug ??
      generate(productData.title) })`, with the id that saving assigns. */
  function BuildProduct(id: Id, data: CreateProductData, generate: string -> string): (p: Product)
    ensures p.id == id && p.title == data.title && p.photo == data.photo && p.price == data.price
    ensures data.slug.Some? ==> p.slug == data.slug.value
    ensures data.slug.None? ==> p.slug == generate(data.title)
  {
    var slug := match data.slug
      case Some(s) => s
      case None => generate(data.title);
    Product(id, data.title, data.photo, data.price, slug)
  }

  /** `??` only replaces null/undefined: a provided empty slug is kept, while
      the truthiness test of `updateSlugByTitle` would have skipped it. */
  lemma EmptySlugKeptOnCreate(id: Id, title: string, photo: string, price: int, generate: string -> string)
    ensures BuildProduct(id, CreateProductData(title, photo, price, Some("")), generate).slug == ""
  {
  }

  /** The row written by `update({ id }, { ...dataToUpdate, slug })`: the
      fields the request provides, the resolved slug, and the old values of
      everything else. */
  function ApplyUpdate(p: Product, data: UpdateProductData, slug: string): (q: Product)
    ensures q.id == p.id && q.slug == slug
    ensures data.title.None? ==> q.title == p.title
    ensures data.title.Some? ==> q.title == data.title.value
    ensures data.photo.None? ==> q.photo == p.photo
    ensures data.photo.Some? ==> q.photo == data.photo.value
    ensures data.price.None? ==> q.price == p.price
    ensures data.price.Some? ==> q.price == data.price.value
  {
    Product(p.id,
            match data.title case Some(t) => t case None => p.title,
            match data.photo case Some(f) => f case None => p.photo,
            match data.price case Some(n) => n case None => p.price,
            slug)
  }

  /** The row `update(id, data)` leaves behind for a stored product `p`. */
  function Updated(p: Product, data: UpdateProductData, generate: string -> string): (q: Product)
    ensures q.id == p.id
    ensures q.slug == UpdateSlugByTitle(data.slug, data.title, p.title, p.slug, generate)
  {
    ApplyUpdate(p, data, UpdateSlugByTitle(data.slug, data.title, p.title, p.slug, generate))
  }

  /** Repeating the same update changes nothing more: `update` is
      idempotent. */
  lemma UpdateIdempotent(p: Product, data: UpdateProductData, generate: string -> string)
    ensures Updated(Updated(p, data, generate), data, generate) == Updated(p, data, generate)
  {
  }

  /** A slug that was generated from the title follows later title changes,
      as long as no slug is provided and the new title is not empty. */
  lemma AutoSlugFollowsTitle(p: Product, data: UpdateProductData, generate: string -> string)
    requires AutoGenerated(p.title, p.slug, generate)
    requires !Truthy(data.slug) && data.title != Some("")
    ensures var q := Updated(p, data, generate); AutoGenerated(q.title, q.slug, generate)
  {
  }

  /** An empty new title is falsy, so the slug is not regenerated, yet the
      spread still writes the empty title: an auto-generated slug then no
      longer matches its title (shown with slugify replaced by the
      identity). */
  lemma EmptyTitleDetachesAutoSlug()
    ensures var g := (s: string) => s;
      var p := Product("p1", "Lamp", "photo", 300, "Lamp");
      var q := Updated(p, UpdateProductData(Some(""), None, None, None), g);
      AutoGenerated(p.title, p.slug, g) && q.title == "" && !AutoGenerated(q.title, q.slug, g)
  {
  }

  class ProductsService {
    var products: Store
    const generate: string -> string

    ghost predicate Valid()
      reads this
    {
      Keyed(products)
    }

    constructor (generate: string -> string)
      ensures Valid() && products == map[] && this.generate == generate
    {
      products := map[];
      this.generate := generate;
    }

    /** `create`: builds the row with the default slug, saves it under the
        id the database generates (`newId`), and returns what `save`
        returns, the stored row. */
    method Create(data: CreateProductData, newId: Id) returns (saved: Product)
      requires Valid() && newId !in products
      modifies this
      ensures Valid()
      ensures saved == BuildProduct(newId, data, generate)
      ensures products == old(products)[newId := saved]
    {
      var product := BuildProduct(newId, data, generate);
      products := products[newId := product];
      saved := products[newId];
    }

    /** `update`: fails on an unknown id; otherwise writes the provided
        fields and the resolved slug, then returns the re-read row. */
    method Update(id: Id, data: UpdateProductData) returns (r: Result<Product>)
      requires Valid()
      modifies this
      ensures Valid()
      ensures id !in old(products) ==>
        r == Err(BadRequest(ProductNotFound)) && products == old(products)
      ensures id in old(products) ==>
        r == Ok(Updated(old(products)[id], data, generate)) &&
        products == old(products)[id := r.value]
    {
      var product := FindOneById(products, id);
      if product.None? {
        return Err(BadRequest(ProductNotFound));
      }
      var slug := UpdateSlugByTitle(data.slug, data.title, product.value.title, product.value.slug, generate);
      products := products[id := ApplyUpdate(product.value, data, slug)];
      var reread := FindOneById(products, id);
      r := Ok(reread.value);
    }

    /** `delete`: `storeFails` stands for the repository's `delete`
        rejecting; the failure is swallowed into `false`. Deleting an id
        that is not stored succeeds. */
    method Delete(id: Id, storeFails: bool) returns (deleted: bool)
      requires Valid()
      modifies this
      ensures Valid()
      ensures deleted == !storeFails
      ensures products == if storeFails then old(products) else old(products) - {id}
    {
      if storeFails {
        return false;
      }
      products := products - {id};
      return true;
    }
  }
}
