/** The older catalog service (`src/app/products/products.service.ts`),
    the one the products end-to-end test drives. It imports its own product
    entity and slug generator, which are not part of this model; they are
    taken to behave like the current ones, so this service reuses the
    product record, the queries and the slug rule of `Products` and
    `SlugGenerator`. Its `create` returns the entity it built rather than
    `save`'s result. */
module LegacyProducts {
  import opened Common
  import opened SlugGenerator
  import opened Products

  class LegacyProductsService {
    var products: Store
    const generate: string -> string

    ghost predicate Valid()
      reads this
    {
      Keyed(products)
    }

    constructor (generate: string -> string)
      ensures Valid() && products == map[] && this.generate == generate
    {
      products := map[];
      this.generate := generate;
    }

    /** `create`: `save` assigns the generated id (`newId`) to the built
        entity in place, and that entity is what is returned. */
    method Create(data: CreateProductData, newId: Id) returns (built: Product)
      requires Valid() && newId !in products
      modifies this
      ensures Valid()
      ensures built == BuildProduct(newId, data, generate)
      ensures products == old(products)[newId := built]
    {
      built := BuildProduct(newId, data, generate);
      products := products[newId := built];
    }

    /** `update`: fails on an unknown id; otherwise merges the provided
        fields with the resolved slug and returns the re-read row. */
    method Update(id: Id, data: UpdateProductData) returns (r: Result<Product>)
      requires Valid()
      modifies this
      ensures Valid()
      ensures id !in old(products) ==>
        r == Err(BadRequest(ProductNotFound)) && products == old(products)
      ensures id in old(products) ==>
        r == Ok(Updated(old(products)[id], data, generate)) &&
        products == old(products)[id := r.value]
    {
      var product := FindOneById(products, id);
      if product.None? {
        return Err(BadRequest(ProductNotFound));
      }
      var slug := UpdateSlugByTitle(data.slug, data.title, product.value.title, product.value.slug, generate);
      products := products[id := ApplyUpdate(product.value, data, slug)];
      var reread := FindOneById(products, id);
      r := Ok(reread.value);
    }

    /** `delete`: a rejected repository delete (`storeFails`) becomes
        `false`; otherwise the row is gone and the answer is `true`. */
    method Delete(id: Id, storeFails: bool) returns (deleted: bool)
      requires Valid()
      modifies this
      ensures Valid()
      ensures deleted == !storeFails
      ensures products == if storeFails then old(products) else old(products) - {id}
    {
      if storeFails {
        return false;
      }
      products := products - {id};
      return true;
    }
  }

  /** The end-to-end update scenarios, with slugify as a parameter: a slug
      generated from the old title is regenerated from the new one, a
      hand-set slug survives the title change, and a price/photo update
      leaves title and slug alone. */
  lemma EndToEndUpdateScenarios(generate: string -> string, id: Id)
    requires generate("some Title test") != "not-generated-slug"
    ensures var auto := Product(id, "some Title test", "photo", 300, generate("some Title test"));
      Updated(auto, UpdateProductData(Some("new title updated"), None, None, None), generate)
        == auto.(title := "new title updated", slug := generate("new title updated"))
    ensures var manual := Product(id, "some Title test", "photo", 300, "not-generated-slug");
      Updated(manual, UpdateProductData(Some("new title updated"), None, None, None), generate)
        == manual.(title := "new title updated")
    ensures var other := Product(id, "some Title test", "photo", 300, "some-slug");
      Updated(other, UpdateProductData(None, Some("new-photo"), Some(1000), None), generate)
        == other.(photo := "new-photo", price := 1000)
  {
  }
}
