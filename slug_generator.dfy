/** `SlugGeneratorService`. `generate` is the slugify library, kept
    uninterpreted: every operation takes it as a parameter. `updateSlugByTitle`
    decides which slug a partial update stores. */
module SlugGenerator {
  import opened Common

  /** JavaScript truthiness of an optional string field: absent and `""`
      are both falsy. */
  predicate Truthy(field: Option<string>)
  {
    field.Some? && field.value != ""
  }

  /** The stored slug still equals the slug of the stored title, which is how
      the service recognises a slug it generated itself. */
  predicate AutoGenerated(title: string, slug: string, generate: string -> string)
  {
    generate(title) == slug
  }

  /** `updateSlugByTitle(dataToUpdate, entity)`: a provided slug wins; a new
      title regenerates the slug only when the entity's slug was
      auto-generated; otherwise the entity keeps its slug. */
  function UpdateSlugByTitle(newSlug: Option<string>, newTitle: Option<string>,
                             title: string, slug: string,
                             generate: string -> string): (result: string)
    ensures Truthy(newSlug) ==> result == newSlug.value
    ensures !Truthy(newSlug) && Truthy(newTitle) && AutoGenerated(title, slug, generate) ==>
      result == generate(newTitle.value)
    ensures !Truthy(newSlug) && !(Truthy(newTitle) && AutoGenerated(title, slug, generate)) ==>
      result == slug
  {
    if Truthy(newSlug) then newSlug.value
    else if Truthy(newTitle) && generate(title) == slug then generate(newTitle.value)
    else slug
  }

  /** The resolved slug is always the provided one, the one generated from
      the new title, or the stored one. */
  lemma ResolvedSlugIsOneOfThree(newSlug: Option<string>, newTitle: Option<string>,
                                 title: string, slug: string, generate: string -> string)
    ensures var r := UpdateSlugByTitle(newSlug, newTitle, title, slug, generate);
      (newSlug.Some? && r == newSlug.value) ||
      (newTitle.Some? && r == generate(newTitle.value)) ||
      r == slug
  {
  }

  /** A hand-set slug (one that differs from the slug of the stored title)
      is never replaced unless a non-empty slug is provided. */
  lemma HandSetSlugKept(newSlug: Option<string>, newTitle: Option<string>,
                        title: string, slug: string, generate: string -> string)
    requires !AutoGenerated(title, slug, generate) && !Truthy(newSlug)
    ensures UpdateSlugByTitle(newSlug, newTitle, title, slug, generate) == slug
  {
  }

  /** The result is independent of `generate` whenever a slug is provided or
      no title is: slugify is consulted only for a non-empty new title. */
  lemma GenerateConsultedOnlyForNewTitle(newSlug: Option<string>, newTitle: Option<string>,
                                         title: string, slug: string,
                                         g1: string -> string, g2: string -> string)
    requires Truthy(newSlug) || !Truthy(newTitle)
    ensures UpdateSlugByTitle(newSlug, newTitle, title, slug, g1) ==
            UpdateSlugByTitle(newSlug, newTitle, title, slug, g2)
  {
  }

  /** The unit-test cases, with slugify replaced by `s + "_slug"`. */
  lemma UpdateSlugExamples()
    ensures var g := (s: string) => s + "_slug";
      UpdateSlugByTitle(None, Some("new-product"), "product", "product_slug", g) == "new-product_slug" &&
      UpdateSlugByTitle(None, Some("new-product"), "product", "slug_that_not_generated", g) == "slug_that_not_generated" &&
      UpdateSlugByTitle(Some("provided_slug"), Some("new-product"), "product", "product_slug", g) == "provided_slug" &&
      UpdateSlugByTitle(None, None, "product", "product_slug", g) == "product_slug"
  {
  }
}
