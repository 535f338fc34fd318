# nest-products-catalog: a Dafny model of the service logic

This project models the decision logic of a small NestJS e-commerce backend:
the order ledger with its two-flag lifecycle (`isProcessed`, `isCanceled`),
the slug-resolution rule of the slug generator, the product catalog (the
current service and the older one the end-to-end tests drive), the role
guard and `isAdmin`, and the authentication service. Each database table is
an in-memory value: products and orders are `map<Id, Record>` fields of
service classes whose methods change them in place; the user table is a
`seq<User>` in insertion order, to which registration appends. Service
errors are a `Result` carrying the exact HTTP error and message.

Foreign code is kept out of the model as parameters:

- slugify is the `generate: string -> string` function of the product services;
- bcrypt's salted `hash` is random, so `Register` receives the hash it produced (`hashed`);
- `bcrypt.compare` is a function returning `Compared(bool)` or `Threw`;
- the JWT signer is a function of the `{ userId, roles }` payload;
- the uuids the database generates are `newId` parameters, required fresh;
- a repository `delete` that rejects is the boolean `storeFails`.

Modules follow the source files: `Common`, `Users`, `AdminCheck`
(`src/shared/is-admin.ts`), `RolesGuard` (`src/auth/guards/roles.guard.ts`),
`SlugGenerator`, `Products`, `LegacyProducts` (`src/app/products`), `Orders`,
`OrderLifecycle` (properties of whole call sequences) and `Auth`.

Two properties of the code are easy to get wrong:

- Canceled and Processed are not both terminal. `cancel` never reads
  `isProcessed` (src/orders/orders.service.ts:79-86), so a processed order
  can still be canceled and then carries both flags
  (`OrderLifecycle.ProcessedOrderCanStillBeCanceled`). What does hold is
  that neither flag is ever cleared, and that an order canceled before it
  was processed is never processed (`OrderLifecycle.RunEvolves`).
- Product slugs are not unique. Neither product entity declares a unique
  constraint on `slug` (src/products/product.entity.ts:22-23), so
  `findOneBySlug` may find any one of several rows.

One edge of the update rule is worth knowing. An empty new title is falsy,
so the slug is not regenerated. The spread still writes the empty title, so
an auto-generated slug stops matching its title
(`Products.EmptyTitleDetachesAutoSlug`). With a non-empty title it always
follows (`Products.AutoSlugFollowsTitle`).

## Model

| member | source | states |
|---|---|---|
| `Users.FindOne` | src/users/users.service.ts:19-33 | finds nothing exactly when no row matches the email or username asked for; otherwise a stored matching row |
| `Users.FindOneByEmail` | src/users/users.service.ts:31-33 | null exactly when no row has the email; otherwise a stored row with that email |
| `Users.FindOneByUsername` | src/users/users.service.ts:28-30 | null exactly when no row has the username; otherwise a stored row with that username |
| `Users.FindOneByEmailUnique` | src/users/user.entity.ts:24-28 | with unique emails, looking up any stored user's email returns that very user |
| `AdminCheck.Includes` | src/shared/is-admin.ts:4 | the left-to-right `includes` scan answers true exactly when the role is in the array |
| `AdminCheck.IsAdmin` | src/shared/is-admin.ts:4 | true iff `Role.Admin` is among the user's roles |
| `AdminCheck.IsAdminDependsOnlyOnRoleSet` | src/shared/is-admin.ts:4 | two users holding the same roles get the same answer, whatever the order, duplicates or other fields |
| `AdminCheck.IsAdminExamples` | src/shared/is-admin.spec.ts:7-17 | `[User, Admin]` and `[Admin]` are admins; `[User]` is not |
| `RolesGuard.SomeHeld` | src/auth/guards/roles.guard.ts:22 | `some` over the required roles is true iff some required role is held |
| `RolesGuard.Authorize` | src/auth/guards/roles.guard.ts:11-23 | no metadata allows; holding Admin allows; otherwise allowed iff required and held roles intersect |
| `RolesGuard.EmptyRequiredAdmitsOnlyAdmins` | src/auth/guards/roles.guard.ts:17-22 | present but empty metadata is not absent metadata: only admins pass |
| `RolesGuard.AuthorizeMonotonic` | src/auth/guards/roles.guard.ts:21-22 | holding more roles never turns an allow into a deny |
| `RolesGuard.RouteOutcomes` | src/orders/orders.controller.ts:29-76 | a User-only caller is refused on Admin routes and admitted on User routes; an admin is admitted on both |
| `SlugGenerator.UpdateSlugByTitle` | src/shared/slug-generator.service.ts:8-16 | a truthy provided slug wins; a truthy new title regenerates only an auto-generated slug; otherwise the stored slug |
| `SlugGenerator.ResolvedSlugIsOneOfThree` | src/shared/slug-generator.service.ts:12-15 | the result is always the provided slug, the new title's slug or the stored slug |
| `SlugGenerator.HandSetSlugKept` | src/shared/slug-generator.service.ts:13-15 | a hand-set slug survives any update that provides no truthy slug |
| `SlugGenerator.GenerateConsultedOnlyForNewTitle` | src/shared/slug-generator.service.ts:12-14 | with a truthy provided slug or no truthy title, the result does not depend on slugify |
| `SlugGenerator.UpdateSlugExamples` | src/shared/slug-generator.service.spec.ts:35-79 | the four unit-test cases, with slugify replaced by `s + "_slug"` |
| `Products.FindByIds` | src/products/products.service.ts:23-25 | exactly the stored products whose id is listed; unknown ids are skipped |
| `Products.FindByIdsBounded` | src/products/products.service.ts:23-25 | the query never returns more products than ids were given |
| `Products.FindOneById` | src/products/products.service.ts:27-29 | a product iff the id is stored, and then the one keyed by that id |
| `Products.FindOneBySlug` | src/products/products.service.ts:31-33 | a stored product with that slug iff one exists, else null |
| `Products.FindByTitle` | src/products/products.service.ts:35-37 | exactly the stored products with that title |
| `Products.BuildProduct` | src/products/products.service.ts:39-43 | title, photo and price as given; slug as given when present, `generate(title)` only when absent |
| `Products.EmptySlugKeptOnCreate` | src/products/products.service.ts:42 | `??` keeps a provided empty slug |
| `Products.ApplyUpdate` | src/products/products.service.ts:51-52 | provided fields take the new values, absent ones keep the old, the slug is the resolved one, the id is unchanged |
| `Products.Updated` | src/products/products.service.ts:47-53 | the updated row keeps its id and carries the slug `updateSlugByTitle` resolves |
| `Products.UpdateIdempotent` | src/products/products.service.ts:47-53 | repeating the same update leaves the row as the first update left it |
| `Products.AutoSlugFollowsTitle` | src/products/products.service.ts:51-52 | an auto-generated slug stays auto-generated under any update without a truthy slug and without an empty title |
| `Products.EmptyTitleDetachesAutoSlug` | src/products/products.service.ts:51-52 | an empty new title is written but does not regenerate the slug, which then no longer matches it |
| `Products.ProductsService.Create` | src/products/products.service.ts:39-45 | stores exactly the built product under the new id and returns the stored row |
| `Products.ProductsService.Update` | src/products/products.service.ts:47-54 | unknown id: "Product with that id has not been found" and no change; else only that row is rewritten and the re-read row is returned |
| `Products.ProductsService.Delete` | src/products/products.service.ts:56-63 | true and the row removed, or false and nothing changed when the store fails; never an error |
| `LegacyProducts.LegacyProductsService.Create` | src/app/products/products.service.ts:33-40 | same default-slug rule; returns the built entity, which is what gets stored |
| `LegacyProducts.LegacyProductsService.Update` | src/app/products/products.service.ts:42-49 | unknown id fails with "Product with that id has not been found"; else merge plus resolved slug, re-read row returned |
| `LegacyProducts.LegacyProductsService.Delete` | src/app/products/products.service.ts:51-58 | true on success, false on store failure, never an error |
| `LegacyProducts.EndToEndUpdateScenarios` | test/products.e2e-spec.ts:220-291 | auto slug regenerated on a title change, hand-set slug kept, price/photo update leaves title and slug alone |
| `Orders.FindById` | src/orders/orders.service.ts:57-65 | the stored order iff the id is present, else null |
| `Orders.FindByIdOrFail` | src/orders/orders.service.ts:67-74 | the stored order, or "Order with provided id has not been found" |
| `Orders.FindAllByUser` | src/orders/orders.service.ts:43-55 | exactly the stored orders whose owner has the caller's id |
| `Orders.CreateStep` | src/orders/orders.service.ts:23-32 | empty resolution: "Products with provided ids have not been found", nothing stored; else a new order of the caller with exactly the resolved products and both flags false |
| `Orders.CreateSucceedsIffSomeIdResolves` | src/orders/orders.service.ts:23-31 | create succeeds iff at least one listed id is in the catalog; the order then holds every listed product that exists |
| `Orders.CancelOrder` | src/orders/orders.service.ts:79-86 | neither admin nor owner: Forbidden first; then "Order is already canceled"; else only `isCanceled` becomes true |
| `Orders.ProcessOrder` | src/orders/orders.service.ts:92-97 | "Order is already processed" first, then "Order is canceled", else only `isProcessed` becomes true |
| `Orders.CancelStep` | src/orders/orders.service.ts:76-87 | missing order fails; a failure leaves the table unchanged; a success rewrites only that order and returns it |
| `Orders.ProcessStep` | src/orders/orders.service.ts:89-99 | missing order fails; a failure leaves the table unchanged; a success rewrites only that order and returns it |
| `Orders.AfterDelete` | src/orders/orders.service.ts:101-108 | a failing store removes nothing; otherwise exactly the id is removed and all other orders are untouched |
| `Orders.StepsKeepKeyed` | src/orders/orders.service.ts:76-99 | cancel and process keep every order under its own id |
| `Orders.CancelIgnoresProcessed` | src/orders/orders.service.ts:79-86 | flipping `isProcessed` changes neither cancel's decision nor its error |
| `Orders.CancelWithoutActorNeverForbidden` | src/orders/orders.service.ts:79 | without an acting user cancel is never Forbidden |
| `Orders.OrderLedger.Create` | src/orders/orders.service.ts:23-32 | resolves the ids through the catalog and follows `CreateStep` |
| `Orders.OrderLedger.Cancel` | src/orders/orders.service.ts:76-87 | result and new table are those of `CancelStep` |
| `Orders.OrderLedger.Process` | src/orders/orders.service.ts:89-99 | result and new table are those of `ProcessStep` |
| `Orders.OrderLedger.Delete` | src/orders/orders.service.ts:101-108 | answers true iff the store does not fail; the table is `AfterDelete` of the old one |
| `OrderLifecycle.Apply` | src/orders/orders.service.ts:76-108 | no cancel, process or delete call adds an order |
| `OrderLifecycle.ApplyEvolves` | src/orders/orders.service.ts:76-99 | one call keeps id, owner and products, never clears a flag, never processes a canceled order |
| `OrderLifecycle.RunNeverAddsOrders` | src/orders/orders.service.ts:76-108 | a sequence of calls only ever removes orders |
| `OrderLifecycle.RunEvolves` | src/orders/orders.service.ts:76-99 | over any sequence of calls: owner and products fixed, flags never cleared, canceled-before-processed stays unprocessed |
| `OrderLifecycle.RunKeepsKeyed` | src/orders/orders.service.ts:76-108 | any sequence of calls keeps every order under its own id |
| `OrderLifecycle.ProcessedOrderCanStillBeCanceled` | src/orders/orders.service.ts:76-98 | process then cancel on an open order leaves it with both flags set |
| `OrderLifecycle.NonOwnerPassesGuardButIsForbidden` | src/orders/orders.controller.ts:53-59 | a User-role caller passes the cancel route's guard, yet cancel on someone else's order is Forbidden and changes nothing |
| `Auth.VerifyPassword` | src/auth/auth.service.ts:53-60 | true iff bcrypt's compare resolves with true; a throw is false |
| `Auth.GetAuthenticatedUser` | src/auth/auth.service.ts:62-81 | succeeds iff a user with the email exists and the password verifies, returning a stored user with that email; every failure is "Wrong credentials provided" |
| `Auth.TokenDependsOnlyOnIdAndRoles` | src/auth/auth.service.ts:83-85 | `signToken` (`Auth.SignToken`): only the user's id and roles enter the signed payload |
| `Auth.Login` | src/auth/auth.service.ts:87-93 | fails exactly when authentication fails, with the same error; else the signature of `{ userId, roles }` of a stored user with that email |
| `Auth.LoginIndistinguishable` | src/auth/auth.service.ts:62-78 | an unknown email and a wrong password give identical answers |
| `Auth.RegisteredUserCanLogIn` | src/auth/auth.service.ts:43-50 | after registration, logging in with the registered email and password yields a token for the new id with role User |
| `Auth.NewUser` | src/auth/auth.service.ts:45-48 | the inserted row has the new id, the given email and username, the hashed password, and the column default roles `[User]` |
| `Auth.AuthService.Register` | src/auth/auth.service.ts:22-51 | email taken: email error; else username taken: username error; both leave the table unchanged; else appends exactly one user with the hashed password and role User; uniqueness is kept |

## Left out

- Controllers, decorators, interceptors, DTO validation and the JWT strategy are framework glue. The route roles of the orders controller appear only as the constants `RolesGuard.UserRoute` and `RolesGuard.AdminRoute`.
- The `findAll` queries of the product and order services list the whole table and decide nothing.
- `hashPassword` is not modelled. Its output is the `hashed` parameter of `Register`, since bcrypt's salt makes it random.
- bcrypt, JWT signing and slugify are parameters and produce no concrete outputs.
- Apart from the email and username lookups, the users services (`findAll`, `findOneById`, `create`) are not modelled.
- The cart module and the commented-out legacy order entity are not part of this model.
- `created_at` comes from the database clock and is not modelled.
- The read-check-update race in `cancel` and `process` is not modelled. Every call is atomic and sequential.
- Exceptions from `save`, `update` and `find` propagate as server errors and are not modelled. Only the swallowed `delete` failure is modelled, as `storeFails`.
- `Orders.CreateStep`, `Orders.CreateSucceedsIffSomeIdResolves`, `Orders.FindByIdOrFail`, `Orders.OrderLedger.Create`, `Orders.OrderLedger.Cancel`, `Orders.OrderLedger.Process`, `Products.ProductsService.Update`, `LegacyProducts.LegacyProductsService.Update`: ids are taken to be uuid strings. The id columns are Postgres `uuid`, and the DTO and route parameters check ids only as strings. A non-uuid id makes the database query throw before any not-found check, which answers a server error (500) rather than the not-found 400 or an order. The model instead treats such an id as one that is not stored. The `delete` operations swallow the same error and answer `false`, which the model covers only through `storeFails`.
- Relation loading is not modelled. Every order's owner is present, so a null `order.user` is not modelled.
- `Orders.Order`, `Orders.FindById`, `Orders.FindAllByUser`: an order holds its products by value, as resolved at creation. In the source the order-product relation is re-joined against the current product rows on every read, so later catalog updates and deletes show through. In the model they do not, and what deleting a product does to the join row is not modelled. No cancel or process decision reads the products.
- Product prices are mathematical integers. JavaScript numbers, and fractions the DTO's `IsNumber` admits, are not modelled.
- `Products.FindByIds`: returns a set. The row order the database chooses is not modelled.
- `Products.FindByTitle`: returns a set. The row order of `find` is not modelled.
- `Orders.FindAllByUser`: returns a set. The row order of `find` is not modelled.
- `Products.FindOneBySlug`: which of several rows sharing a slug comes back is left unspecified, as the database leaves it.
- `LegacyProducts.LegacyProductsService.Create`: `save` writes the generated id into the built entity in place. This aliasing is modelled by value: the built record already carries `newId`.
- The legacy service's `findOneById`, `findOneBySlug` and `findByTitle` are the same queries as the current service's. The model uses `Products.FindOneById`, `Products.FindOneBySlug` and `Products.FindByTitle` for both.
- `Auth.AuthService.Register`: the request body is spread into the inserted row. Fields the DTO does not declare, such as `roles` or `id`, are not modelled; without a whitelisting validation pipe they would reach the row.
- `Products.ApplyUpdate`: the update body is spread into the written row. Fields the DTO does not declare are not modelled.
- `Products.BuildProduct`, `Products.ProductsService.Create`, `LegacyProducts.LegacyProductsService.Create`: the create body is spread into the saved entity. Fields the DTO does not declare, such as `id`, are not modelled. Without a whitelisting validation pipe an `id` of a stored product would reach `save`, which would then overwrite that row; the model always inserts a new row under a fresh id.
- `Auth.TokenDependsOnlyOnIdAndRoles`: the signer is taken at one fixed moment. The `iat` and `exp` claims the JWT library adds from the clock and the configured expiry are not modelled, so two logins at different times may yield different tokens.
- `Auth.LoginIndistinguishable`: only the answers are compared. Response timing is not modelled; an unknown email fails before the cost-10 bcrypt comparison that a wrong password pays for.
- `LegacyProducts.LegacyProductsService.Update`: the legacy service imports its own product entity and slug generator (src/app/products/products.service.ts:3, 6), which are not part of this model. They are taken to behave like the current entity and `SlugGenerator.UpdateSlugByTitle`, which agrees with the end-to-end update cases (test/products.e2e-spec.ts:245-291).
