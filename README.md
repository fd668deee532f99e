# E-commerce backend services in Dafny

This project models the request-scoped business logic of a Spring Boot e-commerce
backend: placing an order from the caller's cart, the cart and its lines, paying an
order and linking the payment onto it, the product and category catalogue, the
product-category links, user administration, registration and the user lookup of the
authentication layer, the checks on image uploads, the file-name filter of the image
endpoint, and the entity/DTO mappers.

The repositories are one database value, `Store.State`: one map per table, keyed by
row id, plus the cart lines as a sequence in insertion order (their order becomes the
order of an order's items). The services work on a `Store.Db` object whose fields are
those tables; a service method takes the database, changes the fields it must, and
states the whole new state as a function of the old one. `Store.Inv`, which every
method keeps, gathers what the database's constraints and the services together keep
true: the uniqueness rules (one cart per user, which the database gets from the cart
sharing its user's primary key; unique emails, a unique column; one payment per order,
the one-to-one join plus the `existsByOrderId` check; and one line per product per cart,
unique category names and one link per product/category pair, which no column declares
and the services keep through the merge in `addProductToCart`, the name checks and
`existingValidator`), the foreign keys (lines to carts and products, links
to products and categories, images to products, category parents, payments to orders,
orders to users) and the id counter.

Conventions:

- Money (`BigDecimal`) is `real`, exact; quantities and stock are `int`.
- Every thrown `BusinessException`, `EntityNotFoundException`,
  `IllegalArgumentException` or `UsernameNotFoundException` is a `Common.Failure`
  value with the source's message text, character for character (double spaces and
  misspellings included), and for `BusinessException` its HTTP status.
- A constraint violation raised by the database is `IntegrityViolation`; another
  failure of a save is `StoreError`.
- The authenticated caller is a parameter `Option<Row<User>>` (the principal's id and
  user), in place of the thread-local security context.
- The password encoder is a parameter (`PasswordEncoding.PasswordEncoder`: an
  `encode` function and a `matches` test).
- The outcome of a save the model cannot decide itself is a parameter:
  `CartService.SaveFault` for the cart insert, `saveFault` for the order save.
- The fresh unique id and upload directory of an image are parameters too.
- A transactional service (`ProductService`, `CategoryService`,
  `createOrderFromCart`) is all-or-nothing: on failure the database is as it was.
- The synchronous payment-completed listener runs inline, inside `createPayment`.
- Java's `"..." + id` prints a `Long` in decimal and `null` as "null"
  (`Common.NatToString`, `Common.JavaId`, `Common.JavaString`).

Where the code and its tests or design description disagree, the model follows the code:

- `updateUser` refuses an email held by any user, the updated user included.
- `createPayment` saves the payment twice; the second save stores nothing new.
- A category may be made its own parent or ancestor; there is no cycle check.
- The payment-completed listener runs synchronously, not after `createPayment` returns.
- `createProduct` throws with a message only; it is given the status CONFLICT, as its
  tests expect.

## Model

| member | source | states |
|---|---|---|
| OrderService.CreateOrderFromCart | src/main/java/com/ecommerce/backend/service/OrderService.java:42-66 | no caller: "user not found" NOT_FOUND before the cart is read; empty cart: "Cart is empty" CONFLICT; a line beyond stock: the CONFLICT naming the first such product; a save failure: its error; on any failure the database is unchanged; on success stock taken, the PENDING order of the caller saved under a fresh id, then exactly the caller's lines removed, and the order's response returned |
| OrderService.PlaceCart | src/main/java/com/ecommerce/backend/service/OrderService.java:59-65 | after the cart checks: a short line fails with `Place`'s failure, a missing user with the integrity error, a save fault with its error, each leaving the database unchanged; otherwise the state is exactly `Placed` (stock taken, order saved, caller's lines removed) and the response is the new order's |
| OrderService.SaveOrder | src/main/java/com/ecommerce/backend/service/OrderService.java:59-65 | the order saved with the caller, PENDING status, the placed items and their total, then only the caller's cart lines deleted |
| OrderService.CreateOrderList | src/main/java/com/ecommerce/backend/service/OrderService.java:68-89 | the loop agrees with `Place`: it fails exactly when `Place` does, with the same failure, and otherwise returns `Place`'s items; only product stock changes, and only `Place`'s way |
| OrderService.Place | src/main/java/com/ecommerce/backend/service/OrderService.java:68-89 | the product key set is kept by placing the lines |
| OrderService.PlacedItems | src/main/java/com/ecommerce/backend/service/OrderService.java:76-85 | one item per line, in line order, copying the line's quantity and the product's price, id and name at that moment |
| OrderService.PlacedStock | src/main/java/com/ecommerce/backend/service/OrderService.java:84 | each product's stock falls by the sum of the quantities of the lines for it, and nothing else changes |
| OrderService.TakenByOwnLine | src/main/java/com/ecommerce/backend/service/OrderService.java:84 | with distinct products per line, a product loses exactly its own line's quantity |
| OrderService.TakenByNone | src/main/java/com/ecommerce/backend/service/OrderService.java:84 | a product no line names loses nothing |
| OrderService.PlaceFails | src/main/java/com/ecommerce/backend/service/OrderService.java:70-75 | placement fails iff some line asks for more than its product's stock, and the failure is the CONFLICT naming the first such line's product |
| OrderService.PlaceFailsAtFirstShort | src/main/java/com/ecommerce/backend/service/OrderService.java:70-75 | a failed placement has a short line with no short line before it, and the failure names that line's product |
| OrderService.PlaceSucceedsWithoutShort | src/main/java/com/ecommerce/backend/service/OrderService.java:70-75 | a successful placement had no line asking for more than its product's stock |
| OrderService.CartLinesDistinct | src/main/java/com/ecommerce/backend/service/OrderService.java:48 | the caller's cart lines name each product at most once |
| OrderService.PlacementOfCart | src/main/java/com/ecommerce/backend/service/OrderService.java:48-61 | for a user's cart: fails iff some line is short; otherwise one item per line, and each product in the cart loses exactly its line's quantity |
| OrderService.CalculateTotalAmount | src/main/java/com/ecommerce/backend/service/OrderService.java:91-104 | the accumulated total equals `Total`, the sum of unit price times quantity (zero for no items) |
| OrderService.TotalConcat | src/main/java/com/ecommerce/backend/service/OrderService.java:91-104 | the total of two item lists joined is the sum of their totals |
| OrderService.TotalOfCopies | src/main/java/com/ecommerce/backend/service/OrderService.java:76-104 | items copying the lines' quantities and prices total the cart's value |
| OrderService.OrderTotalIsCartValue | src/main/java/com/ecommerce/backend/service/OrderService.java:59-61 | the saved order's total is the value of the cart at the products' prices |
| OrderService.NewOrder | src/main/java/com/ecommerce/backend/service/OrderService.java:54-61 | the new order is PENDING, owned by the user, holds the items, has no payment, and its total is `Total` of the items |
| OrderService.ContinueNothing | src/main/java/com/ecommerce/backend/service/OrderService.java:69-86 | a loop that has produced nothing yet agrees with the whole placement |
| OrderService.ContinueTwice | src/main/java/com/ecommerce/backend/service/OrderService.java:69-86 | items produced in two stretches of the loop add up as one stretch |
| OrderService.GetAuthUserOrders | src/main/java/com/ecommerce/backend/service/OrderService.java:34-40 | no caller: "user not found" NOT_FOUND; otherwise exactly the caller's orders, each as its response with the caller's email and every item mapped by `toOrderItemsResponseList` (id, product id, name, price, quantity), in order |
| OrderService.FindOrderById | src/main/java/com/ecommerce/backend/service/PaymentService.java:32 | the stored order, or "No order found with the id: "+id NOT_FOUND; `findOrderByid` is not defined in OrderService.java, so it is rebuilt from this call and the message OrderServiceTest.java:278 expects |
| CartItemService.AddProductToCart | src/main/java/com/ecommerce/backend/service/CartItemService.java:35-63 | no caller or a caller no longer stored: "User not found " NOT_FOUND with nothing changed; the cart is found or created, and a cart created for a cart-less caller stays even when a later step fails; the id counter advances once per inserted cart and line; unknown product: NOT_FOUND; success iff quantity in cart plus requested is within stock, else "Requested quantity exceeds available stock" CONFLICT with no line changed; on success the lines are `MergedLines` and the response carries the merged total, product name and price |
| CartItemService.AddToCart | src/main/java/com/ecommerce/backend/service/CartItemService.java:42-61 | with the user's cart known: unknown product: "No Product found with the id "+id NOT_FOUND; success iff the quantity in the cart plus the request is within stock, else the stock CONFLICT, nothing changed on failure; on success the lines are `MergedLines` and the counter advances by the lines added |
| CartItemService.MergeIntoCart | src/main/java/com/ecommerce/backend/service/CartItemService.java:43-61 | the checked total is the existing line's quantity (0 if none) plus the request; over stock: CONFLICT, nothing changed; otherwise the existing line takes the total, keeping its id, or one new line holds the requested quantity under the next id, which advances |
| CartItemService.MergedLines | src/main/java/com/ecommerce/backend/service/CartItemService.java:50-58 | an existing line's quantity grows by the request and no line is added; otherwise exactly one new line with the requested quantity is appended; other lines are unchanged |
| CartItemService.MergedLinesKeepInvariant | src/main/java/com/ecommerce/backend/service/CartItemService.java:50-60 | merging keeps one line per product per cart and unique line ids |
| CartItemService.GetUserCartItems | src/main/java/com/ecommerce/backend/service/CartItemService.java:65-73 | unknown user: "No user found with the id:  "+id NOT_FOUND; otherwise one response per line of the user, in order, with the line's own quantity |
| CartItemService.GetAuthCartItems | src/main/java/com/ecommerce/backend/service/CartItemService.java:75-81 | no caller: "User not found " NOT_FOUND; otherwise one response per line of the caller, in order |
| CartItemService.LineResponses | src/main/java/com/ecommerce/backend/service/CartItemService.java:70-71 | one response per line, in order, with the line's id, its product's name and price and its quantity |
| CartItemService.DeleteCartItem | src/main/java/com/ecommerce/backend/service/CartItemService.java:83-89 | unknown id: "No cart item found with the id "+id NOT_FOUND and nothing removed; otherwise exactly that line removed, the other lines keeping their order |
| CartItemService.RemovedAt | src/main/java/com/ecommerce/backend/service/CartItemService.java:84-85 | removing one line keeps every other line, in order, and the constraints on lines |
| CartItemService.CleanUserCartItems | src/main/java/com/ecommerce/backend/service/CartItemService.java:91-98 | unknown user: NOT_FOUND, nothing changed; otherwise the user has no lines left and every other user's lines stay, in order |
| CartItemService.CleanAuthUserCartItems | src/main/java/com/ecommerce/backend/service/CartItemService.java:100-105 | no caller: "User not found " NOT_FOUND; otherwise the caller has no lines left and other users' lines stay |
| CartItemService.LinesOfOthersKeepInvariant | src/main/java/com/ecommerce/backend/service/CartItemService.java:103-104 | deleting one user's lines keeps the constraints on lines |
| CartItemService.NoLinesLeft | src/main/java/com/ecommerce/backend/service/CartItemService.java:96-97 | after the deletion the user owns no line, and every other user's lines are as before |
| CartService.FindOrCreateCart | src/main/java/com/ecommerce/backend/service/CartService.java:45-48 | an existing cart is returned with nothing created; otherwise the outcome of `createUserCart`; at most one cart per user afterwards |
| CartService.CreateUserCart | src/main/java/com/ecommerce/backend/service/CartService.java:50-61 | insert accepted: a new cart of that user; integrity violation: the re-read cart, or "Erro ao recuperar carrinho" INTERNAL_SERVER_ERROR; any other failure propagates without a re-read; at most one cart per user afterwards |
| Store.CartOf | src/main/java/com/ecommerce/backend/service/CartService.java:46 | the user's one cart, or none exactly when no cart belongs to the user |
| Store.LinesOfUser | src/main/java/com/ecommerce/backend/service/CartItemService.java:69 | exactly the lines in a cart of the user, in store order |
| Store.LinesOfOthers | src/main/java/com/ecommerce/backend/service/CartItemService.java:96-97 | exactly the lines not in a cart of the user, in store order |
| Store.IndexOfProductLine | src/main/java/com/ecommerce/backend/service/CartItemService.java:43 | the cart's line for the product, or none exactly when there is none |
| Store.IndexOfLine | src/main/java/com/ecommerce/backend/service/CartItemService.java:84 | the line with that id, or none exactly when there is none |
| Store.FindByEmail | src/main/java/com/ecommerce/backend/service/AuthorizationService.java:19 | the one user holding the email, or none exactly when nobody does |
| ProductService.CreateProduct | src/main/java/com/ecommerce/backend/service/ProductService.java:30-37 | a taken name: "Product name already exists", nothing stored; otherwise the request's four fields stored under a fresh id and returned |
| ProductService.FindProductById | src/main/java/com/ecommerce/backend/service/ProductService.java:40-45 | the stored product's id and fields, or "No product found with the id "+id |
| ProductService.UpdateProduct | src/main/java/com/ecommerce/backend/service/ProductService.java:56-63 | unknown id: not found, nothing changed; otherwise all four fields overwritten, with no name check |
| ProductService.DeleteProduct | src/main/java/com/ecommerce/backend/service/ProductService.java:66-72 | unknown id: not found; a product still referenced: integrity violation; otherwise exactly that product removed |
| ProductService.GetProduct | src/main/java/com/ecommerce/backend/service/CartItemService.java:42 | the stored product, or "No Product found with the id "+id NOT_FOUND |
| ProductService.UpdateStockQuantity | src/main/java/com/ecommerce/backend/service/OrderService.java:84 | unknown id: NOT_FOUND, nothing saved; otherwise only that product's stock falls by the quantity |
| ProductService.Decremented | src/main/java/com/ecommerce/backend/service/OrderService.java:84 | same products, the one stock lowered by the quantity, everything else unchanged |
| PaymentService.CreatePayment | src/main/java/com/ecommerce/backend/service/PaymentService.java:31-41 | unknown order first: NOT_FOUND; an order already paid: "Payment already done for this order" CONFLICT, before the amount check; success iff the amount covers the total, else the underpayment CONFLICT; nothing stored on failure; on success the PENDING payment for the order's total is stored and the order already references it |
| PaymentService.SavePayment | src/main/java/com/ecommerce/backend/service/PaymentService.java:38 | a new payment for an existing, unpaid order is stored under the next id, the store's constraints still hold and nothing else changes |
| PaymentService.CheckAmount | src/main/java/com/ecommerce/backend/service/PaymentService.java:71-79 | passes iff the requested amount is at least the order total; otherwise "The order amount is greater than the payment amount" CONFLICT |
| PaymentService.CompareTo | src/main/java/com/ecommerce/backend/service/PaymentService.java:75 | the comparison is -1, 0 or 1 |
| PaymentService.CompareToOrders | src/main/java/com/ecommerce/backend/service/PaymentService.java:75 | `compareTo == 1` iff greater, 0 iff equal, and it is antisymmetric |
| PaymentService.TooglePaymentStatus | src/main/java/com/ecommerce/backend/service/PaymentService.java:48-55 | unknown id: "No payment found with the id: "+id NOT_FOUND; otherwise only that payment's status changes |
| PaymentService.FindById | src/main/java/com/ecommerce/backend/service/PaymentService.java:57-61 | the stored payment's id, amount, status, transaction reference, payment method and date, its order id and the order owner's email, or "No payment found with the id: "+id NOT_FOUND |
| Common.NatToStringValue | src/main/java/com/ecommerce/backend/service/PaymentService.java:59 | the digits an id is written with in a message denote that id |
| PaymentService.DeletePayment | src/main/java/com/ecommerce/backend/service/PaymentService.java:63-69 | unknown id: "No payment found with the id "+id NOT_FOUND, nothing deleted; otherwise exactly that payment removed |
| OrderEventListener.HandlePaymentCompleted | src/main/java/com/ecommerce/backend/service/listeners/OrderEventListener.java:24-35 | unknown order: NOT_FOUND, checked first; unknown payment: NOT_FOUND; in both cases nothing changes; otherwise only the order's payment reference is set |
| OrderEventListener.LinkChangesOnlyThePayment | src/main/java/com/ecommerce/backend/service/listeners/OrderEventListener.java:33-34 | linking sets the order's payment reference and changes no other field and no other order |
| OrderEventListener.LinkIdempotent | src/main/java/com/ecommerce/backend/service/listeners/OrderEventListener.java:33-34 | handling the same event twice gives the state of handling it once |
| CategoryService.CreateCategory | src/main/java/com/ecommerce/backend/service/CategoryService.java:28-44 | a taken name: CONFLICT, with no parent lookup; an unknown parent: NOT_FOUND; no parent given: no lookup and no parent stored; success stores name, description and parent under a fresh id; nothing stored on failure |
| CategoryService.FindParent | src/main/java/com/ecommerce/backend/service/CategoryService.java:34-39 | no parent id: no parent; a known one: that parent; an unknown one: "No Parent Category found with the id "+id NOT_FOUND |
| CategoryService.FindById | src/main/java/com/ecommerce/backend/service/CategoryService.java:52-58 | the stored category's id, name, description and parent id, or "No  Category found with the id "+id NOT_FOUND |
| CategoryService.GetCategory | src/main/java/com/ecommerce/backend/service/CategoryService.java:91-96 | the stored category, or the same NOT_FOUND |
| CategoryService.UpdateCategory | src/main/java/com/ecommerce/backend/service/CategoryService.java:61-80 | unknown id: NOT_FOUND whose message names the requested parent id, before the name check; another category with the name: CONFLICT; keeping its own name is allowed; unknown parent: NOT_FOUND; success overwrites name, description and parent and nothing else; a category may be made its own parent |
| CategoryService.NameChecksAgree | src/main/java/com/ecommerce/backend/service/CategoryService.java:29-65 | a name held by another category is taken, and under unique names a category's own name never blocks its update |
| CategoryService.DeleteCategory | src/main/java/com/ecommerce/backend/service/CategoryService.java:83-89 | unknown id: "No category found with the id "+id NOT_FOUND; a category still linked or parent of another: integrity violation; otherwise exactly that category removed |
| ProductCategoryService.ExistingValidator | src/main/java/com/ecommerce/backend/service/ProductCategoryService.java:29-33 | passes iff the pair is not yet linked; otherwise "The product is already registered to this category" CONFLICT |
| ProductCategoryService.Create | src/main/java/com/ecommerce/backend/service/ProductCategoryService.java:36-44 | the pair check first, then the product, then the category; each failure stores nothing; success stores one link of that product and category and returns its response |
| ProductCategoryService.FindById | src/main/java/com/ecommerce/backend/service/ProductCategoryService.java:47-51 | both ids of the link, the linked product's name, description, price and stock and the linked category's name and description, or "ProductCategory not Found " NOT_FOUND |
| ProductCategoryService.Update | src/main/java/com/ecommerce/backend/service/ProductCategoryService.java:54-65 | the pair check runs before the lookup, so re-submitting a link's own pair is refused; unknown id: "ProductCategory not Found" NOT_FOUND; success overwrites both references of that link only |
| ProductCategoryService.FindAllProductsByCategoryId | src/main/java/com/ecommerce/backend/service/ProductCategoryService.java:76-81 | exactly the links into that category, each as its response; the category itself is not looked up |
| ProductCategoryService.Delete | src/main/java/com/ecommerce/backend/service/ProductCategoryService.java:84-89 | unknown id: "No Product category found with the id "+id NOT_FOUND, nothing deleted; otherwise exactly that link removed |
| UserService.UpdateUser | src/main/java/com/ecommerce/backend/service/UserService.java:35-48 | unknown id: NOT_FOUND; an email held by any user, this one included: "Email already in use" CONFLICT; nothing saved on failure; success sets email, encoded password and role and returns (email, role) |
| UserService.PasswordUpdate | src/main/java/com/ecommerce/backend/service/UserService.java:50-70 | unknown target, checked first, or no caller: NOT_FOUND; otherwise the owner-or-admin check decides; nothing saved on failure; success stores the encoded new password, which then matches the new password under a sound encoder |
| UserService.PasswordCheck | src/main/java/com/ecommerce/backend/service/UserService.java:57-66 | passes iff the caller is the target and the current password matches the caller's, or the caller is an ADMIN acting on someone else; neither owner nor ADMIN: CONFLICT; owner with a wrong password: "Incorrect Password" UNAUTHORIZED |
| UserService.AdminSkipsPasswordCheck | src/main/java/com/ecommerce/backend/service/UserService.java:57-62 | an ADMIN changing another user's password always passes |
| UserService.AdminOwnerIsChecked | src/main/java/com/ecommerce/backend/service/UserService.java:62-66 | an ADMIN changing its own password must give the current one |
| UserService.ToggleLock | src/main/java/com/ecommerce/backend/service/UserService.java:76 | the lock flag is negated and nothing else changes |
| UserService.ToggleLockTwice | src/main/java/com/ecommerce/backend/service/UserService.java:76 | toggling twice restores the user |
| UserService.ToggleUserLock | src/main/java/com/ecommerce/backend/service/UserService.java:72-79 | unknown id: NOT_FOUND, nothing changed; otherwise only that user's lock flag flips |
| AuthenticationService.Register | src/main/java/com/ecommerce/backend/security/AuthenticationService.java:45-55 | a held email: "User: "+email+" already exists" CONFLICT, nothing stored; otherwise a user with that email, encoded password and role is stored, enabled and unlocked, found by its email afterwards, and (email, role) is returned |
| AuthorizationService.LoadUserByUsername | src/main/java/com/ecommerce/backend/service/AuthorizationService.java:18-24 | a user holds that email iff the lookup succeeds, and then it is that user; otherwise "User not found with email: "+username with the username verbatim |
| AuthorizationService.UnknownUserMessages | src/main/java/com/ecommerce/backend/service/AuthorizationService.java:21 | a null username reads "null" and an empty one nothing |
| UserModel.Build | src/main/java/com/ecommerce/backend/model/User.java:40-45 | a built user has the given email, password and role, is enabled and is not locked |
| UserModel.GetAuthorities | src/main/java/com/ecommerce/backend/model/User.java:53-60 | an ADMIN holds ROLE_ADMIN then ROLE_USER; every other role holds ROLE_USER alone |
| UserModel.AccountChecks | src/main/java/com/ecommerce/backend/model/User.java:62-85 | the username is the email; accounts and credentials never expire; non-locked is not `locked`; enabled is `enabled` |
| UserRoles.FromString | src/main/java/com/ecommerce/backend/model/enums/UserRole.java:21-32 | null gives no role; a value succeeds, with a role, iff some role's name or label equals it ignoring case or it is "custumer" ignoring case; otherwise "Invalid role: "+value |
| UserRoles.Search | src/main/java/com/ecommerce/backend/model/enums/UserRole.java:24-28 | a role found is one of the searched roles and matches; none is found exactly when no role matches |
| UserRoles.MatchesLength | src/main/java/com/ecommerce/backend/model/enums/UserRole.java:25 | a value a role matches has that role's length, and the three lengths differ, so at most one role matches |
| UserRoles.FromStringExact | src/main/java/com/ecommerce/backend/model/enums/UserRole.java:24-27 | the result is a given role iff its name or label equals the value ignoring case, or it is CUSTOMER and the value is "custumer" ignoring case |
| UserRoles.FromStringRoundTrip | src/main/java/com/ecommerce/backend/model/enums/UserRole.java:7-28 | `fromString(r.name())` and `fromString(r.getRole())` give back r |
| UserRoles.NameMatchesLabel | src/main/java/com/ecommerce/backend/model/enums/UserRole.java:7-9 | each constant's name and its label are equal ignoring case |
| UserRoles.MisspellingAccepted | src/main/java/com/ecommerce/backend/model/enums/UserRole.java:30 | "custumer" and "CUSTUMER" both give CUSTOMER |
| UserRoles.InvalidRoleRefused | src/main/java/com/ecommerce/backend/model/enums/UserRole.java:31 | "manager" fails with "Invalid role: manager" |
| ProductImageService.Validate | src/main/java/com/ecommerce/backend/service/ProductImageService.java:37-46 | passes iff the type is exactly "image/jpeg" or "image/png" and the size is at most 5 MB; the type is checked first |
| ProductImageService.PrepareImage | src/main/java/com/ecommerce/backend/service/ProductImageService.java:37-52 | validation failures come before the product lookup; then an unknown product fails; otherwise the name is the unique id, "_" and the original name, and the path is the directory, the separator and that name |
| ProductImageService.SizeLimitInclusive | src/main/java/com/ecommerce/backend/service/ProductImageService.java:28-46 | exactly 5·1024·1024 bytes pass; one more fails, reported as 5MB, the size divided down |
| ProductImageService.TargetNamesTheUpload | src/main/java/com/ecommerce/backend/service/ProductImageService.java:51-52 | the stored name starts with the unique id and ends with the original name, and the path ends with that name |
| ProductImageService.GetAllProductImages | src/main/java/com/ecommerce/backend/service/ProductImageService.java:68-71 | exactly the images of that product, as responses; the product is not looked up |
| ImageFileController.Sanitize | src/main/java/com/ecommerce/backend/controller/ImageFileController.java:35 | the filtered name is never longer than the requested one |
| ImageFileController.SanitizeLength | src/main/java/com/ecommerce/backend/controller/ImageFileController.java:35 | the filtered length is the requested length minus three per removed match |
| ImageFileController.CleanNameUnchanged | src/main/java/com/ecommerce/backend/controller/ImageFileController.java:35 | a name with no "../" or "..\\" is returned unchanged |
| ImageFileController.SinglePass | src/main/java/com/ecommerce/backend/controller/ImageFileController.java:35 | one pass only: "....//" becomes "../", which a second pass would still change |
| ImageFileController.ContentTypeOrDefault | src/main/java/com/ecommerce/backend/controller/ImageFileController.java:48-51 | the probed type, or "application/octet-stream" when probing yields none |
| OrderMapper.ToResponseDto | src/main/java/com/ecommerce/backend/mapper/OrderMapper.java:18-26 | copies id and status, takes the email from the owner, and maps every item in order, with the same count |
| OrderMapper.ToOrderItemsResponseList | src/main/java/com/ecommerce/backend/mapper/OrderMapper.java:29-45 | one response per item, same length and order, each copying id, product id, name, unit price and quantity; no items give none |
| OrderMapper.ItemsResponseConcat | src/main/java/com/ecommerce/backend/mapper/OrderMapper.java:29-33 | mapping two item lists joined is joining their mappings |
| PaymentMapper.ToEntity | src/main/java/com/ecommerce/backend/mapper/PaymentMapper.java:33-42 | the amount is the order's total, the status PENDING, the method from the request, the order the given one, with the given reference and date |
| PaymentMapper.AmountIgnoresRequest | src/main/java/com/ecommerce/backend/mapper/PaymentMapper.java:35 | two requests differing only in amount give the same payment |
| PaymentMapper.ToResponseList | src/main/java/com/ecommerce/backend/mapper/PaymentMapper.java:45-48 | one response per payment, same length and order |
| CartItemMapper.ResponseQuantityIsArgument | src/main/java/com/ecommerce/backend/mapper/CartItemMapper.java:24-30 | the response reports the quantity argument, not the stored one, and the product's name and price |
| CartItemMapper.ToUpdateOverwritesAll | src/main/java/com/ecommerce/backend/mapper/CartItemMapper.java:34-39 | quantity, cart and product are all overwritten |
| CategoryMapper.ResponseParentId | src/main/java/com/ecommerce/backend/mapper/CategoryMapper.java:20-32 | the parent id is null exactly when there is no parent, and otherwise the parent's id |
| CategoryMapper.NewEntityResponse | src/main/java/com/ecommerce/backend/mapper/CategoryMapper.java:12-32 | a new category's response carries the request's name, description and parent |
| CategoryMapper.UpdateEntityOverwritesAll | src/main/java/com/ecommerce/backend/mapper/CategoryMapper.java:35-40 | name, description and parent (possibly none) are all overwritten |
| ProductMapper.ToResponseListDto | src/main/java/com/ecommerce/backend/mapper/ProductMapper.java:55-65 | one response per page element, in order, with its id, name, description, price and stock, and the page's size, total elements, total pages and page number copied |
| ProductMapper.ToResponseDtos | src/main/java/com/ecommerce/backend/mapper/ProductMapper.java:57-58 | one response per product row, in order |
| ProductMapper.NewEntityResponse | src/main/java/com/ecommerce/backend/mapper/ProductMapper.java:18-37 | a new product's response carries the id and the request's four fields |
| ProductMapper.UpdateEntityOverwritesAll | src/main/java/com/ecommerce/backend/mapper/ProductMapper.java:39-45 | all four fields are overwritten |
| ProductCategoryMapper.ResponseCopiesBoth | src/main/java/com/ecommerce/backend/mapper/ProductCategoryMapper.java:18-31 | the product's id, name, description, price and stock and the category's id, name and description are copied |
| ProductCategoryMapper.UpdateEntityOverwritesAll | src/main/java/com/ecommerce/backend/mapper/ProductCategoryMapper.java:41-45 | both references are overwritten |
| UserMapper.ToListResponseDto | src/main/java/com/ecommerce/backend/mapper/UserMapper.java:24-32 | the same length as the input, and element i is the response of user i; an empty input gives an empty output |
| UserMapper.ResponseIsEmailAndRole | src/main/java/com/ecommerce/backend/mapper/UserMapper.java:18-22 | the response depends on the email and role only |

## Left out

- Controllers, HTTP binding, `@PreAuthorize` role strings, the exception handlers and the response envelope are not modelled; errors are values.
- CartService.CreateUserCart: a new cart takes a fresh id from the shared counter, not its user's id as `@MapsId` in Cart.java gives it; no response exposes a cart id, so only the key values differ, and one cart per user is kept as an invariant instead of by the primary key.
- Login, JWT signing and the security context are not modelled; the caller is a parameter.
- Password hashing is not modelled; the encoder is a parameter.
- Disk I/O is not modelled: the image file write, the directory creation, the image read and content probing. So are the insert of the image row and `ProductImageMapper.toEntity`, whose signature does not match its call.
- UUIDs and dates are parameters, not generated.
- Concurrency is not modelled. Each call runs alone; the only sign of a concurrent writer is the integrity violation `CartService.SaveFault` can report.
- Entities are values, not shared mutable objects. An in-place update through a managed entity is an update of the stored row, and aliasing between entity references is not captured.
- ProductCategoryService.Update: its class is not transactional and it does not save, so whether the in-place change is flushed depends on the persistence context. The model stores the change.
- `findAll`-style listings (`getAllCategories`, `getAll`, `findAllPayments`, `getAllUsers`) and `findProductByName` are not modelled. Queries that return lists return maps keyed by id, so the database's row order is not captured, except for cart lines.
- Order item ids and `OrderItem`'s back reference to the order are not modelled; order items are saved without ids.
- Entity equality in `isOwner` is taken as equality of ids.
- Integer overflow of `int` quantities and the `long` file size is not modelled; both are unbounded.
- A null upload content type or request field (a NullPointerException in the source) is not modelled; only null role values, usernames, parent ids and file names are.
- PaymentService.DeletePayment: the cascade from a payment to its order on delete is not modelled; only the payment row is removed.
- UserRoles.FromString: `equalsIgnoreCase` is modelled on ASCII letters only.
- The `double` fields of the order entities are not modelled; money is exact throughout.
- Floating-point product search appears only in tests and is not modelled.
