# OrderEntryMockingPractice — order placement, modelled in Dafny

The system places customer orders. An `Order` holds line items (a product
and a quantity) and an optional customer id, and can check itself: it
reports whether every line names a different product, and it computes its
expected net total (quantity times unit price, summed). `OrderService`
places an order through five injected collaborators: it asks the product
repository whether each line's SKU is in stock and fails at the first SKU
that is not. Then it has the fulfillment service fulfil the order, looks up
the customer, fetches that customer's tax entries by postal code and
country, and computes the net total, the taxes (each rate applied to the
net total, summed) and the total (net total minus taxes). Finally it builds
an order summary and has the email service send a confirmation.

Files:

- `wrappers.dfy` — `Option` (C#'s `int?`) and `Result` (in place of thrown exceptions).
- `models.dfy` — module `Models`: `Product`, `OrderItem`, the `Order` class with
  `OrderHasAllUniqueProducts` (a loop over a local dictionary with an early
  exit) and `CalculatedExpectedNetTotal`, the value records the service uses
  (`Customer`, `TaxEntry`, `OrderConfirmation`, `OrderSummary`), and lemmas about
  the net total and product uniqueness.
- `services.dfy` — module `Services`: the `OrderService` class. Its collaborators
  are `const` fields set only by the constructor. Every collaborator call goes
  into a ghost call log, so the order of the calls and the absence of side
  effects on failure can be stated. `PlaceOrder` and its three helpers are
  methods with loops where the source has loops.
- `scenarios.dfy` — module `Scenarios`: client methods built from the unit
  tests' fixtures (three products, stubbed collaborators), showing what the
  contracts let a caller conclude.

Behaviour that follows the code rather than the design description:

- `PlaceOrder` checks stock only. It never calls `OrderHasAllUniqueProducts`,
  so an in-stock order with repeated products is placed
  (`Scenarios.DuplicateProductsAccepted`). The unit test
  `PlaceOrder_AllItemsAreNotUnique_ThrowsException` expects a failure here.
- The stock failure is a plain exception, modelled as `Err(NotAllInStock)`.
  There is no separate validation-error type and no duplicate-product error.
- The customer id is read only after fulfillment. An in-stock order without
  one is fulfilled, and then the cast to `int` throws before the customer
  lookup: modelled as `Err(CustomerIdMissing)`, with no summary and no email.
- The summary's customer id is never assigned, so it keeps its default
  (`DefaultCustomerId`, 0). The confirmation email is sent with that id and
  the confirmation's order id.

## Model

| member | source | states |
|---|---|---|
| `Models.Order.constructor` | OrderEntryMockingPractice/Models/Order.cs:8-11 | a new order has an empty item list and no customer id |
| `Models.Order.OrderHasAllUniqueProducts` | OrderEntryMockingPractice/Models/Order.cs:16-30 | answers true exactly when no two lines carry the same product; loop invariant: the dictionary's keys are exactly the products scanned so far, all distinct, so `Add` never meets a present key; changes neither the items nor the customer id |
| `Models.DistinctIffAsManyProductsAsLines` | OrderEntryMockingPractice/Models/Order.cs:18-27 | the products are pairwise distinct exactly when the set of products has as many members as there are lines (the dictionary's size at the end of the scan) |
| `Models.SameProductOnEveryLineNotDistinct` | OrderEntryMockingPracticeTests/OrderServiceTests.cs:75-80 | two or more lines that all carry one product are not distinct |
| `Models.Order.CalculatedExpectedNetTotal` | OrderEntryMockingPractice/Models/Order.cs:33-40 | the net total is 0 for an order without lines and non-negative when every quantity and price is |
| `Models.NetTotalAppend` | OrderEntryMockingPractice/Models/Order.cs:35-39 | appending one line adds exactly its quantity times its price to the net total |
| `Models.NetTotalConcat` | OrderEntryMockingPractice/Models/Order.cs:35-39 | the net total of two lists of lines joined is the sum of their net totals |
| `Models.NetTotalNonNegative` | OrderEntryMockingPractice/Models/Order.cs:35-39 | non-negative quantities and prices give a non-negative net total |
| `Services.StockQueries` | OrderEntryMockingPractice/Services/OrderService.cs:79-89 | the stock check makes only stock queries, at most one per line, and at least one when there is a line |
| `Services.StockQueriesStopAtFirstMiss` | OrderEntryMockingPractice/Services/OrderService.cs:81-86 | when line k is the first out of stock, exactly the SKUs of lines 0..k are queried, in order |
| `Services.StockQueriesWhenAllInStock` | OrderEntryMockingPractice/Services/OrderService.cs:81-88 | when every line is in stock, every line's SKU is queried once, in order |
| `Services.RateSumAppend` | OrderEntryMockingPractice/Services/OrderService.cs:56-60 | one more tax entry adds its rate to the sum of rates |
| `Services.OrderService.constructor` | OrderEntryMockingPractice/Services/OrderService.cs:16-24 | the service keeps the given collaborators (never reassigned: `const`) and has made no calls yet |
| `Services.OrderService.AllItemsInStock` | OrderEntryMockingPractice/Services/OrderService.cs:79-89 | answers true exactly when every line's SKU is reported in stock; the calls made are the stock queries up to and including the first SKU reported out of stock |
| `Services.OrderService.SumTaxes` | OrderEntryMockingPractice/Services/OrderService.cs:53-63 | the sum over the entries of rate times net total equals net total times the sum of the rates; 0 for no entries |
| `Services.OrderService.SumNetTotal` | OrderEntryMockingPractice/Services/OrderService.cs:65-76 | the accumulated net total equals the order's `CalculatedExpectedNetTotal` |
| `Services.OrderService.PlaceOrder` | OrderEntryMockingPractice/Services/OrderService.cs:26-51 | fails with `NotAllInStock` exactly when some line is out of stock, after the stock queries and with no further call (no fulfillment, lookup or email), whether or not a customer id is present; an in-stock order without a customer id fails with `CustomerIdMissing` after the stock queries and one `Fulfill(order)`, with no lookup, summary or email; otherwise the summary carries the confirmation's number and id, the default customer id, exactly the looked-up tax entries, the net total N and the total N − N × Σ rates, and the calls are the stock queries, then one `Fulfill(order)`, `Get(customer id)`, `GetTaxEntries(postal code, country)` and one email with the summary's customer id and order id; the order is not modified |
| `Scenarios.CreateOrder` | OrderEntryMockingPracticeTests/OrderServiceTests.cs:258-273 | builds the tests' three-line order for customer 8888 |
| `Scenarios.CreateService` | OrderEntryMockingPracticeTests/OrderServiceTests.cs:33-50 | builds a service with the tests' stubs: one stock answer for every SKU, confirmation 18008008553/206, customer in 90210/USA, taxes 0.1 and 0.2 |
| `Scenarios.HappyPath` | OrderEntryMockingPracticeTests/OrderServiceTests.cs:126-226 | the valid order is placed with number 18008008553, id 206, the stubbed taxes, net total 15.54 and total 10.878; the seventh and last call is the email with (default customer id, 206) |
| `Scenarios.NothingInStock` | OrderEntryMockingPracticeTests/OrderServiceTests.cs:99-108 | with nothing in stock placement fails and the only call made is the stock query for Item1 |
| `Scenarios.NoCustomerId` | OrderEntryMockingPractice/Services/OrderService.cs:28-34 | the tests' in-stock order without a customer id fails with `CustomerIdMissing`, after three stock queries and, last, the fulfillment call |
| `Scenarios.DuplicateProductsAccepted` | OrderEntryMockingPracticeTests/OrderServiceTests.cs:68-84 | an order whose lines share one product is reported not unique, yet `PlaceOrder` succeeds when it is in stock |
| `Scenarios.FreshOrder` | OrderEntryMockingPractice/Models/Order.cs:8-39 | a freshly constructed order has unique products and net total 0 |

## Left out

- Floating point: prices are `decimal` and are converted to `double`; quantities and tax rates are already `double` (the tests assign double literals). Here all amounts are exact reals, so the model's exact equalities (for example total = 10.878) hold only approximately in the source.
- Product equality: `Product.cs` is not part of this model, so it is unknown whether the dictionary compares products by reference or by SKU. Products are values here, equal when SKU and price are equal.
- `OrderSummary.cs`, `OrderItem.cs`, `Customer.cs`, `TaxEntry.cs`, `OrderConfirmation.cs` and the collaborator interfaces are not part of this model. Their shapes come from their use in the core and the tests. `OrderSummary.CustomerId` is taken to be a non-nullable `int`, whose default is 0.
- Collaborators: their real implementations are external services. Each one that answers is a fixed function of its arguments, so two calls with the same arguments give the same answer. Faults they might raise are not modelled: the source lets them propagate, and nothing is caught or rolled back. They are also taken not to modify the order they are given: the source hands the mutable `Order` to `Fulfill` (OrderService.cs:33) and reads its customer id and lines again afterwards, and the model's fulfillment function cannot write the heap, so `PlaceOrder` leaves the order unchanged and computes its totals from the lines as they were before the call.
- Email service: it returns nothing, so it has no field. It is seen only through its entries in the ghost call log.
- Null references: the source throws when `OrderItems` is null (Order.cs:20, OrderService.cs:68 and 81), when a line's `Product` is null (Order.cs:22 and 38, OrderService.cs:71 and 83), and when the customer, the confirmation or the tax list returned by a collaborator is null (OrderService.cs:35, 41 and 56; the tests' customer stub returns null for every id but 8888). Every value in the model is non-null, so these failures cannot happen in it.
- The exception type of a missing customer id (the cast's `InvalidOperationException`) is reduced to the `CustomerIdMissing` error.
- Exception types and messages: the "Not all in Stock" exception becomes the `NotAllInStock` error.
- Integer width: customer and order ids are unbounded integers; 32-bit overflow plays no part in the core.
- Customer fields other than the id, postal code and country.
- Mutation of line items by callers (the tests reassign `OrderItem.Product`): line items are immutable values here.
