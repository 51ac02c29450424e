/**
 * Client scenarios built from OrderEntryMockingPracticeTests/OrderServiceTests.cs:
 * the order of three products, the stubbed collaborators, and what the
 * contracts of Order and OrderService let a caller conclude about them.
 */
module Scenarios {
  import opened Wrappers
  import opened Models
  import opened Services

  /** The three-line order of the tests: Item1..Item3 at 1.11, 2.22, 3.33, quantities 1, 2, 3. */
  method CreateOrder() returns (order: Order)
    ensures fresh(order)
    ensures order.customerId == Some(8888)
    ensures order.orderItems == [OrderItem(Product("Item1", 1.11), 1.0),
                                 OrderItem(Product("Item2", 2.22), 2.0),
                                 OrderItem(Product("Item3", 3.33), 3.0)]
  {
    order := new Order();
    order.orderItems := [OrderItem(Product("Item1", 1.11), 1.0),
                         OrderItem(Product("Item2", 2.22), 2.0),
                         OrderItem(Product("Item3", 3.33), 3.0)];
    order.customerId := Some(8888);
  }

  /** The tax entries of the tests: rates 0.1 and 0.2. */
  function TestTaxes(): (taxes: seq<TaxEntry>)
  {
    [TaxEntry("tax1", 0.1), TaxEntry("tax2", 0.2)]
  }

  /** A service whose stock answer is the same for every SKU, with the other stubs of the tests. */
  method CreateService(allInStock: bool) returns (service: OrderService)
    ensures fresh(service)
    ensures service.log == []
    ensures forall sku :: service.productRepository(sku) == allInStock
    ensures forall o :: service.orderFulfillmentService(o) == OrderConfirmation("18008008553", 206)
    ensures forall id :: service.customerRepository(id) == Customer(8888, "90210", "USA")
    ensures forall pc, c :: service.taxRateService(pc, c) == TestTaxes()
  {
    service := new OrderService(
      sku => allInStock,
      o => OrderConfirmation("18008008553", 206),
      (postalCode, country) => TestTaxes(),
      id => Customer(8888, "90210", "USA"));
  }

  /**
   * The valid order is placed: the summary carries the fulfillment's number
   * and id, the stubbed taxes, net total 15.54 and total 15.54 * (1 - 0.3),
   * and the email goes out last, with the summary's customer id and order id.
   */
  method HappyPath() returns (result: Result<OrderSummary, PlaceOrderError>, ghost calls: seq<Call>)
    ensures result.Ok?
    ensures result.value.orderNumber == "18008008553" && result.value.orderId == 206
    ensures result.value.taxes == TestTaxes()
    ensures result.value.netTotal == 15.54 && result.value.total == 10.878
    ensures |calls| == 7 && calls[6] == SendOrderConfirmationEmail(DefaultCustomerId, 206)
  {
    var order := CreateOrder();
    var service := CreateService(true);
    assert AllInStock(order.orderItems, service.productRepository);
    StockQueriesWhenAllInStock(order.orderItems, service.productRepository);
    assert NetTotal(order.orderItems) == 15.54 by {
      var items := order.orderItems;
      assert NetTotal(items[1..][1..][1..]) == 0.0;
      assert NetTotal(items[1..][1..]) == 9.99;
      assert NetTotal(items[1..]) == 4.44 + 9.99;
    }
    assert RateSum(TestTaxes()) == 0.3 by {
      assert TestTaxes()[1..][1..] == [];
    }
    result := service.PlaceOrder(order);
    calls := service.log;
  }

  /**
   * No line is in stock: placement fails after the first stock query, and
   * neither fulfillment, lookups nor email happen.
   */
  method NothingInStock() returns (result: Result<OrderSummary, PlaceOrderError>, ghost calls: seq<Call>)
    ensures result == Err(NotAllInStock)
    ensures calls == [IsInStock("Item1")]
  {
    var order := CreateOrder();
    var service := CreateService(false);
    StockQueriesStopAtFirstMiss(order.orderItems, service.productRepository, 0);
    result := service.PlaceOrder(order);
    calls := service.log;
  }

  /**
   * The in-stock order without a customer id: it is fulfilled, and then
   * placement fails before the customer lookup.
   */
  method NoCustomerId() returns (result: Result<OrderSummary, PlaceOrderError>, ghost calls: seq<Call>)
    ensures result == Err(CustomerIdMissing)
    ensures |calls| == 4 && calls[3].Fulfill?
    ensures calls[..3] == [IsInStock("Item1"), IsInStock("Item2"), IsInStock("Item3")]
  {
    var order := CreateOrder();
    order.customerId := None;
    var service := CreateService(true);
    assert AllInStock(order.orderItems, service.productRepository);
    StockQueriesWhenAllInStock(order.orderItems, service.productRepository);
    result := service.PlaceOrder(order);
    calls := service.log;
  }

  /**
   * Every line of the order carries the same product: the order reports a
   * duplicate, yet PlaceOrder, which checks only stock, places it.
   */
  method DuplicateProductsAccepted() returns (unique: bool, result: Result<OrderSummary, PlaceOrderError>)
    ensures !unique
    ensures result.Ok?
  {
    var order := CreateOrder();
    var theSameProduct := Product("Item1", 1.11);
    order.orderItems := [OrderItem(theSameProduct, 1.0), OrderItem(theSameProduct, 2.0),
                         OrderItem(theSameProduct, 3.0)];
    SameProductOnEveryLineNotDistinct(order.orderItems, theSameProduct);
    unique := order.OrderHasAllUniqueProducts();
    var service := CreateService(true);
    assert AllInStock(order.orderItems, service.productRepository);
    result := service.PlaceOrder(order);
  }

  /** A freshly constructed order has unique products and a net total of zero. */
  method FreshOrder() returns (unique: bool, total: real)
    ensures unique && total == 0.0
  {
    var order := new Order();
    unique := order.OrderHasAllUniqueProducts();
    total := order.CalculatedExpectedNetTotal();
  }
}
