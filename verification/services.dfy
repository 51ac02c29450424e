/**
 * OrderService of OrderEntryMockingPractice/Services: the order-placement
 * workflow and its three private helpers.
 *
 * The five collaborators are given to the constructor and never reassigned.
 * Those that answer are modelled as fixed functions of their arguments; the
 * email service answers nothing and is seen only through the call log, a
 * ghost record of every collaborator call in the order it was made.
 */
module Services {
  import opened Wrappers
  import opened Models

  /** One call from the service to a collaborator. */
  datatype Call =
    | IsInStock(sku: string)
    | Fulfill(order: Order)
    | GetCustomer(customerId: int)
    | GetTaxEntries(postalCode: string, country: string)
    | SendOrderConfirmationEmail(customerId: int, orderId: int)

  /**
   * Why PlaceOrder fails: its one check, the stock check, or an order with no
   * customer id reaching the customer lookup (the `(int)` cast throws).
   */
  datatype PlaceOrderError = NotAllInStock | CustomerIdMissing

  /** Every line's SKU is reported in stock. */
  predicate AllInStock(items: seq<OrderItem>, isInStock: string -> bool)
  {
    forall i :: 0 <= i < |items| ==> isInStock(items[i].product.sku)
  }

  /**
   * The stock queries made for the given lines: one per line, in order,
   * up to and including the first SKU reported out of stock.
   */
  function StockQueries(items: seq<OrderItem>, isInStock: string -> bool): (calls: seq<Call>)
    ensures |calls| <= |items|
    ensures (|calls| == 0) == (|items| == 0)
    ensures forall c :: c in calls ==> c.IsInStock?
  {
    if items == [] then []
    else if isInStock(items[0].product.sku) then [IsInStock(items[0].product.sku)] + StockQueries(items[1..], isInStock)
    else [IsInStock(items[0].product.sku)]
  }

  /** The sum of the tax rates. */
  function RateSum(taxes: seq<TaxEntry>): (sum: real)
  {
    if taxes == [] then 0.0 else taxes[0].rate + RateSum(taxes[1..])
  }

  /** Appending a tax entry adds its rate. */
  lemma {:induction false} RateSumAppend(taxes: seq<TaxEntry>, entry: TaxEntry)
    ensures RateSum(taxes + [entry]) == RateSum(taxes) + entry.rate
  {
    if taxes != [] {
      assert (taxes + [entry])[1..] == taxes[1..] + [entry];
      RateSumAppend(taxes[1..], entry);
    }
  }

  /**
   * When the first k lines are in stock and line k is not, exactly the
   * first k + 1 SKUs are queried, in order.
   */
  lemma {:induction false} StockQueriesStopAtFirstMiss(items: seq<OrderItem>, isInStock: string -> bool, k: nat)
    requires k < |items|
    requires forall i :: 0 <= i < k ==> isInStock(items[i].product.sku)
    requires !isInStock(items[k].product.sku)
    ensures |StockQueries(items, isInStock)| == k + 1
    ensures forall j :: 0 <= j <= k ==> StockQueries(items, isInStock)[j] == IsInStock(items[j].product.sku)
  {
    if k > 0 {
      StockQueriesStopAtFirstMiss(items[1..], isInStock, k - 1);
      assert isInStock(items[0].product.sku);
      var rest := StockQueries(items[1..], isInStock);
      assert StockQueries(items, isInStock) == [IsInStock(items[0].product.sku)] + rest;
      forall j | 0 <= j <= k
        ensures StockQueries(items, isInStock)[j] == IsInStock(items[j].product.sku)
      {
        if j > 0 {
          assert items[1..][j - 1] == items[j];
        }
      }
    }
  }

  /** When every line is in stock, every SKU is queried once, in order. */
  lemma {:induction false} StockQueriesWhenAllInStock(items: seq<OrderItem>, isInStock: string -> bool)
    requires AllInStock(items, isInStock)
    ensures |StockQueries(items, isInStock)| == |items|
    ensures forall j :: 0 <= j < |items| ==> StockQueries(items, isInStock)[j] == IsInStock(items[j].product.sku)
  {
    if items != [] {
      assert AllInStock(items[1..], isInStock) by {
        forall i | 0 <= i < |items[1..]| ensures isInStock(items[1..][i].product.sku) {
          assert items[1..][i] == items[i + 1];
        }
      }
      StockQueriesWhenAllInStock(items[1..], isInStock);
      assert isInStock(items[0].product.sku);
      forall j | 0 <= j < |items|
        ensures StockQueries(items, isInStock)[j] == IsInStock(items[j].product.sku)
      {
        if j > 0 {
          assert items[1..][j - 1] == items[j];
        }
      }
    }
  }

  /** The order-placement service and its collaborators. */
  class OrderService {
    const productRepository: string -> bool
    const orderFulfillmentService: Order -> OrderConfirmation
    const taxRateService: (string, string) -> seq<TaxEntry>
    const customerRepository: int -> Customer

    /** Every collaborator call made so far, oldest first; the email service is seen only here. */
    ghost var log: seq<Call>

    constructor (productRepository: string -> bool, orderFulfillmentService: Order -> OrderConfirmation,
                 taxRateService: (string, string) -> seq<TaxEntry>, customerRepository: int -> Customer)
      ensures this.productRepository == productRepository
      ensures this.orderFulfillmentService == orderFulfillmentService
      ensures this.taxRateService == taxRateService
      ensures this.customerRepository == customerRepository
      ensures log == []
    {
      this.productRepository := productRepository;
      this.orderFulfillmentService := orderFulfillmentService;
      this.taxRateService := taxRateService;
      this.customerRepository := customerRepository;
      log := [];
    }

    /**
     * Places the order: stock check, fulfillment, customer and tax lookup,
     * totals, summary, confirmation email. Fails, with no call after the
     * stock queries, when some line is out of stock. An in-stock order
     * without a customer id is fulfilled and then fails, with no lookup,
     * summary or email.
     */
    method PlaceOrder(order: Order) returns (result: Result<OrderSummary, PlaceOrderError>)
      modifies this`log
      ensures unchanged(order)
      ensures !AllInStock(order.orderItems, productRepository) ==>
        result == Err(NotAllInStock) &&
        log == old(log) + StockQueries(order.orderItems, productRepository)
      ensures AllInStock(order.orderItems, productRepository) && order.customerId.None? ==>
        result == Err(CustomerIdMissing) &&
        log == old(log) + StockQueries(order.orderItems, productRepository) + [Fulfill(order)]
      ensures AllInStock(order.orderItems, productRepository) && order.customerId.Some? ==>
        var confirmation := orderFulfillmentService(order);
        var customer := customerRepository(order.customerId.value);
        var taxes := taxRateService(customer.postalCode, customer.country);
        var netTotal := NetTotal(order.orderItems);
        && result.Ok?
        && result.value.orderNumber == confirmation.orderNumber
        && result.value.orderId == confirmation.orderId
        && result.value.customerId == DefaultCustomerId
        && result.value.taxes == taxes
        && result.value.netTotal == netTotal
        && result.value.total == netTotal - netTotal * RateSum(taxes)
        && log == old(log) + StockQueries(order.orderItems, productRepository)
                           + [Fulfill(order), GetCustomer(order.customerId.value),
                              GetTaxEntries(customer.postalCode, customer.country),
                              SendOrderConfirmationEmail(result.value.customerId, result.value.orderId)]
    {
      var inStock := AllItemsInStock(order);
      if !inStock {
        return Err(NotAllInStock);
      }

      var orderConfirmation := orderFulfillmentService(order);
      log := log + [Fulfill(order)];
      if order.customerId.None? {
        return Err(CustomerIdMissing);
      }
      var id := order.customerId.value;
      var customer := customerRepository(id);
      log := log + [GetCustomer(id)];
      var taxRates := taxRateService(customer.postalCode, customer.country);
      log := log + [GetTaxEntries(customer.postalCode, customer.country)];
      var netTotal := SumNetTotal(order);
      var totalTaxes := SumTaxes(taxRates, netTotal);
      var orderTotal := netTotal - totalTaxes;
      var orderSummary := OrderSummary(orderConfirmation.orderId, orderConfirmation.orderNumber,
                                       DefaultCustomerId, netTotal, orderTotal, taxRates);

      log := log + [SendOrderConfirmationEmail(orderSummary.customerId, orderSummary.orderId)];

      return Ok(orderSummary);
    }

    /** The total tax: each rate applied to the same net total, summed. */
    method SumTaxes(taxRates: seq<TaxEntry>, netTotal: real) returns (totalTaxes: real)
      ensures totalTaxes == netTotal * RateSum(taxRates)
      ensures taxRates == [] ==> totalTaxes == 0.0
    {
      totalTaxes := 0.0;
      var i := 0;
      while i < |taxRates|
        invariant 0 <= i <= |taxRates|
        invariant totalTaxes == netTotal * RateSum(taxRates[..i])
      {
        var tax := taxRates[i].rate;
        assert taxRates[..i + 1] == taxRates[..i] + [taxRates[i]];
        RateSumAppend(taxRates[..i], taxRates[i]);
        totalTaxes := totalTaxes + tax * netTotal;
        i := i + 1;
      }
      assert taxRates[..i] == taxRates;
    }

    /** The net total of the order, accumulated line by line. */
    method SumNetTotal(order: Order) returns (netTotal: real)
      ensures netTotal == order.CalculatedExpectedNetTotal()
    {
      netTotal := 0.0;
      var i := 0;
      while i < |order.orderItems|
        invariant 0 <= i <= |order.orderItems|
        invariant netTotal == NetTotal(order.orderItems[..i])
      {
        var orderItem := order.orderItems[i];
        var quantity := orderItem.quantity;
        var unitPrice := orderItem.product.price;
        assert order.orderItems[..i + 1] == order.orderItems[..i] + [orderItem];
        NetTotalAppend(order.orderItems[..i], orderItem);
        netTotal := netTotal + quantity * unitPrice;
        i := i + 1;
      }
      assert order.orderItems[..i] == order.orderItems;
    }

    /**
     * Queries the stock of each line's SKU in turn and answers false at the
     * first one reported out of stock, without querying the rest.
     */
    method AllItemsInStock(order: Order) returns (inStock: bool)
      modifies this`log
      ensures inStock == AllInStock(order.orderItems, productRepository)
      ensures log == old(log) + StockQueries(order.orderItems, productRepository)
    {
      var i := 0;
      while i < |order.orderItems|
        invariant 0 <= i <= |order.orderItems|
        invariant forall k :: 0 <= k < i ==> productRepository(order.orderItems[k].product.sku)
        invariant old(log) + StockQueries(order.orderItems, productRepository)
                  == log + StockQueries(order.orderItems[i..], productRepository)
      {
        var item := order.orderItems[i];
        assert order.orderItems[i..][0] == item;
        assert order.orderItems[i..][1..] == order.orderItems[i + 1..];
        log := log + [IsInStock(item.product.sku)];
        if !productRepository(item.product.sku) {
          return false;
        }
        i := i + 1;
      }
      return true;
    }
  }
}
