/**
 * The order model of OrderEntryMockingPractice/Models: products, line items
 * and the Order class with its two self-checks, the duplicate-product scan
 * and the expected net total.
 *
 * Prices, quantities and totals are exact reals; the source converts its
 * decimal prices to double and computes in double.
 */
module Models {
  import opened Wrappers

  /** A catalogue product. Two products are the same product when they are equal as values. */
  datatype Product = Product(sku: string, price: real)

  /** One line of an order: a quantity of one product. */
  datatype OrderItem = OrderItem(product: Product, quantity: real)

  /** A customer; only the postal code and country are used, as tax lookup keys. */
  datatype Customer = Customer(customerId: int, postalCode: string, country: string)

  /** One tax applying to a customer's jurisdiction, as a fraction of the net total. */
  datatype TaxEntry = TaxEntry(description: string, rate: real)

  /** What the fulfillment service answers for an order it accepted. */
  datatype OrderConfirmation = OrderConfirmation(orderNumber: string, orderId: int)

  /** The result of a successful placement. */
  datatype OrderSummary = OrderSummary(
    orderId: int,
    orderNumber: string,
    customerId: int,
    netTotal: real,
    total: real,
    taxes: seq<TaxEntry>)

  /** The value an OrderSummary's customer id has when nothing assigns it. */
  const DefaultCustomerId: int := 0

  /** What a line contributes to the net total. */
  function LineTotal(item: OrderItem): (subtotal: real)
  {
    item.quantity * item.product.price
  }

  /** Sum of quantity * unit price over the line items. */
  function NetTotal(items: seq<OrderItem>): (total: real)
  {
    if items == [] then 0.0 else LineTotal(items[0]) + NetTotal(items[1..])
  }

  /** No product occurs on two different lines. */
  predicate ProductsDistinct(items: seq<OrderItem>)
  {
    forall i, j :: 0 <= i < j < |items| ==> items[i].product != items[j].product
  }

  /** The products named by the line items. */
  function ProductSet(items: seq<OrderItem>): (products: set<Product>)
  {
    set i | 0 <= i < |items| :: items[i].product
  }

  /** Every line has a non-negative quantity and a non-negative price. */
  predicate WellFormedLines(items: seq<OrderItem>)
  {
    forall i :: 0 <= i < |items| ==> 0.0 <= items[i].quantity && 0.0 <= items[i].product.price
  }

  /** Dictionary.Add: the key must not be present yet (C# throws otherwise). */
  function Add<K, V>(m: map<K, V>, k: K, v: V): (m': map<K, V>)
    requires k !in m
  {
    m[k := v]
  }

  /** An order: an optional customer id and its line items. */
  class Order {
    var customerId: Option<int>
    var orderItems: seq<OrderItem>

    /** A new order has no customer yet and no line items. */
    constructor ()
      ensures customerId == None && orderItems == []
    {
      customerId := None;
      orderItems := [];
    }

    /**
     * Scans the items once, remembering each product in a local dictionary,
     * and answers false at the first product already seen.
     */
    method OrderHasAllUniqueProducts() returns (unique: bool)
      ensures unique <==> ProductsDistinct(orderItems)
    {
      var dictionary: map<Product, OrderItem> := map[];
      var i := 0;
      while i < |orderItems|
        invariant 0 <= i <= |orderItems|
        invariant dictionary.Keys == ProductSet(orderItems[..i])
        invariant forall p :: p in dictionary ==> dictionary[p].product == p
        invariant ProductsDistinct(orderItems[..i])
      {
        var orderItem := orderItems[i];
        if orderItem.product in dictionary {
          assert orderItem.product in ProductSet(orderItems[..i]);
          ghost var k :| 0 <= k < i && orderItems[k].product == orderItem.product;
          assert orderItems[k].product == orderItems[i].product;
          return false;
        }
        dictionary := Add(dictionary, orderItem.product, orderItem);
        assert orderItems[..i + 1] == orderItems[..i] + [orderItem];
        i := i + 1;
      }
      assert orderItems[..i] == orderItems;
      return true;
    }

    /** The expected net total: quantity times unit price, summed over the lines. */
    function CalculatedExpectedNetTotal(): (total: real)
      reads this
      ensures orderItems == [] ==> total == 0.0
      ensures WellFormedLines(orderItems) ==> 0.0 <= total
    {
      NetTotalNonNegative(orderItems);
      NetTotal(orderItems)
    }
  }

  /** Appending one line adds exactly that line's quantity times price. */
  lemma {:induction false} NetTotalAppend(items: seq<OrderItem>, item: OrderItem)
    ensures NetTotal(items + [item]) == NetTotal(items) + item.quantity * item.product.price
  {
    if items != [] {
      assert (items + [item])[1..] == items[1..] + [item];
      NetTotalAppend(items[1..], item);
    }
  }

  /** The net total of two lists of lines is the sum of their net totals. */
  lemma {:induction false} NetTotalConcat(a: seq<OrderItem>, b: seq<OrderItem>)
    ensures NetTotal(a + b) == NetTotal(a) + NetTotal(b)
  {
    if a == [] {
      assert a + b == b;
    } else {
      assert (a + b)[1..] == a[1..] + b;
      NetTotalConcat(a[1..], b);
    }
  }

  /** Non-negative quantities and prices give a non-negative net total. */
  lemma {:induction false} NetTotalNonNegative(items: seq<OrderItem>)
    ensures WellFormedLines(items) ==> 0.0 <= NetTotal(items)
  {
    if items != [] && WellFormedLines(items) {
      assert WellFormedLines(items[1..]) by {
        forall i | 0 <= i < |items[1..]|
          ensures 0.0 <= items[1..][i].quantity && 0.0 <= items[1..][i].product.price
        {
          assert items[1..][i] == items[i + 1];
        }
      }
      NetTotalNonNegative(items[1..]);
      assert 0.0 <= items[0].quantity && 0.0 <= items[0].product.price;
    }
  }

  /** There are never more distinct products than lines. */
  lemma {:induction false} ProductSetBound(items: seq<OrderItem>)
    ensures |ProductSet(items)| <= |items|
  {
    if items != [] {
      var init := items[..|items| - 1];
      ProductSetSnoc(items);
      ProductSetBound(init);
    }
  }

  /** The products of a non-empty list: those of all lines but the last, plus the last one's. */
  lemma ProductSetSnoc(items: seq<OrderItem>)
    requires items != []
    ensures ProductSet(items) == ProductSet(items[..|items| - 1]) + {items[|items| - 1].product}
  {
  }

  /**
   * The dictionary view of uniqueness: the products are pairwise distinct
   * exactly when there are as many distinct products as lines.
   */
  lemma {:induction false} DistinctIffAsManyProductsAsLines(items: seq<OrderItem>)
    ensures ProductsDistinct(items) <==> |ProductSet(items)| == |items|
  {
    if items == [] {
      assert ProductSet(items) == {};
    } else {
      var init := items[..|items| - 1];
      var last := items[|items| - 1];
      DistinctIffAsManyProductsAsLines(init);
      ProductSetBound(init);
      ProductSetSnoc(items);
      if ProductsDistinct(items) {
        assert ProductsDistinct(init) by {
          forall i, j | 0 <= i < j < |init| ensures init[i].product != init[j].product {
            assert init[i] == items[i] && init[j] == items[j];
          }
        }
        assert last.product !in ProductSet(init);
      } else {
        var i, j :| 0 <= i < j < |items| && items[i].product == items[j].product;
        if j < |items| - 1 {
          assert init[i] == items[i] && init[j] == items[j];
          assert !ProductsDistinct(init);
        } else {
          assert init[i] == items[i];
          assert last.product in ProductSet(init);
        }
      }
    }
  }

  /** Two or more lines that all carry the same product are not unique. */
  lemma SameProductOnEveryLineNotDistinct(items: seq<OrderItem>, product: Product)
    requires 2 <= |items|
    requires forall i :: 0 <= i < |items| ==> items[i].product == product
    ensures !ProductsDistinct(items)
  {
    assert items[0].product == items[1].product;
  }
}
