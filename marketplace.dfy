/**
 * The marketplace's order lifecycle: consumers place orders for a product,
 * and the product's farmer accepts them (taking the quantity out of stock)
 * or rejects them. Every change is recorded in an append-only activity log.
 * The admin overview totals accepted sales and stock on hand.
 */
module Marketplace {
  import opened Wrappers

  datatype Status = Pending | Accepted | Rejected

  /** A listed product; quantity is the stock on hand, in kg. */
  datatype Product = Product(
    name: string, price: real, quantity: int,
    category: string, location: string, image: string, farmerId: nat)

  /**
   * An order for a product. farmerId repeats the product's farmer so that a
   * farmer's incoming orders can be found directly.
   */
  datatype Order = Order(productId: nat, consumerId: nat, farmerId: nat, quantity: int, status: Status)

  /** What a log entry records; the application renders each as a sentence. */
  datatype Activity =
    | PlacedOrder(quantity: int, productName: string)
    | AcceptedOrder(orderId: nat)
    | RejectedOrder(orderId: nat)

  datatype LogEntry = LogEntry(userId: nat, action: Activity)

  /** The message shown after an attempt to buy. */
  datatype PlaceOutcome = OrderPlaced | InvalidQuantityOrOutOfStock

  /** The reply to an attempt to accept or reject an order. */
  datatype ManageOutcome = Unauthorized | OrderAccepted | NotEnoughStock | OrderRejected | NoAction

  /** What an order adds to the sold quantity: its quantity once it is accepted. */
  function SoldQuantity(o: Order): int
  {
    if o.status == Accepted then o.quantity else 0
  }

  /** The admin overview's total of kilograms sold: the quantities of all accepted orders. */
  function TotalSalesKg(orders: seq<Order>): int
  {
    if orders == [] then 0 else SoldQuantity(orders[0]) + TotalSalesKg(orders[1..])
  }

  /** The admin overview's total inventory: the stock of all products. */
  function TotalInventory(products: seq<Product>): int
  {
    if products == [] then 0 else products[0].quantity + TotalInventory(products[1..])
  }

  /** Changing one product's stock changes the total inventory by exactly that difference. */
  lemma {:induction false} TotalInventoryUpdate(products: seq<Product>, i: nat, p: Product)
    requires i < |products|
    ensures TotalInventory(products[i := p]) == TotalInventory(products) - products[i].quantity + p.quantity
  {
    if i > 0 {
      assert products[i := p][1..] == products[1..][i - 1 := p];
      TotalInventoryUpdate(products[1..], i - 1, p);
    }
  }

  /** Replacing one order changes the kilograms sold by the difference of what the two count. */
  lemma {:induction false} TotalSalesUpdate(orders: seq<Order>, i: nat, o: Order)
    requires i < |orders|
    ensures TotalSalesKg(orders[i := o]) == TotalSalesKg(orders) - SoldQuantity(orders[i]) + SoldQuantity(o)
  {
    if i > 0 {
      assert orders[i := o][1..] == orders[1..][i - 1 := o];
      TotalSalesUpdate(orders[1..], i - 1, o);
    }
  }

  /** Appending an order adds what it counts to the kilograms sold. */
  lemma {:induction false} TotalSalesAppend(orders: seq<Order>, o: Order)
    ensures TotalSalesKg(orders + [o]) == TotalSalesKg(orders) + SoldQuantity(o)
  {
    if orders != [] {
      assert (orders + [o])[1..] == orders[1..] + [o];
      TotalSalesAppend(orders[1..], o);
    }
  }

  /** The quantity asked for in the order form: 1 when the field is absent. */
  function RequestedQuantity(field: Option<int>): int
  {
    match field
    case None => 1
    case Some(q) => q
  }

  /** No product has negative stock. */
  predicate NoNegativeStock(products: seq<Product>)
  {
    forall i :: 0 <= i < |products| ==> products[i].quantity >= 0
  }

  /**
   * The product, order and activity-log tables. Products and orders are
   * numbered from 1 in the order they were stored: product k is
   * products[k - 1] and order k is orders[k - 1].
   */
  class Store {
    var products: seq<Product>
    var orders: seq<Order>
    var log: seq<LogEntry>

    /**
     * Every order names a stored product, carries that product's farmer and
     * asks for a positive quantity.
     */
    ghost predicate Valid()
      reads this
    {
      forall i :: 0 <= i < |orders| ==>
        && 1 <= orders[i].productId <= |products|
        && orders[i].farmerId == products[orders[i].productId - 1].farmerId
        && orders[i].quantity > 0
    }

    /** A store holding the given products and no orders or log entries yet. */
    constructor (initialProducts: seq<Product>)
      ensures Valid()
      ensures products == initialProducts && orders == [] && log == []
    {
      products := initialProducts;
      orders := [];
      log := [];
    }

    /**
     * A user asks to buy a quantity of a product; the form's quantity field
     * is 1 when absent. The order is stored as Pending when the product
     * exists and 0 < quantity <= its stock; stock is not touched either way.
     */
    method PlaceOrder(actor: nat, productId: nat, quantityField: Option<int>) returns (outcome: PlaceOutcome)
      requires Valid()
      modifies this
      ensures Valid()
      ensures products == old(products)
      ensures outcome == OrderPlaced <==>
        var orderQty := RequestedQuantity(quantityField);
        1 <= productId <= |products| && 0 < orderQty <= products[productId - 1].quantity
      ensures outcome == OrderPlaced ==>
        var orderQty := RequestedQuantity(quantityField);
        && orders == old(orders) + [Order(productId, actor, products[productId - 1].farmerId, orderQty, Pending)]
        && log == old(log) + [LogEntry(actor, PlacedOrder(orderQty, products[productId - 1].name))]
      ensures outcome != OrderPlaced ==> orders == old(orders) && log == old(log)
      ensures TotalSalesKg(orders) == old(TotalSalesKg(orders))
    {
      var orderQty := RequestedQuantity(quantityField);
      if 1 <= productId <= |products| && products[productId - 1].quantity >= orderQty && orderQty > 0 {
        var product := products[productId - 1];
        var order := Order(productId, actor, product.farmerId, orderQty, Pending);
        TotalSalesAppend(orders, order);
        orders := orders + [order];
        log := log + [LogEntry(actor, PlacedOrder(orderQty, product.name))];
        outcome := OrderPlaced;
      } else {
        outcome := InvalidQuantityOrOutOfStock;
      }
    }

    /**
     * The acting user accepts or rejects an order. Only the order's farmer
     * may; anyone else, or a missing order, gets Unauthorized. The order's
     * current status is not consulted: an accepted order can be accepted
     * again (taking its quantity out of stock again) or rejected.
     */
    method ManageOrder(actor: nat, orderId: nat, action: string) returns (outcome: ManageOutcome)
      requires Valid()
      modifies this
      ensures Valid()
      ensures outcome == Unauthorized <==>
        !(1 <= orderId <= |old(orders)|) || old(orders)[orderId - 1].farmerId != actor
      ensures outcome in {Unauthorized, NotEnoughStock, NoAction} ==>
        products == old(products) && orders == old(orders) && log == old(log)
      ensures outcome != Unauthorized ==>
        var o := old(orders)[orderId - 1];
        var p := old(products)[o.productId - 1];
        && (action == "accept" && p.quantity >= o.quantity ==>
              && outcome == OrderAccepted
              && orders == old(orders)[orderId - 1 := o.(status := Accepted)]
              && products == old(products)[o.productId - 1 := p.(quantity := p.quantity - o.quantity)]
              && log == old(log) + [LogEntry(actor, AcceptedOrder(orderId))])
        && (action == "accept" && p.quantity < o.quantity ==> outcome == NotEnoughStock)
        && (action == "reject" ==>
              && outcome == OrderRejected
              && orders == old(orders)[orderId - 1 := o.(status := Rejected)]
              && products == old(products)
              && log == old(log) + [LogEntry(actor, RejectedOrder(orderId))])
        && (action != "accept" && action != "reject" ==> outcome == NoAction)
      ensures TotalInventory(products) ==
        old(TotalInventory(products)) - (if outcome == OrderAccepted then old(orders)[orderId - 1].quantity else 0)
      ensures outcome == OrderAccepted ==>
        TotalSalesKg(orders) == old(TotalSalesKg(orders)) + old(orders)[orderId - 1].quantity
                                - SoldQuantity(old(orders)[orderId - 1])
      ensures outcome == OrderRejected ==>
        TotalSalesKg(orders) == old(TotalSalesKg(orders)) - SoldQuantity(old(orders)[orderId - 1])
      ensures old(NoNegativeStock(products)) ==> NoNegativeStock(products)
    {
      if !(1 <= orderId <= |orders|) || orders[orderId - 1].farmerId != actor {
        return Unauthorized;
      }
      var order := orders[orderId - 1];
      var k := order.productId - 1;
      if action == "accept" {
        if products[k].quantity >= order.quantity {
          var restocked := products[k].(quantity := products[k].quantity - order.quantity);
          TotalInventoryUpdate(products, k, restocked);
          TotalSalesUpdate(orders, orderId - 1, order.(status := Accepted));
          orders := orders[orderId - 1 := order.(status := Accepted)];
          products := products[k := restocked];
          log := log + [LogEntry(actor, AcceptedOrder(orderId))];
          outcome := OrderAccepted;
        } else {
          outcome := NotEnoughStock;
        }
      } else if action == "reject" {
        TotalSalesUpdate(orders, orderId - 1, order.(status := Rejected));
        orders := orders[orderId - 1 := order.(status := Rejected)];
        log := log + [LogEntry(actor, RejectedOrder(orderId))];
        outcome := OrderRejected;
      } else {
        outcome := NoAction;
      }
    }
  }

  /**
   * Accepting the same order twice takes its quantity out of stock twice:
   * 10 kg in stock, an order for 3 kg accepted twice, leaves 4 kg, and the
   * kilograms sold count the order once.
   */
  method AcceptTwice() returns (stock: int, status: Status, soldKg: int)
    ensures stock == 4 && status == Accepted && soldKg == 3
  {
    var store := new Store([Product("Rice", 1.5, 10, "Grain", "Not specified", "default.jpg", 7)]);
    var placed := store.PlaceOrder(3, 1, Some(3));
    var first := store.ManageOrder(7, 1, "accept");
    var second := store.ManageOrder(7, 1, "accept");
    stock, status, soldKg := store.products[0].quantity, store.orders[0].status, TotalSalesKg(store.orders);
  }

  /**
   * Rejecting an order after accepting it marks it Rejected but does not give
   * the stock back: 10 kg, an order for 3 kg accepted then rejected, leaves
   * 7 kg while nothing counts as sold.
   */
  method AcceptThenReject() returns (stock: int, status: Status, soldKg: int)
    ensures stock == 7 && status == Rejected && soldKg == 0
  {
    var store := new Store([Product("Rice", 1.5, 10, "Grain", "Not specified", "default.jpg", 7)]);
    var placed := store.PlaceOrder(3, 1, Some(3));
    var accepted := store.ManageOrder(7, 1, "accept");
    var rejected := store.ManageOrder(7, 1, "reject");
    stock, status, soldKg := store.products[0].quantity, store.orders[0].status, TotalSalesKg(store.orders);
  }

  /**
   * Placing an order does not reserve stock, so two orders can each pass the
   * placement check against the same 5 kg; once the first 3 kg are accepted,
   * the second 3 kg order is refused for lack of stock and stays Pending.
   */
  method AcceptAfterStockTaken() returns (outcome: ManageOutcome, stock: int, status: Status)
    ensures outcome == NotEnoughStock && stock == 2 && status == Pending
  {
    var store := new Store([Product("Onion", 0.8, 5, "Vegetable", "Not specified", "default.jpg", 7)]);
    var first := store.PlaceOrder(3, 1, Some(3));
    var second := store.PlaceOrder(4, 1, Some(3));
    var accepted := store.ManageOrder(7, 1, "accept");
    outcome := store.ManageOrder(7, 2, "accept");
    stock, status := store.products[0].quantity, store.orders[1].status;
  }
}
