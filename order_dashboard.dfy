/** The order back-office: loads the stored orders, gives each a state, shows
    them newest first, filters them by history and by a search term, counts
    them per state and lets one order at a time be expanded. Money is integer
    cents, dates are integer timestamps, and the page's `toLowerCase` is the
    parameter `lower`. */
module OrderDashboard {
  import opened Lists
  import opened Sorting

  /** The ids of the four order states, in display order. */
  const OrderStates: seq<string> := ["ordered", "preparing", "ready", "delivered"]

  /** The state an order gets when it is stored without one. */
  const DefaultState: string := "ordered"

  /** The fixed delivery fee added to an order's subtotal, in cents. */
  const DeliveryFee: int := 250

  datatype Customer = Customer(
    firstName: string,
    lastName: string,
    email: string,
    phone: string,
    address: string,
    postalCode: string,
    city: string,
    paymentMethod: string)

  datatype OrderItem = OrderItem(id: string, name: string, price: nat, quantity: int)

  /** An order as stored: its state may be missing. */
  datatype StoredOrder = StoredOrder(
    id: string,
    date: int,
    customer: Customer,
    items: seq<OrderItem>,
    total: int,
    state: Option<string>)

  /** An order as the dashboard holds it. */
  datatype Order = Order(
    id: string,
    date: int,
    customer: Customer,
    items: seq<OrderItem>,
    total: int,
    state: string)

  // ---------------------------------------------------------------------
  // Loading

  /** `state: order.state || "ordered"`: a missing state and the empty string
      are both falsy, so both become "ordered". */
  function WithState(o: StoredOrder): (r: Order)
    ensures r.id == o.id && r.date == o.date && r.customer == o.customer
    ensures r.items == o.items && r.total == o.total
    ensures o.state.Some? && o.state.value != "" ==> r.state == o.state.value
    ensures o.state.None? || o.state.value == "" ==> r.state == DefaultState
    ensures r.state != ""
  {
    var state := if o.state.Some? && o.state.value != "" then o.state.value else DefaultState;
    Order(o.id, o.date, o.customer, o.items, o.total, state)
  }

  function WithStates(saved: seq<StoredOrder>): (r: seq<Order>)
    ensures |r| == |saved|
    ensures forall i :: 0 <= i < |saved| ==> r[i] == WithState(saved[i])
  {
    Map(WithState, saved)
  }

  function Date(o: Order): int
  {
    o.date
  }

  /** The orders are newest first. */
  ghost predicate NewestFirst(orders: seq<Order>)
  {
    forall i, j :: 0 <= i < j < |orders| ==> orders[i].date >= orders[j].date
  }

  /** The order list `loadOrders` produces. `saved` is `None` when the stored
      text could not be parsed, and the list is then empty; a missing key
      reads as the empty list. Each order gets its state, then the array is
      sorted in place by date, newest first. */
  method LoadedOrders(saved: Option<seq<StoredOrder>>) returns (r: seq<Order>)
    ensures saved.None? ==> r == []
    ensures saved.Some? ==> |r| == |saved.value|
    ensures saved.Some? ==> multiset(r) == multiset(WithStates(saved.value))
    ensures NewestFirst(r)
    ensures forall o :: o in r ==> o.state != ""
  {
    if saved.None? {
      return [];
    }
    var withState := WithStates(saved.value);
    var a := new Order[|withState|](i requires 0 <= i < |withState| => withState[i]);
    assert a[..] == withState;
    SortInPlace(a, Date, Descending);
    r := a[..];
    SortedByDateIsNewestFirst(r);
    assert forall o :: o in r ==> o in multiset(withState);
  }

  lemma SortedByDateIsNewestFirst(r: seq<Order>)
    requires SortedBy(r, Date, Descending)
    ensures NewestFirst(r)
  {
  }

  // ---------------------------------------------------------------------
  // Updating, expanding

  /** `updateOrderState`: only the `state` of the orders with this id changes. */
  function UpdateOrderState(orders: seq<Order>, orderId: string, newState: string): (r: seq<Order>)
    ensures |r| == |orders|
    ensures forall i :: 0 <= i < |orders| && orders[i].id != orderId ==> r[i] == orders[i]
    ensures forall i :: 0 <= i < |orders| && orders[i].id == orderId ==> r[i] == orders[i].(state := newState)
  {
    Map((o: Order) => if o.id == orderId then o.(state := newState) else o, orders)
  }

  /** `toggleOrderExpand`: the expanded order collapses; any other becomes
      the expanded one. At most one order is expanded at a time. */
  function ToggleOrderExpand(expanded: Option<string>, orderId: string): (r: Option<string>)
    ensures r == None <==> expanded == Some(orderId)
    ensures r != None ==> r == Some(orderId)
  {
    if expanded == Some(orderId) then None else Some(orderId)
  }

  /** The grand total displayed for an order: its subtotal plus the fee. */
  function DisplayedTotal(o: Order): int
  {
    o.total + DeliveryFee
  }

  // ---------------------------------------------------------------------
  // Filtering, counting

  /** The search test: the lower-cased term occurs in the lower-cased id,
      first name, last name or the name of one of the items. */
  predicate Matches(o: Order, term: string, lower: string -> string)
  {
    || Includes(lower(o.id), term)
    || Includes(lower(o.customer.firstName), term)
    || Includes(lower(o.customer.lastName), term)
    || exists item :: item in o.items && Includes(lower(item.name), term)
  }

  /** The test of `filteredOrders`: delivered orders are hidden unless the
      history is shown; an empty search term keeps everything else. */
  function Visible(showHistory: bool, searchTerm: string, lower: string -> string): Order -> bool
  {
    (o: Order) =>
      if !showHistory && o.state == "delivered" then false
      else if searchTerm != "" then Matches(o, lower(searchTerm), lower)
      else true
  }

  /** `filteredOrders`. */
  function FilteredOrders(orders: seq<Order>, showHistory: bool, searchTerm: string, lower: string -> string): (r: seq<Order>)
    ensures IsSubsequence(r, orders)
    ensures !showHistory ==> forall o :: o in r ==> o.state != "delivered"
    ensures showHistory && searchTerm == "" ==> r == orders
    ensures searchTerm != "" ==> forall o :: o in orders ==>
      (o in r <==> (showHistory || o.state != "delivered") && Matches(o, lower(searchTerm), lower))
    ensures searchTerm == "" ==> forall o :: o in orders ==> (o in r <==> showHistory || o.state != "delivered")
    ensures forall o :: multiset(r)[o] == if Visible(showHistory, searchTerm, lower)(o) then multiset(orders)[o] else 0
  {
    var keep := Visible(showHistory, searchTerm, lower);
    FilterMultiset(keep, orders);
    FilterMembers(keep, orders);
    FilterSubsequence(keep, orders);
    FilterAllKept(keep, orders);
    Filter(keep, orders)
  }

  function InState(state: string): Order -> bool
  {
    (o: Order) => o.state == state
  }

  /** `getOrderCountByState`: how many orders are in this state. */
  function CountByState(orders: seq<Order>, state: string): (r: nat)
    ensures r <= |orders|
    ensures r == 0 <==> forall o :: o in orders ==> o.state != state
    ensures r == |orders| <==> forall o :: o in orders ==> o.state == state
  {
    FilterMembers(InState(state), orders);
    CountAll(orders, state);
    var inState := Filter(InState(state), orders);
    assert inState != [] ==> inState[0] in inState;
    CountIf(InState(state), orders)
  }

  function StateOf(o: Order): string
  {
    o.state
  }

  /** A counter is the number of times its state occurs among the orders'
      states. */
  lemma CountIsMultiplicity(orders: seq<Order>, state: string)
    ensures CountByState(orders, state) == multiset(Map(StateOf, orders))[state]
  {
    TallyIsMultiplicity(orders, state);
  }

  lemma {:induction false} TallyIsMultiplicity(orders: seq<Order>, state: string)
    ensures CountIf(InState(state), orders) == multiset(Map(StateOf, orders))[state]
    decreases |orders|
  {
    if orders != [] {
      TallyIsMultiplicity(orders[1..], state);
      CountIfFront(InState(state), orders);
      assert Map(StateOf, orders) == [orders[0].state] + Map(StateOf, orders[1..]);
    }
  }

  /** Every order's state is one of the four known ids. */
  ghost predicate StatesKnown(orders: seq<Order>)
  {
    forall o :: o in orders ==> o.state in OrderStates
  }

  // ---------------------------------------------------------------------
  // Properties

  lemma {:induction false} CountAll(orders: seq<Order>, state: string)
    ensures |Filter(InState(state), orders)| == |orders| <==> forall o :: o in orders ==> o.state == state
    decreases |orders|
  {
    if orders != [] {
      CountAll(orders[1..], state);
      assert orders == [orders[0]] + orders[1..];
      assert |Filter(InState(state), orders[1..])| <= |orders[1..]|;
    }
  }

  /** When every state is known, the four counters add up to the number of
      orders. */
  lemma CountsAddUp(orders: seq<Order>)
    requires StatesKnown(orders)
    ensures CountByState(orders, "ordered") + CountByState(orders, "preparing")
          + CountByState(orders, "ready") + CountByState(orders, "delivered") == |orders|
  {
    TalliesAddUp(orders);
  }

  lemma {:induction false} TalliesAddUp(orders: seq<Order>)
    requires StatesKnown(orders)
    ensures CountIf(InState("ordered"), orders) + CountIf(InState("preparing"), orders)
          + CountIf(InState("ready"), orders) + CountIf(InState("delivered"), orders) == |orders|
    decreases |orders|
  {
    if orders != [] {
      var tail := orders[1..];
      assert StatesKnown(tail) by {
        forall o | o in tail ensures o.state in OrderStates {
          assert o in orders;
        }
      }
      TalliesAddUp(tail);
      assert orders[0] in orders;
      CountIfFront(InState("ordered"), orders);
      CountIfFront(InState("preparing"), orders);
      CountIfFront(InState("ready"), orders);
      CountIfFront(InState("delivered"), orders);
    }
  }

  /** Setting a known state keeps every state known, and the counters move
      one order from its old state to the new one. */
  lemma UpdateMovesCount(orders: seq<Order>, k: int, newState: string)
    requires 0 <= k < |orders|
    requires forall i :: 0 <= i < |orders| && i != k ==> orders[i].id != orders[k].id
    requires orders[k].state != newState
    ensures CountByState(UpdateOrderState(orders, orders[k].id, newState), newState) == CountByState(orders, newState) + 1
    ensures CountByState(UpdateOrderState(orders, orders[k].id, newState), orders[k].state) == CountByState(orders, orders[k].state) - 1
  {
    var r := UpdateOrderState(orders, orders[k].id, newState);
    assert orders == orders[..k] + [orders[k]] + orders[k + 1..];
    assert r == orders[..k] + [orders[k].(state := newState)] + orders[k + 1..];
    CountSplit(orders[..k], orders[k], orders[k + 1..], newState);
    CountSplit(orders[..k], orders[k].(state := newState), orders[k + 1..], newState);
    CountSplit(orders[..k], orders[k], orders[k + 1..], orders[k].state);
    CountSplit(orders[..k], orders[k].(state := newState), orders[k + 1..], orders[k].state);
  }

  lemma CountSplit(front: seq<Order>, o: Order, back: seq<Order>, state: string)
    ensures |Filter(InState(state), front + [o] + back)|
         == |Filter(InState(state), front)| + (if o.state == state then 1 else 0) + |Filter(InState(state), back)|
  {
    FilterConcat(InState(state), front + [o], back);
    FilterConcat(InState(state), front, [o]);
    assert [o][1..] == [];
  }

  lemma UpdateKeepsStatesKnown(orders: seq<Order>, orderId: string, newState: string)
    requires StatesKnown(orders)
    requires newState in OrderStates
    ensures StatesKnown(UpdateOrderState(orders, orderId, newState))
  {
    var r := UpdateOrderState(orders, orderId, newState);
    forall o | o in r ensures o.state in OrderStates {
      var i :| 0 <= i < |r| && r[i] == o;
      assert orders[i] in orders;
    }
  }

  /** Toggling the same order twice from a collapsed list collapses it again;
      toggling it twice while it is expanded leaves it expanded. */
  lemma ToggleExpandTwice(expanded: Option<string>, orderId: string)
    ensures ToggleOrderExpand(ToggleOrderExpand(expanded, orderId), orderId)
         == if expanded == Some(orderId) then Some(orderId) else None
  {
  }

  // ---------------------------------------------------------------------
  // The page's state cells

  /** The back-office page. The fields are the component's state cells;
      `updateOrderState` also writes the orders back to storage, which this
      model leaves out. */
  class Dashboard {
    var orders: seq<Order>
    var isLoading: bool
    var expandedOrderId: Option<string>
    var showHistory: bool
    var searchTerm: string

    constructor ()
      ensures orders == [] && isLoading && expandedOrderId == None && !showHistory && searchTerm == ""
    {
      orders := [];
      isLoading := true;
      expandedOrderId := None;
      showHistory := false;
      searchTerm := "";
    }

    /** `loadOrders`, once its delay has passed. */
    method LoadOrders(saved: Option<seq<StoredOrder>>)
      modifies this
      ensures saved.None? ==> orders == []
      ensures saved.Some? ==> multiset(orders) == multiset(WithStates(saved.value))
      ensures NewestFirst(orders)
      ensures !isLoading
      ensures expandedOrderId == old(expandedOrderId) && showHistory == old(showHistory) && searchTerm == old(searchTerm)
    {
      isLoading := true;
      orders := LoadedOrders(saved);
      isLoading := false;
    }

    method UpdateState(orderId: string, newState: string)
      modifies this
      ensures orders == UpdateOrderState(old(orders), orderId, newState)
      ensures isLoading == old(isLoading) && expandedOrderId == old(expandedOrderId)
      ensures showHistory == old(showHistory) && searchTerm == old(searchTerm)
    {
      orders := UpdateOrderState(orders, orderId, newState);
    }

    method ToggleExpand(orderId: string)
      modifies this
      ensures expandedOrderId == ToggleOrderExpand(old(expandedOrderId), orderId)
      ensures orders == old(orders) && isLoading == old(isLoading)
      ensures showHistory == old(showHistory) && searchTerm == old(searchTerm)
    {
      expandedOrderId := ToggleOrderExpand(expandedOrderId, orderId);
    }

    /** `toggleHistory`. */
    method ToggleHistory()
      modifies this
      ensures showHistory == !old(showHistory)
      ensures orders == old(orders) && isLoading == old(isLoading)
      ensures expandedOrderId == old(expandedOrderId) && searchTerm == old(searchTerm)
    {
      showHistory := !showHistory;
    }

    /** The search box. */
    method SetSearchTerm(term: string)
      modifies this
      ensures searchTerm == term
      ensures orders == old(orders) && isLoading == old(isLoading)
      ensures expandedOrderId == old(expandedOrderId) && showHistory == old(showHistory)
    {
      searchTerm := term;
    }

    /** The orders the page lists. */
    function Shown(lower: string -> string): seq<Order>
      reads this
    {
      FilteredOrders(orders, showHistory, searchTerm, lower)
    }
  }
}
