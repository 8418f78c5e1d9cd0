/** The pizza storefront: a catalogue that can be filtered to vegetarian
    pizzas and sorted by price, and a cart that keeps one line per pizza.
    Prices are integer cents. */
module PizzaShop {
  import opened Lists
  import opened Sorting

  /** A catalogue entry. */
  datatype Pizza = Pizza(
    id: string,
    name: string,
    ingredients: seq<string>,
    description: string,
    price: nat,
    vegetarienne: bool,
    base: string,
    image: string)

  /** A cart line: the pizza's fields spread into the line, plus a quantity. */
  datatype CartLine = CartLine(pizza: Pizza, quantity: int)

  /** The cart already holds a line for this id (`cart.find` returns one). */
  predicate HasLine(cart: seq<CartLine>, id: string)
  {
    exists line :: line in cart && line.pizza.id == id
  }

  /** The invariant the cart handlers keep: one line per pizza id, and every
      quantity at least 1. */
  ghost predicate CartValid(cart: seq<CartLine>)
  {
    && (forall i, j :: 0 <= i < j < |cart| ==> cart[i].pizza.id != cart[j].pizza.id)
    && (forall i :: 0 <= i < |cart| ==> cart[i].quantity >= 1)
  }

  // ---------------------------------------------------------------------
  // Cart handlers

  /** `addToCart`: a pizza already in the cart gets its quantity raised by one;
      any other pizza is appended as a new line of quantity 1. */
  function AddLine(cart: seq<CartLine>, pizza: Pizza): (r: seq<CartLine>)
    ensures HasLine(cart, pizza.id) ==>
      && |r| == |cart|
      && forall i :: 0 <= i < |cart| ==>
           r[i] == if cart[i].pizza.id == pizza.id then cart[i].(quantity := cart[i].quantity + 1) else cart[i]
    ensures !HasLine(cart, pizza.id) ==>
      && |r| == |cart| + 1
      && r[..|cart|] == cart
      && r[|cart|] == CartLine(pizza, 1)
  {
    if HasLine(cart, pizza.id) then
      Map((line: CartLine) => if line.pizza.id == pizza.id then line.(quantity := line.quantity + 1) else line, cart)
    else
      cart + [CartLine(pizza, 1)]
  }

  /** The test `removeFromCart` filters with. */
  function OtherId(id: string): CartLine -> bool
  {
    (line: CartLine) => line.pizza.id != id
  }

  /** `removeFromCart`: keeps the lines whose id differs. */
  function RemoveLine(cart: seq<CartLine>, id: string): (r: seq<CartLine>)
    ensures !HasLine(r, id)
    ensures IsSubsequence(r, cart)
    ensures forall line :: line in cart && line.pizza.id != id ==> multiset(r)[line] == multiset(cart)[line]
    ensures !HasLine(cart, id) ==> r == cart
  {
    FilterMembers(OtherId(id), cart);
    FilterMultiset(OtherId(id), cart);
    FilterSubsequence(OtherId(id), cart);
    FilterAllKept(OtherId(id), cart);
    Filter(OtherId(id), cart)
  }

  /** `updateQuantity`: the line with this id gets `quantity + change`, but
      only when that is positive; otherwise the line is kept as it was. */
  function ChangeQuantity(cart: seq<CartLine>, id: string, change: int): (r: seq<CartLine>)
    ensures |r| == |cart|
    ensures forall i :: 0 <= i < |cart| && cart[i].pizza.id != id ==> r[i] == cart[i]
    ensures forall i :: 0 <= i < |cart| && cart[i].pizza.id == id ==>
      && r[i].pizza == cart[i].pizza
      && r[i].quantity == if cart[i].quantity + change > 0 then cart[i].quantity + change else cart[i].quantity
  {
    Map((line: CartLine) =>
          if line.pizza.id == id then
            var q := line.quantity + change;
            if q > 0 then line.(quantity := q) else line
          else line,
        cart)
  }

  function LineTotal(line: CartLine): int
  {
    line.pizza.price * line.quantity
  }

  function LineQuantity(line: CartLine): int
  {
    line.quantity
  }

  /** `calculateTotal`, in cents: the sum of price times quantity over the lines. */
  function Total(cart: seq<CartLine>): (r: int)
    ensures cart == [] ==> r == 0
    ensures (forall i :: 0 <= i < |cart| ==> cart[i].quantity >= 0) ==> r >= 0
  {
    assert forall i :: 0 <= i < |cart| && cart[i].quantity >= 0 ==> LineTotal(cart[i]) >= 0;
    SumNonNegative(LineTotal, cart);
    Sum(LineTotal, cart)
  }

  /** The number on the cart badge: the sum of the quantities. */
  function ItemCount(cart: seq<CartLine>): (r: int)
    ensures cart == [] ==> r == 0
  {
    Sum(LineQuantity, cart)
  }

  /** The badge is drawn only when the cart has a line. */
  function Badge(cart: seq<CartLine>): (r: Option<int>)
    ensures r.Some? <==> |cart| > 0
    ensures r.Some? ==> r.value == ItemCount(cart)
  {
    if |cart| > 0 then Some(ItemCount(cart)) else None
  }

  // ---------------------------------------------------------------------
  // Catalogue view

  function Price(p: Pizza): int
  {
    p.price
  }

  /** The `sortBy` select: a string other than the two price orders leaves
      the comparator returning 0. */
  function ParseSortOrder(sortBy: string): (d: Direction)
    ensures d == Ascending <==> sortBy == "price-asc"
    ensures d == Descending <==> sortBy == "price-desc"
  {
    if sortBy == "price-asc" then Ascending
    else if sortBy == "price-desc" then Descending
    else Unsorted
  }

  /** The test of the filter step: with the filter off every pizza passes. */
  function PassesVegetarianFilter(vegetarianOnly: bool): Pizza -> bool
  {
    (p: Pizza) => !vegetarianOnly || p.vegetarienne
  }

  /** The filter step of `filteredPizzas`. */
  function VegetarianFilter(catalogue: seq<Pizza>, vegetarianOnly: bool): (r: seq<Pizza>)
    ensures vegetarianOnly ==> forall p :: p in r ==> p.vegetarienne
    ensures vegetarianOnly ==> forall p :: p in catalogue && p.vegetarienne ==> p in r
    ensures !vegetarianOnly ==> r == catalogue
    ensures IsSubsequence(r, catalogue)
    ensures forall p :: multiset(r)[p] == if !vegetarianOnly || p.vegetarienne then multiset(catalogue)[p] else 0
  {
    FilterMultiset(PassesVegetarianFilter(vegetarianOnly), catalogue);
    FilterMembers(PassesVegetarianFilter(vegetarianOnly), catalogue);
    FilterSubsequence(PassesVegetarianFilter(vegetarianOnly), catalogue);
    FilterAllKept(PassesVegetarianFilter(vegetarianOnly), catalogue);
    Filter(PassesVegetarianFilter(vegetarianOnly), catalogue)
  }

  /** `filteredPizzas`: the filtered copy of the catalogue, then sorted in
      place by price with the comparator the select chose. */
  method FilteredPizzas(catalogue: seq<Pizza>, vegetarianOnly: bool, sortBy: string) returns (r: seq<Pizza>)
    ensures multiset(r) == multiset(VegetarianFilter(catalogue, vegetarianOnly))
    ensures vegetarianOnly ==> forall p :: p in r ==> p.vegetarienne
    ensures !vegetarianOnly ==> multiset(r) == multiset(catalogue)
    ensures SortedBy(r, Price, ParseSortOrder(sortBy))
    ensures sortBy == "price-asc" ==> forall i, j :: 0 <= i < j < |r| ==> r[i].price <= r[j].price
    ensures sortBy == "price-desc" ==> forall i, j :: 0 <= i < j < |r| ==> r[i].price >= r[j].price
    ensures ParseSortOrder(sortBy) == Unsorted ==> r == VegetarianFilter(catalogue, vegetarianOnly)
  {
    var shown := VegetarianFilter(catalogue, vegetarianOnly);
    var a := new Pizza[|shown|](i requires 0 <= i < |shown| => shown[i]);
    assert a[..] == shown;
    SortInPlace(a, Price, ParseSortOrder(sortBy));
    r := a[..];
    assert forall p :: p in r ==> p in multiset(r);
  }

  // ---------------------------------------------------------------------
  // Properties of the cart handlers

  /** Adding a pizza already in the cart raises exactly that line by one and
      changes nothing else. */
  lemma AddExisting(cart: seq<CartLine>, pizza: Pizza, k: int)
    requires CartValid(cart)
    requires 0 <= k < |cart| && cart[k].pizza.id == pizza.id
    ensures |AddLine(cart, pizza)| == |cart|
    ensures AddLine(cart, pizza)[k] == cart[k].(quantity := cart[k].quantity + 1)
    ensures forall i :: 0 <= i < |cart| && i != k ==> AddLine(cart, pizza)[i] == cart[i]
  {
    assert cart[k] in cart;
  }

  /** `removeFromCart` on a present id drops that one line and keeps the
      others in their order. */
  lemma {:induction false} RemovePresent(cart: seq<CartLine>, k: int)
    requires CartValid(cart)
    requires 0 <= k < |cart|
    ensures RemoveLine(cart, cart[k].pizza.id) == cart[..k] + cart[k + 1..]
  {
    FilterDropsOne(OtherId(cart[k].pizza.id), cart, k);
  }

  lemma AddKeepsValid(cart: seq<CartLine>, pizza: Pizza)
    requires CartValid(cart)
    ensures CartValid(AddLine(cart, pizza))
  {
    var r := AddLine(cart, pizza);
    if !HasLine(cart, pizza.id) {
      forall i | 0 <= i < |cart| ensures r[i].pizza.id != pizza.id {
        assert cart[i] in cart;
      }
    }
  }

  lemma RemoveKeepsValid(cart: seq<CartLine>, id: string)
    requires CartValid(cart)
    ensures CartValid(RemoveLine(cart, id))
  {
    SubsequenceKeepsValid(RemoveLine(cart, id), cart);
  }

  lemma {:induction false} SubsequenceKeepsValid(r: seq<CartLine>, cart: seq<CartLine>)
    requires CartValid(cart)
    requires IsSubsequence(r, cart)
    ensures CartValid(r)
    decreases |cart|
  {
    if r == [] {
    } else if r[0] == cart[0] && IsSubsequence(r[1..], cart[1..]) {
      SubsequenceKeepsValid(r[1..], cart[1..]);
      forall j | 0 < j < |r| ensures r[0].pizza.id != r[j].pizza.id {
        SubsequenceMember(r[1..], cart[1..], j - 1);
        var m :| 0 <= m < |cart[1..]| && cart[1..][m] == r[1..][j - 1];
        assert cart[m + 1] == r[j];
      }
      forall i | 0 <= i < |r| ensures r[i].quantity >= 1 {
        if i > 0 {
          SubsequenceMember(r[1..], cart[1..], i - 1);
        }
      }
    } else {
      SubsequenceKeepsValid(r, cart[1..]);
    }
  }

  lemma {:induction false} SubsequenceMember<T>(r: seq<T>, s: seq<T>, i: int)
    requires IsSubsequence(r, s)
    requires 0 <= i < |r|
    ensures exists m :: 0 <= m < |s| && s[m] == r[i]
    decreases |s|
  {
    if r[0] == s[0] && IsSubsequence(r[1..], s[1..]) {
      if i == 0 {
        assert s[0] == r[0];
      } else {
        SubsequenceMember(r[1..], s[1..], i - 1);
        var m :| 0 <= m < |s[1..]| && s[1..][m] == r[1..][i - 1];
        assert s[m + 1] == r[i];
      }
    } else {
      SubsequenceMember(r, s[1..], i);
      var m :| 0 <= m < |s[1..]| && s[1..][m] == r[i];
      assert s[m + 1] == r[i];
    }
  }

  lemma ChangeKeepsValid(cart: seq<CartLine>, id: string, change: int)
    requires CartValid(cart)
    ensures CartValid(ChangeQuantity(cart, id, change))
  {
  }

  /** The user actions on the cart. */
  datatype CartAction = Add(pizza: Pizza) | Remove(id: string) | Update(id: string, change: int)

  function Apply(cart: seq<CartLine>, action: CartAction): seq<CartLine>
  {
    match action
    case Add(p) => AddLine(cart, p)
    case Remove(id) => RemoveLine(cart, id)
    case Update(id, change) => ChangeQuantity(cart, id, change)
  }

  function Replay(cart: seq<CartLine>, actions: seq<CartAction>): seq<CartLine>
    decreases |actions|
  {
    if actions == [] then cart else Replay(Apply(cart, actions[0]), actions[1..])
  }

  /** Ids stay distinct and quantities at least 1 through any sequence of
      cart actions, starting from the empty cart or any valid one. */
  lemma {:induction false} ReplayKeepsValid(cart: seq<CartLine>, actions: seq<CartAction>)
    requires CartValid(cart)
    ensures CartValid(Replay(cart, actions))
    decreases |actions|
  {
    if actions != [] {
      match actions[0] {
        case Add(p) => AddKeepsValid(cart, p);
        case Remove(id) => RemoveKeepsValid(cart, id);
        case Update(id, change) => ChangeKeepsValid(cart, id, change);
      }
      ReplayKeepsValid(Apply(cart, actions[0]), actions[1..]);
    }
  }

  /** Sum over a cart where only line `k` differs, by `delta` of `f`. */
  lemma SumOneLineChanged(f: CartLine -> int, cart: seq<CartLine>, r: seq<CartLine>, k: int)
    requires |r| == |cart| && 0 <= k < |cart|
    requires forall i :: 0 <= i < |cart| && i != k ==> r[i] == cart[i]
    ensures Sum(f, r) == Sum(f, cart) + f(r[k]) - f(cart[k])
  {
    SumWithout(f, cart, k);
    SumWithout(f, r, k);
    assert r[..k] + r[k + 1..] == cart[..k] + cart[k + 1..];
  }

  /** Each add raises the badge by exactly one and the total by the pizza's
      price, when the lines for that id carry the catalogue's price. */
  lemma AddRaisesTotals(cart: seq<CartLine>, pizza: Pizza)
    requires CartValid(cart)
    requires forall line :: line in cart && line.pizza.id == pizza.id ==> line.pizza.price == pizza.price
    ensures ItemCount(AddLine(cart, pizza)) == ItemCount(cart) + 1
    ensures Total(AddLine(cart, pizza)) == Total(cart) + pizza.price
  {
    if HasLine(cart, pizza.id) {
      var line :| line in cart && line.pizza.id == pizza.id;
      var k :| 0 <= k < |cart| && cart[k] == line;
      AddExistingTotals(cart, pizza, k);
    } else {
      AddNewTotals(cart, pizza);
    }
  }

  lemma AddExistingTotals(cart: seq<CartLine>, pizza: Pizza, k: int)
    requires CartValid(cart)
    requires 0 <= k < |cart| && cart[k].pizza.id == pizza.id && cart[k].pizza.price == pizza.price
    ensures ItemCount(AddLine(cart, pizza)) == ItemCount(cart) + 1
    ensures Total(AddLine(cart, pizza)) == Total(cart) + pizza.price
  {
    var r := AddLine(cart, pizza);
    AddExisting(cart, pizza, k);
    SumOneLineChanged(LineQuantity, cart, r, k);
    SumOneLineChanged(LineTotal, cart, r, k);
    assert LineTotal(r[k]) == pizza.price * (cart[k].quantity + 1);
    assert pizza.price * (cart[k].quantity + 1) == pizza.price * cart[k].quantity + pizza.price;
  }

  lemma AddNewTotals(cart: seq<CartLine>, pizza: Pizza)
    requires !HasLine(cart, pizza.id)
    ensures ItemCount(AddLine(cart, pizza)) == ItemCount(cart) + 1
    ensures Total(AddLine(cart, pizza)) == Total(cart) + pizza.price
  {
    var line := CartLine(pizza, 1);
    assert AddLine(cart, pizza) == cart + [line];
    SumConcat(LineQuantity, cart, [line]);
    SumConcat(LineTotal, cart, [line]);
    assert [line][1..] == [];
  }

  /** Removing a present line lowers the badge by its quantity and the total
      by its price times quantity. */
  lemma RemoveLowersTotals(cart: seq<CartLine>, k: int)
    requires CartValid(cart)
    requires 0 <= k < |cart|
    ensures ItemCount(RemoveLine(cart, cart[k].pizza.id)) == ItemCount(cart) - cart[k].quantity
    ensures Total(RemoveLine(cart, cart[k].pizza.id)) == Total(cart) - cart[k].pizza.price * cart[k].quantity
  {
    RemovePresent(cart, k);
    SumWithout(LineQuantity, cart, k);
    SumWithout(LineTotal, cart, k);
  }

  // ---------------------------------------------------------------------
  // The page's state cells

  /** The storefront page: the cart, whether the cart panel is open, and the
      two catalogue controls. Each handler replaces the cart with the value
      the matching function computes. */
  class ShopPage {
    var cart: seq<CartLine>
    var isCartOpen: bool
    var filterVegetarian: bool
    var sortBy: string

    ghost predicate Valid()
      reads this
    {
      CartValid(cart)
    }

    constructor ()
      ensures Valid()
      ensures cart == [] && !isCartOpen && !filterVegetarian && sortBy == "default"
    {
      cart := [];
      isCartOpen := false;
      filterVegetarian := false;
      sortBy := "default";
    }

    /** `toggleCart`. */
    method ToggleCart()
      requires Valid()
      modifies this
      ensures Valid()
      ensures isCartOpen == !old(isCartOpen)
      ensures cart == old(cart) && filterVegetarian == old(filterVegetarian) && sortBy == old(sortBy)
    {
      isCartOpen := !isCartOpen;
    }

    /** `addToCart`: the cart panel is open afterwards, whichever kind of add
        it was. */
    method AddToCart(pizza: Pizza)
      requires Valid()
      modifies this
      ensures Valid()
      ensures cart == AddLine(old(cart), pizza)
      ensures isCartOpen
      ensures filterVegetarian == old(filterVegetarian) && sortBy == old(sortBy)
    {
      AddKeepsValid(cart, pizza);
      cart := AddLine(cart, pizza);
      if !isCartOpen {
        isCartOpen := true;
      }
    }

    /** `removeFromCart`. */
    method RemoveFromCart(id: string)
      requires Valid()
      modifies this
      ensures Valid()
      ensures cart == RemoveLine(old(cart), id)
      ensures isCartOpen == old(isCartOpen) && filterVegetarian == old(filterVegetarian) && sortBy == old(sortBy)
    {
      RemoveKeepsValid(cart, id);
      cart := RemoveLine(cart, id);
    }

    /** `updateQuantity`. */
    method UpdateQuantity(id: string, change: int)
      requires Valid()
      modifies this
      ensures Valid()
      ensures cart == ChangeQuantity(old(cart), id, change)
      ensures isCartOpen == old(isCartOpen) && filterVegetarian == old(filterVegetarian) && sortBy == old(sortBy)
    {
      ChangeKeepsValid(cart, id, change);
      cart := ChangeQuantity(cart, id, change);
    }

    /** The vegetarian filter button. */
    method ToggleVegetarian()
      requires Valid()
      modifies this
      ensures Valid()
      ensures filterVegetarian == !old(filterVegetarian)
      ensures cart == old(cart) && isCartOpen == old(isCartOpen) && sortBy == old(sortBy)
    {
      filterVegetarian := !filterVegetarian;
    }

    /** The sort select. */
    method SetSortBy(value: string)
      requires Valid()
      modifies this
      ensures Valid()
      ensures sortBy == value
      ensures cart == old(cart) && isCartOpen == old(isCartOpen) && filterVegetarian == old(filterVegetarian)
    {
      sortBy := value;
    }

    /** The pizzas the page displays for the current controls. */
    method Displayed(catalogue: seq<Pizza>) returns (r: seq<Pizza>)
      ensures multiset(r) == multiset(VegetarianFilter(catalogue, filterVegetarian))
      ensures SortedBy(r, Price, ParseSortOrder(sortBy))
      ensures ParseSortOrder(sortBy) == Unsorted ==> r == VegetarianFilter(catalogue, filterVegetarian)
    {
      r := FilteredPizzas(catalogue, filterVegetarian, sortBy);
    }
  }
}
