/** The shopping cart of main.js: an ordered list of line items kept in a
    module-level variable, mirrored into the browser's local storage after
    every change, with a count badge refreshed from it.

    The pure half (looking an id up, filtering one out, the two totals and a
    reference definition of "add") is written as functions over seq<Item>;
    the stateful half (the `cart` variable, its stored copy and the badge)
    is the class Store, whose methods are the page's handlers. */
module Cart {

  datatype Option<T> = None | Some(value: T)

  /** One line of the cart: a product and how many of it are wanted.
      Prices are whole rupees. */
  datatype Item = Item(id: string, name: string, price: nat, quantity: nat)

  /** What `checkout` tells the user. */
  datatype Notice = CartIsEmpty | CheckoutSuccessful

  // ---------------------------------------------------------------------
  // Invariants of a cart

  ghost predicate UniqueIds(s: seq<Item>) {
    forall i, j :: 0 <= i < j < |s| ==> s[i].id != s[j].id
  }

  ghost predicate PositiveQuantities(s: seq<Item>) {
    forall i :: 0 <= i < |s| ==> s[i].quantity >= 1
  }

  /** What every reachable cart satisfies: ids unique, quantities at least 1. */
  ghost predicate WellFormed(s: seq<Item>) {
    UniqueIds(s) && PositiveQuantities(s)
  }

  /** No line of `s` carries `id`. */
  ghost predicate Absent(s: seq<Item>, id: string) {
    forall i :: 0 <= i < |s| ==> s[i].id != id
  }

  /** `x` with one more of the product: the same id, name and price. */
  function Bumped(x: Item): (r: Item)
    ensures r.id == x.id && r.name == x.name && r.price == x.price
    ensures r.quantity == x.quantity + 1
  {
    x.(quantity := x.quantity + 1)
  }

  // ---------------------------------------------------------------------
  // cart.find(item => item.id === id), as the index of the line it returns

  function Find(s: seq<Item>, id: string): (r: Option<nat>)
    ensures r.Some? ==> r.value < |s| && s[r.value].id == id
    ensures r.Some? ==> forall j :: 0 <= j < r.value ==> s[j].id != id
    ensures r.None? <==> Absent(s, id)
    decreases |s|
  {
    if s == [] then None
    else if s[0].id == id then Some(0)
    else match Find(s[1..], id)
      case None => None
      case Some(k) => Some(k + 1)
  }

  /** In a cart with unique ids, the line found is the only one with that id. */
  lemma FindUnique(s: seq<Item>, id: string, k: nat)
    requires UniqueIds(s) && k < |s| && s[k].id == id
    ensures Find(s, id) == Some(k)
  {
  }

  // ---------------------------------------------------------------------
  // The two reduces: both fold from the left, starting at 0

  /** The badge count: cart.reduce((sum, item) => sum + item.quantity, 0). */
  function TotalQuantity(s: seq<Item>): (r: nat)
    ensures r == 0 <==> forall i :: 0 <= i < |s| ==> s[i].quantity == 0
  {
    if s == [] then 0 else TotalQuantity(s[..|s| - 1]) + s[|s| - 1].quantity
  }

  /** The cost of one line, as shown next to it. */
  function LineTotal(x: Item): (r: nat)
    ensures r == 0 <==> x.price == 0 || x.quantity == 0
  {
    x.price * x.quantity
  }

  /** The modal's total: cart.reduce((sum, item) => sum + item.price * item.quantity, 0). */
  function TotalPrice(s: seq<Item>): (r: nat)
    ensures r == 0 <==> forall i :: 0 <= i < |s| ==> LineTotal(s[i]) == 0
  {
    if s == [] then 0 else TotalPrice(s[..|s| - 1]) + LineTotal(s[|s| - 1])
  }

  /** The total updateCartDisplay shows: "Rs. 0" from its empty-cart branch,
      the reduce otherwise; the two agree. */
  function DisplayedTotal(s: seq<Item>): (t: nat)
    ensures t == TotalPrice(s)
    ensures s == [] ==> t == 0
  {
    if |s| == 0 then 0 else TotalPrice(s)
  }

  lemma {:induction false} TotalQuantityConcat(a: seq<Item>, b: seq<Item>)
    ensures TotalQuantity(a + b) == TotalQuantity(a) + TotalQuantity(b)
    decreases |b|
  {
    if b != [] {
      var b' := b[..|b| - 1];
      assert (a + b)[..|a + b| - 1] == a + b';
      TotalQuantityConcat(a, b');
    } else {
      assert a + b == a;
    }
  }

  lemma {:induction false} TotalPriceConcat(a: seq<Item>, b: seq<Item>)
    ensures TotalPrice(a + b) == TotalPrice(a) + TotalPrice(b)
    decreases |b|
  {
    if b != [] {
      var b' := b[..|b| - 1];
      assert (a + b)[..|a + b| - 1] == a + b';
      TotalPriceConcat(a, b');
    } else {
      assert a + b == a;
    }
  }

  /** Appending one line adds its quantity and its line total. */
  lemma TotalsAppend(s: seq<Item>, x: Item)
    ensures TotalQuantity(s + [x]) == TotalQuantity(s) + x.quantity
    ensures TotalPrice(s + [x]) == TotalPrice(s) + LineTotal(x)
  {
    assert (s + [x])[..|s + [x]| - 1] == s;
  }

  /** Replacing line k changes each total by the difference of that line alone. */
  lemma TotalsUpdate(s: seq<Item>, k: nat, x: Item)
    requires k < |s|
    ensures TotalQuantity(s[k := x]) == TotalQuantity(s) - s[k].quantity + x.quantity
    ensures TotalPrice(s[k := x]) == TotalPrice(s) - LineTotal(s[k]) + LineTotal(x)
  {
    var pre, post := s[..k], s[k + 1..];
    assert s == pre + [s[k]] + post;
    assert s[k := x] == pre + [x] + post;
    TotalQuantityConcat(pre + [s[k]], post);
    TotalQuantityConcat(pre + [x], post);
    TotalPriceConcat(pre + [s[k]], post);
    TotalPriceConcat(pre + [x], post);
    TotalsAppend(pre, s[k]);
    TotalsAppend(pre, x);
  }

  /** Each line counts at least once, so the count is 0 exactly for the empty cart. */
  lemma {:induction false} TotalQuantityAtLeastLength(s: seq<Item>)
    requires PositiveQuantities(s)
    ensures TotalQuantity(s) >= |s|
    ensures TotalQuantity(s) == 0 <==> s == []
    decreases |s|
  {
    if s != [] {
      TotalQuantityAtLeastLength(s[..|s| - 1]);
    }
  }

  // ---------------------------------------------------------------------
  // addToCart, as a reference definition over the list

  /** The cart after adding one of product `id`: the first line with that id
      gains one, keeping its own name and price; with no such line, a new
      line of quantity 1 goes at the end. */
  function Added(s: seq<Item>, id: string, name: string, price: nat): (r: seq<Item>)
    ensures exists x :: x in r && x.id == id
    ensures forall x :: x in s && x.id != id ==> x in r
    ensures |r| == if Absent(s, id) then |s| + 1 else |s|
    decreases |s|
  {
    if s == [] then [Item(id, name, price, 1)]
    else if s[0].id == id then [Bumped(s[0])] + s[1..]
    else [s[0]] + Added(s[1..], id, name, price)
  }

  /** Adding an id already at k bumps that line alone; name and price stay. */
  lemma {:induction false} AddedIncrements(s: seq<Item>, id: string, name: string, price: nat, k: nat)
    requires k < |s| && s[k].id == id
    requires forall j :: 0 <= j < k ==> s[j].id != id
    ensures Added(s, id, name, price) == s[k := Bumped(s[k])]
    decreases k
  {
    if k > 0 {
      AddedIncrements(s[1..], id, name, price, k - 1);
      assert s[1..][k - 1 := Bumped(s[k])] == s[k := Bumped(s[k])][1..];
    }
  }

  /** Adding a new id appends one line of quantity 1; the rest keep their order. */
  lemma {:induction false} AddedAppends(s: seq<Item>, id: string, name: string, price: nat)
    requires Absent(s, id)
    ensures Added(s, id, name, price) == s + [Item(id, name, price, 1)]
    decreases |s|
  {
    if s != [] {
      assert s[0].id != id;
      AddedAppends(s[1..], id, name, price);
      assert s == [s[0]] + s[1..];
    }
  }

  /** Adding keeps ids unique and quantities positive. */
  lemma AddedWellFormed(s: seq<Item>, id: string, name: string, price: nat)
    requires WellFormed(s)
    ensures WellFormed(Added(s, id, name, price))
  {
    match Find(s, id)
    case Some(k) =>
      AddedIncrements(s, id, name, price, k);
    case None =>
      AddedAppends(s, id, name, price);
  }

  /** Adding raises the count by exactly one, whether or not the id was there. */
  lemma AddedTotalQuantity(s: seq<Item>, id: string, name: string, price: nat)
    ensures TotalQuantity(Added(s, id, name, price)) == TotalQuantity(s) + 1
  {
    match Find(s, id)
    case Some(k) =>
      AddedIncrements(s, id, name, price, k);
      TotalsUpdate(s, k, Bumped(s[k]));
    case None =>
      AddedAppends(s, id, name, price);
      TotalsAppend(s, Item(id, name, price, 1));
  }

  /** One more of a product costs one more unit price. */
  lemma BumpedLineTotal(x: Item)
    ensures LineTotal(Bumped(x)) == LineTotal(x) + x.price
  {
    assert x.price * (x.quantity + 1) == x.price * x.quantity + x.price;
  }

  /** Adding raises the total price by the unit price of the line that grew:
      the stored price for a known id, the given one for a new id. */
  lemma AddedTotalPrice(s: seq<Item>, id: string, name: string, price: nat)
    ensures TotalPrice(Added(s, id, name, price))
         == TotalPrice(s) + (match Find(s, id) case Some(k) => s[k].price case None => price)
  {
    match Find(s, id)
    case Some(k) =>
      AddedIncrements(s, id, name, price, k);
      TotalsUpdate(s, k, Bumped(s[k]));
      BumpedLineTotal(s[k]);
    case None =>
      AddedAppends(s, id, name, price);
      TotalsAppend(s, Item(id, name, price, 1));
  }

  /** Adding the same new id twice gives one line of quantity 2 that keeps
      the name and price of the first call. */
  lemma AddedTwice(s: seq<Item>, id: string, name1: string, price1: nat, name2: string, price2: nat)
    requires Absent(s, id)
    ensures Added(Added(s, id, name1, price1), id, name2, price2) == s + [Item(id, name1, price1, 2)]
  {
    var x := Item(id, name1, price1, 1);
    AddedAppends(s, id, name1, price1);
    AddedIncrements(s + [x], id, name2, price2, |s|);
    assert (s + [x])[|s| := Bumped(x)] == s + [Item(id, name1, price1, 2)];
  }

  // ---------------------------------------------------------------------
  // removeFromCart: cart.filter(item => item.id !== id)

  function Without(s: seq<Item>, id: string): (r: seq<Item>)
    ensures |r| <= |s|
    ensures Absent(r, id)
    ensures forall x :: x in r <==> x in s && x.id != id
    decreases |s|
  {
    if s == [] then []
    else if s[0].id != id then [s[0]] + Without(s[1..], id)
    else Without(s[1..], id)
  }

  lemma {:induction false} WithoutConcat(a: seq<Item>, b: seq<Item>, id: string)
    ensures Without(a + b, id) == Without(a, id) + Without(b, id)
    decreases |a|
  {
    if a == [] {
      assert a + b == b;
    } else {
      assert (a + b)[1..] == a[1..] + b;
      WithoutConcat(a[1..], b, id);
    }
  }

  /** Removing an id that is not there leaves the cart as it was. */
  lemma {:induction false} WithoutAbsent(s: seq<Item>, id: string)
    requires Absent(s, id)
    ensures Without(s, id) == s
    decreases |s|
  {
    if s != [] {
      assert s[0].id != id;
      WithoutAbsent(s[1..], id);
      assert s == [s[0]] + s[1..];
    }
  }

  /** In a cart with unique ids, removing the id found at k drops that line
      and keeps the others in their original order. */
  lemma WithoutAt(s: seq<Item>, id: string, k: nat)
    requires UniqueIds(s) && k < |s| && s[k].id == id
    ensures Without(s, id) == s[..k] + s[k + 1..]
  {
    assert s == s[..k] + ([s[k]] + s[k + 1..]);
    WithoutConcat(s[..k], [s[k]] + s[k + 1..], id);
    WithoutConcat([s[k]], s[k + 1..], id);
    WithoutAbsent(s[..k], id);
    WithoutAbsent(s[k + 1..], id);
  }

  /** Removing keeps ids unique and quantities positive. */
  lemma {:induction false} WithoutWellFormed(s: seq<Item>, id: string)
    requires WellFormed(s)
    ensures WellFormed(Without(s, id))
    decreases |s|
  {
    if s != [] {
      var rest := Without(s[1..], id);
      WithoutWellFormed(s[1..], id);
      if s[0].id != id {
        var r := [s[0]] + rest;
        forall j | 0 < j < |r| ensures r[0].id != r[j].id {
          assert r[j] in s[1..];
        }
      }
    }
  }

  /** Removing a present id lowers each total by that line's share;
      removing an absent id leaves both totals as they were. */
  lemma WithoutTotals(s: seq<Item>, id: string)
    requires UniqueIds(s)
    ensures TotalQuantity(Without(s, id))
         == TotalQuantity(s) - (match Find(s, id) case Some(k) => s[k].quantity case None => 0)
    ensures TotalPrice(Without(s, id))
         == TotalPrice(s) - (match Find(s, id) case Some(k) => LineTotal(s[k]) case None => 0)
  {
    match Find(s, id)
    case Some(k) =>
      WithoutAt(s, id, k);
      assert s == s[..k] + [s[k]] + s[k + 1..];
      TotalQuantityConcat(s[..k] + [s[k]], s[k + 1..]);
      TotalQuantityConcat(s[..k], s[k + 1..]);
      TotalPriceConcat(s[..k] + [s[k]], s[k + 1..]);
      TotalPriceConcat(s[..k], s[k + 1..]);
      TotalsAppend(s[..k], s[k]);
    case None =>
      WithoutAbsent(s, id);
  }

  /** Removing right after adding a new id gives back the cart as it was. */
  lemma RemoveUndoesAdd(s: seq<Item>, id: string, name: string, price: nat)
    requires Absent(s, id)
    ensures Without(Added(s, id, name, price), id) == s
  {
    var x := Item(id, name, price, 1);
    AddedAppends(s, id, name, price);
    WithoutConcat(s, [x], id);
    WithoutAbsent(s, id);
    assert Without([x], id) == [];
  }

  /** The walk-through of a session: add Tea, add Tea again, add Cake,
      remove Tea. */
  lemma Session()
    ensures var s1 := Added([], "a", "Tea", 50);
            var s2 := Added(s1, "a", "Tea", 50);
            var s3 := Added(s2, "b", "Cake", 120);
            var s4 := Without(s3, "a");
            && s1 == [Item("a", "Tea", 50, 1)] && TotalQuantity(s1) == 1
            && s2 == [Item("a", "Tea", 50, 2)] && TotalPrice(s2) == 100
            && TotalQuantity(s3) == 3 && TotalPrice(s3) == 220
            && s4 == [Item("b", "Cake", 120, 1)] && TotalPrice(s4) == 120
  {
    var tea, cake := Item("a", "Tea", 50, 1), Item("b", "Cake", 120, 1);
    AddedTwice([], "a", "Tea", 50, "Tea", 50);
    var s2 := [Item("a", "Tea", 50, 2)];
    assert "a" != "b";
    AddedAppends(s2, "b", "Cake", 120);
    var s3 := s2 + [cake];
    TotalsAppend([], tea);
    TotalsAppend([], s2[0]);
    TotalsAppend(s2, cake);
    WithoutAt(s3, "a", 0);
    assert s3[1..] == [cake];
    TotalsAppend([], cake);
  }

  // ---------------------------------------------------------------------
  // The page's cart state

  /** The module-level `cart`, the `cart` entry of local storage (None while
      the key has never been written) and the number last written into the
      cart-count badges. */
  class Store {
    var items: seq<Item>
    var stored: Option<seq<Item>>
    var badge: nat

    /** Holds between handlers: the cart is well formed and the badge shows
        its total quantity. */
    ghost predicate Valid()
      reads this
      ensures Valid() ==> (badge == 0 <==> items == [])
    {
      WellFormed(items) && badge == TotalQuantity(items)
    }

    /** The stored copy equals the in-memory cart: a line is stored exactly
        when it is in the cart, at the same place. */
    ghost predicate Synced()
      reads this
      ensures Synced() ==> stored.Some? && |stored.value| == |items|
      ensures Synced() ==> forall i :: 0 <= i < |items| ==> stored.value[i] == items[i]
    {
      stored == Some(items)
    }

    /** Script load: the cart is what storage holds, or empty when the key is
        missing; then the badge is refreshed once. */
    constructor (saved: Option<seq<Item>>)
      requires saved.Some? ==> WellFormed(saved.value)
      ensures Valid()
      ensures items == (match saved case Some(s) => s case None => [])
      ensures stored == saved
    {
      var initial := match saved case Some(s) => s case None => [];
      items := initial;
      stored := saved;
      badge := TotalQuantity(initial);
    }

    /** updateCartCount: writes the total quantity into the badges. */
    method UpdateCartCount()
      modifies this`badge
      ensures badge == TotalQuantity(items)
    {
      badge := TotalQuantity(items);
    }

    /** addToCart: bump the line with this id in place, or push a new line;
        then persist and refresh the badge. */
    method Add(id: string, name: string, price: nat)
      requires Valid()
      modifies this
      ensures Valid() && Synced()
      ensures items == Added(old(items), id, name, price)
      ensures badge == old(badge) + 1
    {
      var found := Find(items, id);
      match found {
        case Some(k) =>
          AddedIncrements(items, id, name, price, k);
          items := items[k := Bumped(items[k])];
        case None =>
          AddedAppends(items, id, name, price);
          items := items + [Item(id, name, price, 1)];
      }
      AddedWellFormed(old(items), id, name, price);
      AddedTotalQuantity(old(items), id, name, price);
      stored := Some(items);
      UpdateCartCount();
    }

    /** removeFromCart: keep every line whose id differs, persist, refresh. */
    method Remove(id: string)
      requires Valid()
      modifies this
      ensures Valid() && Synced()
      ensures items == Without(old(items), id)
    {
      WithoutWellFormed(items, id);
      items := Without(items, id);
      stored := Some(items);
      UpdateCartCount();
    }

    /** checkout: an empty cart is reported and nothing is written; otherwise
        the cart is emptied, persisted and the badge refreshed. */
    method Checkout() returns (notice: Notice)
      requires Valid()
      modifies this
      ensures Valid()
      ensures TotalQuantity(items) == 0 && TotalPrice(items) == 0
      ensures old(items) == [] ==> notice == CartIsEmpty
      ensures old(items) == [] ==> items == old(items) && stored == old(stored) && badge == old(badge)
      ensures old(items) != [] ==> notice == CheckoutSuccessful && items == [] && Synced()
    {
      if |items| == 0 {
        notice := CartIsEmpty;
        return;
      }
      notice := CheckoutSuccessful;
      items := [];
      stored := Some(items);
      UpdateCartCount();
    }
  }

  /** A page session through the handlers: Tea twice (the second call with
      another name and price), Cake, remove Tea, then checkout twice. */
  method Walkthrough() returns (totals: seq<nat>, notices: seq<Notice>)
    ensures totals == [1, 100, 220, 120, 0]
    ensures notices == [CheckoutSuccessful, CartIsEmpty]
  {
    var store := new Store(None);
    store.Add("a", "Tea", 50);
    var t1 := TotalQuantity(store.items);
    store.Add("a", "Green tea", 80);
    assert store.items == [Item("a", "Tea", 50, 2)];
    var t2 := TotalPrice(store.items);
    store.Add("b", "Cake", 120);
    assert store.items == [Item("a", "Tea", 50, 2), Item("b", "Cake", 120, 1)];
    var t3 := TotalPrice(store.items);
    store.Remove("a");
    assert store.items == [Item("b", "Cake", 120, 1)];
    var t4 := TotalPrice(store.items);
    var n1 := store.Checkout();
    var t5 := TotalPrice(store.items);
    var n2 := store.Checkout();
    totals := [t1, t2, t3, t4, t5];
    notices := [n1, n2];
  }
}
