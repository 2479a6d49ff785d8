/**
 * The in-memory cart registry: one cart per (user, channel), each an
 * insertion-ordered map from product id to quantity (a JavaScript `Map`,
 * modelled as its sequence of entries).
 */
module Carts {
  import opened Wrappers
  import opened Catalog

  /** Stands for the string key `${userId}:${channelId}` (see Tokens.CartKeyInjective). */
  datatype CartKey = CartKey(userId: string, channelId: string)

  datatype Line = Line(productId: string, qty: int)

  /** The entries of a cart in insertion order. */
  type Cart = seq<Line>

  predicate Has(c: Cart, pid: string) {
    |c| > 0 && (c[0].productId == pid || Has(c[1..], pid))
  }

  /** Every quantity is at least 1 and no product has two entries. */
  predicate WellFormed(c: Cart) {
    |c| == 0 || (c[0].qty >= 1 && !Has(c[1..], c[0].productId) && WellFormed(c[1..]))
  }

  /** `cart.get(pid) || 0`. */
  function QtyOf(c: Cart, pid: string): int {
    if |c| == 0 then 0
    else if c[0].productId == pid then c[0].qty
    else QtyOf(c[1..], pid)
  }

  /** `cart.set(pid, (cart.get(pid) || 0) + 1)`: in place if present, appended if not. */
  function Increment(c: Cart, pid: string): Cart {
    if |c| == 0 then [Line(pid, 1)]
    else if c[0].productId == pid then [Line(pid, c[0].qty + 1)] + c[1..]
    else [c[0]] + Increment(c[1..], pid)
  }

  /** One summary line: product name, quantity and `price * qty`. */
  datatype Item = Item(name: string, qty: int, subtotal: int)

  datatype Summary = Summary(items: seq<Item>, total: int)

  /** The line an entry contributes: none when its product is not in the listing. */
  function LineItems(listing: seq<Product>, l: Line): seq<Item> {
    match Resolve(listing, l.productId)
    case None => []
    case Some(p) => [Item(p.name, l.qty, p.price * l.qty)]
  }

  function LineTotal(listing: seq<Product>, l: Line): int {
    match Resolve(listing, l.productId)
    case None => 0
    case Some(p) => p.price * l.qty
  }

  /** The summary lines of the entries whose product resolves, in cart order. */
  function Items(listing: seq<Product>, c: Cart): seq<Item> {
    if |c| == 0 then [] else LineItems(listing, c[0]) + Items(listing, c[1..])
  }

  /** The sum of `price * qty` over the entries whose product resolves. */
  function Total(listing: seq<Product>, c: Cart): int {
    if |c| == 0 then 0 else LineTotal(listing, c[0]) + Total(listing, c[1..])
  }

  function SumSubtotals(items: seq<Item>): int {
    if |items| == 0 then 0 else items[0].subtotal + SumSubtotals(items[1..])
  }

  /** A product's price when it resolves, 0 otherwise. */
  function PriceOrZero(listing: seq<Product>, pid: string): int {
    match Resolve(listing, pid)
    case None => 0
    case Some(p) => p.price
  }

  /** The cart `getCart` would return: the stored one, or a fresh empty one. */
  function CartOf(carts: map<CartKey, Cart>, k: CartKey): Cart {
    if k in carts then carts[k] else []
  }

  lemma {:induction false} ItemsSnoc(listing: seq<Product>, c: Cart, l: Line)
    ensures Items(listing, c + [l]) == Items(listing, c) + LineItems(listing, l)
  {
    if |c| == 0 {
      assert c + [l] == [l];
      assert [l][1..] == [];
    } else {
      assert (c + [l])[0] == c[0];
      assert (c + [l])[1..] == c[1..] + [l];
      ItemsSnoc(listing, c[1..], l);
    }
  }

  lemma {:induction false} TotalSnoc(listing: seq<Product>, c: Cart, l: Line)
    ensures Total(listing, c + [l]) == Total(listing, c) + LineTotal(listing, l)
  {
    if |c| == 0 {
      assert c + [l] == [l];
      assert [l][1..] == [];
    } else {
      assert (c + [l])[0] == c[0];
      assert (c + [l])[1..] == c[1..] + [l];
      TotalSnoc(listing, c[1..], l);
    }
  }

  /** The total is the sum of the subtotals shown on the summary lines. */
  lemma {:induction false} TotalIsSumOfItems(listing: seq<Product>, c: Cart)
    ensures Total(listing, c) == SumSubtotals(Items(listing, c))
  {
    if |c| > 0 {
      TotalIsSumOfItems(listing, c[1..]);
      var head := LineItems(listing, c[0]);
      var tail := Items(listing, c[1..]);
      if |head| == 1 {
        assert (head + tail)[0] == head[0];
        assert (head + tail)[1..] == tail;
      } else {
        assert head + tail == tail;
      }
    }
  }

  /** A cart with no resolvable entry has total 0. */
  lemma {:induction false} NoItemsNoTotal(listing: seq<Product>, c: Cart)
    requires Items(listing, c) == []
    ensures Total(listing, c) == 0
  {
    TotalIsSumOfItems(listing, c);
  }

  /**
   * `cartSummary`'s loop: walks the entries in order, skips those whose
   * product is not in the listing, and accumulates lines and `price * qty`;
   * with no line it gives the empty result with total 0.
   */
  method Summarize(listing: seq<Product>, c: Cart) returns (s: Summary)
    ensures s.items == Items(listing, c)
    ensures s.total == Total(listing, c)
    ensures s.items == [] ==> s.total == 0
  {
    var total := 0;
    var items: seq<Item> := [];
    var i := 0;
    while i < |c|
      invariant 0 <= i <= |c|
      invariant items == Items(listing, c[..i])
      invariant total == Total(listing, c[..i])
    {
      var line := c[i];
      match Resolve(listing, line.productId) {
        case None =>
        case Some(p) =>
          var sub := p.price * line.qty;
          total := total + sub;
          items := items + [Item(p.name, line.qty, sub)];
      }
      ItemsSnoc(listing, c[..i], line);
      TotalSnoc(listing, c[..i], line);
      assert c[..i + 1] == c[..i] + [line];
      i := i + 1;
    }
    assert c[..|c|] == c;
    if |items| == 0 {
      NoItemsNoTotal(listing, c);
      s := Summary([], 0);
    } else {
      s := Summary(items, total);
    }
  }

  /** Incrementing adds exactly 1 to that product's quantity and leaves the others alone. */
  lemma {:induction false} IncrementQty(c: Cart, pid: string, q: string)
    ensures QtyOf(Increment(c, pid), q) == QtyOf(c, q) + (if q == pid then 1 else 0)
  {
    if |c| > 0 && c[0].productId != pid {
      IncrementQty(c[1..], pid, q);
    }
  }

  /** After incrementing, the cart holds exactly its old products and `pid`. */
  lemma {:induction false} IncrementHas(c: Cart, pid: string, q: string)
    ensures Has(Increment(c, pid), q) <==> Has(c, q) || q == pid
  {
    if |c| > 0 && c[0].productId != pid {
      IncrementHas(c[1..], pid, q);
    }
  }

  /** Incrementing keeps every quantity at least 1 and every product in one entry. */
  lemma {:induction false} IncrementWellFormed(c: Cart, pid: string)
    requires WellFormed(c)
    ensures WellFormed(Increment(c, pid))
  {
    if |c| > 0 && c[0].productId != pid {
      IncrementWellFormed(c[1..], pid);
      IncrementHas(c[1..], pid, c[0].productId);
    }
  }

  /** An entry is added only for a product the cart did not hold. */
  lemma {:induction false} IncrementLength(c: Cart, pid: string)
    ensures |Increment(c, pid)| == if Has(c, pid) then |c| else |c| + 1
  {
    if |c| > 0 && c[0].productId != pid {
      IncrementLength(c[1..], pid);
    }
  }

  /** In a well-formed cart a held product has quantity at least 1, any other 0. */
  lemma {:induction false} QtyOfWellFormed(c: Cart, pid: string)
    requires WellFormed(c)
    ensures Has(c, pid) ==> QtyOf(c, pid) >= 1
    ensures !Has(c, pid) ==> QtyOf(c, pid) == 0
  {
    if |c| > 0 && c[0].productId != pid {
      QtyOfWellFormed(c[1..], pid);
    }
  }

  /** Adding one unit of a product raises the total by its price (by 0 if it does not resolve). */
  lemma {:induction false} IncrementTotal(listing: seq<Product>, c: Cart, pid: string)
    ensures Total(listing, Increment(c, pid)) == Total(listing, c) + PriceOrZero(listing, pid)
  {
    if |c| == 0 {
      assert Increment(c, pid)[1..] == [];
    } else if c[0].productId == pid {
      var r := Increment(c, pid);
      assert r[0] == Line(pid, c[0].qty + 1) && r[1..] == c[1..];
      match Resolve(listing, pid)
      case None =>
      case Some(p) =>
        assert p.price * (c[0].qty + 1) == p.price * c[0].qty + p.price;
    } else {
      var r := Increment(c, pid);
      assert r[0] == c[0] && r[1..] == Increment(c[1..], pid);
      IncrementTotal(listing, c[1..], pid);
    }
  }

  /** The cart after a run of selections, one unit each. */
  function AddAll(c: Cart, pids: seq<string>): Cart
    decreases |pids|
  {
    if |pids| == 0 then c else AddAll(Increment(c, pids[0]), pids[1..])
  }

  function PriceSum(listing: seq<Product>, pids: seq<string>): int {
    if |pids| == 0 then 0 else PriceOrZero(listing, pids[0]) + PriceSum(listing, pids[1..])
  }

  /**
   * After any run of selections, each product's quantity is the number of
   * times it was selected, and the total is the sum of the prices of the
   * selected products that resolve in the listing.
   */
  lemma {:induction false} AddAllSummary(listing: seq<Product>, c: Cart, pids: seq<string>, q: string)
    ensures QtyOf(AddAll(c, pids), q) == QtyOf(c, q) + multiset(pids)[q]
    ensures Total(listing, AddAll(c, pids)) == Total(listing, c) + PriceSum(listing, pids)
    decreases |pids|
  {
    if |pids| > 0 {
      assert pids == [pids[0]] + pids[1..];
      assert multiset(pids) == multiset{pids[0]} + multiset(pids[1..]);
      IncrementQty(c, pids[0], q);
      IncrementTotal(listing, c, pids[0]);
      AddAllSummary(listing, Increment(c, pids[0]), pids[1..], q);
    }
  }

  /** The carts of every user in every channel. */
  class CartRegistry {
    var carts: map<CartKey, Cart>

    ghost predicate Valid()
      reads this
    {
      forall k :: k in carts ==> WellFormed(carts[k])
    }

    constructor ()
      ensures Valid() && carts == map[]
    {
      carts := map[];
    }

    /** `getCart`: the cart of (user, channel), created empty when missing. */
    method GetCart(user: string, channel: string) returns (cart: Cart)
      requires Valid()
      modifies this
      ensures Valid()
      ensures cart == CartOf(old(carts), CartKey(user, channel))
      ensures carts == old(carts)[CartKey(user, channel) := cart]
    {
      var k := CartKey(user, channel);
      if k !in carts {
        carts := carts[k := []];
      }
      cart := carts[k];
    }

    /** `clearCart`: deletes the (user, channel) cart and no other. */
    method ClearCart(user: string, channel: string)
      requires Valid()
      modifies this
      ensures Valid()
      ensures carts == old(carts) - {CartKey(user, channel)}
      ensures CartOf(carts, CartKey(user, channel)) == []
      ensures forall k :: k != CartKey(user, channel) ==> CartOf(carts, k) == CartOf(old(carts), k)
    {
      carts := carts - {CartKey(user, channel)};
    }

    /** The add-to-cart step: one more unit of `pid` in the (user, channel) cart only. */
    method AddOne(user: string, channel: string, pid: string)
      requires Valid()
      modifies this
      ensures Valid()
      ensures carts == old(carts)[CartKey(user, channel) :=
                                   Increment(CartOf(old(carts), CartKey(user, channel)), pid)]
      ensures QtyOf(carts[CartKey(user, channel)], pid)
           == QtyOf(CartOf(old(carts), CartKey(user, channel)), pid) + 1
      ensures QtyOf(carts[CartKey(user, channel)], pid) >= 1
    {
      var cart := GetCart(user, channel);
      IncrementWellFormed(cart, pid);
      IncrementQty(cart, pid, pid);
      QtyOfWellFormed(cart, pid);
      carts := carts[CartKey(user, channel) := Increment(cart, pid)];
    }

    /**
     * `cartSummary` over the channel's active products.  Like the source it
     * goes through `getCart`, so an empty cart is left behind when there was
     * none; the cart's contents do not change.
     */
    method CartSummary(products: seq<Product>, user: string, channel: string) returns (s: Summary)
      requires Valid()
      modifies this
      ensures Valid()
      ensures carts == old(carts)[CartKey(user, channel) := CartOf(old(carts), CartKey(user, channel))]
      ensures s.items == Items(ForChannel(products, channel), CartOf(old(carts), CartKey(user, channel)))
      ensures s.total == Total(ForChannel(products, channel), CartOf(old(carts), CartKey(user, channel)))
    {
      var cart := GetCart(user, channel);
      s := Summarize(ForChannel(products, channel), cart);
    }
  }
}
