/**
 * The store document: the product catalog and the PIX payment details.
 * Products are scoped to the channel where an administrator added them and
 * are never deleted, only deactivated.
 */
module Catalog {
  import opened Wrappers

  /** Prices are whole cents. */
  datatype Product = Product(
    id: string,
    channelId: string,
    name: string,
    price: int,
    description: string,
    imageUrl: string,
    active: bool)

  /** The receiving key, the recipient's name and city, and an optional QR image. */
  datatype Pix = Pix(key: string, name: string, city: string, qrUrl: string)

  const EMPTY_PIX: Pix := Pix("", "", "", "")

  /** A customer in `channel` sees the product. */
  predicate Visible(p: Product, channel: string) {
    p.active && p.channelId == channel
  }

  /** Checkout needs a key, a name and a city; the QR image is optional. */
  predicate PixComplete(pix: Pix) {
    pix.key != "" && pix.name != "" && pix.city != ""
  }

  /** `getProductsForChannel`: the active products of `channel`, in storage order. */
  function ForChannel(products: seq<Product>, channel: string): (r: seq<Product>)
    ensures |r| <= |products|
    ensures forall p :: p in r ==> p in products && Visible(p, channel)
    ensures forall p :: p in products && Visible(p, channel) ==> p in r
  {
    if |products| == 0 then []
    else
      assert products == [products[0]] + products[1..];
      (if Visible(products[0], channel) then [products[0]] else []) + ForChannel(products[1..], channel)
  }

  /** `listing.find(x => x.id === pid)`: the first listed product with that id. */
  function Resolve(listing: seq<Product>, pid: string): (r: Option<Product>)
    ensures r.Some? ==> r.value in listing && r.value.id == pid
    ensures r.None? <==> forall p :: p in listing ==> p.id != pid
    ensures r.Some? ==> exists k :: 0 <= k < |listing| && listing[k] == r.value &&
                                    forall j :: 0 <= j < k ==> listing[j].id != pid
  {
    if |listing| == 0 then None
    else if listing[0].id == pid then Some(listing[0])
    else
      assert listing == [listing[0]] + listing[1..];
      var r := Resolve(listing[1..], pid);
      assert r.Some? ==> exists k :: 1 <= k < |listing| && listing[k] == r.value &&
                                     forall j :: 1 <= j < k ==> listing[j].id != pid by {
        if r.Some? {
          var k :| 0 <= k < |listing[1..]| && listing[1..][k] == r.value &&
                   forall j :: 0 <= j < k ==> listing[1..][j].id != pid;
          assert listing[k + 1] == r.value;
          assert forall j :: 1 <= j < k + 1 ==> listing[j].id != pid by {
            forall j | 1 <= j < k + 1 ensures listing[j].id != pid {
              assert listing[j] == listing[1..][j - 1];
            }
          }
        }
      }
      r
  }

  predicate MatchesIdAndChannel(p: Product, id: string, channel: string) {
    p.id == id && p.channelId == channel
  }

  /**
   * The position of the product that `/produto remover` acts on: the first
   * one, active or not, with the given id in the given channel.
   */
  function MatchIndex(products: seq<Product>, id: string, channel: string): (r: Option<nat>)
    ensures r.Some? ==> r.value < |products| && MatchesIdAndChannel(products[r.value], id, channel)
    ensures r.Some? ==> forall j :: 0 <= j < r.value ==> !MatchesIdAndChannel(products[j], id, channel)
    ensures r.None? ==> forall j :: 0 <= j < |products| ==> !MatchesIdAndChannel(products[j], id, channel)
  {
    if |products| == 0 then None
    else if MatchesIdAndChannel(products[0], id, channel) then Some(0)
    else
      match MatchIndex(products[1..], id, channel)
      case None => None
      case Some(i) => Some(i + 1)
  }

  function Deactivated(p: Product): Product {
    p.(active := false)
  }

  /** No two products share an id. */
  predicate UniqueIds(products: seq<Product>) {
    forall i, j :: 0 <= i < |products| && 0 <= j < |products| && products[i].id == products[j].id ==> i == j
  }

  /** The document held in `db.json`. */
  class Store {
    var products: seq<Product>
    var pix: Pix

    /** The document `loadDB` writes when there is none yet. */
    constructor ()
      ensures products == [] && pix == EMPTY_PIX
    {
      products := [];
      pix := EMPTY_PIX;
    }

    /** `db.products.push(...)`: a new active product scoped to the invoking channel. */
    method AddProduct(id: string, channel: string, name: string, price: int,
                      description: string, imageUrl: string) returns (p: Product)
      modifies this
      ensures p == Product(id, channel, name, price, description, imageUrl, true)
      ensures products == old(products) + [p]
      ensures pix == old(pix)
    {
      p := Product(id, channel, name, price, description, imageUrl, true);
      products := products + [p];
    }

    /**
     * `p.active = false` on the first product with this id in this channel.
     * The product as it was is returned; nothing changes when none matches.
     */
    method RemoveProduct(id: string, channel: string) returns (removed: Option<Product>)
      modifies this
      ensures pix == old(pix)
      ensures MatchIndex(old(products), id, channel).None? ==>
                removed.None? && products == old(products)
      ensures MatchIndex(old(products), id, channel).Some? ==>
                var i := MatchIndex(old(products), id, channel).value;
                removed == Some(old(products)[i]) &&
                products == old(products)[i := Deactivated(old(products)[i])]
    {
      match MatchIndex(products, id, channel)
      case None =>
        removed := None;
      case Some(i) =>
        removed := Some(products[i]);
        products := products[i := Deactivated(products[i])];
    }

    /**
     * `/pix`: key, name and city are overwritten; the QR image only when one
     * is attached (an empty url stands for no attachment).
     */
    method SetPix(key: string, name: string, city: string, qrUrl: string)
      modifies this
      ensures pix == Pix(key, name, city, if qrUrl != "" then qrUrl else old(pix).qrUrl)
      ensures products == old(products)
    {
      var qr := if qrUrl != "" then qrUrl else pix.qrUrl;
      pix := Pix(key, name, city, qr);
    }
  }

  /** The view keeps storage order: it distributes over concatenation. */
  lemma {:induction false} ForChannelAppend(a: seq<Product>, b: seq<Product>, channel: string)
    ensures ForChannel(a + b, channel) == ForChannel(a, channel) + ForChannel(b, channel)
  {
    if |a| == 0 {
      assert a + b == b;
    } else {
      assert (a + b)[0] == a[0];
      assert (a + b)[1..] == a[1..] + b;
      ForChannelAppend(a[1..], b, channel);
    }
  }

  /**
   * An added product shows at the end of its own channel's view and leaves
   * every other channel's view as it was.
   */
  lemma AddedProductListed(products: seq<Product>, p: Product, channel: string)
    requires p.active
    ensures ForChannel(products + [p], channel) ==
              ForChannel(products, channel) + (if p.channelId == channel then [p] else [])
  {
    ForChannelAppend(products, [p], channel);
    assert [p][1..] == [];
  }

  /** The view of a sequence split around one element. */
  lemma ForChannelAround(pre: seq<Product>, x: Product, post: seq<Product>, channel: string)
    ensures ForChannel(pre + [x] + post, channel) ==
              ForChannel(pre, channel) + (if Visible(x, channel) then [x] else []) + ForChannel(post, channel)
  {
    ForChannelAppend(pre + [x], post, channel);
    ForChannelAppend(pre, [x], channel);
    assert [x][1..] == [];
  }

  /**
   * Deactivating the product at `i` takes it out of every view and leaves the
   * rest of every view, and its order, as it was.
   */
  lemma DeactivateListing(products: seq<Product>, i: nat, channel: string)
    requires i < |products|
    ensures ForChannel(products, channel) ==
              ForChannel(products[..i], channel)
              + (if Visible(products[i], channel) then [products[i]] else [])
              + ForChannel(products[i + 1..], channel)
    ensures ForChannel(products[i := Deactivated(products[i])], channel) ==
              ForChannel(products[..i], channel) + ForChannel(products[i + 1..], channel)
  {
    var pre, post := products[..i], products[i + 1..];
    assert products == pre + [products[i]] + post;
    assert products[i := Deactivated(products[i])] == pre + [Deactivated(products[i])] + post;
    ForChannelAround(pre, products[i], post, channel);
    ForChannelAround(pre, Deactivated(products[i]), post, channel);
  }

  /**
   * With unique ids, once `/produto remover` has found a product, no customer
   * in that channel can resolve its id any more.
   */
  lemma RemovedProductHidden(products: seq<Product>, id: string, channel: string)
    requires UniqueIds(products)
    requires MatchIndex(products, id, channel).Some?
    ensures var i := MatchIndex(products, id, channel).value;
            Resolve(ForChannel(products[i := Deactivated(products[i])], channel), id).None?
  {
  }
}
