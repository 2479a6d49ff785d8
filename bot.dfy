/**
 * The event handlers: the `/pix` and `/produto` slash commands, the buttons
 * and the add-to-cart select menu.  Each handler takes the acting user and
 * channel as inputs, reads or changes the store document and the cart
 * registry, and returns the reply it would send.
 */
module Bot {
  import opened Wrappers
  import opened Tokens
  import opened TicketNames
  import opened Catalog
  import opened Carts

  /** A select menu holds at most 25 options. */
  const MENU_LIMIT: nat := 25
  /** The value of the single option of a disabled, empty menu. */
  const NONE_VALUE: string := "none"

  /** The product picker: its custom id, the product id behind each option, and whether it is disabled. */
  datatype ProductMenu = ProductMenu(customId: string, options: seq<string>, disabled: bool)

  /** The "add more", "empty" and "finish" buttons; "finish" is disabled unless the total is positive. */
  datatype CartButtons = CartButtons(owner: string, channel: string, checkoutEnabled: bool)

  datatype Reply =
    | Silent
    | AdminOnly
    | PixSaved(pix: Pix)
    | ProductAdded(product: Product)
    | NoProductsListed
    | ProductListing(products: seq<Product>)
    | ProductNotFound
    | ProductDeactivated(name: string)
    | MenuShown(menu: ProductMenu)
    | CartShown(summary: Summary, buttons: CartButtons)
    | NotForYou
    | OtherChannel
    | CartEmptied(buttons: CartButtons)
    | ReviewShown(summary: Summary, owner: string, channel: string)
    | OrderCancelled
    | PixNotConfigured
    | CartIsEmpty
    | InvalidCategory
    | Failed
    | TicketOpened(name: string, summary: Summary, pix: Pix, owner: string)
    | PaidSignaled
    | NotTicketOwner
    | ClosingTicket
    | CannotClose
    | NoProductsHere
    | InvalidProduct
    | CartUpdated(summary: Summary, buttons: CartButtons)

  datatype ProductSubcommand =
    | Add(id: string, name: string, price: int, description: string, imageUrl: string)
    | List
    | Remove(id: string)

  function OptionIds(products: seq<Product>): seq<string> {
    seq(|products|, i requires 0 <= i < |products| => products[i].id)
  }

  /** `buildProductMenu`: the first 25 active products of the channel, or a disabled "none" option. */
  function BuildProductMenu(products: seq<Product>, owner: string, channel: string): ProductMenu {
    var listing := ForChannel(products, channel);
    var id := Token("add_to_cart", owner, channel);
    if |listing| == 0 then ProductMenu(id, [NONE_VALUE], true)
    else if |listing| <= MENU_LIMIT then ProductMenu(id, OptionIds(listing), false)
    else ProductMenu(id, OptionIds(listing[..MENU_LIMIT]), false)
  }

  /**
   * The menu the bot builds for `owner` in `channel` is an add-to-cart menu
   * that accepts exactly its owner in its channel; it is disabled exactly when
   * the channel has no active product; and every option of an enabled menu
   * names a product the select handler can resolve.
   */
  lemma MenuIsUsable(products: seq<Product>, owner: string, channel: string, user: string, here: string)
    requires NoSep(owner) && NoSep(channel)
    ensures var m := BuildProductMenu(products, owner, channel);
            Split(m.customId)[0] == "add_to_cart" &&
            CheckOwnerChannel(Split(m.customId), user, here)
              == (if owner != user then OwnerMismatch else if channel != here then ChannelMismatch else Accepted) &&
            (m.disabled <==> ForChannel(products, channel) == []) &&
            1 <= |m.options| <= MENU_LIMIT &&
            (!m.disabled ==> forall i :: 0 <= i < |m.options| ==>
                               Resolve(ForChannel(products, channel), m.options[i]).Some?)
  {
    var m := BuildProductMenu(products, owner, channel);
    var listing := ForChannel(products, channel);
    assert NoSep("add_to_cart");
    TokenRoundTrip("add_to_cart", owner, channel);
    TokenVerdict("add_to_cart", owner, channel, user, here);
    if !m.disabled {
      forall i | 0 <= i < |m.options|
        ensures Resolve(listing, m.options[i]).Some?
      {
        assert listing[i] in listing && listing[i].id == m.options[i];
      }
    }
  }

  predicate StartsWith(s: string, prefix: string) {
    |prefix| <= |s| && s[..|prefix|] == prefix
  }

  /** The action piece of a custom id. */
  function Action(cid: string): string {
    Split(cid)[0]
  }

  /** The custom id reaches the owner/channel guard. */
  predicate Guarded(cid: string) {
    cid != "open_menu" && cid != "view_cart" && Action(cid) in PROTECTED_ACTIONS
  }

  /** The custom id names `action` and passes the guard for this user in this channel. */
  predicate Admitted(cid: string, user: string, channel: string, action: string) {
    Guarded(cid) && Action(cid) == action && CheckOwnerChannel(Split(cid), user, channel) == Accepted
  }

  /** A button the protected-action guard and the two panel ids leave to the ticket rules. */
  predicate TicketButton(cid: string, prefix: string) {
    cid != "open_menu" && cid != "view_cart" && Action(cid) !in PROTECTED_ACTIONS && StartsWith(cid, prefix)
  }

  /** `/pix`: admin only; stores key, name, city and, when attached, the QR image. */
  method PixCommand(store: Store, isAdmin: bool, key: string, name: string, city: string, qrUrl: string)
    returns (r: Reply)
    modifies store
    ensures !isAdmin ==> r == AdminOnly && unchanged(store)
    ensures isAdmin ==>
              store.pix == Pix(key, name, city, if qrUrl != "" then qrUrl else old(store.pix.qrUrl)) &&
              store.products == old(store.products) &&
              r == PixSaved(store.pix)
  {
    if !isAdmin {
      return AdminOnly;
    }
    store.SetPix(key, name, city, qrUrl);
    r := PixSaved(store.pix);
  }

  /**
   * `/produto`: admin only for all three subcommands.  `adicionar` appends an
   * active product scoped to the invoking channel, `listar` shows that
   * channel's active products, `remover` deactivates the first product with
   * the id in that channel or reports that there is none.
   */
  method ProductCommand(store: Store, isAdmin: bool, channel: string, sub: ProductSubcommand)
    returns (r: Reply)
    modifies store
    ensures !isAdmin ==> r == AdminOnly && unchanged(store)
    ensures isAdmin && sub.Add? ==>
              var p := Product(sub.id, channel, sub.name, sub.price, sub.description, sub.imageUrl, true);
              store.products == old(store.products) + [p] && store.pix == old(store.pix) &&
              r == ProductAdded(p)
    ensures isAdmin && sub.List? ==>
              unchanged(store) &&
              r == (if ForChannel(store.products, channel) == [] then NoProductsListed
                    else ProductListing(ForChannel(store.products, channel)))
    ensures isAdmin && sub.Remove? ==>
              store.pix == old(store.pix) &&
              match MatchIndex(old(store.products), sub.id, channel)
              case None => r == ProductNotFound && store.products == old(store.products)
              case Some(i) =>
                r == ProductDeactivated(old(store.products)[i].name) &&
                store.products == old(store.products)[i := Deactivated(old(store.products)[i])]
  {
    if !isAdmin {
      return AdminOnly;
    }
    match sub
    case Add(id, name, price, description, imageUrl) =>
      var p := store.AddProduct(id, channel, name, price, description, imageUrl);
      r := ProductAdded(p);
    case List =>
      var listing := ForChannel(store.products, channel);
      r := if listing == [] then NoProductsListed else ProductListing(listing);
    case Remove(id) =>
      var removed := store.RemoveProduct(id, channel);
      r := if removed.None? then ProductNotFound else ProductDeactivated(removed.value.name);
  }

  /**
   * `confirm_order` once the guard has passed.  Its three preconditions are
   * checked in order, each refusal with its own reply: the PIX details are
   * complete, the cart total is positive, the ticket category exists.  The
   * cart is cleared only once the ticket channel has been created and the
   * payment message posted (`ticketSent`); a failure there is caught by the
   * top-level handler and the cart stays as it was.
   */
  method ConfirmOrder(store: Store, registry: CartRegistry, user: string, channel: string,
                      username: string, categoryExists: bool, ticketSent: bool)
    returns (r: Reply)
    requires registry.Valid()
    modifies registry
    ensures registry.Valid()
    ensures var k := CartKey(user, channel);
            var oc := CartOf(old(registry.carts), k);
            var listing := ForChannel(store.products, channel);
            var total := Total(listing, oc);
            (!PixComplete(store.pix) ==>
               r == PixNotConfigured && registry.carts == old(registry.carts)) &&
            (PixComplete(store.pix) && total <= 0 ==>
               r == CartIsEmpty && registry.carts == old(registry.carts)[k := oc]) &&
            (PixComplete(store.pix) && total > 0 && !categoryExists ==>
               r == InvalidCategory && registry.carts == old(registry.carts)[k := oc]) &&
            (PixComplete(store.pix) && total > 0 && categoryExists && !ticketSent ==>
               r == Failed && registry.carts == old(registry.carts)[k := oc]) &&
            (PixComplete(store.pix) && total > 0 && categoryExists && ticketSent ==>
               r == TicketOpened(TicketName(username), Summary(Items(listing, oc), total), store.pix, user) &&
               registry.carts == old(registry.carts) - {k})
  {
    if !PixComplete(store.pix) {
      return PixNotConfigured;
    }
    var s := registry.CartSummary(store.products, user, channel);
    if s.total <= 0 {
      return CartIsEmpty;
    }
    if !categoryExists {
      return InvalidCategory;
    }
    if !ticketSent {
      return Failed;
    }
    var name := TicketName(username);
    registry.ClearCart(user, channel);
    r := TicketOpened(name, s, store.pix, user);
  }

  /** The five protected actions, run only after the guard has accepted the id. */
  method ProtectedAction(store: Store, registry: CartRegistry, action: string, user: string, channel: string,
                         username: string, categoryExists: bool, ticketSent: bool)
    returns (r: Reply)
    requires registry.Valid()
    requires action in PROTECTED_ACTIONS
    modifies registry
    ensures registry.Valid()
    ensures action == "add_more" ==>
              r == MenuShown(BuildProductMenu(store.products, user, channel)) &&
              registry.carts == old(registry.carts)
    ensures action == "clear_cart" ==>
              r == CartEmptied(CartButtons(user, channel, false)) &&
              registry.carts == old(registry.carts) - {CartKey(user, channel)}
    ensures action == "checkout" ==>
              var oc := CartOf(old(registry.carts), CartKey(user, channel));
              var listing := ForChannel(store.products, channel);
              r == ReviewShown(Summary(Items(listing, oc), Total(listing, oc)), user, channel) &&
              registry.carts == old(registry.carts)[CartKey(user, channel) := oc]
    ensures action == "cancel_order" ==>
              r == OrderCancelled && registry.carts == old(registry.carts)
    ensures action == "confirm_order" ==>
              var k := CartKey(user, channel);
              var oc := CartOf(old(registry.carts), k);
              var listing := ForChannel(store.products, channel);
              var total := Total(listing, oc);
              (!PixComplete(store.pix) ==>
                 r == PixNotConfigured && registry.carts == old(registry.carts)) &&
              (PixComplete(store.pix) && total <= 0 ==>
                 r == CartIsEmpty && registry.carts == old(registry.carts)[k := oc]) &&
              (PixComplete(store.pix) && total > 0 && !categoryExists ==>
                 r == InvalidCategory && registry.carts == old(registry.carts)[k := oc]) &&
              (PixComplete(store.pix) && total > 0 && categoryExists && !ticketSent ==>
                 r == Failed && registry.carts == old(registry.carts)[k := oc]) &&
              (PixComplete(store.pix) && total > 0 && categoryExists && ticketSent ==>
                 r == TicketOpened(TicketName(username), Summary(Items(listing, oc), total), store.pix, user) &&
                 registry.carts == old(registry.carts) - {k})
  {
    if action == "add_more" {
      r := MenuShown(BuildProductMenu(store.products, user, channel));
    } else if action == "clear_cart" {
      registry.ClearCart(user, channel);
      r := CartEmptied(CartButtons(user, channel, false));
    } else if action == "checkout" {
      var s := registry.CartSummary(store.products, user, channel);
      r := ReviewShown(s, user, channel);
    } else if action == "cancel_order" {
      r := OrderCancelled;
    } else {
      r := ConfirmOrder(store, registry, user, channel, username, categoryExists, ticketSent);
    }
  }

  /** The ticket buttons: "paid" for the owner only, "close" for the owner or staff; anything else is ignored. */
  method TicketAction(cid: string, user: string, isStaff: bool) returns (r: Reply)
    ensures StartsWith(cid, "paid:") ==> r == (if PaidAllowed(cid, user) then PaidSignaled else NotTicketOwner)
    ensures StartsWith(cid, "close:") ==> r == (if CloseAllowed(cid, user, isStaff) then ClosingTicket else CannotClose)
    ensures !StartsWith(cid, "paid:") && !StartsWith(cid, "close:") ==> r == Silent
  {
    if StartsWith(cid, "paid:") {
      r := if PaidAllowed(cid, user) then PaidSignaled else NotTicketOwner;
      assert cid[0] == 'p';
    } else if StartsWith(cid, "close:") {
      r := if CloseAllowed(cid, user, isStaff) then ClosingTicket else CannotClose;
    } else {
      r := Silent;
    }
  }

  /**
   * A button press.  The two panel buttons come first; then any id whose
   * action is protected goes through the guard (owner first, channel second)
   * before anything happens, and on to the action itself; any other id is
   * left to the ticket rules.  External effects of a confirmed order
   * (creating the ticket channel and posting to it) are summed up by
   * `categoryExists` and `ticketSent`.
   */
  method HandleButton(store: Store, registry: CartRegistry, cid: string, user: string, channel: string,
                      username: string, isStaff: bool, categoryExists: bool, ticketSent: bool)
    returns (r: Reply)
    requires registry.Valid()
    modifies registry
    ensures registry.Valid()
    ensures cid == "open_menu" ==>
              r == MenuShown(BuildProductMenu(store.products, user, channel)) &&
              registry.carts == old(registry.carts)
    ensures cid == "view_cart" ==>
              var oc := CartOf(old(registry.carts), CartKey(user, channel));
              var listing := ForChannel(store.products, channel);
              r == CartShown(Summary(Items(listing, oc), Total(listing, oc)),
                             CartButtons(user, channel, Total(listing, oc) > 0)) &&
              registry.carts == old(registry.carts)[CartKey(user, channel) := oc]
    ensures Guarded(cid) && CheckOwnerChannel(Split(cid), user, channel) == OwnerMismatch ==>
              r == NotForYou && registry.carts == old(registry.carts)
    ensures Guarded(cid) && CheckOwnerChannel(Split(cid), user, channel) == ChannelMismatch ==>
              r == OtherChannel && registry.carts == old(registry.carts)
    ensures Admitted(cid, user, channel, "add_more") ==>
              r == MenuShown(BuildProductMenu(store.products, user, channel)) &&
              registry.carts == old(registry.carts)
    ensures Admitted(cid, user, channel, "clear_cart") ==>
              r == CartEmptied(CartButtons(user, channel, false)) &&
              registry.carts == old(registry.carts) - {CartKey(user, channel)}
    ensures Admitted(cid, user, channel, "checkout") ==>
              var oc := CartOf(old(registry.carts), CartKey(user, channel));
              var listing := ForChannel(store.products, channel);
              r == ReviewShown(Summary(Items(listing, oc), Total(listing, oc)), user, channel) &&
              registry.carts == old(registry.carts)[CartKey(user, channel) := oc]
    ensures Admitted(cid, user, channel, "cancel_order") ==>
              r == OrderCancelled && registry.carts == old(registry.carts)
    ensures Admitted(cid, user, channel, "confirm_order") ==>
              var k := CartKey(user, channel);
              var oc := CartOf(old(registry.carts), k);
              var listing := ForChannel(store.products, channel);
              var total := Total(listing, oc);
              (!PixComplete(store.pix) ==>
                 r == PixNotConfigured && registry.carts == old(registry.carts)) &&
              (PixComplete(store.pix) && total <= 0 ==>
                 r == CartIsEmpty && registry.carts == old(registry.carts)[k := oc]) &&
              (PixComplete(store.pix) && total > 0 && !categoryExists ==>
                 r == InvalidCategory && registry.carts == old(registry.carts)[k := oc]) &&
              (PixComplete(store.pix) && total > 0 && categoryExists && !ticketSent ==>
                 r == Failed && registry.carts == old(registry.carts)[k := oc]) &&
              (PixComplete(store.pix) && total > 0 && categoryExists && ticketSent ==>
                 r == TicketOpened(TicketName(username), Summary(Items(listing, oc), total), store.pix, user) &&
                 registry.carts == old(registry.carts) - {k})
    ensures TicketButton(cid, "paid:") ==>
              r == (if PaidAllowed(cid, user) then PaidSignaled else NotTicketOwner) &&
              registry.carts == old(registry.carts)
    ensures TicketButton(cid, "close:") ==>
              r == (if CloseAllowed(cid, user, isStaff) then ClosingTicket else CannotClose) &&
              registry.carts == old(registry.carts)
    ensures cid != "open_menu" && cid != "view_cart" && Action(cid) !in PROTECTED_ACTIONS &&
            !StartsWith(cid, "paid:") && !StartsWith(cid, "close:") ==>
              r == Silent && registry.carts == old(registry.carts)
  {
    if cid == "open_menu" {
      return MenuShown(BuildProductMenu(store.products, user, channel));
    }
    if cid == "view_cart" {
      var s := registry.CartSummary(store.products, user, channel);
      return CartShown(s, CartButtons(user, channel, s.total > 0));
    }
    var parts := Split(cid);
    var action := parts[0];
    if action in PROTECTED_ACTIONS {
      var verdict := CheckOwnerChannel(parts, user, channel);
      if verdict == OwnerMismatch {
        return NotForYou;
      }
      if verdict == ChannelMismatch {
        return OtherChannel;
      }
      r := ProtectedAction(store, registry, action, user, channel, username, categoryExists, ticketSent);
      return;
    }
    r := TicketAction(cid, user, isStaff);
  }

  /**
   * A choice in the add-to-cart menu.  After the prefix, owner and channel
   * checks, a "none" value or a product that is not active in this channel
   * is refused; otherwise one unit is added to this user's cart in this
   * channel and the new summary is shown.
   */
  method HandleSelect(store: Store, registry: CartRegistry, cid: string, user: string, channel: string,
                      value: string)
    returns (r: Reply)
    requires registry.Valid()
    modifies registry
    ensures registry.Valid()
    ensures Action(cid) != "add_to_cart" ==>
              r == Silent && registry.carts == old(registry.carts)
    ensures Action(cid) == "add_to_cart" && CheckOwnerChannel(Split(cid), user, channel) == OwnerMismatch ==>
              r == NotForYou && registry.carts == old(registry.carts)
    ensures Action(cid) == "add_to_cart" && CheckOwnerChannel(Split(cid), user, channel) == ChannelMismatch ==>
              r == OtherChannel && registry.carts == old(registry.carts)
    ensures Action(cid) == "add_to_cart" && CheckOwnerChannel(Split(cid), user, channel) == Accepted ==>
              var k := CartKey(user, channel);
              var oc := CartOf(old(registry.carts), k);
              var listing := ForChannel(store.products, channel);
              (value == NONE_VALUE ==>
                 r == NoProductsHere && registry.carts == old(registry.carts)) &&
              (value != NONE_VALUE && Resolve(listing, value).None? ==>
                 r == InvalidProduct && registry.carts == old(registry.carts)) &&
              (value != NONE_VALUE && Resolve(listing, value).Some? ==>
                 var nc := Increment(oc, value);
                 registry.carts == old(registry.carts)[k := nc] &&
                 QtyOf(nc, value) == QtyOf(oc, value) + 1 &&
                 r == CartUpdated(Summary(Items(listing, nc), Total(listing, nc)),
                                  CartButtons(user, channel, Total(listing, nc) > 0)) &&
                 Total(listing, nc) == Total(listing, oc) + Resolve(listing, value).value.price)
  {
    var parts := Split(cid);
    if parts[0] != "add_to_cart" {
      return Silent;
    }
    var verdict := CheckOwnerChannel(parts, user, channel);
    if verdict == OwnerMismatch {
      return NotForYou;
    }
    if verdict == ChannelMismatch {
      return OtherChannel;
    }
    if value == NONE_VALUE {
      return NoProductsHere;
    }
    var listing := ForChannel(store.products, channel);
    var found := Resolve(listing, value);
    if found.None? {
      return InvalidProduct;
    }
    ghost var oc := CartOf(registry.carts, CartKey(user, channel));
    IncrementTotal(listing, oc, value);
    registry.AddOne(user, channel, value);
    var s := registry.CartSummary(store.products, user, channel);
    r := CartUpdated(s, CartButtons(user, channel, s.total > 0));
  }
}
