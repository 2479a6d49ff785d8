# Shop bot commerce core, in Dafny

This project models the commerce logic of a Discord shop bot (`index.js`).
Administrators add products to a channel and set the PIX payment details
(a Brazilian instant-transfer key, recipient name and city). Customers pick
products from a menu, build a cart per user and channel, review it and
confirm. Confirming opens a private ticket channel with the payment
instructions, and there the buyer can mark the order paid and the buyer or
staff can close the ticket.

Modules, one per part of the source:

- `Wrappers` (`wrappers.dfy`): `Option`, for JavaScript's `undefined`.
- `Tokens` (`tokens.dfy`): builds the custom ids of buttons and menus (`action:owner:channel`, `action:owner`). Also `split(":")`, the owner-then-channel guard, the ticket-button rules and the string cart key with its injectivity.
- `TicketNames` (`ticket_names.dfy`): the ticket channel name (lower-case, keep only `[a-z0-9-]`, cut to 90 characters).
- `Catalog` (`catalog.dfy`): products and PIX details, the per-channel view, and lookup by id. The class `Store` holds the store document (the `db.json` content) and is changed in place by `/produto adicionar`, `/produto remover` and `/pix`.
- `Carts` (`carts.dfy`): a cart is the sequence of its entries in insertion order, which is what a JavaScript `Map` iterates. The module also has the increment step, the summary (a loop method proved against the recursive `Items` and `Total`), and the class `CartRegistry` holding the map from (user, channel) to cart.
- `Bot` (`bot.dfy`): the slash-command, button and select-menu handlers as methods that return the reply they would send.

Prices are integer cents. User, channel and product ids are strings. The
acting user, the channel, the admin and staff flags, the id of a new product
and the outcome of external platform calls are all parameters.

Behaviour of the code worth knowing:

- `/produto listar` is admin-only, like the other subcommands (index.js:345).
- `/pix` keeps the previous QR image when none is attached (index.js:327-328), so it is not a full overwrite.
- The `checkout` button handler does not check that the total is positive (index.js:469-478). Only the disabled button stands in the way.
- Prices are never validated (index.js:354, 365), so a price may be negative. The model allows any integer.
- `cartSummary` goes through `getCart`, which stores an empty cart when there is none (index.js:78, 90). The model keeps this: viewing, checking out or confirming leaves an empty cart behind when the user had none. The cart's contents (`CartOf`) do not change.

## Model

| member | source | states |
|---|---|---|
| Tokens.Split | index.js:438-441 | `split(":")` always gives at least one piece; no piece contains ':'; there is exactly one piece iff the string has no ':' |
| Tokens.SplitJoin | index.js:438-441 | joining ':'-free pieces with ':' and splitting again gives back the same pieces |
| Tokens.JoinSplit | index.js:438-441 | splitting any id and joining the pieces gives back the id |
| Tokens.Token | index.js:137 | the `action:owner:channel` id of the menu, cart and confirm controls; TokenRoundTrip and TokenVerdict give its properties |
| Tokens.TicketToken | index.js:197-202 | the `action:owner` id of the ticket buttons; TicketTokenRoundTrip and TicketAuthorisation give its properties |
| Tokens.CheckOwnerChannel | index.js:444-451 | the owner-then-channel guard; TokenVerdict and AcceptedShape state what it accepts |
| Tokens.PaidAllowed | index.js:560-563 | the "paid" rule; TicketAuthorisation states it is owner-only |
| Tokens.CloseAllowed | index.js:570-575 | the "close" rule; TicketAuthorisation states it is owner-or-staff |
| Tokens.CartKeyString | index.js:73-75 | the string cart key; CartKeyInjective states it is injective on ':'-free ids |
| Tokens.TokenRoundTrip | index.js:137 | an `action:owner:channel` id built from ':'-free ids splits back into exactly `[action, owner, channel]` |
| Tokens.TicketTokenRoundTrip | index.js:197-202 | an `action:owner` ticket id splits back into `[action, owner]` |
| Tokens.TokenVerdict | index.js:444-451 | an issued id is rejected with the owner reason for any other user, whatever the channel; with the channel reason for the owner in another channel; otherwise accepted |
| Tokens.AcceptedShape | index.js:438-451 | acceptance means the id is `action:user:channel`, possibly followed by more ':'-separated pieces, and neither id contains ':' |
| Tokens.TicketAuthorisation | index.js:559-575 | on a ticket id, "paid" is allowed iff the user is the owner; "close" is allowed iff the user is the owner or staff |
| Tokens.CartKeyInjective | index.js:73-75 | for ':'-free ids, equal `${user}:${channel}` keys mean equal (user, channel) pairs, so the pair key is faithful |
| TicketNames.Sanitize | index.js:502 | the result is no longer than the input and every character is in `[a-z0-9-]` |
| TicketNames.SanitizeLowers | index.js:502 | a string of capitals and `[a-z0-9-]` characters comes out with each capital lower-cased and nothing removed |
| TicketNames.SanitizeRemoves | index.js:502 | a string none of whose characters is in `[a-z0-9-]` after lower-casing comes out empty; with SanitizeAppend and SanitizeLowers this fixes the function on every string |
| TicketNames.TicketName | index.js:502-504 | the ticket channel name; its properties are those of TicketNameShape and TicketNameStable |
| TicketNames.SanitizeAppend | index.js:502 | sanitising distributes over concatenation |
| TicketNames.SanitizeKept | index.js:502 | a string of `[a-z0-9-]` characters is left unchanged |
| TicketNames.SanitizeIdempotent | index.js:502 | sanitising twice equals sanitising once |
| TicketNames.TicketNameShape | index.js:502-504 | the ticket name has at most 90 characters, all in `[a-z0-9-]`; it starts with "ticket-" and is "ticket-" plus the sanitised user name, cut to 90 |
| TicketNames.TicketNameStable | index.js:502-504 | sanitising the ticket name again does not change it |
| Catalog.ForChannel | index.js:85-87 | a product is in the channel view iff it is stored, active and scoped to that channel; the view is never longer than the store |
| Catalog.ForChannelAppend | index.js:85-87 | the view distributes over concatenation, so it keeps storage order |
| Catalog.Resolve | index.js:97 | a found product is the first listed product with the id (every earlier one has another id); nothing is found iff no listed product has the id |
| Catalog.MatchIndex | index.js:403 | finds the first product with both the id and the channel, active or not; none iff no product has both |
| Catalog.Store.constructor | index.js:43-46 | a fresh document has no products and empty PIX details |
| Catalog.Store.AddProduct | index.js:359-370 | appends exactly one active product scoped to the invoking channel; the existing products and the PIX details are untouched |
| Catalog.AddedProductListed | index.js:361-369 | after an add, the product appears at the end of its own channel's view, and every other channel's view is unchanged |
| Catalog.Store.RemoveProduct | index.js:401-407 | on a match, only the first (id, channel) match gets `active := false` and it is returned; with no match the store is unchanged and nothing is returned |
| Catalog.DeactivateListing | index.js:405 | deactivating product i takes it out of every channel view and leaves the rest of each view, and its order, unchanged |
| Catalog.RemovedProductHidden | index.js:403-405 | with unique ids, once a product is removed, its id no longer resolves in that channel's view |
| Catalog.Store.SetPix | index.js:323-328 | overwrites key, name and city; replaces the QR url only when a non-empty one is given; products untouched |
| Carts.QtyOf | index.js:604 | the stored quantity of a product, 0 when it is absent; QtyOfWellFormed, IncrementQty and AddAllSummary give its properties |
| Carts.Increment | index.js:604 | the `cart.set(pid, qty + 1)` step; IncrementQty, IncrementWellFormed, IncrementLength and IncrementTotal give its properties |
| Carts.Items | index.js:96-102 | the summary lines of the resolvable entries; Summarize and TotalIsSumOfItems connect it to the loop and to the total |
| Carts.Total | index.js:96-100 | the sum of `price * qty` over resolvable entries; Summarize, IncrementTotal and AddAllSummary give its properties |
| Carts.Summarize | index.js:93-105 | the loop returns the lines of the resolvable entries, in cart order, and the sum of `price * qty` over those lines; with no line the total is 0 |
| Carts.TotalIsSumOfItems | index.js:96-105 | the total equals the sum of the subtotals on the summary lines |
| Carts.NoItemsNoTotal | index.js:104 | a cart with no resolvable entry has total 0 |
| Carts.IncrementQty | index.js:604 | one selection adds exactly 1 to that product's quantity, counting from 0 when absent, and leaves every other quantity unchanged |
| Carts.IncrementWellFormed | index.js:604 | increments keep every quantity at least 1 and keep one entry per product |
| Carts.IncrementLength | index.js:604 | an entry is appended only for a product the cart did not hold |
| Carts.QtyOfWellFormed | index.js:604 | in a well-formed cart a held product has quantity at least 1, any other product 0 |
| Carts.IncrementTotal | index.js:96-104 | one more unit of a product raises the total by its price if it resolves, by 0 otherwise |
| Carts.AddAllSummary | index.js:603-604 | after any run of selections, each quantity is the number of times that product was selected, and the total is the sum of the prices of the selections that resolve |
| Carts.CartRegistry.constructor | index.js:71 | the registry starts with no carts |
| Carts.CartRegistry.GetCart | index.js:76-80 | returns the stored cart, or stores an empty cart and returns it; no other cart changes |
| Carts.CartRegistry.ClearCart | index.js:81-83 | deletes the (user, channel) cart only; that cart then reads as empty and every other cart is unchanged |
| Carts.CartRegistry.AddOne | index.js:603-604 | replaces only the (user, channel) cart, by its increment; the quantity rises by 1 and stays at least 1 |
| Carts.CartRegistry.CartSummary | index.js:89-106 | gives the lines and total of the user's cart against the channel's active products; the only state change is the lazy creation of an empty cart |
| Bot.BuildProductMenu | index.js:133-156 | the product picker; MenuIsUsable states its properties |
| Bot.MenuIsUsable | index.js:133-155 | the product menu's id is an `add_to_cart` id that accepts exactly its owner in its channel; the menu is disabled iff the channel has no active product; it has 1 to 25 options; every option of an enabled menu resolves |
| Bot.PixCommand | index.js:318-340 | non-admins are refused and nothing changes; for admins the PIX details are stored as in SetPix and echoed back |
| Bot.ProductCommand | index.js:344-409 | non-admins are refused and nothing changes; add appends; list shows the channel view or "none"; remove deactivates the first match or reports "not found" with the store unchanged |
| Bot.ConfirmOrder | index.js:484-556 | refuses, in order: PIX incomplete (nothing changes), total not positive, no category, failure while opening the ticket (cart contents kept in all three); success returns the sanitised ticket name and the summary, and deletes exactly the (user, channel) cart |
| Bot.ProtectedAction | index.js:453-556 | what each of the five protected actions replies and does to the carts once its id has been accepted |
| Bot.TicketAction | index.js:558-579 | on `paid:` ids only the owner may signal payment; on `close:` ids the owner or staff may close; any other id gets no reply |
| Bot.HandleButton | index.js:415-580 | panel buttons first; protected ids refused for the wrong owner before the wrong channel is checked, with no cart change; accepted ids run their action; other ids go to the ticket rules |
| Bot.HandleSelect | index.js:583-619 | ignores other menus; refuses the wrong owner, then the wrong channel, then "none", then a product not active in the channel, with no cart change; otherwise changes only the (user, channel) cart, by one unit of the product, and replies with a summary whose total rose by the product's price |

## Left out

- Connecting to Discord, command registration over REST, and every embed, button and menu builder (index.js:108-207, 209-291). The model keeps only the custom ids and option values those controls carry.
- The `/painel` command (index.js:300-315): it only renders the store panel after the admin check.
- `loadDB`/`saveDB` file I/O and JSON serialisation (index.js:38-56). The document is one in-memory `Store`. The lost-update race between overlapping handlers is not modelled, because handlers run one at a time here.
- The environment checks at startup (index.js:29-33), and `isAdmin` and the staff-role lookups (index.js:58-63, 572). These become boolean parameters.
- `Date.now()` id generation (index.js:359). The id is a parameter. Only `RemovedProductHidden` needs ids to be unique, and it says so in its requires.
- `guild.channels.create`, `channel.send` and the delayed `setTimeout` delete (index.js:503-546, 576-577). Whether the category exists and whether the ticket was created and posted are parameters. A failure there becomes the top-level `Failed` reply (index.js:620-627).
- The `brl`/`toFixed(2)` formatting and floating-point prices. Prices are integer cents, and reply texts are replaced by the `Reply` values.
- JavaScript's `Map` is a mutable object that `getCart` returns by reference. Here a cart is a value, replaced in the registry, which behaves the same because nothing else holds the reference.
- TicketNames.Sanitize: lower-cases ASCII letters only. JavaScript's `toLowerCase` also maps a few non-ASCII characters to ASCII ones (the Kelvin sign to `k`, for example), and the model drops those instead. Unicode case tables are not modelled.
- Catalog.ForChannel: a stored product always has a channel id here. Documents written by other versions of the bot could hold products without one, which the source's `===` would never match.
