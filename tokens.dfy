/**
 * Custom ids carried by buttons and select menus.  The bot packs an action,
 * the owning user and (for cart actions) the channel into one string joined
 * by ':' and, when the control is used, splits the string on ':' again and
 * compares the pieces with the acting user and channel.
 */
module Tokens {
  import opened Wrappers

  const SEP: char := ':'

  predicate NoSep(s: string) {
    SEP !in s
  }

  /** `s.split(":")`: the pieces between separators, always at least one. */
  function Split(s: string): (parts: seq<string>)
    ensures |parts| >= 1
    ensures forall i :: 0 <= i < |parts| ==> NoSep(parts[i])
    ensures |parts| == 1 <==> NoSep(s)
  {
    if |s| == 0 then [""]
    else
      var rest := Split(s[1..]);
      assert s == [s[0]] + s[1..];
      if s[0] == SEP then [""] + rest
      else [[s[0]] + rest[0]] + rest[1..]
  }

  /** The inverse of Split: the pieces glued back with ':'. */
  function Join(parts: seq<string>): string
    requires |parts| >= 1
  {
    if |parts| == 1 then parts[0] else parts[0] + [SEP] + Join(parts[1..])
  }

  /** The `${action}:${owner}:${channel}` ids of cart, menu and confirm controls. */
  function Token(action: string, owner: string, channel: string): string {
    action + [SEP] + owner + [SEP] + channel
  }

  /** The `${action}:${owner}` ids of the ticket buttons. */
  function TicketToken(action: string, owner: string): string {
    action + [SEP] + owner
  }

  /** JavaScript's `parts[i]`, which is `undefined` past the end. */
  function PartAt(parts: seq<string>, i: nat): Option<string> {
    if i < |parts| then Some(parts[i]) else None
  }

  lemma {:induction false} SplitNoSep(s: string)
    requires NoSep(s)
    ensures Split(s) == [s]
  {
    if |s| > 0 {
      assert s == [s[0]] + s[1..];
      SplitNoSep(s[1..]);
    }
  }

  lemma {:induction false} SplitAfterSep(a: string, b: string)
    requires NoSep(a)
    ensures Split(a + [SEP] + b) == [a] + Split(b)
  {
    var s := a + [SEP] + b;
    if |a| == 0 {
      assert s == [SEP] + b;
      assert s[1..] == b;
    } else {
      assert a == [a[0]] + a[1..];
      assert s[0] == a[0];
      assert s[1..] == a[1..] + [SEP] + b;
      SplitAfterSep(a[1..], b);
    }
  }

  /** Joining pieces that contain no ':' and splitting again gives the pieces back. */
  lemma {:induction false} SplitJoin(parts: seq<string>)
    requires |parts| >= 1
    requires forall i :: 0 <= i < |parts| ==> NoSep(parts[i])
    ensures Split(Join(parts)) == parts
  {
    if |parts| == 1 {
      SplitNoSep(parts[0]);
    } else {
      SplitJoin(parts[1..]);
      SplitAfterSep(parts[0], Join(parts[1..]));
      assert [parts[0]] + parts[1..] == parts;
    }
  }

  /** Splitting any string and joining the pieces gives the string back. */
  lemma {:induction false} JoinSplit(s: string)
    ensures Join(Split(s)) == s
  {
    if |s| > 0 {
      var rest := Split(s[1..]);
      JoinSplit(s[1..]);
      assert s == [s[0]] + s[1..];
      if s[0] == SEP {
        assert Split(s) == [""] + rest;
        assert (Split(s))[1..] == rest;
      } else {
        var parts := Split(s);
        assert parts == [[s[0]] + rest[0]] + rest[1..];
        if |rest| == 1 {
          assert Join(rest) == rest[0];
        } else {
          assert parts[1..] == rest[1..];
          assert Join(rest) == rest[0] + [SEP] + Join(rest[1..]);
        }
      }
    }
  }

  /** The ids the bot builds split back into exactly the three pieces it packed. */
  lemma TokenRoundTrip(action: string, owner: string, channel: string)
    requires NoSep(action) && NoSep(owner) && NoSep(channel)
    ensures Split(Token(action, owner, channel)) == [action, owner, channel]
  {
    assert Token(action, owner, channel) == action + [SEP] + (owner + [SEP] + channel);
    SplitAfterSep(action, owner + [SEP] + channel);
    SplitAfterSep(owner, channel);
    SplitNoSep(channel);
  }

  lemma TicketTokenRoundTrip(action: string, owner: string)
    requires NoSep(action) && NoSep(owner)
    ensures Split(TicketToken(action, owner)) == [action, owner]
  {
    SplitAfterSep(action, owner);
    SplitNoSep(owner);
  }

  /** The actions whose id carries an owner and a channel that must be checked. */
  const PROTECTED_ACTIONS: set<string> :=
    {"add_more", "clear_cart", "checkout", "confirm_order", "cancel_order"}

  datatype Verdict = OwnerMismatch | ChannelMismatch | Accepted

  /**
   * The guard of the protected buttons and of the add-to-cart menu: the owner
   * piece is compared with the acting user first, the channel piece with the
   * acting channel second.
   */
  function CheckOwnerChannel(parts: seq<string>, user: string, channel: string): Verdict {
    if PartAt(parts, 1) != Some(user) then OwnerMismatch
    else if PartAt(parts, 2) != Some(channel) then ChannelMismatch
    else Accepted
  }

  /**
   * An id the bot issued for `owner` in `channel` is accepted exactly for that
   * user in that channel; another user is turned away whatever channel they
   * are in, and the owner is turned away in any other channel.
   */
  lemma TokenVerdict(action: string, owner: string, channel: string, user: string, here: string)
    requires NoSep(action) && NoSep(owner) && NoSep(channel)
    ensures CheckOwnerChannel(Split(Token(action, owner, channel)), user, here)
         == if owner != user then OwnerMismatch
            else if channel != here then ChannelMismatch
            else Accepted
  {
    TokenRoundTrip(action, owner, channel);
  }

  /**
   * Whatever the id, acceptance means it reads `action:user:channel`, possibly
   * followed by further ':'-separated pieces, and that neither the user nor
   * the channel id contains ':'.
   */
  lemma AcceptedShape(cid: string, user: string, channel: string) returns (action: string, rest: string)
    requires CheckOwnerChannel(Split(cid), user, channel) == Accepted
    ensures NoSep(action) && NoSep(user) && NoSep(channel)
    ensures cid == Token(action, user, channel) + rest
    ensures rest == [] || rest[0] == SEP
  {
    var parts := Split(cid);
    JoinSplit(cid);
    action := parts[0];
    assert parts[1..][1..] == parts[2..];
    assert Join(parts) == parts[0] + [SEP] + Join(parts[1..]);
    assert Join(parts[1..]) == parts[1] + [SEP] + Join(parts[2..]);
    if |parts| == 3 {
      rest := [];
      assert Join(parts[2..]) == parts[2];
    } else {
      rest := [SEP] + Join(parts[3..]);
      assert parts[2..][1..] == parts[3..];
      assert Join(parts[2..]) == parts[2] + [SEP] + Join(parts[3..]);
    }
  }

  /** The owner piece of a `paid:` or `close:` id. */
  function TicketOwner(cid: string): Option<string> {
    PartAt(Split(cid), 1)
  }

  /** "Already paid" may be pressed by the ticket owner only. */
  predicate PaidAllowed(cid: string, user: string) {
    TicketOwner(cid) == Some(user)
  }

  /** "Close ticket" may be pressed by the owner or by a holder of the staff role. */
  predicate CloseAllowed(cid: string, user: string, isStaff: bool) {
    TicketOwner(cid) == Some(user) || isStaff
  }

  lemma TicketAuthorisation(owner: string, user: string, isStaff: bool)
    requires NoSep(owner)
    ensures PaidAllowed(TicketToken("paid", owner), user) <==> user == owner
    ensures CloseAllowed(TicketToken("close", owner), user, isStaff) <==> user == owner || isStaff
  {
    TicketTokenRoundTrip("paid", owner);
    TicketTokenRoundTrip("close", owner);
  }

  /** The registry key `${userId}:${channelId}`. */
  function CartKeyString(user: string, channel: string): string {
    user + [SEP] + channel
  }

  /**
   * For ids without ':' (platform ids are digit strings) the string key names
   * one (user, channel) pair only, so a pair may stand for it.
   */
  lemma CartKeyInjective(u1: string, c1: string, u2: string, c2: string)
    requires NoSep(u1) && NoSep(c1) && NoSep(u2) && NoSep(c2)
    requires CartKeyString(u1, c1) == CartKeyString(u2, c2)
    ensures u1 == u2 && c1 == c2
  {
    SplitAfterSep(u1, c1);
    SplitAfterSep(u2, c2);
    SplitNoSep(c1);
    SplitNoSep(c2);
    var parts := Split(CartKeyString(u1, c1));
    assert parts == [u1] + [c1] && parts == [u2] + [c2];
    assert parts[0] == u1 && parts[0] == u2;
    assert parts[1] == c1 && parts[1] == c2;
  }
}
