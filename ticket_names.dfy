/**
 * The name of the private ticket channel: "ticket-" followed by the buyer's
 * user name, lower-cased, with every character outside [a-z0-9-] removed,
 * and cut to at most 90 characters.
 */
module TicketNames {
  const TICKET_PREFIX: string := "ticket-"
  const MAX_NAME_LENGTH: nat := 90

  /** `toLowerCase` on one character, for the ASCII letters. */
  function LowerAscii(c: char): (d: char)
    ensures 'A' <= c <= 'Z' ==> 'a' <= d <= 'z' && d as int - 'a' as int == c as int - 'A' as int
    ensures !('A' <= c <= 'Z') ==> d == c
  {
    if 'A' <= c <= 'Z' then (c as int - 'A' as int + 'a' as int) as char else c
  }

  /** The characters the pattern `[^a-z0-9-]` does not remove. */
  predicate Kept(c: char) {
    ('a' <= c <= 'z') || ('0' <= c <= '9') || c == '-'
  }

  /** `s.toLowerCase().replace(/[^a-z0-9-]/g, "")`. */
  function Sanitize(s: string): (r: string)
    ensures |r| <= |s|
    ensures forall i :: 0 <= i < |r| ==> Kept(r[i])
  {
    if |s| == 0 then []
    else
      var c := LowerAscii(s[0]);
      (if Kept(c) then [c] else []) + Sanitize(s[1..])
  }

  /** `name.slice(0, 90)`. */
  function Truncate(s: string, n: nat): string {
    if |s| <= n then s else s[..n]
  }

  /** The name given to the ticket channel of `username`. */
  function TicketName(username: string): string {
    Truncate(Sanitize(TICKET_PREFIX + username), MAX_NAME_LENGTH)
  }

  /** Sanitising works character by character, so it distributes over concatenation. */
  lemma {:induction false} SanitizeAppend(a: string, b: string)
    ensures Sanitize(a + b) == Sanitize(a) + Sanitize(b)
  {
    if |a| == 0 {
      assert a + b == b;
    } else {
      assert (a + b)[0] == a[0];
      assert (a + b)[1..] == a[1..] + b;
      SanitizeAppend(a[1..], b);
    }
  }

  /** A string made only of kept characters passes through unchanged. */
  lemma {:induction false} SanitizeKept(s: string)
    requires forall i :: 0 <= i < |s| ==> Kept(s[i])
    ensures Sanitize(s) == s
  {
    if |s| > 0 {
      assert Kept(s[0]);
      SanitizeKept(s[1..]);
      assert s == [s[0]] + s[1..];
    }
  }

  /** A string of capitals and kept characters is lower-cased, character by character, and nothing is removed. */
  lemma {:induction false} SanitizeLowers(s: string)
    requires forall i :: 0 <= i < |s| ==> 'A' <= s[i] <= 'Z' || Kept(s[i])
    ensures Sanitize(s) == seq(|s|, i requires 0 <= i < |s| => LowerAscii(s[i]))
  {
    if |s| > 0 {
      assert Kept(LowerAscii(s[0]));
      SanitizeLowers(s[1..]);
      var lowered := seq(|s|, i requires 0 <= i < |s| => LowerAscii(s[i]));
      assert lowered == [LowerAscii(s[0])] + seq(|s| - 1, i requires 0 <= i < |s| - 1 => LowerAscii(s[1..][i]));
    }
  }

  /** A string none of whose characters survives lower-casing as a kept character is removed entirely. */
  lemma {:induction false} SanitizeRemoves(s: string)
    requires forall i :: 0 <= i < |s| ==> !Kept(LowerAscii(s[i]))
    ensures Sanitize(s) == []
  {
    if |s| > 0 {
      assert !Kept(LowerAscii(s[0]));
      SanitizeRemoves(s[1..]);
    }
  }

  /** Sanitising twice is the same as sanitising once. */
  lemma SanitizeIdempotent(s: string)
    ensures Sanitize(Sanitize(s)) == Sanitize(s)
  {
    SanitizeKept(Sanitize(s));
  }

  /**
   * The ticket name is at most 90 characters from [a-z0-9-], always begins
   * with "ticket-", and is that prefix followed by the sanitised user name,
   * cut to 90 characters.
   */
  lemma TicketNameShape(username: string)
    ensures |TicketName(username)| <= MAX_NAME_LENGTH
    ensures forall i :: 0 <= i < |TicketName(username)| ==> Kept(TicketName(username)[i])
    ensures TicketName(username) == Truncate(TICKET_PREFIX + Sanitize(username), MAX_NAME_LENGTH)
    ensures |TicketName(username)| >= |TICKET_PREFIX|
    ensures TicketName(username)[..|TICKET_PREFIX|] == TICKET_PREFIX
  {
    SanitizeAppend(TICKET_PREFIX, username);
    assert Kept(TICKET_PREFIX[0]) && Kept(TICKET_PREFIX[1]) && Kept(TICKET_PREFIX[2])
        && Kept(TICKET_PREFIX[3]) && Kept(TICKET_PREFIX[4]) && Kept(TICKET_PREFIX[5])
        && Kept(TICKET_PREFIX[6]);
    SanitizeKept(TICKET_PREFIX);
    var full := TICKET_PREFIX + Sanitize(username);
    assert full[..|TICKET_PREFIX|] == TICKET_PREFIX;
    if |full| > MAX_NAME_LENGTH {
      assert full[..MAX_NAME_LENGTH][..|TICKET_PREFIX|] == TICKET_PREFIX;
    }
  }

  /** The name the platform receives is already in sanitised form. */
  lemma TicketNameStable(username: string)
    ensures Sanitize(TicketName(username)) == TicketName(username)
  {
    TicketNameShape(username);
    SanitizeKept(TicketName(username));
  }
}
