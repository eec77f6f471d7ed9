/**
 * The mention scan of the game flow: `content.match(/<@\d+>/g)`, written out as a
 * left-to-right scanner, with an independent description of its result (every
 * position of the text where a mention token begins) and the facts about
 * concatenation that the join and start handlers rely on.
 */
module Mentions {
  import opened Strings

  /** A whole mention token: `<@`, one or more decimal digits, `>`. */
  predicate IsMention(t: string) {
    |t| >= 4 && t[0] == '<' && t[1] == '@' && t[|t| - 1] == '>' && AllDigits(t[2..|t| - 1])
  }

  /** The mention token of a user id. */
  function MentionOf(id: string): string {
    "<@" + id + ">"
  }

  /** Length of the run of decimal digits at the start of `s` (what a greedy `\d+` consumes). */
  function DigitRun(s: string): (n: nat)
    ensures n <= |s|
    ensures forall i :: 0 <= i < n ==> IsDigit(s[i])
    ensures n < |s| ==> !IsDigit(s[n])
  {
    if |s| > 0 && IsDigit(s[0]) then 1 + DigitRun(s[1..]) else 0
  }

  /** Length of the match of `<@\d+>` anchored at the start of `s`, or 0 when it does not match there. */
  function TokenLen(s: string): (n: nat)
    ensures n == 0 || (4 <= n <= |s| && IsMention(s[..n]))
  {
    if |s| >= 2 && s[0] == '<' && s[1] == '@' then
      var d := DigitRun(s[2..]);
      if d >= 1 && 2 + d < |s| && s[2 + d] == '>' then
        assert s[..3 + d][2..2 + d] == s[2..][..d];
        3 + d
      else 0
    else 0
  }

  /**
   * The tokens a global regex match of `<@\d+>` returns, left to right: try to match
   * at the current position; on success take the token and continue after it,
   * otherwise move on by one character.
   */
  function Scan(s: string): (ts: seq<string>)
    ensures forall k :: 0 <= k < |ts| ==> IsMention(ts[k])
    decreases |s|
  {
    if s == [] then []
    else
      var n := TokenLen(s);
      if n > 0 then [s[..n]] + Scan(s[n..]) else Scan(s[1..])
  }

  // ---------------------------------------------------------------------------
  // Reference description: the tokens at every position where one begins.

  /** Some prefix of `s` is a whole mention token. */
  ghost predicate StartsWithMention(s: string) {
    exists n :: 0 < n <= |s| && IsMention(s[..n])
  }

  ghost function MentionPrefix(s: string): string
    requires StartsWithMention(s)
  {
    var n :| 0 < n <= |s| && IsMention(s[..n]); s[..n]
  }

  /** Every mention that begins somewhere in `s`, ordered by where it begins; no position is skipped. */
  ghost function Occurrences(s: string): seq<string>
    decreases |s|
  {
    if s == [] then []
    else (if StartsWithMention(s) then [MentionPrefix(s)] else []) + Occurrences(s[1..])
  }

  // ---------------------------------------------------------------------------
  // Lemmas.

  lemma {:induction false} DigitRunOfDigits(s: string, k: nat)
    requires k <= |s| && AllDigits(s[..k]) && (k == |s| || !IsDigit(s[k]))
    ensures DigitRun(s) == k
    decreases k
  {
    if k > 0 {
      assert IsDigit(s[..k][0]);
      assert s[1..][..k - 1] == s[..k][1..];
      DigitRunOfDigits(s[1..], k - 1);
    }
  }

  /** A prefix that is a whole mention is exactly the anchored match: the match at a position is unique. */
  lemma TokenLenExact(s: string, n: nat)
    requires 0 < n <= |s| && IsMention(s[..n])
    ensures TokenLen(s) == n
  {
    var t := s[..n];
    assert t[2..n - 1] == s[2..][..n - 3];
    assert n - 3 < |s[2..]| && s[2..][n - 3] == t[n - 1];
    DigitRunOfDigits(s[2..], n - 3);
  }

  lemma NoMentionWithoutAngle(s: string)
    requires s != [] && s[0] != '<'
    ensures !StartsWithMention(s)
  {
    forall n | 0 < n <= |s| ensures !IsMention(s[..n]) {
      assert s[..n][0] == s[0];
    }
  }

  /** Inside a token no other token begins, since none of `@`, digits or `>` is `<`. */
  lemma {:induction false} SkipInsideToken(s: string, k: nat, n: nat)
    requires 0 < k <= n <= |s| && IsMention(s[..n])
    ensures Occurrences(s[k..]) == Occurrences(s[n..])
    decreases n - k
  {
    if k < n {
      assert s[k] == s[..n][k];
      assert s[k..][0] == s[k] && s[k] != '<';
      NoMentionWithoutAngle(s[k..]);
      assert s[k..][1..] == s[k + 1..];
      SkipInsideToken(s, k + 1, n);
    }
  }

  /**
   * The scan returns exactly the mention tokens that occur in the text, in order of
   * position, duplicates kept: tokens never overlap, so skipping past each match
   * loses nothing.
   */
  lemma {:induction false} ScanIsOccurrences(s: string)
    ensures Scan(s) == Occurrences(s)
    decreases |s|
  {
    if s != [] {
      var n := TokenLen(s);
      if n > 0 {
        forall m | 0 < m <= |s| && IsMention(s[..m]) ensures m == n {
          TokenLenExact(s, m);
        }
        assert StartsWithMention(s);
        assert MentionPrefix(s) == s[..n];
        SkipInsideToken(s, 1, n);
        ScanIsOccurrences(s[n..]);
      } else {
        if StartsWithMention(s) {
          var m :| 0 < m <= |s| && IsMention(s[..m]);
          TokenLenExact(s, m);
        }
        ScanIsOccurrences(s[1..]);
      }
    }
  }

  /** No character of `b` can continue a token begun before it. */
  predicate Separates(b: string) {
    b == [] || !(IsDigit(b[0]) || b[0] == '@' || b[0] == '>')
  }

  lemma {:induction false} DigitRunAppend(x: string, b: string)
    requires Separates(b)
    ensures DigitRun(x + b) == DigitRun(x)
    decreases |x|
  {
    if x == [] {
      assert x + b == b;
    } else if IsDigit(x[0]) {
      assert (x + b)[1..] == x[1..] + b;
      DigitRunAppend(x[1..], b);
    }
  }

  lemma TokenLenAppend(a: string, b: string)
    requires a != [] && Separates(b)
    ensures TokenLen(a + b) == TokenLen(a)
  {
    if |a| >= 2 {
      assert (a + b)[2..] == a[2..] + b;
      DigitRunAppend(a[2..], b);
    }
  }

  /** A scan of `a + b` is the scan of `a` followed by the scan of `b` when no token can span the two. */
  lemma {:induction false} ScanAppend(a: string, b: string)
    requires Separates(b)
    ensures Scan(a + b) == Scan(a) + Scan(b)
    decreases |a|
  {
    if a == [] {
      assert a + b == b;
    } else {
      TokenLenAppend(a, b);
      var n := TokenLen(a);
      if n > 0 {
        assert (a + b)[..n] == a[..n];
        assert (a + b)[n..] == a[n..] + b;
        assert Scan(a + b) == [a[..n]] + Scan(a[n..] + b);
        ScanAppend(a[n..], b);
        Associate([a[..n]], Scan(a[n..]), Scan(b));
      } else {
        assert (a + b)[1..] == a[1..] + b;
        assert Scan(a + b) == Scan(a[1..] + b);
        ScanAppend(a[1..], b);
      }
    }
  }

  lemma Associate<T>(x: seq<T>, y: seq<T>, z: seq<T>)
    ensures x + (y + z) == (x + y) + z
  {
  }

  /** A text without `<` holds no token. */
  lemma {:induction false} ScanWithoutAngle(s: string)
    requires forall i :: 0 <= i < |s| ==> s[i] != '<'
    ensures Scan(s) == []
    decreases |s|
  {
    if s != [] {
      ScanWithoutAngle(s[1..]);
    }
  }

  /** A lone token scans to itself. */
  lemma ScanOfMention(t: string)
    requires IsMention(t)
    ensures Scan(t) == [t]
  {
    assert t[..|t|] == t;
    TokenLenExact(t, |t|);
    assert t[|t|..] == [];
  }

  /** A token followed by text without `<` that cannot continue it scans to that token alone. */
  lemma ScanOfMentionThen(t: string, rest: string)
    requires IsMention(t) && Separates(rest)
    requires forall i :: 0 <= i < |rest| ==> rest[i] != '<'
    ensures Scan(t + rest) == [t]
  {
    ScanAppend(t, rest);
    ScanOfMention(t);
    ScanWithoutAngle(rest);
  }

  /** A leading character other than `<` contributes nothing to the scan. */
  lemma ScanPastChar(c: char, x: string)
    requires c != '<'
    ensures Scan([c] + x) == Scan(x)
  {
    assert ([c] + x)[1..] == x;
  }

  /** The mention of an all-digit, non-empty id is a token. */
  lemma MentionOfDigits(id: string)
    requires |id| > 0 && AllDigits(id)
    ensures IsMention(MentionOf(id))
  {
    var t := MentionOf(id);
    assert t[2..|t| - 1] == id;
  }
}
