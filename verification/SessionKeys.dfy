/** The key a conversation is stored under, and when two callers could share one. */
module SessionKeys {
  import opened Common

  /** The verified identity of a caller. */
  datatype Caller = Caller(subject: string, azp: string)

  const MAX_ID: nat := 64

  function Shortened(id: string): string { if |id| > MAX_ID then id[..MAX_ID] else id }

  function Prefix(c: Caller): string { c.subject + "|" + c.azp + "|" }

  /** Without a verified caller the shortened ID itself is the key; an empty ID
      means a stateless request. */
  function SessionKey(caller: Option<Caller>, id: string): string {
    var short := Shortened(id);
    if short == "" || caller == None then short else Prefix(caller.value) + short
  }

  /** The key in its parts: subject, party and ID with bars between; at most 64
      characters of the ID count, and an empty ID is no key. */
  lemma KeyIs(c: Caller, id: string)
    ensures SessionKey(Some(c), "") == "" && SessionKey(None, "") == ""
    ensures 0 < |id| <= 64 ==> SessionKey(Some(c), id) == c.subject + "|" + c.azp + "|" + id
                               && SessionKey(None, id) == id
    ensures |id| > 64 ==> SessionKey(Some(c), id) == SessionKey(Some(c), id[..64])
                          && SessionKey(None, id) == id[..64]
  {}

  ghost predicate CanShare(a: Caller, b: Caller) {
    exists x: string, y: string :: x != "" && y != "" && SessionKey(Some(a), x) == SessionKey(Some(b), y)
  }

  /** One prefix continues the other within the length of an ID. */
  predicate Near(p: string, q: string) { p <= q && |q| - |p| < MAX_ID }

  /** Two callers can reach one session exactly when the prefix of one continues
      the prefix of the other by fewer than 64 characters. */
  lemma SharedSessionIff(a: Caller, b: Caller)
    ensures CanShare(a, b) <==> Near(Prefix(a), Prefix(b)) || Near(Prefix(b), Prefix(a))
  {
    if CanShare(a, b) {
      var x, y :| x != "" && y != "" && SessionKey(Some(a), x) == SessionKey(Some(b), y);
      EqualKeysAreNear(Prefix(a), Shortened(x), Prefix(b), Shortened(y));
    }
    if Near(Prefix(a), Prefix(b)) {
      NearShares(a, b);
    }
    if Near(Prefix(b), Prefix(a)) {
      NearShares(b, a);
      var x, y :| x != "" && y != "" && SessionKey(Some(b), x) == SessionKey(Some(a), y);
      assert SessionKey(Some(a), y) == SessionKey(Some(b), x);
    }
  }

  lemma EqualKeysAreNear(p: string, x: string, q: string, y: string)
    requires p + x == q + y && 0 < |x| <= MAX_ID && 0 < |y| <= MAX_ID
    ensures Near(p, q) || Near(q, p)
  {
    if |p| <= |q| {
      assert p == (p + x)[..|p|] == q[..|p|];
    } else {
      assert q == (q + y)[..|q|] == p[..|q|];
    }
  }

  lemma NearShares(a: Caller, b: Caller)
    requires Near(Prefix(a), Prefix(b))
    ensures CanShare(a, b)
  {
    var x, y := Prefix(b)[|Prefix(a)|..] + "-", "-";
    assert Prefix(a) + x == Prefix(b) + y;
    assert SessionKey(Some(a), x) == SessionKey(Some(b), y);
  }

  /** Different callers whose names hold no separator never share a session. */
  lemma PlainNamesAreIsolated(a: Caller, b: Caller)
    requires '|' !in a.subject && '|' !in a.azp && '|' !in b.subject && '|' !in b.azp
    requires a != b
    ensures !CanShare(a, b)
  {
    SharedSessionIff(a, b);
    if Prefix(a) <= Prefix(b) {
      PlainPrefix(a, b);
      assert false;
    }
    if Prefix(b) <= Prefix(a) {
      PlainPrefix(b, a);
      assert false;
    }
  }

  lemma PlainPrefix(a: Caller, b: Caller)
    requires '|' !in a.subject && '|' !in a.azp && '|' !in b.subject && '|' !in b.azp
    requires Prefix(a) <= Prefix(b)
    ensures a == b
  {
    BarEndsWord(a.subject, a.azp + "|", b.subject, b.azp + "|");
    assert Prefix(a) == a.subject + ("|" + (a.azp + "|")) && Prefix(b) == b.subject + ("|" + (b.azp + "|"));
    BarEndsWord(a.azp, "", b.azp, "");
    assert a.azp + ("|" + "") == a.azp + "|" && b.azp + ("|" + "") == b.azp + "|";
    assert Prefix(a)[|a.subject| + 1..] == a.azp + "|" && Prefix(b)[|b.subject| + 1..] == b.azp + "|";
  }

  lemma BarEndsWord(s: string, x: string, t: string, y: string)
    requires '|' !in s && '|' !in t
    ensures s + ("|" + x) <= t + ("|" + y) ==> s == t && x <= y
  {
    var p, q := s + ("|" + x), t + ("|" + y);
    if p <= q {
      assert p[|s|] == '|' && q[|t|] == '|';
      assert forall i :: 0 <= i < |s| ==> p[i] == s[i] != '|';
      assert forall i :: 0 <= i < |t| ==> q[i] == t[i] != '|';
      assert q[|s|] == '|';
      assert |s| >= |t|;
      assert |t| >= |s| by {
        assert |t| < |p| ==> p[|t|] == q[|t|];
      }
      assert s == p[..|s|] && t == q[..|t|];
      assert x == p[|s| + 1..] && y == q[|t| + 1..];
    }
  }

  /** A separator inside a name is enough for that. */
  lemma SeparatorShares(s: string, t: string, u: string)
    ensures CanShare(Caller(s + "|" + t, u), Caller(s, t + "|" + u))
  {
    assert Prefix(Caller(s + "|" + t, u)) == Prefix(Caller(s, t + "|" + u));
    SharedSessionIff(Caller(s + "|" + t, u), Caller(s, t + "|" + u));
  }
}
