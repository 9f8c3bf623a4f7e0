/** The auth middleware: which requests reach the next handler, and with what. */
module Middleware {
  import opened Common
  import opened KeyCache
  import KeyCacheRuns
  import opened TokenCheck
  import opened Words

  // ----- the Authorization value

  /** The position of the first space, |s| if there is none. */
  function SpaceAt(s: string): (k: nat)
    ensures k <= |s| && (k < |s| ==> s[k] == ' ') && forall i :: 0 <= i < k ==> s[i] != ' '
  {
    if s == [] || s[0] == ' ' then 0 else 1 + SpaceAt(s[1..])
  }

  function Lower(c: char): char { if 'A' <= c <= 'Z' then (c as int + 32) as char else c }

  /** The scheme name, in any mix of cases. */
  predicate IsScheme(s: string) { |s| == 6 && forall i :: 0 <= i < 6 ==> Lower(s[i]) == "bearer"[i] }

  predicate IsToken(s: string) { Trimmed(s) && ' ' !in s && '\t' !in s }

  function ParseBearer(value: string): Option<string> {
    var v := TrimSpace(value);
    var k := SpaceAt(v);
    if k == |v| || !IsScheme(v[..k]) then None
    else
      var token := TrimSpace(v[k + 1..]);
      if token == "" || ' ' in token || '\t' in token then None else Some(token)
  }

  /** One scheme, a space, one token, with any white space around and between. */
  ghost predicate IsBearer(value: string, token: string) {
    IsToken(token)
    && exists a: string, scheme: string, b: string, c: string ::
         Blank(a) && Blank(b) && Blank(c) && IsScheme(scheme)
         && value == a + (scheme + " " + (b + token)) + c
  }

  lemma SchemeHasNoSpace(scheme: string, rest: string)
    requires IsScheme(scheme)
    ensures SpaceAt(scheme + " " + rest) == 6
    ensures !IsSpace(scheme[0])
  {
    var s := scheme + " " + rest;
    forall i | 0 <= i < 6 ensures !IsSpace(scheme[i]) && s[i] == scheme[i] && s[i] != ' ' {
      assert Lower(scheme[i]) == "bearer"[i];
    }
    assert s[6] == ' ';
  }

  /** Any well-formed value reads as its token. */
  lemma BearerReads(a: string, scheme: string, b: string, token: string, c: string)
    requires Blank(a) && Blank(b) && Blank(c) && IsScheme(scheme) && IsToken(token)
    ensures ParseBearer(a + (scheme + " " + (b + token)) + c) == Some(token)
  {
    var v := scheme + " " + (b + token);
    SchemeHasNoSpace(scheme, b + token);
    assert v[0] == scheme[0] && v[|v| - 1] == token[|token| - 1];
    TrimBetween(a, v, c);
    assert v[..6] == scheme && v[7..] == b + token;
    TrimBetween(b, token, "");
    assert b + token + "" == b + token;
  }

  lemma RestSplits(v: string, k: nat) returns (b: string)
    requires Trimmed(v) && k < |v| && v[k] == ' '
    ensures Blank(b) && v == v[..k] + " " + (b + TrimSpace(v[k + 1..]))
  {
    var rest := v[k + 1..];
    var d: string;
    b, d := TrimSplits(rest);
    assert rest != [] ==> rest[|rest| - 1] == v[|v| - 1];
    NoTail(b + TrimSpace(rest), d, rest);
    assert v == v[..k] + " " + rest;
  }

  lemma NoTail(s: string, d: string, rest: string)
    requires rest == s + d && Blank(d) && (rest != [] ==> !IsSpace(rest[|rest| - 1]))
    ensures rest == s
  {}

  /** What is read as a token comes from a well-formed value. */
  lemma BearerSplits(value: string) returns (a: string, scheme: string, b: string, c: string)
    requires ParseBearer(value).Some?
    ensures Blank(a) && Blank(b) && Blank(c) && IsScheme(scheme) && IsToken(ParseBearer(value).value)
    ensures value == a + (scheme + " " + (b + ParseBearer(value).value)) + c
  {
    var v := TrimSpace(value);
    var k := SpaceAt(v);
    a, c := TrimSplits(value);
    scheme := v[..k];
    b := RestSplits(v, k);
    var x, y := TrimSplits(v[k + 1..]);
  }

  /** The parser accepts exactly the well-formed values, and gives their token. */
  lemma BearerValues(value: string, token: string)
    ensures ParseBearer(value) == Some(token) <==> IsBearer(value, token)
  {
    if IsBearer(value, token) {
      var a, scheme, b, c :| Blank(a) && Blank(b) && Blank(c) && IsScheme(scheme)
        && value == a + (scheme + " " + (b + token)) + c;
      BearerReads(a, scheme, b, token, c);
    }
    if ParseBearer(value) == Some(token) {
      var a, scheme, b, c := BearerSplits(value);
    }
  }

  lemma BearerIsScheme()
    ensures IsScheme("Bearer") && IsScheme("bearer") && IsScheme("BEARER")
  {}

  /** The value every client sends: the scheme, one space, the token. */
  lemma PlainBearer(scheme: string, token: string)
    requires IsScheme(scheme) && IsToken(token)
    ensures ParseBearer(scheme + " " + token) == Some(token)
  {
    BearerReads("", scheme, "", token, "");
    assert "" + token == token;
    assert "" + (scheme + " " + token) + "" == scheme + " " + token;
  }

  // ----- the decision

  datatype Denial = MissingToken | MalformedAuthorization | BadToken(code: Code)

  datatype Reply = Served(claims: Option<Claims>) | Denied(denial: Denial)

  const AUTHORIZATION := "Authorization"

  function Values(headers: map<string, seq<string>>): seq<string> {
    if AUTHORIZATION in headers then headers[AUTHORIZATION] else []
  }

  /** What stands around the handler: the policy, token parsing, the key cache
      and the clock. */
  datatype Gate = Gate(cfg: Config, exempt: seq<string>, parse: string -> Token, keys: Kid -> Answer, now: int)

  /** Verification of this token accepts. */
  predicate Good(g: Gate, token: string) {
    var tok := g.parse(token);
    Accepts(g.cfg, tok, g.keys(tok.kid), g.now)
  }

  /** The first check this token fails carries the code. */
  ghost predicate Fails(g: Gate, token: string, code: Code) {
    var tok := g.parse(token);
    DeniedWith(Checks(g.cfg, tok, g.keys(tok.kid), g.now), code)
  }

  /** What is handed on are the claims of this token. */
  ghost predicate Identified(g: Gate, token: string, claims: Option<Claims>) {
    claims.Some? && AreClaimsOf(claims.value, g.parse(token)) && claims.value.issuer == g.cfg.issuer
  }

  /** What the token's own terms say of it. */
  ghost predicate Judged(g: Gate, token: string, denied: Option<Code>) {
    var tok := g.parse(token);
    Means(g.cfg, tok, g.keys(tok.kid), g.now, denied)
  }

  /** The reply is what the token's own terms call for. */
  ghost predicate FollowsJudgement(g: Gate, token: string, reply: Reply) {
    match reply
    case Served(_) => Judged(g, token, None)
    case Denied(BadToken(code)) => Judged(g, token, Some(code))
    case _ => false
  }

  method IsExempt(clean: string, exempt: seq<string>) returns (ok: bool)
    ensures ok <==> clean in exempt
  {
    for i := 0 to |exempt|
      invariant clean !in exempt[..i]
    {
      if exempt[i] == clean {
        return true;
      }
    }
    ok := false;
  }

  /** Served on a non-exempt path exactly when there is one well-formed Bearer
      value whose token is accepted; otherwise the code says what went wrong first. */
  method Decide(g: Gate, clean: string, values: seq<string>) returns (reply: Reply)
    ensures clean in g.exempt ==> reply == Served(None)
    ensures clean !in g.exempt ==>
              (reply.Served? <==> |values| == 1 && exists token :: IsBearer(values[0], token) && Good(g, token))
    ensures reply.Served? && clean !in g.exempt ==>
              |values| == 1 && exists token :: IsBearer(values[0], token) && Identified(g, token, reply.claims)
    ensures reply == Denied(MissingToken) <==> clean !in g.exempt && values == []
    ensures reply == Denied(MalformedAuthorization) <==>
              clean !in g.exempt && values != [] && !(|values| == 1 && exists token :: IsBearer(values[0], token))
    ensures reply.Denied? && reply.denial.BadToken? ==>
              |values| == 1 && exists token :: IsBearer(values[0], token) && Fails(g, token, reply.denial.code)
    ensures clean !in g.exempt && |values| == 1 ==>
              forall token :: IsBearer(values[0], token) ==> FollowsJudgement(g, token, reply)
  {
    var skip := IsExempt(clean, g.exempt);
    if skip {
      return Served(None);
    }
    if |values| == 0 {
      return Denied(MissingToken);
    }
    if |values| > 1 {
      return Denied(MalformedAuthorization);
    }
    var token := ParseBearer(values[0]);
    OneToken(values[0]);
    if token == None {
      return Denied(MalformedAuthorization);
    }
    var tok := g.parse(token.value);
    var r := VerifyToken(g.cfg, tok, g.keys, g.now);
    match r {
      case Success(claims) =>
        assert Good(g, token.value) && Identified(g, token.value, Some(claims));
        reply := Served(Some(claims));
      case Failure(code) =>
        NotAccepted(g, token.value, code);
        reply := Denied(BadToken(code));
    }
  }

  lemma OneToken(value: string)
    ensures forall token :: IsBearer(value, token) <==> ParseBearer(value) == Some(token)
  {
    forall token ensures IsBearer(value, token) <==> ParseBearer(value) == Some(token) {
      BearerValues(value, token);
    }
  }

  lemma NotAccepted(g: Gate, token: string, code: Code)
    requires Fails(g, token, code)
    ensures !Good(g, token)
  {
    var tok := g.parse(token);
    var checks := Checks(g.cfg, tok, g.keys(tok.kid), g.now);
    var i :| FailsFirst(checks, i) && checks[i].code == code;
  }

  class Request {
    const path: string
    var headers: map<string, seq<string>>

    constructor (path: string, headers: map<string, seq<string>>)
      ensures this.path == path && this.headers == headers
    {
      this.path := path;
      this.headers := headers;
    }
  }

  /** The raw token never reaches the next handler, verified or not; a denied
      request is left as it came. */
  method Handle(g: Gate, clean: string -> string, r: Request) returns (reply: Reply)
    modifies r
    ensures clean(r.path) in g.exempt ==> reply == Served(None)
    ensures clean(r.path) !in g.exempt ==>
              var values := if "Authorization" in old(r.headers) then old(r.headers)["Authorization"] else [];
              (reply.Served? <==> |values| == 1 && exists token :: IsBearer(values[0], token) && Good(g, token))
              && (reply.Served? ==> exists token :: IsBearer(values[0], token) && Identified(g, token, reply.claims))
    ensures reply.Served? ==> r.headers == old(r.headers) - {"Authorization"}
    ensures reply.Denied? ==> r.headers == old(r.headers)
  {
    reply := Decide(g, clean(r.path), Values(r.headers));
    if reply.Served? {
      r.headers := r.headers - {AUTHORIZATION};
    }
  }

  // ----- with the key cache

  /** Whatever the interleaving of key-cache callers, an accepted token is signed
      under a key that a completed fetch delivered for its key ID. */
  lemma AcceptedUnderFetchedKey(m: int, tr: seq<KeyCacheRuns.Sys>, acts: seq<KeyCacheRuns.Action>, k: nat, i: nat,
      cfg: Config, tok: Token, now: int)
    requires KeyCacheRuns.IsRun(m, tr, acts) && k < |tr|
    requires i in tr[k].callers && tr[k].callers[i].Returned? && tr[k].callers[i].kid == tok.kid
    requires Accepts(cfg, tok, tr[k].callers[i].answer, now)
    ensures exists j, key :: 0 <= j < |tr[k].completed| && KeyCacheRuns.Delivers(tr[k].completed[j], tok.kid, key)
                             && tok.signed(tok.alg, key)
  {
    var c := tr[k].callers[i];
    AcceptingTimes(cfg, tok, c.answer, now);
    assert KeyChecks(tok, c.answer)[6].holds;
    KeyCacheRuns.AnswersAreJustified(m, tr, acts, k, i);
    var j :| 0 <= j < c.seen && KeyCacheRuns.Delivers(tr[k].completed[j], c.kid, c.answer.key);
    assert KeyCacheRuns.Delivers(tr[k].completed[j], tok.kid, c.answer.key);
  }
}
