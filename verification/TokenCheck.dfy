/** Token verification: an ordered list of checks of which the first failure
    decides the deny code. */
module TokenCheck {
  import opened Common
  import opened KeyCache
  import opened Words

  datatype Code =
    | InvalidToken
    | UnsupportedAlgorithm
    | JwksUnavailable
    | TokenExpired
    | TokenNotYetValid
    | InvalidIssuer
    | InvalidAudience
    | InsufficientScope
    | CallerNotAllowed

  /** A claim that may hold one string or a list; entries of other types are None. */
  datatype Claim = NoClaim | Single(s: string) | Many(entries: seq<Option<string>>)

  /** What the libraries read from a token. `signed` says under which algorithm
      and key it parses; a header field or issuer that is missing or of another
      type reads as the empty string. */
  datatype Token = Token(
    segments: nat, header: bool, alg: string, kid: string, signed: (string, Key) -> bool,
    exp: Option<int>, nbf: Option<int>, iat: Option<int>, issuer: string, audience: seq<string>,
    scope: Claim, scp: Claim, azp: Claim, clientId: Claim, payload: bool, subject: string)

  datatype Claims = Claims(subject: string, issuer: string, audience: seq<string>, azp: string, scopes: seq<string>,
    expiry: int)

  datatype Config = Config(
    issuer: string, audience: string, requiredScopes: seq<string>, allowedCallers: seq<string>, skew: int)

  // ----- scopes and callers

  function Strings(entries: seq<Option<string>>): seq<string> {
    if entries == [] then []
    else
      var last := entries[|entries| - 1];
      Strings(entries[..|entries| - 1]) + if last.Some? then [last.value] else []
  }

  method CollectStrings(entries: seq<Option<string>>) returns (out: seq<string>)
    ensures out == Strings(entries)
  {
    out := [];
    for i := 0 to |entries|
      invariant out == Strings(entries[..i])
    {
      assert entries[..i + 1][..i] == entries[..i];
      if entries[i].Some? {
        out := out + [entries[i].value];
      }
    }
    assert entries[..|entries|] == entries;
  }

  /** Scopes of the `scope` claim, then those of `scp`. */
  function TokenScopes(tok: Token): seq<string> {
    (if tok.scope.Single? then Fields(tok.scope.s) else [])
    + match tok.scp
      case NoClaim => []
      case Single(s) => Fields(s)
      case Many(entries) => Strings(entries)
  }

  method CollectScopes(tok: Token) returns (out: seq<string>)
    ensures out == TokenScopes(tok)
  {
    out := [];
    if tok.scope.Single? {
      out := Fields(tok.scope.s);
    }
    match tok.scp {
      case Single(s) => out := out + Fields(s);
      case NoClaim => assert out + [] == out;
      case Many(entries) =>
        var list := CollectStrings(entries);
        out := out + list;
    }
  }

  function TokenCaller(tok: Token): string {
    if tok.azp.Single? && tok.azp.s != "" then tok.azp.s
    else if tok.clientId.Single? then tok.clientId.s
    else ""
  }

  /** An entry ending in a slash stands for every caller below it. */
  predicate EntryAllows(entry: string, caller: string) {
    if entry != [] && entry[|entry| - 1] == '/' then entry <= caller else caller == entry
  }

  method CallerAllowed(caller: string, allowed: seq<string>) returns (ok: bool)
    ensures ok <==> caller != "" && exists entry :: entry in allowed && EntryAllows(entry, caller)
  {
    if caller == "" {
      return false;
    }
    for i := 0 to |allowed|
      invariant forall k :: 0 <= k < i ==> !EntryAllows(allowed[k], caller)
    {
      if EntryAllows(allowed[i], caller) {
        return true;
      }
    }
    ok := false;
  }

  predicate SharesOne(have: seq<string>, want: seq<string>) { exists s :: s in have && s in want }

  method ContainsAny(have: seq<string>, want: seq<string>) returns (any: bool)
    ensures any == SharesOne(have, want)
  {
    for i := 0 to |want|
      invariant forall k :: 0 <= k < i ==> want[k] !in have
    {
      if want[i] in have {
        return true;
      }
    }
    any := false;
  }

  // ----- the checks

  datatype Check = Check(holds: bool, code: Code)

  predicate Within(bound: Option<int>, limit: int) { bound == None || bound.value <= limit }

  function KeyChecks(tok: Token, answer: Answer): seq<Check> {
    [ Check(tok.segments == 3, InvalidToken),
      Check(tok.header, InvalidToken),
      Check(tok.alg == "ES256" || tok.alg == "RS256", UnsupportedAlgorithm),
      Check(tok.kid != "", InvalidToken),
      Check(answer != Unavailable, JwksUnavailable),
      Check(answer.Found?, InvalidToken),
      Check(answer.Found? && tok.signed(tok.alg, answer.key), InvalidToken) ]
  }

  function TimeChecks(cfg: Config, tok: Token, now: int): seq<Check> {
    [ Check(tok.exp.Some?, InvalidToken),
      Check(tok.exp.Some? && now <= tok.exp.value + cfg.skew, TokenExpired),
      Check(Within(tok.nbf, now + cfg.skew), TokenNotYetValid),
      Check(Within(tok.iat, now + cfg.skew), TokenNotYetValid) ]
  }

  function PolicyChecks(cfg: Config, tok: Token): seq<Check> {
    [ Check(tok.issuer == cfg.issuer, InvalidIssuer),
      Check(cfg.audience in tok.audience, InvalidAudience),
      Check(HasScope(cfg, tok), InsufficientScope),
      Check(HasCaller(cfg, tok), CallerNotAllowed),
      Check(tok.payload, InvalidToken) ]
  }

  /** The documented order: algorithm, key, signature, time, issuer, audience,
      scope, caller. */
  function Checks(cfg: Config, tok: Token, answer: Answer, now: int): seq<Check> {
    KeyChecks(tok, answer) + (TimeChecks(cfg, tok, now) + PolicyChecks(cfg, tok))
  }

  /** An empty requirement asks for nothing. */
  predicate HasScope(cfg: Config, tok: Token) {
    cfg.requiredScopes == [] || SharesOne(TokenScopes(tok), cfg.requiredScopes)
  }

  predicate HasCaller(cfg: Config, tok: Token) {
    cfg.allowedCallers == [] || Permitted(TokenCaller(tok), cfg.allowedCallers)
  }

  predicate Permitted(caller: string, allowed: seq<string>) {
    caller != "" && exists entry :: entry in allowed && EntryAllows(entry, caller)
  }

  predicate AllHold(checks: seq<Check>) { forall i :: 0 <= i < |checks| ==> checks[i].holds }

  ghost predicate FailsFirst(checks: seq<Check>, i: int) {
    0 <= i < |checks| && !checks[i].holds && forall j :: 0 <= j < i ==> checks[j].holds
  }

  /** Some check fails, and the first that does carries this code. */
  ghost predicate DeniedWith(checks: seq<Check>, code: Code) {
    exists i :: FailsFirst(checks, i) && checks[i].code == code
  }

  /** What checks decide: all hold and there is no code, or the first that fails
      gives it. */
  ghost predicate Decides(checks: seq<Check>, denied: Option<Code>) {
    if denied == None then AllHold(checks) else DeniedWith(checks, denied.value)
  }

  /** Checks in a row decide as one list does. */
  lemma InARow(a: seq<Check>, b: seq<Check>, denied: Option<Code>)
    requires if AllHold(a) then Decides(b, denied) else denied.Some? && Decides(a, denied)
    ensures Decides(a + b, denied)
  {
    var all := a + b;
    if AllHold(a) {
      if denied.Some? {
        var i :| FailsFirst(b, i) && b[i].code == denied.value;
        assert FailsFirst(all, |a| + i);
      }
    } else {
      var i :| FailsFirst(a, i) && a[i].code == denied.value;
      assert FailsFirst(all, i);
    }
  }

  /** A list decides one way only. */
  lemma DecisionIsUnique(checks: seq<Check>, a: Option<Code>, b: Option<Code>)
    requires Decides(checks, a) && Decides(checks, b)
    ensures a == b
  {
    if a.Some? && b.Some? {
      var i :| FailsFirst(checks, i) && checks[i].code == a.value;
      var j :| FailsFirst(checks, j) && checks[j].code == b.value;
      assert !(i < j) && !(j < i);
    }
  }

  method VerifyKey(tok: Token, keys: Kid -> Answer) returns (denied: Option<Code>)
    ensures Decides(KeyChecks(tok, keys(tok.kid)), denied)
  {
    ghost var checks := KeyChecks(tok, keys(tok.kid));
    if tok.segments != 3 {
      assert FailsFirst(checks, 0);
      return Some(InvalidToken);
    }
    if !tok.header {
      assert FailsFirst(checks, 1);
      return Some(InvalidToken);
    }
    if tok.alg != "ES256" && tok.alg != "RS256" {
      assert FailsFirst(checks, 2);
      return Some(UnsupportedAlgorithm);
    }
    if tok.kid == "" {
      assert FailsFirst(checks, 3);
      return Some(InvalidToken);
    }
    match keys(tok.kid) {
      case Unavailable =>
        assert FailsFirst(checks, 4);
        return Some(JwksUnavailable);
      case UnknownKid =>
        assert FailsFirst(checks, 5);
        return Some(InvalidToken);
      case Found(key) =>
        if !tok.signed(tok.alg, key) {
          assert FailsFirst(checks, 6);
          return Some(InvalidToken);
        }
    }
    denied := None;
  }

  method VerifyTimes(cfg: Config, tok: Token, now: int) returns (denied: Option<Code>)
    ensures Decides(TimeChecks(cfg, tok, now), denied)
  {
    ghost var checks := TimeChecks(cfg, tok, now);
    if tok.exp == None {
      assert FailsFirst(checks, 0);
      return Some(InvalidToken);
    }
    if now > tok.exp.value + cfg.skew {
      assert FailsFirst(checks, 1);
      return Some(TokenExpired);
    }
    if tok.nbf.Some? && tok.nbf.value > now + cfg.skew {
      assert FailsFirst(checks, 2);
      return Some(TokenNotYetValid);
    }
    if tok.iat.Some? && tok.iat.value > now + cfg.skew {
      assert FailsFirst(checks, 3);
      return Some(TokenNotYetValid);
    }
    denied := None;
  }

  method CheckScope(cfg: Config, tok: Token) returns (ok: bool)
    ensures ok == HasScope(cfg, tok)
  {
    if |cfg.requiredScopes| == 0 {
      return true;
    }
    var scopes := CollectScopes(tok);
    ok := ContainsAny(scopes, cfg.requiredScopes);
  }

  method CheckCaller(cfg: Config, tok: Token) returns (ok: bool)
    ensures ok == HasCaller(cfg, tok)
  {
    if |cfg.allowedCallers| == 0 {
      return true;
    }
    ok := CallerAllowed(TokenCaller(tok), cfg.allowedCallers);
  }

  method VerifyPolicy(cfg: Config, tok: Token) returns (denied: Option<Code>)
    ensures Decides(PolicyChecks(cfg, tok), denied)
  {
    ghost var checks := PolicyChecks(cfg, tok);
    if tok.issuer != cfg.issuer {
      assert FailsFirst(checks, 0);
      return Some(InvalidIssuer);
    }
    if cfg.audience !in tok.audience {
      assert FailsFirst(checks, 1);
      return Some(InvalidAudience);
    }
    var scoped := CheckScope(cfg, tok);
    if !scoped {
      assert FailsFirst(checks, 2);
      return Some(InsufficientScope);
    }
    var allowed := CheckCaller(cfg, tok);
    if !allowed {
      assert FailsFirst(checks, 3);
      return Some(CallerNotAllowed);
    }
    if !tok.payload {
      assert FailsFirst(checks, 4);
      return Some(InvalidToken);
    }
    denied := None;
  }

  /** The identity handed on is the token's own. */
  predicate AreClaimsOf(claims: Claims, tok: Token) {
    && claims.subject == tok.subject && claims.issuer == tok.issuer && claims.audience == tok.audience
    && claims.azp == TokenCaller(tok) && claims.scopes == TokenScopes(tok) && tok.exp == Some(claims.expiry)
  }

  /** Accepted exactly when every check holds, otherwise denied with the code of
      the first that fails; the claims are those of the token. */
  method VerifyToken(cfg: Config, tok: Token, keys: Kid -> Answer, now: int) returns (r: Result<Claims, Code>)
    ensures Decides(Checks(cfg, tok, keys(tok.kid), now), if r.Success? then None else Some(r.error))
    ensures Means(cfg, tok, keys(tok.kid), now, if r.Success? then None else Some(r.error))
    ensures r.Success? ==> AreClaimsOf(r.value, tok) && r.value.issuer == cfg.issuer
    ensures r.Success? ==>
              && (forall caller :: NamesCaller(tok, caller) ==> r.value.azp == caller)
              && (forall s :: s in r.value.scopes <==> Grants(tok, s))
  {
    ghost var answer := keys(tok.kid);
    forall denied | Decides(Checks(cfg, tok, answer, now), denied) ensures Means(cfg, tok, answer, now, denied) {
      DecisionMeans(cfg, tok, answer, now, denied);
    }
    ScopeCheckMeans(cfg, tok);
    CallerSpelledOut(cfg, tok);
    ghost var key, time, policy := KeyChecks(tok, keys(tok.kid)), TimeChecks(cfg, tok, now), PolicyChecks(cfg, tok);
    var denied := VerifyKey(tok, keys);
    if denied.Some? {
      InARow(key, time + policy, denied);
      return Failure(denied.value);
    }
    denied := VerifyTimes(cfg, tok, now);
    if denied.Some? {
      InARow(time, policy, denied);
      InARow(key, time + policy, denied);
      return Failure(denied.value);
    }
    denied := VerifyPolicy(cfg, tok);
    InARow(time, policy, denied);
    InARow(key, time + policy, denied);
    if denied.Some? {
      return Failure(denied.value);
    }
    assert time[0].holds && policy[0].holds;
    var scopes := CollectScopes(tok);
    r := Success(Claims(tok.subject, tok.issuer, tok.audience, TokenCaller(tok), scopes, tok.exp.value));
  }

  /** The claim names the scope: as a maximal stretch of its text without white
      space, or as an entry of its list. */
  ghost predicate Names(claim: Claim, list: bool, s: string) {
    match claim
    case NoClaim => false
    case Single(text) => HasRun(text, s)
    case Many(entries) => list && Some(s) in entries
  }

  /** A token grants a scope that its `scope` text, its `scp` text or its `scp`
      list names; a `scope` list is not read. */
  ghost predicate Grants(tok: Token, s: string) { Names(tok.scope, false, s) || Names(tok.scp, true, s) }

  /** For every form of the two claims, the scope check holds exactly when nothing
      is required or a required scope is granted. */
  lemma ScopeCheckMeans(cfg: Config, tok: Token)
    ensures forall s :: s in TokenScopes(tok) <==> Grants(tok, s)
    ensures HasScope(cfg, tok) <==>
              cfg.requiredScopes == [] || exists s :: s in cfg.requiredScopes && Grants(tok, s)
  {
    forall s ensures s in TokenScopes(tok) <==> Grants(tok, s) {
      ScopeIsGranted(tok, s);
    }
  }

  lemma ScopeIsGranted(tok: Token, s: string)
    ensures s in TokenScopes(tok) <==> Grants(tok, s)
  {
    if tok.scope.Single? {
      FieldsAreRuns(tok.scope.s, s);
    }
    match tok.scp {
      case Single(text) => FieldsAreRuns(text, s);
      case Many(entries) => StringsOfList(entries, s);
      case NoClaim =>
    }
  }

  /** A list claim gives its string entries and nothing else. */
  lemma {:induction false} StringsOfList(entries: seq<Option<string>>, s: string)
    ensures s in Strings(entries) <==> Some(s) in entries
  {
    if entries != [] {
      StringsOfList(entries[..|entries| - 1], s);
      assert entries == entries[..|entries| - 1] + [entries[|entries| - 1]];
    }
  }

  /** Order is kept: a list of entries gives the strings of its parts in turn. */
  lemma {:induction false} StringsInOrder(a: seq<Option<string>>, b: seq<Option<string>>)
    ensures Strings(a + b) == Strings(a) + Strings(b)
  {
    if b == [] {
      assert a + b == a && Strings(a) + [] == Strings(a);
    } else {
      var n := |b| - 1;
      StringsInOrder(a, b[..n]);
      assert (a + b)[..|a| + n] == a + b[..n];
      Regroup(Strings(a), Strings(b[..n]), if b[n].Some? then [b[n].value] else []);
    }
  }

  // ----- the decision in the token's own terms

  /** The caller a token names: a non-empty `azp`, or else `client_id`. */
  ghost predicate NamesCaller(tok: Token, caller: string) {
    || (tok.azp == Single(caller) && caller != "")
    || ((!tok.azp.Single? || tok.azp == Single("")) && tok.clientId == Single(caller) && caller != "")
  }

  ghost predicate AllowsCaller(entry: string, caller: string) {
    entry == caller || (entry != "" && entry[|entry| - 1] == '/' && entry <= caller)
  }

  ghost predicate RightKey(tok: Token, answer: Answer) {
    && tok.segments == 3 && tok.header && tok.alg in {"ES256", "RS256"} && tok.kid != ""
    && answer.Found? && tok.signed(tok.alg, answer.key)
  }

  ghost predicate RightTime(cfg: Config, tok: Token, now: int) {
    && tok.exp.Some? && now - cfg.skew <= tok.exp.value
    && (tok.nbf.Some? ==> tok.nbf.value - cfg.skew <= now)
    && (tok.iat.Some? ==> tok.iat.value - cfg.skew <= now)
  }

  ghost predicate RightScope(cfg: Config, tok: Token) {
    cfg.requiredScopes == [] || exists s :: s in cfg.requiredScopes && Grants(tok, s)
  }

  ghost predicate RightCaller(cfg: Config, tok: Token) {
    cfg.allowedCallers == [] ||
    exists caller, entry :: NamesCaller(tok, caller) && entry in cfg.allowedCallers && AllowsCaller(entry, caller)
  }

  ghost predicate RightParties(cfg: Config, tok: Token) {
    tok.issuer == cfg.issuer && cfg.audience in tok.audience && RightScope(cfg, tok) && RightCaller(cfg, tok)
  }

  lemma CallerSpelledOut(cfg: Config, tok: Token)
    ensures HasCaller(cfg, tok) <==> RightCaller(cfg, tok)
    ensures forall caller :: NamesCaller(tok, caller) <==> caller != "" && caller == TokenCaller(tok)
  {
    var caller := TokenCaller(tok);
    forall entry ensures caller != "" ==> (EntryAllows(entry, caller) <==> AllowsCaller(entry, caller)) {}
  }

  /** What a decision means: the condition of acceptance, and of each code. */
  ghost predicate Means(cfg: Config, tok: Token, answer: Answer, now: int, denied: Option<Code>) {
    var readable := tok.segments == 3 && tok.header;
    var signed, timely := RightKey(tok, answer), RightTime(cfg, tok, now);
    && (denied == None <==> signed && timely && RightParties(cfg, tok) && tok.payload)
    && (denied == Some(UnsupportedAlgorithm) <==> readable && tok.alg !in {"ES256", "RS256"})
    && (denied == Some(JwksUnavailable) <==>
          readable && tok.alg in {"ES256", "RS256"} && tok.kid != "" && answer == Unavailable)
    && (denied == Some(TokenExpired) <==> signed && tok.exp.Some? && tok.exp.value < now - cfg.skew)
    && (denied == Some(TokenNotYetValid) <==>
          signed && tok.exp.Some? && now - cfg.skew <= tok.exp.value && !timely)
    && (denied == Some(InvalidIssuer) <==> signed && timely && tok.issuer != cfg.issuer)
    && (denied == Some(InvalidAudience) <==>
          signed && timely && tok.issuer == cfg.issuer && cfg.audience !in tok.audience)
    && (denied == Some(InsufficientScope) <==>
          signed && timely && tok.issuer == cfg.issuer && cfg.audience in tok.audience && !RightScope(cfg, tok))
    && (denied == Some(CallerNotAllowed) <==>
          && signed && timely && tok.issuer == cfg.issuer && cfg.audience in tok.audience
          && RightScope(cfg, tok) && !RightCaller(cfg, tok))
  }

  lemma PartsSpelledOut(cfg: Config, tok: Token, answer: Answer, now: int)
    ensures AllHold(KeyChecks(tok, answer)) <==> RightKey(tok, answer)
    ensures AllHold(TimeChecks(cfg, tok, now)) <==> RightTime(cfg, tok, now)
    ensures AllHold(PolicyChecks(cfg, tok)) <==> RightParties(cfg, tok) && tok.payload
    ensures HasScope(cfg, tok) <==> RightScope(cfg, tok)
  {
    var key, time, policy := KeyChecks(tok, answer), TimeChecks(cfg, tok, now), PolicyChecks(cfg, tok);
    ScopeCheckMeans(cfg, tok);
    CallerSpelledOut(cfg, tok);
    assert AllHold(key) ==>
        key[0].holds && key[1].holds && key[2].holds && key[3].holds && key[5].holds && key[6].holds;
    assert AllHold(time) ==> time[0].holds && time[1].holds && time[2].holds && time[3].holds;
    assert AllHold(policy) ==>
        policy[0].holds && policy[1].holds && policy[2].holds && policy[3].holds && policy[4].holds;
  }

  lemma FirstPart(a: seq<Check>, b: seq<Check>, denied: Option<Code>)
    requires Decides(a + b, denied)
    ensures if AllHold(a) then Decides(b, denied) else denied.Some? && Decides(a, denied)
  {
    var all := a + b;
    AllOfBoth(a, b);
    if denied.Some? {
      var i :| FailsFirst(all, i) && all[i].code == denied.value;
      forall j | 0 <= j < |a| ensures all[j] == a[j] {}
      forall j | 0 <= j < |b| ensures all[|a| + j] == b[j] {}
      if i < |a| {
        assert FailsFirst(a, i);
      } else {
        assert FailsFirst(b, i - |a|);
      }
    }
  }

  lemma KeyFails(tok: Token, answer: Answer, denied: Option<Code>)
    requires Decides(KeyChecks(tok, answer), denied) && denied.Some?
    ensures var known := tok.segments == 3 && tok.header && tok.alg in {"ES256", "RS256"};
            denied == Some(
              if tok.segments == 3 && tok.header && !known then UnsupportedAlgorithm
              else if known && tok.kid != "" && answer == Unavailable then JwksUnavailable
              else InvalidToken)
  {
    var checks := KeyChecks(tok, answer);
    var i :| FailsFirst(checks, i) && checks[i].code == denied.value;
    assert i > 0 ==> checks[0].holds;
    assert i > 1 ==> checks[1].holds;
    assert i > 2 ==> checks[2].holds;
    assert i > 3 ==> checks[3].holds;
    assert i > 4 ==> checks[4].holds;
    assert i > 5 ==> checks[5].holds;
  }

  lemma TimesFail(cfg: Config, tok: Token, now: int, denied: Option<Code>)
    requires Decides(TimeChecks(cfg, tok, now), denied) && denied.Some?
    ensures denied == Some(
              if tok.exp == None then InvalidToken
              else if tok.exp.value < now - cfg.skew then TokenExpired
              else TokenNotYetValid)
  {
    var checks := TimeChecks(cfg, tok, now);
    var i :| FailsFirst(checks, i) && checks[i].code == denied.value;
    assert i > 0 ==> checks[0].holds;
    assert i > 1 ==> checks[1].holds;
  }

  lemma PolicyFails(cfg: Config, tok: Token, denied: Option<Code>)
    requires Decides(PolicyChecks(cfg, tok), denied) && denied.Some?
    ensures denied == Some(
              if tok.issuer != cfg.issuer then InvalidIssuer
              else if cfg.audience !in tok.audience then InvalidAudience
              else if !HasScope(cfg, tok) then InsufficientScope
              else if !HasCaller(cfg, tok) then CallerNotAllowed
              else InvalidToken)
  {
    var checks := PolicyChecks(cfg, tok);
    var i :| FailsFirst(checks, i) && checks[i].code == denied.value;
    assert i > 0 ==> checks[0].holds;
    assert i > 1 ==> checks[1].holds;
    assert i > 2 ==> checks[2].holds;
    assert i > 3 ==> checks[3].holds;
  }

  /** The list of checks decides as the conditions say. */
  lemma DecisionMeans(cfg: Config, tok: Token, answer: Answer, now: int, denied: Option<Code>)
    requires Decides(Checks(cfg, tok, answer, now), denied)
    ensures Means(cfg, tok, answer, now, denied)
  {
    var key, time, policy := KeyChecks(tok, answer), TimeChecks(cfg, tok, now), PolicyChecks(cfg, tok);
    PartsSpelledOut(cfg, tok, answer, now);
    CallerSpelledOut(cfg, tok);
    FirstPart(key, time + policy, denied);
    if !AllHold(key) {
      KeyFails(tok, answer, denied);
    } else {
      FirstPart(time, policy, denied);
      if !AllHold(time) {
        TimesFail(cfg, tok, now, denied);
      } else if denied.Some? {
        PolicyFails(cfg, tok, denied);
      }
    }
  }

  // ----- time

  predicate Accepts(cfg: Config, tok: Token, answer: Answer, now: int) {
    AllHold(Checks(cfg, tok, answer, now))
  }

  /** What does not depend on the clock. */
  predicate Sound(cfg: Config, tok: Token, answer: Answer) {
    AllHold(KeyChecks(tok, answer)) && AllHold(PolicyChecks(cfg, tok))
  }

  /** The first moment from which the token may be used, if it names one. */
  function Start(tok: Token): Option<int> {
    match (tok.nbf, tok.iat)
    case (None, iat) => iat
    case (nbf, None) => nbf
    case (Some(a), Some(b)) => Some(Max(a, b))
  }

  /** For a fixed token and key the accepting times are one interval, from
      max(nbf, iat) - skew to exp + skew, both ends included. */
  lemma AcceptingTimes(cfg: Config, tok: Token, answer: Answer, now: int)
    ensures Accepts(cfg, tok, answer, now) <==>
              && Sound(cfg, tok, answer)
              && tok.exp.Some? && now <= tok.exp.value + cfg.skew
              && (Start(tok).Some? ==> Start(tok).value - cfg.skew <= now)
  {
    var key, time, policy := KeyChecks(tok, answer), TimeChecks(cfg, tok, now), PolicyChecks(cfg, tok);
    AllOfBoth(time, policy);
    AllOfBoth(key, time + policy);
    assert AllHold(time) ==> time[0].holds && time[1].holds && time[2].holds && time[3].holds;
  }

  lemma AllOfBoth(a: seq<Check>, b: seq<Check>)
    ensures AllHold(a + b) <==> AllHold(a) && AllHold(b)
  {
    var all := a + b;
    forall i | 0 <= i < |a| ensures all[i] == a[i] {}
    forall i | 0 <= i < |b| ensures all[|a| + i] == b[i] {}
  }

  /** Widening the skew only widens the interval. */
  lemma SkewWidens(cfg: Config, wider: int, tok: Token, answer: Answer, now: int)
    requires cfg.skew <= wider && Accepts(cfg, tok, answer, now)
    ensures Accepts(cfg.(skew := wider), tok, answer, now)
  {
    AcceptingTimes(cfg, tok, answer, now);
    AcceptingTimes(cfg.(skew := wider), tok, answer, now);
  }
}
