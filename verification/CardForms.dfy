/** The payload forms an agent-card signature may cover, and what trying
    several of them can and cannot change. Values are parsed JSON. */
module CardForms {
  import opened Common

  /** A parsed value: unlike a document it has no order of members, and numbers
      may be fractional. */
  datatype Value =
    | Null
    | Bool(b: bool)
    | Num(n: real)
    | Str(s: string)
    | Arr(elems: seq<Value>)
    | Obj(fields: map<string, Value>)

  type Card = map<string, Value>

  const CAPABILITIES := "capabilities"

  const REQUIRED: set<string> := {
    "name", "description", "version", CAPABILITIES, "skills", "supportedInterfaces",
    "defaultInputModes", "defaultOutputModes"}

  /** Null, the empty string, the empty array and the empty object. */
  predicate ZeroCollection(v: Value) {
    match v
    case Null => true
    case Str(s) => s == ""
    case Arr(elems) => |elems| == 0
    case Obj(fields) => |fields| == 0
    case _ => false
  }

  /** Additionally false and zero. */
  predicate ZeroJson(v: Value) {
    match v
    case Bool(b) => !b
    case Num(n) => n == 0.0
    case _ => ZeroCollection(v)
  }

  /** Which values a stripping pass removes. */
  datatype Pass = Collections | Defaults

  predicate Zero(p: Pass, v: Value) { if p.Collections? then ZeroCollection(v) else ZeroJson(v) }

  function WithoutZeros(p: Pass, fields: map<string, Value>): map<string, Value> {
    map k | k in fields && !Zero(p, fields[k]) :: fields[k]
  }

  /** A capabilities object loses its zero entries; any other value is left alone. */
  function StripCapabilities(p: Pass, v: Value): Value {
    if v.Obj? then Obj(WithoutZeros(p, v.fields)) else v
  }

  /** Zero values go, except required properties, which stay even when empty. */
  function Stripped(p: Pass, raw: Card): Card {
    map k | k in raw && (k in REQUIRED || !Zero(p, raw[k])) ::
      if k == CAPABILITIES then StripCapabilities(p, raw[k]) else raw[k]
  }

  function WithoutEmptyRequired(raw: Card): Card {
    map k | k in raw && !(k in REQUIRED && ZeroJson(raw[k])) :: raw[k]
  }

  /** The most stripped form. */
  function Normal(raw: Card): Card { WithoutEmptyRequired(Stripped(Defaults, raw)) }

  /** The card without its signatures. */
  function Unsigned(served: Card): Card { served - {"signatures"} }

  /** The four forms, in the order they are tried. */
  function Forms(raw: Card): seq<Card> {
    [raw, Stripped(Collections, raw), Stripped(Defaults, raw), Normal(raw)]
  }

  /** The payload of the k-th form. */
  function Payload<B>(served: Card, canonical: Card -> B, k: nat): B
    requires k < 4
  {
    canonical(Forms(Unsigned(served))[k])
  }

  // ----- the loops

  method DropZeros(p: Pass, fields: map<string, Value>) returns (kept: map<string, Value>)
    ensures kept == WithoutZeros(p, fields)
  {
    kept := fields;
    var todo := fields.Keys;
    while todo != {}
      invariant todo <= kept.Keys <= fields.Keys
      invariant forall k :: k in kept ==> kept[k] == fields[k]
      invariant forall k :: k in fields && k !in todo ==> (k in kept <==> !Zero(p, fields[k]))
      decreases todo
    {
      var k :| k in todo;
      todo := todo - {k};
      if Zero(p, fields[k]) {
        kept := kept - {k};
      }
    }
  }

  method StripValues(raw: Card, p: Pass) returns (out: Card)
    ensures out == Stripped(p, raw)
  {
    out := map[];
    var todo := raw.Keys;
    while todo != {}
      invariant todo <= raw.Keys
      invariant forall k :: k in out <==> k in raw && k !in todo && (k in REQUIRED || !Zero(p, raw[k]))
      invariant forall k :: k in out ==> out[k] == raw[k]
      decreases todo
    {
      var k :| k in todo;
      todo := todo - {k};
      if k in REQUIRED || !Zero(p, raw[k]) {
        out := out[k := raw[k]];
      }
    }
    if CAPABILITIES in out && out[CAPABILITIES].Obj? {
      var caps := DropZeros(p, out[CAPABILITIES].fields);
      out := out[CAPABILITIES := Obj(caps)];
    }
  }

  method DropEmptyRequired(raw: Card) returns (out: Card)
    ensures out == WithoutEmptyRequired(raw)
  {
    out := map[];
    var todo := raw.Keys;
    while todo != {}
      invariant todo <= raw.Keys
      invariant forall k :: k in out <==> k in raw && k !in todo && !(k in REQUIRED && ZeroJson(raw[k]))
      invariant forall k :: k in out ==> out[k] == raw[k]
      decreases todo
    {
      var k :| k in todo;
      todo := todo - {k};
      if !(k in REQUIRED && ZeroJson(raw[k])) {
        out := out[k := raw[k]];
      }
    }
  }

  /** The distinct canonical payloads of the four forms. */
  method CardPayloads<B(==)>(served: Card, canonical: Card -> B) returns (candidates: seq<B>)
    ensures forall b :: b in candidates <==> exists k :: 0 <= k < 4 && b == Payload(served, canonical, k)
    ensures forall i, j :: 0 <= i < j < |candidates| ==> candidates[i] != candidates[j]
  {
    var raw := served - {"signatures"};
    var second := StripValues(raw, Collections);
    var third := StripValues(raw, Defaults);
    var fourth := DropEmptyRequired(third);
    var forms := [raw, second, third, fourth];
    assert raw == Unsigned(served);
    assert forms == Forms(Unsigned(served));
    candidates := [];
    for i := 0 to 4
      invariant forall b :: b in candidates <==> exists k :: 0 <= k < i && b == Payload(served, canonical, k)
      invariant forall m, n :: 0 <= m < n < |candidates| ==> candidates[m] != candidates[n]
    {
      var payload := canonical(forms[i]);
      assert payload == Payload(served, canonical, i);
      if payload !in candidates {
        candidates := candidates + [payload];
      }
    }
  }

  // ----- default values

  predicate IsEmpty(v: Value) { v == Null || v == Str("") || v == Arr([]) || v == Obj(map[]) }

  predicate IsDefault(v: Value) { IsEmpty(v) || v == Bool(false) || v == Num(0.0) }

  /** The tests of the stripping passes pick out exactly these six values. */
  lemma ZeroValues(v: Value)
    ensures ZeroCollection(v) <==> v == Null || v == Str("") || v == Arr([]) || v == Obj(map[])
    ensures ZeroJson(v) <==>
              v == Null || v == Bool(false) || v == Num(0.0) || v == Str("") || v == Arr([]) || v == Obj(map[])
  {}

  lemma ZerosAreDefaults()
    ensures forall v :: ZeroCollection(v) <==> IsEmpty(v)
    ensures forall v :: ZeroJson(v) <==> IsDefault(v)
  {
    forall v ensures (ZeroCollection(v) <==> IsEmpty(v)) && (ZeroJson(v) <==> IsDefault(v)) {
      ZeroValues(v);
    }
  }

  /** The object without its empty values, or without its default ones. */
  ghost predicate IsStripOf(out: map<string, Value>, fields: map<string, Value>, defaults: bool) {
    && (forall k :: k in out ==> k in fields && out[k] == fields[k])
    && (forall k :: k in fields ==> (k in out <==> !(if defaults then IsDefault(fields[k]) else IsEmpty(fields[k]))))
  }

  /** What one form of a card holds: the eight required properties and whatever
      is not empty, or not a default; a capabilities object is stripped likewise. */
  ghost predicate IsForm(form: Card, raw: Card, defaults: bool) {
    HoldsProperties(form, raw, defaults) && HoldsCapabilities(form, raw, defaults)
  }

  ghost predicate HoldsProperties(form: Card, raw: Card, defaults: bool) {
    && (forall k :: k in form ==> k in raw)
    && (forall k :: k in raw ==>
          (k in form <==>
             || k == "name" || k == "description" || k == "version" || k == "capabilities" || k == "skills"
             || k == "supportedInterfaces" || k == "defaultInputModes" || k == "defaultOutputModes"
             || !(if defaults then IsDefault(raw[k]) else IsEmpty(raw[k]))))
    && (forall k :: k in form && k != "capabilities" ==> form[k] == raw[k])
  }

  ghost predicate HoldsCapabilities(form: Card, raw: Card, defaults: bool) {
    "capabilities" in form ==>
      && "capabilities" in raw
      && var (caps, was) := (form["capabilities"], raw["capabilities"]);
         if was.Obj? then caps.Obj? && IsStripOf(caps.fields, was.fields, defaults) else caps == was
  }

  /** The four forms in the card's own terms: as served without its signatures,
      without empty values, without defaults, and without empty required ones. */
  lemma FormsSpelledOut(served: Card)
    ensures var (raw, forms) := (Unsigned(served), Forms(Unsigned(served)));
            && (forall k :: k in raw <==> k in served && k != "signatures")
            && (forall k :: k in raw ==> raw[k] == served[k])
            && |forms| == 4 && forms[0] == raw && IsForm(forms[1], raw, false) && IsForm(forms[2], raw, true)
            && (forall k :: k in forms[3] <==> k in forms[2] && !IsDefault(forms[2][k]))
            && (forall k :: k in forms[3] ==> forms[3][k] == forms[2][k])
  {
    FormIs(Unsigned(served), Collections);
    FormIs(Unsigned(served), Defaults);
    WithoutEmptyIs(Unsigned(served));
  }

  lemma WithoutEmptyIs(raw: Card)
    ensures forall k :: k in Normal(raw) <==> k in Stripped(Defaults, raw) && !IsDefault(Stripped(Defaults, raw)[k])
    ensures forall k :: k in Normal(raw) ==> Normal(raw)[k] == Stripped(Defaults, raw)[k]
  {
    ZerosAreDefaults();
  }

  lemma FormIs(raw: Card, p: Pass)
    ensures IsForm(Stripped(p, raw), raw, p.Defaults?)
  {
    FormHoldsProperties(raw, p);
    FormHoldsCapabilities(raw, p);
  }

  lemma FormHoldsProperties(raw: Card, p: Pass)
    ensures HoldsProperties(Stripped(p, raw), raw, p.Defaults?)
  {
    ZerosAreDefaults();
  }

  lemma FormHoldsCapabilities(raw: Card, p: Pass)
    ensures HoldsCapabilities(Stripped(p, raw), raw, p.Defaults?)
  {
    ZerosAreDefaults();
  }

  // ----- normal forms

  /** The property survives every stripping pass. */
  predicate Kept(raw: Card, k: string) { k in raw && !IsDefault(raw[k]) && !IsDefault(StripCapabilitiesAt(raw, k)) }

  function StripCapabilitiesAt(raw: Card, k: string): Value
    requires k in raw
  {
    if k == CAPABILITIES then StripCapabilities(Defaults, raw[k]) else raw[k]
  }

  lemma NoZerosLeft(fields: map<string, Value>)
    ensures WithoutZeros(Defaults, WithoutZeros(Defaults, fields)) == WithoutZeros(Defaults, fields)
    ensures WithoutZeros(Defaults, WithoutZeros(Collections, fields)) == WithoutZeros(Defaults, fields)
  {}

  lemma EmptyHasNoFields(fields: map<string, Value>)
    ensures |fields| == 0 <==> fields == map[]
  {}

  /** What a card keeps in its normal form. */
  lemma NormalKeeps(raw: Card, k: string)
    ensures k in Normal(raw) <==> Kept(raw, k)
    ensures k in Normal(raw) ==> Normal(raw)[k] == StripCapabilitiesAt(raw, k)
  {
    ZerosAreDefaults();
    if k in raw && k == CAPABILITIES && raw[k].Obj? {
      EmptyHasNoFields(raw[k].fields);
      assert raw[k].fields == map[] ==> WithoutZeros(Defaults, raw[k].fields) == map[];
    }
  }

  /** Stripping less first does not change the normal form. */
  lemma NormalOfStripped(p: Pass, raw: Card)
    ensures Normal(Stripped(p, raw)) == Normal(raw)
  {
    ZerosAreDefaults();
    var s := Stripped(p, raw);
    forall k ensures (k in Normal(s) <==> k in Normal(raw)) && (k in Normal(s) ==> Normal(s)[k] == Normal(raw)[k]) {
      NormalKeeps(raw, k);
      NormalKeeps(s, k);
      if k in raw && raw[k].Obj? {
        NoZerosLeft(raw[k].fields);
        EmptyHasNoFields(raw[k].fields);
        EmptyHasNoFields(WithoutZeros(p, raw[k].fields));
        EmptyHasNoFields(WithoutZeros(Defaults, raw[k].fields));
      }
    }
    assert Normal(s).Keys == Normal(raw).Keys;
  }

  lemma NormalIsIdempotent(raw: Card)
    ensures Normal(Normal(raw)) == Normal(raw)
  {
    var n := Normal(raw);
    forall k ensures (k in Normal(n) <==> k in n) && (k in n ==> Normal(n)[k] == n[k]) {
      NormalKeeps(raw, k);
      NormalKeeps(n, k);
      if k in raw && raw[k].Obj? {
        NoZerosLeft(raw[k].fields);
      }
    }
    assert Normal(n).Keys == n.Keys;
  }

  /** All four forms have the normal form of the served card. */
  lemma FormsShareNormal(raw: Card, k: nat)
    requires k < 4
    ensures Normal(Forms(raw)[k]) == Normal(raw)
  {
    NormalOfStripped(Collections, raw);
    NormalOfStripped(Defaults, raw);
    NormalIsIdempotent(raw);
  }

  // ----- what a verified signature binds

  ghost predicate Injective<B(!new)>(canonical: Card -> B) {
    forall a, b :: canonical(a) == canonical(b) ==> a == b
  }

  /** The two cards carry the same non-default properties, at top level and
      inside capabilities. */
  ghost predicate AgreeBeyondDefaults(a: Card, b: Card) {
    && (forall k :: k != CAPABILITIES ==>
          ((k in a && !IsDefault(a[k])) <==> (k in b && !IsDefault(b[k])))
          && (k in a && k in b && !IsDefault(a[k]) ==> a[k] == b[k]))
    && (forall k :: HasCapability(a, k) <==> HasCapability(b, k))
    && (forall k :: HasCapability(a, k) && HasCapability(b, k) ==>
          a[CAPABILITIES].fields[k] == b[CAPABILITIES].fields[k])
    && (OddCapabilities(a) || OddCapabilities(b) ==>
          CAPABILITIES in a && CAPABILITIES in b && a[CAPABILITIES] == b[CAPABILITIES])
  }

  predicate HasCapability(c: Card, k: string) {
    CAPABILITIES in c && c[CAPABILITIES].Obj? && k in c[CAPABILITIES].fields && !IsDefault(c[CAPABILITIES].fields[k])
  }

  /** A capabilities property that is not an object and not a default value. */
  predicate OddCapabilities(c: Card) {
    CAPABILITIES in c && !c[CAPABILITIES].Obj? && !IsDefault(c[CAPABILITIES])
  }

  lemma CapabilitiesOfNormal(c: Card)
    ensures forall k :: HasCapability(c, k) <==>
              CAPABILITIES in Normal(c) && Normal(c)[CAPABILITIES].Obj? && k in Normal(c)[CAPABILITIES].fields
    ensures forall k :: HasCapability(c, k) ==> Normal(c)[CAPABILITIES].fields[k] == c[CAPABILITIES].fields[k]
    ensures OddCapabilities(c) <==> CAPABILITIES in Normal(c) && !Normal(c)[CAPABILITIES].Obj?
    ensures OddCapabilities(c) ==> Normal(c)[CAPABILITIES] == c[CAPABILITIES]
  {
    ZerosAreDefaults();
    NormalKeeps(c, CAPABILITIES);
    if CAPABILITIES in c && c[CAPABILITIES].Obj? {
      var fields := c[CAPABILITIES].fields;
      EmptyHasNoFields(fields);
      EmptyHasNoFields(WithoutZeros(Defaults, fields));
      assert forall k :: HasCapability(c, k) <==> k in WithoutZeros(Defaults, fields);
    }
  }

  lemma SameNormalAgree(a: Card, b: Card)
    requires Normal(a) == Normal(b)
    ensures AgreeBeyondDefaults(a, b)
  {
    ZerosAreDefaults();
    forall k | k != CAPABILITIES
      ensures ((k in a && !IsDefault(a[k])) <==> (k in b && !IsDefault(b[k])))
              && (k in a && k in b && !IsDefault(a[k]) ==> a[k] == b[k])
    {
      NormalKeeps(a, k);
      NormalKeeps(b, k);
    }
    CapabilitiesOfNormal(a);
    CapabilitiesOfNormal(b);
  }

  /** The capabilities a normal form keeps. */
  function Capabilities(c: Card): map<string, Value> {
    if CAPABILITIES in c && c[CAPABILITIES].Obj? then WithoutZeros(Defaults, c[CAPABILITIES].fields) else map[]
  }

  lemma NormalCapabilities(c: Card)
    ensures forall k :: k in Capabilities(c) <==> HasCapability(c, k)
    ensures !OddCapabilities(c) ==>
              (CAPABILITIES in Normal(c) <==> Capabilities(c) != map[])
              && (CAPABILITIES in Normal(c) ==> Normal(c)[CAPABILITIES] == Obj(Capabilities(c)))
  {
    ZerosAreDefaults();
    NormalKeeps(c, CAPABILITIES);
    if CAPABILITIES in c && c[CAPABILITIES].Obj? {
      EmptyHasNoFields(c[CAPABILITIES].fields);
      EmptyHasNoFields(Capabilities(c));
    }
  }

  lemma SameCapabilities(a: Card, b: Card)
    requires AgreeBeyondDefaults(a, b)
    ensures Capabilities(a) == Capabilities(b) && (OddCapabilities(a) <==> OddCapabilities(b))
  {
    NormalCapabilities(a);
    NormalCapabilities(b);
    forall k | k in Capabilities(a) ensures Capabilities(a)[k] == Capabilities(b)[k] {
      assert HasCapability(a, k) && HasCapability(b, k);
    }
    assert Capabilities(a).Keys == Capabilities(b).Keys;
  }

  lemma AgreeKeepsCapabilities(a: Card, b: Card)
    requires AgreeBeyondDefaults(a, b) && CAPABILITIES in Normal(a)
    ensures CAPABILITIES in Normal(b) && Normal(a)[CAPABILITIES] == Normal(b)[CAPABILITIES]
  {
    SameCapabilities(a, b);
    if OddCapabilities(a) {
      CapabilitiesOfNormal(a);
      CapabilitiesOfNormal(b);
    } else {
      NormalCapabilities(a);
      NormalCapabilities(b);
    }
  }

  lemma AgreementIsSymmetric(a: Card, b: Card)
    requires AgreeBeyondDefaults(a, b)
    ensures AgreeBeyondDefaults(b, a)
  {}

  /** What a normal form binds: exactly the non-default properties, at top level
      and inside capabilities. */
  lemma SameNormalIffAgree(a: Card, b: Card)
    ensures Normal(a) == Normal(b) <==> AgreeBeyondDefaults(a, b)
  {
    if Normal(a) == Normal(b) {
      SameNormalAgree(a, b);
    }
    if AgreeBeyondDefaults(a, b) {
      AgreementIsSymmetric(a, b);
      forall k ensures (k in Normal(a) <==> k in Normal(b)) && (k in Normal(a) ==> Normal(a)[k] == Normal(b)[k]) {
        AgreeAt(a, b, k);
      }
      assert Normal(a).Keys == Normal(b).Keys;
    }
  }

  lemma AgreeAt(a: Card, b: Card, k: string)
    requires AgreeBeyondDefaults(a, b) && AgreeBeyondDefaults(b, a)
    ensures (k in Normal(a) <==> k in Normal(b)) && (k in Normal(a) ==> Normal(a)[k] == Normal(b)[k])
  {
    NormalKeeps(a, k);
    NormalKeeps(b, k);
    if k == CAPABILITIES {
      if k in Normal(a) {
        AgreeKeepsCapabilities(a, b);
      }
      if k in Normal(b) {
        AgreeKeepsCapabilities(b, a);
      }
    }
  }

  /** Trying several forms binds every non-default property: whatever object was
      signed, if its payload is among the candidates of the served card, the two
      agree on all of them. */
  lemma SignedAgreesWithServed<B(!new)>(signed: Card, served: Card, canonical: Card -> B, k: nat)
    requires Injective(canonical) && k < 4
    requires canonical(signed) == Payload(served, canonical, k)
    ensures Normal(signed) == Normal(Unsigned(served))
    ensures AgreeBeyondDefaults(signed, Unsigned(served))
  {
    FormsShareNormal(Unsigned(served), k);
    SameNormalAgree(signed, Unsigned(served));
  }

  /** What the card says under a name: nothing when it is absent or a default. */
  function Said(c: Card, k: string): Option<Value> { if k in c && !IsDefault(c[k]) then Some(c[k]) else None }

  /** So nothing that matters can be added, changed or removed: a card that says
      something else than what was signed, under any name, has another payload in
      each of its forms. */
  lemma TamperedIsRefused<B(!new)>(signed: Card, served: Card, canonical: Card -> B, name: string, k: nat)
    requires Injective(canonical) && k < 4 && name != "capabilities" && name != "signatures"
    requires Said(signed, name) != Said(served, name)
    ensures canonical(signed) != Payload(served, canonical, k)
  {
    if canonical(signed) == Payload(served, canonical, k) {
      SignedAgreesWithServed(signed, served, canonical, k);
    }
  }

  /** What the card says of a capability. */
  function SaidOf(c: Card, f: string): Option<Value> {
    if "capabilities" in c && c["capabilities"].Obj? then Said(c["capabilities"].fields, f) else None
  }

  lemma CapabilitySaid(c: Card, f: string)
    ensures SaidOf(c, f) == if HasCapability(c, f) then Some(c[CAPABILITIES].fields[f]) else None
  {}

  /** Nor can a capability. */
  lemma TamperedCapabilityIsRefused<B(!new)>(signed: Card, served: Card, canonical: Card -> B, f: string, k: nat)
    requires Injective(canonical) && k < 4 && SaidOf(signed, f) != SaidOf(served, f)
    ensures canonical(signed) != Payload(served, canonical, k)
  {
    if canonical(signed) == Payload(served, canonical, k) {
      SignedAgreesWithServed(signed, served, canonical, k);
      CapabilitySaid(signed, f);
      CapabilitySaid(Unsigned(served), f);
    }
  }

  /** For a card signed in normal form, acceptance is exactly agreement of
      normal forms: defaults added by the server, required or not, never matter. */
  lemma NormalCardAccepted(signed: Card, raw: Card)
    requires Normal(signed) == signed
    ensures signed in Forms(raw) <==> Normal(raw) == signed
  {
    if signed in Forms(raw) {
      var k :| 0 <= k < 4 && Forms(raw)[k] == signed;
      FormsShareNormal(raw, k);
    }
    assert Forms(raw)[3] == Normal(raw);
  }

  /** The exact extent of the binding: a card signed in normal form is accepted
      for those served cards that agree with it beyond defaults, and no others. */
  lemma BoundExactly(signed: Card, raw: Card)
    requires Normal(signed) == signed
    ensures signed in Forms(raw) <==> AgreeBeyondDefaults(signed, raw)
  {
    NormalCardAccepted(signed, raw);
    SameNormalIffAgree(signed, raw);
  }

  /** A card re-served with default-valued optional properties added, at top
      level or inside capabilities, still yields a default-stripped signed card. */
  lemma ReServedWithDefaults(signed: Card, raw: Card)
    requires Stripped(Defaults, signed) == signed
    requires forall k :: k in signed ==> k in raw && (k != CAPABILITIES ==> raw[k] == signed[k])
    requires forall k :: k in raw && k !in signed ==> k !in REQUIRED && IsDefault(raw[k])
    requires CAPABILITIES in signed ==> ReServedCapabilities(signed[CAPABILITIES], raw[CAPABILITIES])
    ensures Forms(raw)[2] == signed
  {
    ZerosAreDefaults();
    var s := Stripped(Defaults, raw);
    forall k ensures (k in s <==> k in signed) && (k in s ==> s[k] == signed[k]) {
      assert k in signed ==> k in Stripped(Defaults, signed);
      if k == CAPABILITIES && k in signed && signed[k].Obj? {
        assert Stripped(Defaults, signed)[k] == Obj(WithoutZeros(Defaults, signed[k].fields));
        assert WithoutZeros(Defaults, raw[k].fields) == WithoutZeros(Defaults, signed[k].fields);
      }
    }
    assert s.Keys == signed.Keys;
  }

  ghost predicate ReServedCapabilities(signed: Value, served: Value) {
    if signed.Obj? && served.Obj? then
      && (forall k :: k in signed.fields ==> k in served.fields && served.fields[k] == signed.fields[k])
      && (forall k :: k in served.fields && k !in signed.fields ==> IsDefault(served.fields[k]))
    else signed == served
  }

  /** Defaults themselves are not bound: an explicit false capability and its
      absence are covered by one signature. */
  lemma DefaultsAreNotBound(raw: Card, k: string)
    requires CAPABILITIES in raw && raw[CAPABILITIES].Obj? && k !in raw[CAPABILITIES].fields
    ensures var other := raw[CAPABILITIES := Obj(raw[CAPABILITIES].fields[k := Bool(false)])];
            other != raw && Normal(raw) in Forms(raw) && Normal(raw) in Forms(other)
  {
    ZerosAreDefaults();
    var fields := raw[CAPABILITIES].fields;
    var more := fields[k := Bool(false)];
    var other := raw[CAPABILITIES := Obj(more)];
    assert WithoutZeros(Defaults, more) == WithoutZeros(Defaults, fields);
    assert Stripped(Defaults, other) == Stripped(Defaults, raw);
    assert other[CAPABILITIES] != raw[CAPABILITIES];
    assert Forms(raw)[3] == Normal(raw) && Forms(other)[3] == Normal(raw);
  }

  // ----- the verdict over the signature list

  /** What one signature entry turns out to be. */
  datatype SignatureKind = Malformed | Verifies | Mismatch

  datatype Verdict = Ok | FormatInvalid | SignatureInvalid

  /** One good signature is enough; a list of only malformed entries is a format
      error; everything else, the empty list included, is a signature error. */
  function VerdictOf(kinds: set<SignatureKind>): Verdict {
    if Verifies in kinds then Ok
    else if kinds == {Malformed} then FormatInvalid
    else SignatureInvalid
  }

  function KindOf<S, B(==)>(sig: S, wellFormed: S -> bool, verifies: (S, B) -> bool, payloads: seq<B>): SignatureKind {
    if !wellFormed(sig) then Malformed
    else if exists b :: b in payloads && verifies(sig, b) then Verifies
    else Mismatch
  }

  function Kinds<S(==), B(==)>(sigs: seq<S>, wellFormed: S -> bool, verifies: (S, B) -> bool, payloads: seq<B>)
      : set<SignatureKind>
  {
    set s | s in sigs :: KindOf(s, wellFormed, verifies, payloads)
  }

  method VerifySignature<S, B(==)>(sig: S, wellFormed: S -> bool, verifies: (S, B) -> bool, payloads: seq<B>)
      returns (kind: SignatureKind)
    ensures kind == KindOf(sig, wellFormed, verifies, payloads)
  {
    if !wellFormed(sig) {
      return Malformed;
    }
    for i := 0 to |payloads|
      invariant forall k :: 0 <= k < i ==> !verifies(sig, payloads[k])
    {
      if verifies(sig, payloads[i]) {
        return Verifies;
      }
    }
    kind := Mismatch;
  }

  method VerifyCard<S(==), B(==)>(sigs: seq<S>, wellFormed: S -> bool, verifies: (S, B) -> bool, payloads: seq<B>)
      returns (verdict: Verdict)
    ensures verdict == VerdictOf(Kinds(sigs, wellFormed, verifies, payloads))
  {
    var sawFormatErr, sawMismatch := false, false;
    for i := 0 to |sigs|
      invariant Verifies !in Kinds(sigs[..i], wellFormed, verifies, payloads)
      invariant sawFormatErr <==> Malformed in Kinds(sigs[..i], wellFormed, verifies, payloads)
      invariant sawMismatch <==> Mismatch in Kinds(sigs[..i], wellFormed, verifies, payloads)
    {
      assert sigs[..i + 1] == sigs[..i] + [sigs[i]];
      var kind := VerifySignature(sigs[i], wellFormed, verifies, payloads);
      match kind {
        case Malformed => sawFormatErr := true;
        case Verifies =>
          assert sigs[i] in sigs;
          return Ok;
        case Mismatch => sawMismatch := true;
      }
    }
    assert sigs[..|sigs|] == sigs;
    if |sigs| == 0 {
      return SignatureInvalid;
    }
    if sawFormatErr && !sawMismatch {
      assert Kinds(sigs, wellFormed, verifies, payloads) == {Malformed};
      return FormatInvalid;
    }
    verdict := SignatureInvalid;
  }

  /** Acceptance, spelled out: a well-formed entry that verifies over one of the
      four forms; a format error exactly when there are entries and none is well formed. */
  method VerifyServed<S(==), B(==)>(served: Card, sigs: seq<S>, canonical: Card -> B,
      wellFormed: S -> bool, verifies: (S, B) -> bool) returns (verdict: Verdict)
    ensures verdict == Ok <==>
      exists s, k :: s in sigs && wellFormed(s) && 0 <= k < 4
                     && verifies(s, Payload(served, canonical, k))
    ensures verdict == FormatInvalid <==> sigs != [] && forall s :: s in sigs ==> !wellFormed(s)
  {
    var payloads := CardPayloads(served, canonical);
    verdict := VerifyCard(sigs, wellFormed, verifies, payloads);
    KindsSpelledOut(sigs, wellFormed, verifies, payloads);
    if verdict == Ok {
      ghost var s, b :| s in sigs && wellFormed(s) && b in payloads && verifies(s, b);
    }
    assert forall k :: 0 <= k < 4 ==> Payload(served, canonical, k) in payloads;
  }

  lemma KindsSpelledOut<S, B>(sigs: seq<S>, wellFormed: S -> bool, verifies: (S, B) -> bool, payloads: seq<B>)
    ensures var v := VerdictOf(Kinds(sigs, wellFormed, verifies, payloads));
            && (v == Ok <==> exists s, b :: s in sigs && wellFormed(s) && b in payloads && verifies(s, b))
            && (v == FormatInvalid <==> sigs != [] && forall s :: s in sigs ==> !wellFormed(s))
  {
    var kinds := Kinds(sigs, wellFormed, verifies, payloads);
    forall s | s in sigs ensures KindOf(s, wellFormed, verifies, payloads) in kinds {}
    if sigs != [] {
      assert sigs[0] in sigs;
      if forall s :: s in sigs ==> !wellFormed(s) {
        assert kinds == {Malformed};
      }
    }
    if exists s, b :: s in sigs && wellFormed(s) && b in payloads && verifies(s, b) {
      var s, b :| s in sigs && wellFormed(s) && b in payloads && verifies(s, b);
      assert KindOf(s, wellFormed, verifies, payloads) == Verifies;
    }
  }

  /** End to end: when the verifier is sound for a set of signed cards, an accepted
      card agrees with one of them on every non-default property. */
  lemma AcceptedAgreesWithSigned<S, B(!new)>(served: Card, s: S, k: nat, canonical: Card -> B,
      verifies: (S, B) -> bool, signed: set<Card>)
    requires Injective(canonical) && k < 4
    requires forall b :: verifies(s, b) ==> exists c :: c in signed && canonical(c) == b
    requires verifies(s, Payload(served, canonical, k))
    ensures exists c :: c in signed && AgreeBeyondDefaults(c, Unsigned(served))
  {
    var c :| c in signed && canonical(c) == Payload(served, canonical, k);
    SignedAgreesWithServed(c, served, canonical, k);
  }

  /** The verdict does not depend on the order of the signatures, nor on repetitions. */
  lemma OrderIsIrrelevant<S, B>(a: seq<S>, b: seq<S>, wellFormed: S -> bool, verifies: (S, B) -> bool, payloads: seq<B>)
    requires forall s :: s in a <==> s in b
    ensures VerdictOf(Kinds(a, wellFormed, verifies, payloads)) == VerdictOf(Kinds(b, wellFormed, verifies, payloads))
  {
    assert Kinds(a, wellFormed, verifies, payloads) == Kinds(b, wellFormed, verifies, payloads);
  }
}
