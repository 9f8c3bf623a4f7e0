/** The tool registry: which tools a model is offered and which it may run. */
module Registry {
  import opened Common
  import opened Text

  datatype Tool = Tool(name: string, description: string, parameters: string)

  predicate SortedByName(defs: seq<Tool>) {
    forall i, j :: 0 <= i < j < |defs| ==> Less(defs[i].name, defs[j].name)
  }

  /** The tools a map holds, as a listing: every one once, in name order. */
  ghost predicate Lists(defs: seq<Tool>, tools: map<string, Tool>) {
    SortedByName(defs) && forall t :: t in defs <==> t.name in tools && tools[t.name] == t
  }

  /** A listing does not depend on the order a map was traversed in. */
  lemma {:induction false} ListingIsUnique(a: seq<Tool>, b: seq<Tool>)
    requires SortedByName(a) && SortedByName(b) && (forall t :: t in a <==> t in b)
    ensures a == b
  {
    assert a != [] ==> a[0] in b;
    assert b != [] ==> b[0] in a;
    if a != [] {
      FirstIsLeast(a, b[0]);
      FirstIsLeast(b, a[0]);
      LessTotal(a[0].name, b[0].name);
      forall t ensures t in a[1..] <==> t in b[1..] {
        NotRepeated(a, t);
        NotRepeated(b, t);
      }
      ListingIsUnique(a[1..], b[1..]);
      assert a == [a[0]] + a[1..] && b == [b[0]] + b[1..];
    }
  }

  lemma FirstIsLeast(s: seq<Tool>, t: Tool)
    requires SortedByName(s) && t in s
    ensures t == s[0] || Less(s[0].name, t.name)
  {}

  lemma NotRepeated(s: seq<Tool>, t: Tool)
    requires SortedByName(s) && s != []
    ensures t in s[1..] <==> t in s && t != s[0]
  {
    if t in s[1..] {
      var i :| 0 <= i < |s[1..]| && s[1..][i] == t;
      assert s[i + 1] == t;
      LessTotal(s[0].name, t.name);
    }
    if t in s && t != s[0] {
      var i :| 0 <= i < |s| && s[i] == t;
      assert s[1..][i - 1] == t;
    }
  }

  /** Puts one definition in its place among sorted ones. */
  method Insert(defs: seq<Tool>, t: Tool) returns (r: seq<Tool>)
    requires SortedByName(defs) && forall d :: d in defs ==> d.name != t.name
    ensures SortedByName(r) && forall d :: d in r <==> d in defs || d == t
  {
    var i := 0;
    while i < |defs| && Less(defs[i].name, t.name)
      invariant 0 <= i <= |defs|
      invariant forall k :: 0 <= k < i ==> Less(defs[k].name, t.name)
    {
      i := i + 1;
    }
    AboveInserted(defs, t, i);
    r := defs[..i] + [t] + defs[i..];
    InsertedKeepsAll(defs, t, i);
  }

  lemma AboveInserted(defs: seq<Tool>, t: Tool, i: nat)
    requires SortedByName(defs) && (forall d :: d in defs ==> d.name != t.name) && i <= |defs|
    requires i < |defs| ==> !Less(defs[i].name, t.name)
    ensures forall k :: i <= k < |defs| ==> Less(t.name, defs[k].name)
  {
    forall k | i <= k < |defs| ensures Less(t.name, defs[k].name) {
      assert defs[i] in defs;
      LessTotal(defs[i].name, t.name);
      if k > i {
        LessTransitive(t.name, defs[i].name, defs[k].name);
      }
    }
  }

  lemma InsertedKeepsAll(defs: seq<Tool>, t: Tool, i: nat)
    requires i <= |defs|
    ensures forall d :: d in defs[..i] + [t] + defs[i..] <==> d in defs || d == t
  {
    assert defs == defs[..i] + defs[i..];
  }

  /** Sorting by name; which algorithm sorts does not matter, as the result is unique. */
  method SortByName(defs: seq<Tool>) returns (r: seq<Tool>)
    requires forall i, j :: 0 <= i < j < |defs| ==> defs[i].name != defs[j].name
    ensures SortedByName(r) && forall d :: d in r <==> d in defs
  {
    r := [];
    for i := 0 to |defs|
      invariant SortedByName(r)
      invariant forall d :: d in r <==> d in defs[..i]
    {
      r := Insert(r, defs[i]);
    }
  }

  class Registry {
    var tools: map<string, Tool>
    var alwaysAllowed: map<string, bool>
    var allowedFilter: Option<map<string, bool>>

    /** Tools are held under their own names. */
    ghost predicate Valid()
      reads this
    {
      forall name :: name in tools ==> tools[name].name == name
    }

    predicate Allowed(name: string)
      reads this
    {
      || allowedFilter == None
      || (name in allowedFilter.value && allowedFilter.value[name])
      || (name in alwaysAllowed && alwaysAllowed[name])
    }

    /** The tools that may be run, by name. */
    ghost function Offered(): map<string, Tool>
      reads this
    {
      map name | name in tools && Allowed(name) :: tools[name]
    }

    /** An empty list of names means no filter at all. */
    constructor (allowedTools: seq<string>)
      ensures Valid() && tools == map[]
      ensures forall name :: Allowed(name) <==> allowedTools == [] || name in allowedTools
    {
      var filter: map<string, bool> := map[];
      for i := 0 to |allowedTools|
        invariant forall name :: name in filter <==> name in allowedTools[..i]
        invariant forall name :: name in filter ==> filter[name]
      {
        filter := filter[allowedTools[i] := true];
      }
      tools := map[];
      alwaysAllowed := map[];
      allowedFilter := if |allowedTools| > 0 then Some(filter) else None;
    }

    /** Only the tool of that name changes, and what is allowed does not. */
    method Register(t: Tool)
      requires Valid()
      modifies this
      ensures Valid() && alwaysAllowed == old(alwaysAllowed) && allowedFilter == old(allowedFilter)
      ensures tools == old(tools)[t.name := t]
      ensures Offered() == if old(Allowed(t.name)) then old(Offered())[t.name := t] else old(Offered())
    {
      tools := tools[t.name := t];
    }

    /** The tool is offered whatever the filter says; others are not affected. */
    method RegisterAlwaysAllowed(t: Tool)
      requires Valid()
      modifies this
      ensures Valid() && allowedFilter == old(allowedFilter)
      ensures tools == old(tools)[t.name := t]
      ensures Offered() == old(Offered())[t.name := t]
    {
      tools := tools[t.name := t];
      alwaysAllowed := alwaysAllowed[t.name := true];
    }

    method Get(name: string) returns (t: Option<Tool>)
      ensures t == if name in Offered() then Some(Offered()[name]) else None
    {
      if name !in tools {
        return None;
      }
      if !Allowed(name) {
        return None;
      }
      t := Some(tools[name]);
    }

    /** Exactly the tools that Get would give, each once, in name order. */
    method Definitions() returns (defs: seq<Tool>)
      requires Valid()
      ensures Lists(defs, Offered())
    {
      defs := [];
      var todo := tools.Keys;
      while todo != {}
        invariant todo <= tools.Keys
        invariant forall i, j :: 0 <= i < j < |defs| ==> defs[i].name != defs[j].name
        invariant forall t :: t in defs <==> t.name in Offered() && t.name !in todo && Offered()[t.name] == t
        decreases todo
      {
        var name :| name in todo;
        todo := todo - {name};
        if Allowed(name) {
          defs := defs + [tools[name]];
        }
      }
      defs := SortByName(defs);
    }
  }
}
