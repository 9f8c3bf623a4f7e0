/** Loading the workspace files of a profile within two rune budgets. */
module ContextLoader {
  import opened Common
  import opened Utf8
  import opened Truncation

  datatype Section = Section(name: Bytes, content: Bytes)

  /** The workspace: what reading a file gives, and the trimming of its text. */
  datatype Workspace = Workspace(read: Bytes -> Option<Bytes>, trim: Bytes -> Bytes) {
    /** The trimmed text of a readable, non-blank file. */
    function Text(name: Bytes): Option<Bytes> {
      match read(name)
      case None => None
      case Some(data) => if trim(data) == [] then None else Some(trim(data))
    }

    method ReadText(name: Bytes) returns (text: Option<Bytes>)
      ensures text == Text(name)
    {
      var data := read(name);
      if data == None || trim(data.value) == [] {
        return None;
      }
      text := Some(trim(data.value));
    }
  }

  /** A file loads when it can be read and is not blank; its text is then trimmed. */
  lemma TextIs(w: Workspace, name: Bytes)
    ensures w.Text(name).Some? <==> w.read(name).Some? && w.trim(w.read(name).value) != []
    ensures w.Text(name).Some? ==> w.Text(name).value == w.trim(w.read(name).value)
  {}

  function Cut(s: Bytes, n: int): Bytes { s[..StepsLength(s, n)] }

  function Total(sections: seq<Section>): nat {
    if sections == [] then 0 else RuneCount(sections[0].content) + Total(sections[1..])
  }

  /** What a budget buys from position `k` on: files in profile order, each cut
      once, to the smaller of the file limit and what is left. */
  function Sections(w: Workspace, profile: seq<Bytes>, k: nat, perFile: nat, budget: int): seq<Section>
    requires k <= |profile|
    decreases |profile| - k
  {
    if k == |profile| || budget <= 0 then []
    else
      match w.Text(profile[k])
      case None => Sections(w, profile, k + 1, perFile, budget)
      case Some(text) =>
        var content := Cut(text, Min(perFile, budget));
        [Section(profile[k], content)] + Sections(w, profile, k + 1, perFile, budget - RuneCount(content))
  }

  lemma {:induction false} TotalOfAppend(sections: seq<Section>, s: Section)
    ensures Total(sections + [s]) == Total(sections) + RuneCount(s.content)
  {
    if sections == [] {
      assert [s][1..] == [];
      assert sections + [s] == [s];
    } else {
      assert (sections + [s])[1..] == sections[1..] + [s];
      TotalOfAppend(sections[1..], s);
    }
  }

  /** The budget is never overdrawn. */
  lemma {:induction false} BudgetHolds(w: Workspace, profile: seq<Bytes>, k: nat, perFile: nat, budget: nat)
    requires k <= |profile|
    ensures Total(Sections(w, profile, k, perFile, budget)) <= budget
    decreases |profile| - k
  {
    if k < |profile| && budget > 0 {
      match w.Text(profile[k]) {
        case None => BudgetHolds(w, profile, k + 1, perFile, budget);
        case Some(text) =>
          var first := Section(profile[k], Cut(text, Min(perFile, budget)));
          FirstRunes(text, Min(perFile, budget));
          BudgetHolds(w, profile, k + 1, perFile, budget - RuneCount(first.content));
      }
    }
  }

  /** The first `n` runes of the text, or all of them. */
  predicate IsFront(content: Bytes, text: Bytes, n: nat) {
    content <= text && RuneCount(content) == Min(RuneCount(text), n)
  }

  lemma CutIsFront(text: Bytes, n: nat)
    ensures IsFront(Cut(text, n), text, n)
  {
    FirstRunes(text, n);
  }

  lemma TotalOfFront(first: Section, rest: seq<Section>, i: nat)
    requires 0 < i <= |rest| + 1
    ensures Total(([first] + rest)[..i]) == RuneCount(first.content) + Total(rest[..i - 1])
  {
    var front := rest[..i - 1];
    assert ([first] + rest)[..i] == [first] + front;
    assert ([first] + front)[1..] == front;
  }

  /** The section is the front of its file, of exactly the length the limits leave:
      all of it, the file limit, or what the `used` runes before it left. */
  predicate FitsAfter(w: Workspace, perFile: nat, budget: nat, s: Section, used: nat) {
    && w.Text(s.name).Some? && used < budget
    && w.read(s.name).Some? && IsFront(s.content, w.trim(w.read(s.name).value), Min(perFile, budget - used))
  }

  lemma FitsLater(w: Workspace, perFile: nat, budget: nat, spent: nat, s: Section, used: nat)
    requires spent <= budget && FitsAfter(w, perFile, budget - spent, s, used)
    ensures FitsAfter(w, perFile, budget, s, spent + used)
  {
    assert budget - spent - used == budget - (spent + used);
  }

  /** Every section has exactly the length the file limit and the sections before
      it leave. */
  lemma {:induction false} SectionsAreCut(w: Workspace, profile: seq<Bytes>, k: nat, perFile: nat, budget: nat, i: nat)
    requires k <= |profile| && i < |Sections(w, profile, k, perFile, budget)|
    ensures var sections := Sections(w, profile, k, perFile, budget);
            FitsAfter(w, perFile, budget, sections[i], Total(sections[..i]))
    decreases |profile| - k
  {
    match w.Text(profile[k]) {
      case None => SectionsAreCut(w, profile, k + 1, perFile, budget, i);
      case Some(text) =>
        var first := Section(profile[k], Cut(text, Min(perFile, budget)));
        CutIsFront(text, Min(perFile, budget));
        if i > 0 {
          var spent := RuneCount(first.content);
          var rest := Sections(w, profile, k + 1, perFile, budget - spent);
          SectionsAreCut(w, profile, k + 1, perFile, budget - spent, i - 1);
          TotalOfFront(first, rest, i);
          FitsLater(w, perFile, budget, spent, rest[i - 1], Total(rest[..i - 1]));
        }
    }
  }

  /** The positions of the profile that the sections come from. */
  function Places(w: Workspace, profile: seq<Bytes>, k: nat, perFile: nat, budget: int): seq<nat>
    requires k <= |profile|
    decreases |profile| - k
  {
    if k == |profile| || budget <= 0 then []
    else
      match w.Text(profile[k])
      case None => Places(w, profile, k + 1, perFile, budget)
      case Some(text) =>
        [k] + Places(w, profile, k + 1, perFile, budget - RuneCount(Cut(text, Min(perFile, budget))))
  }

  /** The sections come from these positions, `k` or later, each from its own and in order. */
  ghost predicate Placed(profile: seq<Bytes>, k: nat, sections: seq<Section>, at: seq<nat>) {
    && |at| == |sections|
    && (forall i :: 0 <= i < |at| ==> k <= at[i] < |profile| && sections[i].name == profile[at[i]])
    && (forall i, j :: 0 <= i < j < |at| ==> at[i] < at[j])
  }

  lemma PlacedFirst(profile: seq<Bytes>, k: nat, s: Section, sections: seq<Section>, at: seq<nat>)
    requires Placed(profile, k + 1, sections, at) && k < |profile| && s.name == profile[k]
    ensures Placed(profile, k, [s] + sections, [k] + at)
  {}

  lemma {:induction false} InProfileOrder(w: Workspace, profile: seq<Bytes>, k: nat, perFile: nat, budget: int)
    requires k <= |profile|
    ensures Placed(profile, k, Sections(w, profile, k, perFile, budget), Places(w, profile, k, perFile, budget))
    decreases |profile| - k
  {
    if k < |profile| && budget > 0 {
      match w.Text(profile[k]) {
        case None => InProfileOrder(w, profile, k + 1, perFile, budget);
        case Some(text) =>
          var content := Cut(text, Min(perFile, budget));
          var left := budget - RuneCount(content);
          InProfileOrder(w, profile, k + 1, perFile, left);
          PlacedFirst(profile, k, Section(profile[k], content), Sections(w, profile, k + 1, perFile, left),
                      Places(w, profile, k + 1, perFile, left));
      }
    }
  }

  /** What the files before position `j` take of the budget. */
  function TakenBefore(w: Workspace, profile: seq<Bytes>, k: nat, perFile: nat, budget: nat, j: nat): nat
    requires k <= j <= |profile|
  {
    Total(Sections(w, profile[..j], k, perFile, budget))
  }

  lemma FirstTaken(w: Workspace, profile: seq<Bytes>, k: nat, perFile: nat, budget: nat, j: nat, content: Bytes)
    requires k < j <= |profile| && budget > 0 && w.Text(profile[k]).Some?
    requires content == Cut(w.Text(profile[k]).value, Min(perFile, budget)) && RuneCount(content) <= budget
    ensures TakenBefore(w, profile, k, perFile, budget, j) ==
            RuneCount(content) + TakenBefore(w, profile, k + 1, perFile, budget - RuneCount(content), j)
  {
    var rest := Sections(w, profile[..j], k + 1, perFile, budget - RuneCount(content));
    FirstSection(w, profile[..j], k, perFile, budget, content);
    assert ([Section(profile[k], content)] + rest)[1..] == rest;
  }

  /** A position has a section exactly when its file loads and the files before it
      have left something of the budget. */
  lemma {:induction false} NothingMissed(w: Workspace, profile: seq<Bytes>, k: nat, perFile: nat, budget: nat, j: nat)
    requires k <= j < |profile|
    ensures j in Places(w, profile, k, perFile, budget) <==>
            w.Text(profile[j]).Some? && TakenBefore(w, profile, k, perFile, budget, j) < budget
    decreases |profile| - k
  {
    InProfileOrder(w, profile, k + 1, perFile, budget);
    if budget > 0 && w.Text(profile[k]).Some? {
      var text := w.Text(profile[k]).value;
      var content := Cut(text, Min(perFile, budget));
      CutIsFront(text, Min(perFile, budget));
      InProfileOrder(w, profile, k + 1, perFile, budget - RuneCount(content));
      if k < j {
        NothingMissed(w, profile, k + 1, perFile, budget - RuneCount(content), j);
        FirstTaken(w, profile, k, perFile, budget, j, content);
      }
    } else if budget > 0 && k < j {
      NothingMissed(w, profile, k + 1, perFile, budget, j);
    }
  }

  /** The two cuts of the loop are one, and the budget bounds its runes. */
  lemma OneCut(content: Bytes, perFile: nat, remaining: nat)
    ensures var once := if RuneCount(content) > perFile then Cut(content, perFile) else content;
            var count := Min(RuneCount(content), perFile);
            var twice := if count > remaining then Cut(once, remaining) else once;
            twice == Cut(content, Min(perFile, remaining)) && RuneCount(twice) == Min(count, remaining)
  {
    FirstRunes(content, perFile);
    FirstRunes(content, Min(perFile, remaining));
    CutTwice(content, perFile, remaining);
    var once := if RuneCount(content) > perFile then Cut(content, perFile) else content;
    assert content[..|content|] == content;
    assert Cut(content, perFile) == once;
    if Min(RuneCount(content), perFile) <= remaining {
      FirstRunes(once, remaining);
      assert once[..|once|] == once;
    }
  }

  /** The file limit first, then what is left of the total. */
  method CutToBudget(text: Bytes, perFile: nat, remaining: nat) returns (content: Bytes, runeCount: nat)
    ensures content == Cut(text, Min(perFile, remaining)) && runeCount == RuneCount(content) <= remaining
  {
    content, runeCount := text, RuneCount(text);
    OneCut(text, perFile, remaining);
    FirstRunes(text, Min(perFile, remaining));
    if runeCount > perFile {
      content := TruncateRunes(content, perFile);
      runeCount := perFile;
    }
    if runeCount > remaining {
      content := TruncateRunes(content, remaining);
      runeCount := remaining;
    }
  }

  /** The sections so far and what the rest of the budget buys make up the whole. */
  ghost predicate Progress(w: Workspace, profile: seq<Bytes>, perFile: nat, total: nat, k: nat,
      sections: seq<Section>, used: nat)
  {
    && k <= |profile| && used == Total(sections) <= total
    && sections + Sections(w, profile, k, perFile, total - used) == Sections(w, profile, 0, perFile, total)
  }

  lemma SkipFile(w: Workspace, profile: seq<Bytes>, perFile: nat, total: nat, k: nat, sections: seq<Section>, used: nat)
    requires Progress(w, profile, perFile, total, k, sections, used)
    requires k < |profile| && w.Text(profile[k]) == None
    ensures Progress(w, profile, perFile, total, k + 1, sections, used)
  {}

  lemma TakeFile(w: Workspace, profile: seq<Bytes>, perFile: nat, total: nat, k: nat, sections: seq<Section>, used: nat,
      content: Bytes)
    requires Progress(w, profile, perFile, total, k, sections, used)
    requires k < |profile| && used < total && w.Text(profile[k]).Some?
    requires content == Cut(w.Text(profile[k]).value, Min(perFile, total - used)) && RuneCount(content) <= total - used
    ensures Progress(w, profile, perFile, total, k + 1, sections + [Section(profile[k], content)],
                     used + RuneCount(content))
  {
    var s, left, count := Section(profile[k], content), total - used, RuneCount(content);
    TotalOfAppend(sections, s);
    FirstSection(w, profile, k, perFile, left, content);
    assert total - (used + count) == left - count;
    Regroup(sections, [s], Sections(w, profile, k + 1, perFile, left - count));
  }

  lemma FirstSection(w: Workspace, profile: seq<Bytes>, k: nat, perFile: nat, left: nat, content: Bytes)
    requires k < |profile| && left > 0 && w.Text(profile[k]).Some?
    requires content == Cut(w.Text(profile[k]).value, Min(perFile, left))
    ensures Sections(w, profile, k, perFile, left)
            == [Section(profile[k], content)] + Sections(w, profile, k + 1, perFile, left - RuneCount(content))
  {}

  lemma AllTaken(w: Workspace, profile: seq<Bytes>, perFile: nat, total: nat, k: nat, sections: seq<Section>, used: nat)
    requires Progress(w, profile, perFile, total, k, sections, used)
    requires k == |profile| || used == total
    ensures sections == Sections(w, profile, 0, perFile, total)
  {
    assert sections + [] == sections;
  }

  /** One turn of the loop: the file is skipped, or cut to the limits and included. */
  method LoadFile(w: Workspace, profile: seq<Bytes>, perFile: nat, total: nat, k: nat, before: seq<Section>, used: nat)
      returns (sections: seq<Section>, totalChars: nat)
    requires Progress(w, profile, perFile, total, k, before, used) && k < |profile| && used < total
    ensures Progress(w, profile, perFile, total, k + 1, sections, totalChars)
  {
    sections, totalChars := before, used;
    var name := profile[k];
    var text := w.ReadText(name);
    if text == None {
      SkipFile(w, profile, perFile, total, k, before, used);
      return;
    }
    var content, runeCount := CutToBudget(text.value, perFile, total - used);
    TakeFile(w, profile, perFile, total, k, before, used, content);
    totalChars := totalChars + runeCount;
    sections := sections + [Section(name, content)];
  }

  /** The loop's running total is what it included. */
  method Load(w: Workspace, profile: seq<Bytes>, perFile: nat, total: nat)
      returns (sections: seq<Section>, totalChars: nat)
    ensures sections == Sections(w, profile, 0, perFile, total)
    ensures totalChars == Total(sections) <= total
  {
    sections, totalChars := [], 0;
    var k := 0;
    while k < |profile|
      invariant Progress(w, profile, perFile, total, k, sections, totalChars)
    {
      if totalChars >= total {
        break;
      }
      sections, totalChars := LoadFile(w, profile, perFile, total, k, sections, totalChars);
      k := k + 1;
    }
    AllTaken(w, profile, perFile, total, k, sections, totalChars);
  }
}
