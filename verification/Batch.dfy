/** Fanning documents out over agents and ranking what comes back. */
module Batch {
  import opened Common

  datatype Candidate = Candidate(documentID: string, name: string, score: int)

  function Flatten<T>(parts: seq<seq<T>>): seq<T> {
    if parts == [] then [] else Flatten(parts[..|parts| - 1]) + parts[|parts| - 1]
  }

  // ----- splitting

  /** A balanced split: nothing lost, reordered or empty, and batch sizes that
      never grow and differ by at most one. */
  ghost predicate Balanced(docs: seq<string>, agents: nat, batches: seq<seq<string>>) {
    && |batches| == Min(agents, |docs|)
    && Flatten(batches) == docs
    && (forall i :: 0 <= i < |batches| ==> batches[i] != [])
    && (forall i, j :: 0 <= i < j < |batches| ==> |batches[j]| <= |batches[i]| <= |batches[j]| + 1)
  }

  /** With documents there must be an agent: the size of a batch is a quotient by
      their number. */
  method SplitDocuments(docs: seq<string>, agents: nat) returns (batches: seq<seq<string>>)
    requires docs != [] ==> agents > 0
    ensures Balanced(docs, agents, batches)
  {
    batches := [];
    if |docs| == 0 {
      return;
    }
    var n := Min(agents, |docs|);
    var batchSize, remainder := |docs| / n, |docs| % n;
    var start := 0;
    SizesUseUp(|docs|, n);
    assert docs[..0] == [];
    for i := 0 to n
      invariant |batches| == i
      invariant start == StartOf(i, batchSize, remainder) <= |docs|
      invariant Flatten(batches) == docs[..start]
      invariant forall k :: 0 <= k < i ==> |batches[k]| == SizeOf(k, batchSize, remainder)
    {
      var size := batchSize;
      if i < remainder {
        size := size + 1;
      }
      StartsGrow(i + 1, n, batchSize, remainder);
      var batch := docs[start..start + size];
      OneMoreBatch(docs, batches, start, size);
      batches := batches + [batch];
      start := start + size;
    }
    assert docs[..|docs|] == docs;
  }

  lemma OneMoreBatch(docs: seq<string>, batches: seq<seq<string>>, start: nat, size: nat)
    requires start + size <= |docs| && Flatten(batches) == docs[..start]
    ensures Flatten(batches + [docs[start..start + size]]) == docs[..start + size]
  {
    FlattenAppend(batches, docs[start..start + size]);
    assert docs[..start] + docs[start..start + size] == docs[..start + size];
  }

  function SizeOf(i: nat, q: nat, r: nat): nat { q + if i < r then 1 else 0 }

  /** Where batch `i` begins. */
  function StartOf(i: nat, q: nat, r: nat): nat {
    if i == 0 then 0 else StartOf(i - 1, q, r) + SizeOf(i - 1, q, r)
  }

  lemma {:induction false} StartsGrow(i: nat, n: nat, q: nat, r: nat)
    requires i <= n
    ensures StartOf(i, q, r) <= StartOf(n, q, r)
    decreases n - i
  {
    if i < n {
      StartsGrow(i + 1, n, q, r);
    }
  }

  lemma {:induction false} StartIsProduct(i: nat, q: nat, r: nat)
    ensures StartOf(i, q, r) == i * q + Min(i, r)
  {
    if i > 0 {
      StartIsProduct(i - 1, q, r);
      assert (i - 1) * q == i * q - q;
    }
  }

  /** Sizes of quotient and remainder use the documents up. */
  lemma SizesUseUp(total: nat, n: nat)
    requires 0 < n <= total
    ensures total / n >= 1 && StartOf(n, total / n, total % n) == total
  {
    StartIsProduct(n, total / n, total % n);
    assert total == n * (total / n) + total % n;
  }

  lemma FlattenAppend<T>(parts: seq<seq<T>>, p: seq<T>)
    ensures Flatten(parts + [p]) == Flatten(parts) + p
  {
    assert (parts + [p])[..|parts|] == parts;
  }

  // ----- collecting

  predicate Descending(results: seq<Candidate>) {
    forall i, j :: 0 <= i < j < |results| ==> results[i].score >= results[j].score
  }

  lemma InOrder(a: seq<Candidate>, c: Candidate, b: seq<Candidate>)
    requires Descending(a) && Descending(b)
    requires forall i :: 0 <= i < |a| ==> a[i].score >= c.score
    requires forall i :: 0 <= i < |b| ==> c.score >= b[i].score
    ensures Descending(a + [c] + b)
  {
    var r := a + [c] + b;
    forall i | 0 <= i < |r| ensures i < |a| ==> r[i].score >= c.score && r[i] == a[i] {}
    forall i | |a| < i < |r| ensures c.score >= r[i].score && r[i] == b[i - |a| - 1] {}
    assert r[|a|] == c;
  }

  lemma SameBag(a: seq<Candidate>, c: Candidate, b: seq<Candidate>)
    ensures multiset(a + [c] + b) == multiset(a + b) + multiset{c}
  {}

  lemma TailIsBelow(sorted: seq<Candidate>, k: nat, c: Candidate)
    requires Descending(sorted) && k <= |sorted| && (k < |sorted| ==> sorted[k].score < c.score)
    ensures forall i :: k <= i < |sorted| ==> c.score >= sorted[i].score
  {
    assert forall i :: k < i < |sorted| ==> sorted[k].score >= sorted[i].score;
  }

  lemma Inserted(sorted: seq<Candidate>, a: seq<Candidate>, c: Candidate, b: seq<Candidate>)
    requires Descending(sorted) && sorted == a + b
    requires forall j :: 0 <= j < |a| ==> sorted[j].score >= c.score
    requires b != [] ==> sorted[|a|].score < c.score
    ensures Descending(a + [c] + b) && multiset(a + [c] + b) == multiset(sorted) + multiset{c}
  {
    TailIsBelow(sorted, |a|, c);
    assert forall i :: 0 <= i < |a| ==> a[i] == sorted[i];
    assert forall i :: 0 <= i < |b| ==> b[i] == sorted[|a| + i];
    InOrder(a, c, b);
    SameBag(a, c, b);
  }

  method InsertByScore(sorted: seq<Candidate>, c: Candidate) returns (r: seq<Candidate>)
    requires Descending(sorted)
    ensures Descending(r) && multiset(r) == multiset(sorted) + multiset{c}
  {
    var k := 0;
    while k < |sorted| && sorted[k].score >= c.score
      invariant 0 <= k <= |sorted|
      invariant forall j :: 0 <= j < k ==> sorted[j].score >= c.score
    {
      k := k + 1;
    }
    Inserted(sorted, sorted[..k], c, sorted[k..]);
    r := sorted[..k] + [c] + sorted[k..];
  }

  /** Highest score first; the order among equal scores is left open, as it is
      for the library's sort. */
  method SortByScore(results: seq<Candidate>) returns (sorted: seq<Candidate>)
    ensures Descending(sorted) && multiset(sorted) == multiset(results)
  {
    sorted := [];
    for i := 0 to |results|
      invariant Descending(sorted) && multiset(sorted) == multiset(results[..i])
    {
      assert results[..i + 1] == results[..i] + [results[i]];
      sorted := InsertByScore(sorted, results[i]);
    }
    assert results[..|results|] == results;
  }

  datatype Row = Row(rank: nat, candidate: Candidate)

  datatype Stats = Stats(processed: nat, failed: int, agents: nat)

  /** The parsed results of the call in a slot, made to an agent for a batch; None
      when the call or the parsing failed. */
  type Invoker = (nat, string, seq<string>) -> Option<seq<Candidate>>

  function Answers(invoke: Invoker, agents: seq<string>, batches: seq<seq<string>>): seq<Option<seq<Candidate>>>
    requires |batches| <= |agents|
  {
    seq(|batches|, i requires 0 <= i < |batches| => invoke(i, agents[i], batches[i]))
  }

  /** The workers finish in any order, each writing its own slot. */
  method RunWorkers(invoke: Invoker, agents: seq<string>, batches: seq<seq<string>>)
      returns (slots: seq<Option<seq<Candidate>>>)
    requires |batches| <= |agents|
    ensures slots == Answers(invoke, agents, batches)
    ensures |slots| == |batches| && forall i :: 0 <= i < |slots| ==> slots[i] == invoke(i, agents[i], batches[i])
  {
    var results := new Option<seq<Candidate>>[|batches|](_ => None);
    var running: set<nat> := {};
    for i := 0 to |batches|
      invariant forall j :: j in running <==> 0 <= j < i
    {
      running := running + {i};
    }
    while running != {}
      invariant forall j :: j in running ==> j < |batches|
      invariant forall j: nat :: j < |batches| && j !in running ==> results[j] == invoke(j, agents[j], batches[j])
      decreases running
    {
      var j :| j in running;
      results[j] := invoke(j, agents[j], batches[j]);
      running := running - {j};
    }
    slots := results[..];
  }

  /** The results of successful workers, in batch order. */
  method Collect(slots: seq<Option<seq<Candidate>>>) returns (all: seq<Candidate>)
    ensures all == Flatten(Parts(slots))
  {
    all := [];
    for i := 0 to |slots|
      invariant all == Flatten(Parts(slots[..i]))
    {
      FlattenAppend(Parts(slots[..i]), if slots[i].Some? then slots[i].value else []);
      assert Parts(slots[..i + 1]) == Parts(slots[..i]) + [if slots[i].Some? then slots[i].value else []];
      if slots[i].Some? {
        all := all + slots[i].value;
      }
    }
    assert slots[..|slots|] == slots;
  }

  function Parts(slots: seq<Option<seq<Candidate>>>): seq<seq<Candidate>> {
    seq(|slots|, i requires 0 <= i < |slots| => if slots[i].Some? then slots[i].value else [])
  }

  // ----- what counts as failed

  /** The documents in the batches of failed workers. */
  function Lost(batches: seq<seq<string>>, slots: seq<Option<seq<Candidate>>>): nat
    requires |batches| == |slots|
  {
    if slots == [] then 0
    else
      var n := |slots| - 1;
      Lost(batches[..n], slots[..n]) + if slots[n].None? then |batches[n]| else 0
  }

  /** The results of successful workers beyond one for each document they got. */
  function Surplus(batches: seq<seq<string>>, slots: seq<Option<seq<Candidate>>>): int
    requires |batches| == |slots|
  {
    if slots == [] then 0
    else
      var n := |slots| - 1;
      Surplus(batches[..n], slots[..n]) + if slots[n].Some? then |slots[n].value| - |batches[n]| else 0
  }

  /** Documents without a result are those of failed workers, less any surplus. */
  lemma {:induction false} MissingAreLost(batches: seq<seq<string>>, slots: seq<Option<seq<Candidate>>>)
    requires |batches| == |slots|
    ensures |Flatten(batches)| - |Flatten(Parts(slots))| == Lost(batches, slots) - Surplus(batches, slots)
  {
    if slots != [] {
      var n := |slots| - 1;
      MissingAreLost(batches[..n], slots[..n]);
      assert Parts(slots)[..n] == Parts(slots[..n]);
    }
  }

  ghost predicate AnswersEach(batches: seq<seq<string>>, slots: seq<Option<seq<Candidate>>>) {
    |batches| == |slots| && forall i :: 0 <= i < |slots| && slots[i].Some? ==> |slots[i].value| == |batches[i]|
  }

  /** Workers that give one result for each document make no surplus. */
  lemma {:induction false} OneEach(batches: seq<seq<string>>, slots: seq<Option<seq<Candidate>>>)
    requires AnswersEach(batches, slots)
    ensures Surplus(batches, slots) == 0
  {
    if slots != [] {
      OneEach(batches[..|slots| - 1], slots[..|slots| - 1]);
    }
  }

  /** Every batch goes to an agent of its own; rows are the parsed results of the
      workers that succeeded, best score first, ranked from one; what was not
      processed counts as failed, a count below zero when agents return more
      results than they were given documents. */
  method RunBatch(documents: seq<string>, agents: seq<string>, invoke: Invoker)
      returns (rows: seq<Row>, stats: Stats, ghost batches: seq<seq<string>>)
    requires documents != [] ==> agents != []
    ensures Balanced(documents, |agents|, batches) && stats.agents == |batches| <= |agents|
    ensures stats.processed == |rows| && stats.processed + stats.failed == |documents|
    ensures var answers := Answers(invoke, agents, batches);
            && |answers| == |batches|
            && (forall i :: 0 <= i < |answers| ==> answers[i] == invoke(i, agents[i], batches[i]))
            && stats.failed == Lost(batches, answers) - Surplus(batches, answers)
            && (AnswersEach(batches, answers) ==> stats.failed == Lost(batches, answers))
            && (stats.failed < 0 <==> |Flatten(Parts(answers))| > |documents|)
    ensures forall i :: 0 <= i < |rows| ==> rows[i].rank == i + 1
    ensures Descending(Candidates(rows))
    ensures multiset(Candidates(rows)) == multiset(Flatten(Parts(Answers(invoke, agents, batches))))
  {
    var parts := SplitDocuments(documents, |agents|);
    batches := parts;
    var slots := RunWorkers(invoke, agents, parts);
    var all := Collect(slots);
    stats := Stats(|all|, |documents| - |all|, |parts|);
    MissingAreLost(parts, slots);
    if AnswersEach(parts, slots) {
      OneEach(parts, slots);
    }
    var sorted := SortByScore(all);
    assert |sorted| == |multiset(sorted)| == |multiset(all)| == |all|;
    rows := seq(|sorted|, i requires 0 <= i < |sorted| => Row(i + 1, sorted[i]));
    assert Candidates(rows) == sorted;
  }

  function Candidates(rows: seq<Row>): seq<Candidate> {
    seq(|rows|, i requires 0 <= i < |rows| => rows[i].candidate)
  }
}
