/** The session store over two tables: sessions keyed by id, and message rows
    unique in (session, seq) that belong to a session and go with it. */
module SqliteSessions {
  import opened Common
  import opened Text
  import opened Stamps
  import Llm
  import opened Sessions

  datatype SessionRow = SessionRow(prompt: string, createdAt: string, lastActive: string)

  /** A message row; the two JSON columns may be NULL. */
  datatype MessageRow = MessageRow(
    sessionId: string, seqNo: nat, role: string, content: string,
    toolCalls: Option<string>, toolResults: Option<string>)

  /** How values become text columns and back: two JSON lists and timestamps. */
  datatype Codec = Codec(
    encodeCalls: seq<ToolCall> -> string, decodeCalls: string -> Option<seq<ToolCall>>,
    encodeResults: seq<ToolResult> -> string, decodeResults: string -> Option<seq<ToolResult>>,
    hasStamp: nat -> bool, writeStamp: nat -> string, readStamp: string -> Option<nat>)

  ghost predicate Faithful(c: Codec) {
    && (forall x :: c.encodeCalls(x) != "" && c.decodeCalls(c.encodeCalls(x)) == Some(x))
    && (forall x :: c.encodeResults(x) != "" && c.decodeResults(c.encodeResults(x)) == Some(x))
    && (forall t: nat :: c.hasStamp(t) ==> c.readStamp(c.writeStamp(t)) == Some(t))
  }

  /** Timestamps are RFC3339Nano text in the zone `z`, for years of four digits. */
  ghost predicate WritesRfc3339(c: Codec, z: Zone) {
    && (forall t: nat :: c.hasStamp(t) == FourDigitYear(t))
    && (forall t: nat :: c.writeStamp(t) == Format(t, z))
    && (forall s :: c.readStamp(s) == Parse(s, z))
  }

  /** The timestamp format meets what a faithful codec asks of it. */
  lemma TimestampsAreFaithful(c: Codec, z: Zone)
    requires WritesRfc3339(c, z)
    ensures forall t: nat :: c.hasStamp(t) ==> c.readStamp(c.writeStamp(t)) == Some(t)
  {
    forall t: nat | c.hasStamp(t) ensures c.readStamp(c.writeStamp(t)) == Some(t) {
      StampRoundTrip(t, z);
    }
  }

  // ----- rows

  function EncodeRow(c: Codec, id: string, seqNo: nat, m: Message): MessageRow {
    MessageRow(id, seqNo, m.role, m.content,
               if |m.toolCalls| > 0 then Some(c.encodeCalls(m.toolCalls)) else None,
               if |m.toolResults| > 0 then Some(c.encodeResults(m.toolResults)) else None)
  }

  function DecodeRow(c: Codec, row: MessageRow): Option<Message> {
    var calls :=
      if row.toolCalls.Some? && row.toolCalls.value != "" then c.decodeCalls(row.toolCalls.value) else Some([]);
    var results :=
      if row.toolResults.Some? && row.toolResults.value != "" then c.decodeResults(row.toolResults.value) else Some([]);
    if calls == None || results == None then None
    else Some(Llm.Message(row.role, row.content, calls.value, results.value))
  }

  lemma RowRoundTrip(c: Codec, id: string, seqNo: nat, m: Message)
    requires Faithful(c)
    ensures DecodeRow(c, EncodeRow(c, id, seqNo, m)) == Some(m)
  {}

  // ----- the statements the store runs

  /** `WHERE session_id = ?` */
  function RowsOf(ms: seq<MessageRow>, id: string): seq<MessageRow> {
    if ms == [] then []
    else RowsOf(ms[..|ms| - 1], id) + (if ms[|ms| - 1].sessionId == id then [ms[|ms| - 1]] else [])
  }

  function InsertBySeq(row: MessageRow, rows: seq<MessageRow>): seq<MessageRow> {
    if rows == [] || rows[|rows| - 1].seqNo <= row.seqNo then rows + [row]
    else InsertBySeq(row, rows[..|rows| - 1]) + [rows[|rows| - 1]]
  }

  /** `ORDER BY seq` */
  function OrderBySeq(rows: seq<MessageRow>): seq<MessageRow> {
    if rows == [] then [] else InsertBySeq(rows[|rows| - 1], OrderBySeq(rows[..|rows| - 1]))
  }

  /** `COALESCE(MAX(seq), -1)` */
  function MaxSeq(rows: seq<MessageRow>): int {
    if rows == [] then -1 else Max(MaxSeq(rows[..|rows| - 1]), rows[|rows| - 1].seqNo)
  }

  /** `INSERT` into messages: refused when (session, seq) is taken or the session is missing. */
  function InsertMessage(ss: map<string, SessionRow>, ms: seq<MessageRow>, row: MessageRow): Option<seq<MessageRow>> {
    if row.sessionId !in ss || (exists r :: r in ms && r.sessionId == row.sessionId && r.seqNo == row.seqNo) then None
    else Some(ms + [row])
  }

  /** `INSERT` into sessions: refused when the id is taken. */
  function InsertSession(ss: map<string, SessionRow>, id: string, row: SessionRow): Option<map<string, SessionRow>> {
    if id in ss then None else Some(ss[id := row])
  }

  /** The message rows that survive a cascading delete. */
  function Cascade(ss: map<string, SessionRow>, ms: seq<MessageRow>): seq<MessageRow> {
    if ms == [] then []
    else Cascade(ss, ms[..|ms| - 1]) + (if ms[|ms| - 1].sessionId in ss then [ms[|ms| - 1]] else [])
  }

  /** `DELETE ... WHERE last_active < ?`, comparing texts. */
  function NotOlder(ss: map<string, SessionRow>, cutoff: string): map<string, SessionRow> {
    map id | id in ss && !Less(ss[id].lastActive, cutoff) :: ss[id]
  }

  // ----- facts about the statements

  lemma RowsOfInsert(ms: seq<MessageRow>, row: MessageRow, id: string)
    ensures RowsOf(ms + [row], id) == RowsOf(ms, id) + (if row.sessionId == id then [row] else [])
  {
    assert (ms + [row])[..|ms|] == ms;
  }

  lemma {:induction false} RowsOfMember(ms: seq<MessageRow>, id: string)
    ensures forall r :: r in RowsOf(ms, id) <==> r in ms && r.sessionId == id
  {
    if ms != [] {
      RowsOfMember(ms[..|ms| - 1], id);
      assert ms == ms[..|ms| - 1] + [ms[|ms| - 1]];
    }
  }

  /** Deleting sessions takes their rows away and leaves the others as they were. */
  lemma {:induction false} CascadeKeepsRows(ss: map<string, SessionRow>, ms: seq<MessageRow>, id: string)
    ensures RowsOf(Cascade(ss, ms), id) == if id in ss then RowsOf(ms, id) else []
    ensures forall r :: r in Cascade(ss, ms) ==> r.sessionId in ss
  {
    if ms != [] {
      CascadeKeepsRows(ss, ms[..|ms| - 1], id);
      if ms[|ms| - 1].sessionId in ss {
        RowsOfInsert(Cascade(ss, ms[..|ms| - 1]), ms[|ms| - 1], id);
      } else {
        assert Cascade(ss, ms) == Cascade(ss, ms[..|ms| - 1]);
      }
    }
  }

  /** Rows numbered 0, 1, 2, ... in table order. */
  ghost predicate Numbered(rows: seq<MessageRow>) { forall i :: 0 <= i < |rows| ==> rows[i].seqNo == i }

  /** The next number is the row count, and sorting changes nothing. */
  lemma {:induction false} NumberedRows(rows: seq<MessageRow>)
    requires Numbered(rows)
    ensures MaxSeq(rows) == |rows| - 1 && OrderBySeq(rows) == rows
  {
    if rows != [] {
      NumberedRows(rows[..|rows| - 1]);
      assert rows == rows[..|rows| - 1] + [rows[|rows| - 1]];
    }
  }

  // ----- the coupling with the abstract store

  ghost predicate StampText(c: Codec, s: string) {
    c.readStamp(s).Some? && c.hasStamp(c.readStamp(s).value) && c.writeStamp(c.readStamp(s).value) == s
  }

  /** time.Parse; the source ignores its error and keeps the zero time. */
  function ParseOrZero(c: Codec, s: string): nat { match c.readStamp(s) case Some(t) => t case None => 0 }

  ghost predicate Decodable(c: Codec, rows: seq<MessageRow>) {
    forall i :: 0 <= i < |rows| ==> DecodeRow(c, rows[i]).Some?
  }

  ghost function Decoded(c: Codec, rows: seq<MessageRow>): (ms: seq<Message>)
    requires Decodable(c, rows)
  {
    seq(|rows|, i requires 0 <= i < |rows| => DecodeRow(c, rows[i]).value)
  }

  /** A session with its rows: row 0 is the system prompt, numbers run from 0,
      every row decodes, both timestamps read back. */
  ghost predicate GoodSession(c: Codec, s: SessionRow, rows: seq<MessageRow>) {
    && Numbered(rows) && Decodable(c, rows)
    && rows != [] && DecodeRow(c, rows[0]) == Some(Plain("system", s.prompt))
    && StampText(c, s.createdAt) && StampText(c, s.lastActive)
  }

  ghost function ViewOne(c: Codec, s: SessionRow, rows: seq<MessageRow>): SessionView
    requires GoodSession(c, s, rows)
  {
    SessionView(Decoded(c, rows), c.readStamp(s.createdAt).value, c.readStamp(s.lastActive).value)
  }

  /** Every session is good and no message row is an orphan. */
  ghost predicate Coupled(c: Codec, ss: map<string, SessionRow>, ms: seq<MessageRow>) {
    && (forall r :: r in ms ==> r.sessionId in ss)
    && (forall id :: id in ss ==> GoodSession(c, ss[id], RowsOf(ms, id)))
  }

  ghost function ViewOf(c: Codec, ss: map<string, SessionRow>, ms: seq<MessageRow>): Store
    requires Coupled(c, ss, ms)
  {
    map id | id in ss :: ViewOne(c, ss[id], RowsOf(ms, id))
  }

  /** Coupled tables never break a constraint: the number given to a new row is free. */
  lemma NextRowIsFree(c: Codec, ss: map<string, SessionRow>, ms: seq<MessageRow>, row: MessageRow)
    requires Coupled(c, ss, ms) && row.sessionId in ss
    requires row.seqNo == MaxSeq(RowsOf(ms, row.sessionId)) + 1
    ensures row.seqNo == |RowsOf(ms, row.sessionId)|
    ensures InsertMessage(ss, ms, row) == Some(ms + [row])
  {
    NumberedRows(RowsOf(ms, row.sessionId));
    RowsOfMember(ms, row.sessionId);
  }

  lemma FirstRowIsFree(c: Codec, ss: map<string, SessionRow>, ms: seq<MessageRow>, id: string)
    requires Coupled(c, ss, ms) && id !in ss
    ensures RowsOf(ms, id) == [] && forall r :: r in ms ==> r.sessionId != id
  {
    RowsOfMember(ms, id);
    assert RowsOf(ms, id) != [] ==> RowsOf(ms, id)[0] in RowsOf(ms, id);
  }

  lemma OtherRowsStay(ms: seq<MessageRow>, row: MessageRow, k: string)
    requires k != row.sessionId
    ensures RowsOf(ms + [row], k) == RowsOf(ms, k)
  {
    RowsOfInsert(ms, row, k);
  }

  lemma OneSessionStaysCoupled(c: Codec, ss: map<string, SessionRow>, ms: seq<MessageRow>, id: string, s: SessionRow,
      row: MessageRow)
    requires Coupled(c, ss, ms) && row.sessionId == id
    requires GoodSession(c, s, RowsOf(ms, id) + [row])
    ensures Coupled(c, ss[id := s], ms + [row])
    ensures RowsOf(ms + [row], id) == RowsOf(ms, id) + [row]
  {
    RowsOfInsert(ms, row, id);
    forall k | k in ss[id := s] ensures GoodSession(c, ss[id := s][k], RowsOf(ms + [row], k)) {
      if k != id {
        OtherRowsStay(ms, row, k);
        SameView(c, ss[k], RowsOf(ms, k), RowsOf(ms + [row], k));
      } else {
        SameView(c, s, RowsOf(ms, id) + [row], RowsOf(ms + [row], id));
      }
    }
  }

  /** Changing one session row and appending one of its rows changes only its view. */
  lemma OneSessionChanges(c: Codec, ss: map<string, SessionRow>, ms: seq<MessageRow>, id: string, s: SessionRow,
      row: MessageRow)
    requires Coupled(c, ss, ms) && row.sessionId == id
    requires GoodSession(c, s, RowsOf(ms, id) + [row])
    ensures Coupled(c, ss[id := s], ms + [row])
    ensures ViewOf(c, ss[id := s], ms + [row]) == ViewOf(c, ss, ms)[id := ViewOne(c, s, RowsOf(ms, id) + [row])]
  {
    OneSessionStaysCoupled(c, ss, ms, id, s, row);
    var before, after := ViewOf(c, ss, ms), ViewOf(c, ss[id := s], ms + [row]);
    var changed := ViewOne(c, s, RowsOf(ms, id) + [row]);
    assert after[id] == changed;
    forall k | k in ss && k != id ensures after[k] == before[k] {
      OtherViewStays(c, ss, ms, id, s, row, k);
    }
    SameMaps(before, after, id, changed);
  }

  lemma OtherViewStays(c: Codec, ss: map<string, SessionRow>, ms: seq<MessageRow>, id: string, s: SessionRow,
      row: MessageRow, k: string)
    requires Coupled(c, ss, ms) && Coupled(c, ss[id := s], ms + [row])
    requires row.sessionId == id && k in ss && k != id
    ensures ViewOf(c, ss[id := s], ms + [row])[k] == ViewOf(c, ss, ms)[k]
  {
    OtherRowsStay(ms, row, k);
    SameView(c, ss[k], RowsOf(ms + [row], k), RowsOf(ms, k));
  }

  lemma SameView(c: Codec, s: SessionRow, rows: seq<MessageRow>, same: seq<MessageRow>)
    requires rows == same && GoodSession(c, s, rows)
    ensures GoodSession(c, s, same) && ViewOne(c, s, rows) == ViewOne(c, s, same)
  {}

  lemma SameMaps(before: Store, after: Store, id: string, v: SessionView)
    requires after.Keys == before.Keys + {id} && after[id] == v
    requires forall k :: k in before && k != id ==> after[k] == before[k]
    ensures after == before[id := v]
  {}

  lemma OpenKeepsCoupling(c: Codec, ss: map<string, SessionRow>, ms: seq<MessageRow>, id: string, prompt: string,
      now: nat)
    requires Faithful(c) && Coupled(c, ss, ms) && id !in ss && c.hasStamp(now)
    ensures var ss' := ss[id := SessionRow(prompt, c.writeStamp(now), c.writeStamp(now))];
            var ms' := ms + [MessageRow(id, 0, "system", prompt, None, None)];
            Coupled(c, ss', ms') && ViewOf(c, ss', ms') == Opened(ViewOf(c, ss, ms), id, prompt, now)
  {
    var row := MessageRow(id, 0, "system", prompt, None, None);
    var s := SessionRow(prompt, c.writeStamp(now), c.writeStamp(now));
    FirstRowIsFree(c, ss, ms, id);
    assert [] + [row] == [row];
    assert Decoded(c, [row]) == [Plain("system", prompt)];
    OneSessionChanges(c, ss, ms, id, s, row);
  }

  /** Creating a session is one transaction: both inserts go through, and what
      they leave is the abstract session. */
  lemma OpenSucceeds(c: Codec, ss: map<string, SessionRow>, ms: seq<MessageRow>, id: string, prompt: string, now: nat)
      returns (ss': map<string, SessionRow>, ms': seq<MessageRow>)
    requires Faithful(c) && Coupled(c, ss, ms) && id !in ss && c.hasStamp(now)
    ensures InsertSession(ss, id, SessionRow(prompt, c.writeStamp(now), c.writeStamp(now))) == Some(ss')
    ensures InsertMessage(ss', ms, MessageRow(id, 0, "system", prompt, None, None)) == Some(ms')
    ensures Coupled(c, ss', ms') && ViewOf(c, ss', ms') == Opened(ViewOf(c, ss, ms), id, prompt, now)
  {
    OpenKeepsCoupling(c, ss, ms, id, prompt, now);
    FirstRowIsFree(c, ss, ms, id);
    ss' := ss[id := SessionRow(prompt, c.writeStamp(now), c.writeStamp(now))];
    ms' := ms + [MessageRow(id, 0, "system", prompt, None, None)];
  }

  /** Appending is one transaction: the row gets the next number, the insert goes
      through, and what it leaves is the abstract session. */
  lemma AppendSucceeds(c: Codec, ss: map<string, SessionRow>, ms: seq<MessageRow>, id: string, msg: Message, now: nat,
      row: MessageRow)
      returns (ss': map<string, SessionRow>, ms': seq<MessageRow>)
    requires Faithful(c) && Coupled(c, ss, ms) && id in ss && c.hasStamp(now) && IsNextRow(c, ms, id, msg, row)
    ensures InsertMessage(ss, ms, row) == Some(ms') && ss' == ss[id := ss[id].(lastActive := c.writeStamp(now))]
    ensures Coupled(c, ss', ms') && ViewOf(c, ss', ms') == Extended(ViewOf(c, ss, ms), id, msg, now)
  {
    NumberedRows(RowsOf(ms, id));
    NextRowIsFree(c, ss, ms, row);
    AppendKeepsCoupling(c, ss, ms, id, msg, now);
    ss', ms' := ss[id := ss[id].(lastActive := c.writeStamp(now))], ms + [row];
  }

  /** The row that holds the message after all rows of its session. */
  ghost predicate IsNextRow(c: Codec, ms: seq<MessageRow>, id: string, msg: Message, row: MessageRow) {
    row == EncodeRow(c, id, |RowsOf(ms, id)|, msg)
  }

  /** `SELECT COALESCE(MAX(seq), -1) + 1` and the columns that go with it: the row
      is numbered by those there are, reads back as the message, and goes in. */
  method NextRow(c: Codec, ss: map<string, SessionRow>, ms: seq<MessageRow>, id: string, msg: Message)
      returns (row: MessageRow)
    requires Coupled(c, ss, ms) && id in ss
    ensures IsNextRow(c, ms, id, msg, row) && row.sessionId == id && row.seqNo == |RowsOf(ms, id)|
    ensures InsertMessage(ss, ms, row) == Some(ms + [row])
    ensures Faithful(c) ==> DecodeRow(c, row) == Some(msg)
  {
    var next := MaxSeq(RowsOf(ms, id)) + 1;
    NumberedRows(RowsOf(ms, id));
    row := EncodeRow(c, id, next, msg);
    NextRowIsFree(c, ss, ms, row);
    if Faithful(c) {
      RowRoundTrip(c, id, next, msg);
    }
  }

  lemma GoodSessionGrows(c: Codec, s: SessionRow, rows: seq<MessageRow>, id: string, msg: Message, now: nat)
    requires Faithful(c) && GoodSession(c, s, rows) && c.hasStamp(now)
    ensures var s', rows' := s.(lastActive := c.writeStamp(now)), rows + [EncodeRow(c, id, |rows|, msg)];
            && GoodSession(c, s', rows')
            && ViewOne(c, s', rows')
               == ViewOne(c, s, rows).(messages := ViewOne(c, s, rows).messages + [msg], lastActive := now)
  {
    RowRoundTrip(c, id, |rows|, msg);
    var rows' := rows + [EncodeRow(c, id, |rows|, msg)];
    assert rows'[0] == rows[0];
    assert forall i :: 0 <= i < |rows| ==> rows'[i] == rows[i];
    assert Decoded(c, rows') == Decoded(c, rows) + [msg];
  }

  lemma AppendKeepsCoupling(c: Codec, ss: map<string, SessionRow>, ms: seq<MessageRow>, id: string, msg: Message,
      now: nat)
    requires Faithful(c) && Coupled(c, ss, ms) && id in ss && c.hasStamp(now)
    ensures var ss' := ss[id := ss[id].(lastActive := c.writeStamp(now))];
            var ms' := ms + [EncodeRow(c, id, |RowsOf(ms, id)|, msg)];
            Coupled(c, ss', ms') && ViewOf(c, ss', ms') == Extended(ViewOf(c, ss, ms), id, msg, now)
  {
    var rows := RowsOf(ms, id);
    GoodSessionGrows(c, ss[id], rows, id, msg, now);
    OneSessionChanges(c, ss, ms, id, ss[id].(lastActive := c.writeStamp(now)), EncodeRow(c, id, |rows|, msg));
  }

  /** The sessions the text comparison leaves alone. */
  ghost function ReapedByText(c: Codec, st: Store, cutoff: nat): Store {
    map id | id in st && !Less(c.writeStamp(st[id].lastActive), c.writeStamp(cutoff)) :: st[id]
  }

  lemma DeleteStaysCoupled(c: Codec, ss: map<string, SessionRow>, ms: seq<MessageRow>, left: map<string, SessionRow>)
    requires Coupled(c, ss, ms) && left.Keys <= ss.Keys && forall id :: id in left ==> left[id] == ss[id]
    ensures Coupled(c, left, Cascade(left, ms))
    ensures forall id :: id in left ==> RowsOf(Cascade(left, ms), id) == RowsOf(ms, id)
  {
    forall id ensures id in left ==> RowsOf(Cascade(left, ms), id) == RowsOf(ms, id) {
      CascadeKeepsRows(left, ms, id);
    }
    CascadeKeepsRows(left, ms, "");
  }

  /** What a view says of a session was written as its row has it. */
  lemma StampOfView(c: Codec, ss: map<string, SessionRow>, ms: seq<MessageRow>, id: string)
    requires Coupled(c, ss, ms) && id in ss
    ensures c.writeStamp(ViewOf(c, ss, ms)[id].lastActive) == ss[id].lastActive
  {
    assert GoodSession(c, ss[id], RowsOf(ms, id));
  }

  lemma DeleteKeepsCoupling(c: Codec, ss: map<string, SessionRow>, ms: seq<MessageRow>, cutoff: nat, text: string)
    requires Coupled(c, ss, ms) && text == c.writeStamp(cutoff)
    ensures var left := NotOlder(ss, text);
            Coupled(c, left, Cascade(left, ms))
            && ViewOf(c, left, Cascade(left, ms)) == ReapedByText(c, ViewOf(c, ss, ms), cutoff)
  {
    var left := NotOlder(ss, text);
    var rows := Cascade(left, ms);
    DeleteStaysCoupled(c, ss, ms, left);
    var after, want := ViewOf(c, left, rows), ReapedByText(c, ViewOf(c, ss, ms), cutoff);
    forall id ensures (id in after <==> id in want) && (id in after ==> after[id] == want[id]) {
      if id in ss {
        StampOfView(c, ss, ms, id);
      }
      if id in left {
        RemainingView(c, ss, ms, left, rows, id);
      }
    }
    EqualStores(after, want);
  }

  lemma RemainingView(c: Codec, ss: map<string, SessionRow>, ms: seq<MessageRow>, left: map<string, SessionRow>,
      rows: seq<MessageRow>, id: string)
    requires Coupled(c, ss, ms) && Coupled(c, left, rows) && id in ss && id in left && left[id] == ss[id]
    requires RowsOf(rows, id) == RowsOf(ms, id)
    ensures ViewOf(c, left, rows)[id] == ViewOf(c, ss, ms)[id]
  {
    SameView(c, ss[id], RowsOf(rows, id), RowsOf(ms, id));
  }

  lemma EqualStores(a: Store, b: Store)
    requires forall id :: (id in a <==> id in b) && (id in a ==> a[id] == b[id])
    ensures a == b
  {
    assert a.Keys == b.Keys;
  }

  // ----- the two reapers

  lemma TextBelowCutoff(last: nat, cutoff: nat, z: Zone)
    requires FourDigitYear(last) && FourDigitYear(cutoff)
    ensures Less(Format(last, z), Format(cutoff, z)) <==>
            last != cutoff && (last < cutoff <==> !Flipped(last, cutoff, z))
  {
    if last < cutoff {
      TextOrder(last, cutoff, z);
    } else if cutoff < last {
      TextOrder(cutoff, last, z);
    } else {
      LessTotal(Format(last, z), Format(cutoff, z));
    }
  }

  /** The text reaper and the clock reaper treat a session differently exactly
      when text order and time order disagree on its last activity and the cutoff. */
  lemma ReapersAgree(c: Codec, st: Store, id: string, now: nat, ttl: int, z: Zone)
    requires WritesRfc3339(c, z) && id in st && FourDigitYear(st[id].lastActive)
    requires 0 <= now - ttl && FourDigitYear(now - ttl)
    ensures (id in ReapedByText(c, st, now - ttl) <==> id in Reaped(st, now, ttl)) <==>
            !Flipped(st[id].lastActive, now - ttl, z)
  {
    TextBelowCutoff(st[id].lastActive, now - ttl, z);
  }

  /** No session's last activity is flipped with the cutoff. */
  ghost predicate Unflipped(st: Store, cutoff: nat, z: Zone) {
    forall id :: id in st ==> !Flipped(st[id].lastActive, cutoff, z)
  }

  /** What each of two reaps has left of a store. */
  lemma SameLeft(st: Store, a: Store, b: Store)
    requires forall id :: id in a ==> id in st && a[id] == st[id]
    requires forall id :: id in b ==> id in st && b[id] == st[id]
    ensures a == b <==> forall id :: id in st ==> (id in a <==> id in b)
  {
    if forall id :: id in st ==> (id in a <==> id in b) {
      EqualStores(a, b);
    }
  }

  lemma ReapAgreesAt(c: Codec, st: Store, id: string, now: nat, ttl: int, cutoff: nat, z: Zone)
    requires WritesRfc3339(c, z) && id in st && FourDigitYear(st[id].lastActive)
    requires cutoff == now - ttl && FourDigitYear(cutoff)
    ensures (id in ReapedByText(c, st, cutoff) <==> id in Reaped(st, now, ttl)) <==>
            !Flipped(st[id].lastActive, cutoff, z)
  {
    ReapersAgree(c, st, id, now, ttl, z);
  }

  /** So the two reapers leave the same store exactly when no session is flipped. */
  lemma SameReap(c: Codec, st: Store, now: nat, ttl: int, cutoff: nat, z: Zone)
    requires WritesRfc3339(c, z) && forall id :: id in st ==> FourDigitYear(st[id].lastActive)
    requires cutoff == now - ttl && FourDigitYear(cutoff)
    ensures ReapedByText(c, st, cutoff) == Reaped(st, now, ttl) <==> Unflipped(st, cutoff, z)
  {
    SameLeft(st, ReapedByText(c, st, cutoff), Reaped(st, now, ttl));
    forall id | id in st
      ensures (id in ReapedByText(c, st, cutoff) <==> id in Reaped(st, now, ttl)) <==>
              !Flipped(st[id].lastActive, cutoff, z)
    {
      ReapAgreesAt(c, st, id, now, ttl, cutoff, z);
    }
  }

  lemma HalfSecondLess(last: nat, cutoff: nat)
    requires FourDigitYear(last) && FourDigitYear(cutoff) && cutoff % SECOND == 0 && last == cutoff + SECOND / 2
    ensures Less(Format(last, Utc), Format(cutoff, Utc))
  {
    HalfSecondFlips(cutoff);
    TextBelowCutoff(last, cutoff, Utc);
  }

  /** The disagreement is real: in UTC, whenever the cutoff falls on a whole
      second, a session half a second short of its ttl is deleted by the text
      comparison and kept by the clock. */
  lemma ReapersDisagree(c: Codec, st: Store, id: string, now: nat, ttl: int)
    requires WritesRfc3339(c, Utc) && id in st && 0 <= now - ttl && (now - ttl) % SECOND == 0
    requires st[id].lastActive == now - ttl + SECOND / 2
    requires FourDigitYear(st[id].lastActive) && FourDigitYear(now - ttl)
    ensures id !in ReapedByText(c, st, now - ttl) && id in Reaped(st, now, ttl)
  {
    var last, cutoff: nat := st[id].lastActive, now - ttl;
    HalfSecondLess(last, cutoff);
    assert Less(c.writeStamp(last), c.writeStamp(cutoff));
  }

  /** Whatever the zone, a session idle for at least a second more than the ttl
      is deleted, and one idle for at most a second less is not. */
  lemma ReaperWithinASecond(c: Codec, st: Store, id: string, now: nat, ttl: int, z: Zone)
    requires WritesRfc3339(c, z) && id in st && FourDigitYear(st[id].lastActive)
    requires 0 <= now - ttl && FourDigitYear(now - ttl)
    ensures now - st[id].lastActive >= ttl + SECOND ==> id !in ReapedByText(c, st, now - ttl)
    ensures now - st[id].lastActive <= ttl - SECOND ==> id in ReapedByText(c, st, now - ttl)
  {
    var last, cutoff: nat := st[id].lastActive, now - ttl;
    TextBelowCutoff(last, cutoff, z);
    assert last + SECOND <= cutoff || cutoff + SECOND <= last ==> last / SECOND != cutoff / SECOND;
  }

  // ----- the store

  /** Scanning a result set stops at the first row that does not decode. */
  method ScanRows(c: Codec, rows: seq<MessageRow>) returns (r: Result<seq<Message>, string>)
    ensures r.Success? <==> Decodable(c, rows)
    ensures r.Success? ==> r.value == Decoded(c, rows)
  {
    var messages: seq<Message> := [];
    for i := 0 to |rows|
      invariant Decodable(c, rows[..i]) && messages == Decoded(c, rows[..i])
    {
      var msg := DecodeRow(c, rows[i]);
      if msg == None {
        return Failure("unmarshal");
      }
      messages := messages + [msg.value];
    }
    assert rows[..|rows|] == rows;
    r := Success(messages);
  }

  class SqliteStore {
    const codec: Codec
    const ttl: int
    var sessionsTable: map<string, SessionRow>
    var messagesTable: seq<MessageRow>

    ghost predicate Valid()
      reads this
    {
      Faithful(codec) && Coupled(codec, sessionsTable, messagesTable)
    }

    ghost function View(): Store
      reads this
      requires Valid()
    {
      ViewOf(codec, sessionsTable, messagesTable)
    }

    constructor (codec: Codec, ttl: int)
      requires Faithful(codec)
      ensures Valid() && View() == map[]
      ensures this.codec == codec && this.ttl == ttl
    {
      this.codec, this.ttl := codec, ttl;
      sessionsTable, messagesTable := map[], [];
    }

    method LoadSession(id: string) returns (r: Result<Option<SessionView>, string>)
      requires Valid()
      ensures r == Success(if id in View() then Some(View()[id]) else None)
    {
      if id !in sessionsTable {
        return Success(None);
      }
      var row := sessionsTable[id];
      var createdAt, lastActive := ParseOrZero(codec, row.createdAt), ParseOrZero(codec, row.lastActive);
      var rows := OrderBySeq(RowsOf(messagesTable, id));
      NumberedRows(RowsOf(messagesTable, id));
      var messages := ScanRows(codec, rows);
      if messages.Failure? {
        return Failure("load messages");
      }
      r := Success(Some(SessionView(messages.value, createdAt, lastActive)));
    }

    method GetOrCreate(id: string, prompt: string, now: nat) returns (r: Result<SessionView, string>)
      requires Valid() && codec.hasStamp(now)
      modifies this
      ensures Valid() && View() == Opened(old(View()), id, prompt, now)
      ensures id in View() && r == Success(View()[id])
    {
      var loaded := LoadSession(id);
      if loaded.Failure? {
        return Failure("load session");
      }
      if loaded.value.Some? {
        return Success(loaded.value.value);
      }
      ghost var ss', ms' := OpenSucceeds(codec, sessionsTable, messagesTable, id, prompt, now);
      var stamp := codec.writeStamp(now);
      // One transaction: both inserts take effect or neither does.
      var ss := InsertSession(sessionsTable, id, SessionRow(prompt, stamp, stamp));
      if ss == None {
        return Failure("insert session");
      }
      var ms := InsertMessage(ss.value, messagesTable, MessageRow(id, 0, "system", prompt, None, None));
      if ms == None {
        return Failure("insert system message");
      }
      sessionsTable, messagesTable := ss.value, ms.value;
      r := Success(SessionView([Plain("system", prompt)], now, now));
    }

    method Get(id: string) returns (r: Result<Option<SessionView>, string>)
      requires Valid()
      ensures r == Success(if id in View() then Some(View()[id]) else None)
    {
      r := LoadSession(id);
    }

    /** Whether the statements all went through. */
    method Append(id: string, msg: Message, now: nat) returns (ok: bool)
      requires Valid() && codec.hasStamp(now)
      modifies this
      ensures Valid() && ok && View() == Extended(old(View()), id, msg, now)
    {
      if id !in sessionsTable {
        return true;
      }
      var row := NextRow(codec, sessionsTable, messagesTable, id, msg);
      ok := AppendRow(id, msg, now, row);
    }

    /** One transaction: the row goes in and the session's stamp moves, or neither. */
    method AppendRow(id: string, msg: Message, now: nat, row: MessageRow) returns (ok: bool)
      requires Valid() && codec.hasStamp(now) && id in sessionsTable
      requires IsNextRow(codec, messagesTable, id, msg, row)
      modifies this
      ensures Valid() && ok && View() == Extended(old(View()), id, msg, now)
    {
      ghost var ss', ms' := AppendSucceeds(codec, sessionsTable, messagesTable, id, msg, now, row);
      var ms := InsertMessage(sessionsTable, messagesTable, row);
      if ms == None {
        return false;
      }
      var stamp := codec.writeStamp(now);
      sessionsTable, messagesTable := sessionsTable[id := sessionsTable[id].(lastActive := stamp)], ms.value;
      ok := true;
    }

    method AppendAndSnapshot(id: string, msg: Message, now: nat) returns (r: Result<seq<Message>, string>)
      requires Valid() && codec.hasStamp(now)
      modifies this
      ensures Valid() && View() == Extended(old(View()), id, msg, now)
      ensures r == Success(Transcript(View(), id))
    {
      var ok := Append(id, msg, now);
      if !ok {
        return Failure("append");
      }
      var loaded := LoadSession(id);
      if loaded.Failure? {
        return Failure("load session");
      }
      r := Success(if loaded.value.Some? then loaded.value.value.messages else []);
    }

    method Len() returns (n: nat)
      requires Valid()
      ensures n == |View()|
    {
      n := |sessionsTable|;
      assert View().Keys == sessionsTable.Keys;
    }

    method Reap(now: nat)
      requires Valid() && 0 <= now - ttl
      modifies this
      ensures Valid() && View() == ReapedByText(codec, old(View()), now - ttl)
    {
      var cutoff := codec.writeStamp(now - ttl);
      var ss := NotOlder(sessionsTable, cutoff);
      var ms := Cascade(ss, messagesTable);
      DeleteKeepsCoupling(codec, sessionsTable, messagesTable, now - ttl, cutoff);
      sessionsTable, messagesTable := ss, ms;
    }
  }

  // ----- both stores under the same requests

  method AskMemory(s: MemoryStore, r: Request, now: nat) returns (reply: Reply)
    requires s.Valid()
    modifies s, s.sessions.Values
    ensures s.Valid() && s.View() == After(old(s.View()), r, now)
    ensures reply == ReplyTo(old(s.View()), r, now)
    ensures forall o :: o in s.sessions.Values ==> o in old(s.sessions.Values) || fresh(o)
  {
    match r {
      case GetOrCreate(id, prompt) =>
        var o := s.GetOrCreate(id, prompt, now);
        reply := Session(Some(o.View()));
        assert s.View()[id] == o.View();
      case Get(id) =>
        var o := s.Get(id);
        reply := Session(if o == null then None else Some(o.View()));
      case Append(id, msg) =>
        s.Append(id, msg, now);
        reply := Ack;
      case AppendAndSnapshot(id, msg) =>
        var snapshot := s.AppendAndSnapshot(id, msg, now);
        reply := Snapshot(snapshot);
      case Len =>
        var n := s.Len();
        reply := Count(n);
    }
  }

  method AskSession(s: SqliteStore, id: string, prompt: string, now: nat) returns (reply: Reply)
    requires s.Valid() && s.codec.hasStamp(now)
    modifies s
    ensures s.Valid() && s.View() == Opened(old(s.View()), id, prompt, now)
    ensures id in s.View() && reply == Session(Some(s.View()[id]))
  {
    var got := s.GetOrCreate(id, prompt, now);
    reply := if got.Success? then Session(Some(got.value)) else Error;
  }

  method AskSnapshot(s: SqliteStore, id: string, msg: Message, now: nat) returns (reply: Reply)
    requires s.Valid() && s.codec.hasStamp(now)
    modifies s
    ensures s.Valid() && s.View() == Extended(old(s.View()), id, msg, now)
    ensures reply == Snapshot(Transcript(s.View(), id))
  {
    var got := s.AppendAndSnapshot(id, msg, now);
    reply := if got.Success? then Snapshot(got.value) else Error;
  }

  method AskSqlite(s: SqliteStore, r: Request, now: nat) returns (reply: Reply)
    requires s.Valid() && s.codec.hasStamp(now)
    modifies s
    ensures s.Valid() && s.View() == After(old(s.View()), r, now)
    ensures reply == ReplyTo(old(s.View()), r, now)
  {
    match r {
      case GetOrCreate(id, prompt) =>
        reply := AskSession(s, id, prompt, now);
      case Get(id) =>
        var got := s.Get(id);
        reply := if got.Success? then Session(got.value) else Error;
      case Append(id, msg) =>
        var ok := s.Append(id, msg, now);
        reply := if ok then Ack else Error;
      case AppendAndSnapshot(id, msg) =>
        reply := AskSnapshot(s, id, msg, now);
      case Len =>
        var n := s.Len();
        reply := Count(n);
    }
  }

  twostate lemma SqliteUntouched(sql: SqliteStore)
    requires old(sql.Valid()) && unchanged(sql)
    ensures sql.Valid() && sql.View() == old(sql.View())
  {}

  twostate lemma MemoryUntouched(mem: MemoryStore)
    requires old(mem.Valid()) && unchanged(mem) && unchanged(old(mem.sessions.Values))
    ensures mem.Valid() && mem.View() == old(mem.View())
  {}

  method AskBoth(mem: MemoryStore, sql: SqliteStore, r: Request, now: nat) returns (a: Reply, b: Reply)
    requires mem.Valid() && sql.Valid() && mem.View() == sql.View() && sql.codec.hasStamp(now)
    modifies mem, mem.sessions.Values, sql
    ensures mem.Valid() && sql.Valid() && mem.View() == sql.View() == After(old(mem.View()), r, now)
    ensures a == b == ReplyTo(old(mem.View()), r, now) && a != Error
    ensures forall o :: o in mem.sessions.Values ==> o in old(mem.sessions.Values) || fresh(o)
  {
    a := AskMemory(mem, r, now);
    SqliteUntouched(sql);
    label Asked:
    b := AskSqlite(sql, r, now);
    MemoryUntouched@Asked(mem);
  }

  /** At this reading the text reaper does what the clock reaper does. */
  ghost predicate SafeTick(c: Codec, st: Store, now: nat, ttl: int, z: Zone) {
    0 <= now - ttl && WritesRfc3339(c, z) && FourDigitYear(now - ttl) && Unflipped(st, now - ttl, z)
  }

  /** The two reapers leave the same store. */
  ghost predicate Agrees(c: Codec, st: Store, now: nat, ttl: int) {
    0 <= now - ttl && ReapedByText(c, st, now - ttl) == Reaped(st, now, ttl)
  }

  lemma StampsOfView(c: Codec, ss: map<string, SessionRow>, ms: seq<MessageRow>)
    requires Coupled(c, ss, ms)
    ensures forall id :: id in ViewOf(c, ss, ms) ==> c.hasStamp(ViewOf(c, ss, ms)[id].lastActive)
  {
    forall id | id in ss ensures c.hasStamp(ViewOf(c, ss, ms)[id].lastActive) {
      assert GoodSession(c, ss[id], RowsOf(ms, id));
    }
  }

  lemma TickIsSafe(c: Codec, ss: map<string, SessionRow>, ms: seq<MessageRow>, st: Store, now: nat, ttl: int, z: Zone)
    requires Coupled(c, ss, ms) && st == ViewOf(c, ss, ms) && SafeTick(c, st, now, ttl, z)
    ensures Agrees(c, st, now, ttl)
  {
    StampsOfView(c, ss, ms);
    SameReap(c, st, now, ttl, now - ttl, z);
  }

  method ReapSqlite(sql: SqliteStore, now: nat, ghost left: Store)
    requires sql.Valid() && 0 <= now - sql.ttl && left == ReapedByText(sql.codec, sql.View(), now - sql.ttl)
    modifies sql
    ensures sql.Valid() && sql.View() == left
  {
    sql.Reap(now);
  }

  method ReapBoth(mem: MemoryStore, sql: SqliteStore, now: nat)
    requires mem.Valid() && sql.Valid() && mem.View() == sql.View() && mem.ttl == sql.ttl
    requires Agrees(sql.codec, sql.View(), now, sql.ttl)
    modifies mem, sql
    ensures mem.Valid() && sql.Valid() && mem.View() == sql.View() == Reaped(old(mem.View()), now, mem.ttl)
    ensures forall o :: o in mem.sessions.Values ==> o in old(mem.sessions.Values)
  {
    ghost var left := ReapedByText(sql.codec, sql.View(), now - sql.ttl);
    mem.Reap(now);
    SqliteUntouched(sql);
    label Ticked:
    ReapSqlite(sql, now, left);
    MemoryUntouched@Ticked(mem);
  }

  /** Every tick of the reapers comes when no session is flipped with the cutoff. */
  ghost predicate SafeTicks(c: Codec, st: Store, log: seq<Entry>, ttl: int, z: Zone) {
    forall i :: 0 <= i < |log| && log[i].ReapAt? ==> SafeTick(c, Played(st, log[..i], ttl), log[i].now, ttl, z)
  }

  lemma PlayedOn(st: Store, log: seq<Entry>, i: nat, ttl: int)
    requires i < |log|
    ensures Played(st, log[..i + 1], ttl) == Step(Played(st, log[..i], ttl), log[i], ttl)
  {
    assert log[..i + 1][..i] == log[..i];
  }

  /** The two stores cannot be told apart: any sequence of requests, and of reaps
      that meet no flipped session, at equal clock readings, gets equal replies
      and leaves equal contents, those of the abstract store. */
  method Lockstep(mem: MemoryStore, sql: SqliteStore, log: seq<Entry>, ghost z: Zone)
      returns (fromMemory: seq<Reply>, fromSqlite: seq<Reply>)
    requires mem.Valid() && sql.Valid() && mem.View() == sql.View() && mem.ttl == sql.ttl
    requires forall i :: 0 <= i < |log| && log[i].Ask? ==> sql.codec.hasStamp(log[i].now)
    requires SafeTicks(sql.codec, mem.View(), log, mem.ttl, z)
    modifies mem, mem.sessions.Values, sql
    ensures mem.Valid() && sql.Valid() && mem.View() == sql.View() == Played(old(mem.View()), log, mem.ttl)
    ensures fromMemory == fromSqlite && Error !in fromSqlite
    ensures |fromMemory| == |log|
  {
    fromMemory, fromSqlite := [], [];
    ghost var before := mem.View();
    for i := 0 to |log|
      invariant mem.Valid() && sql.Valid() && mem.View() == sql.View() == Played(before, log[..i], mem.ttl)
      invariant fromMemory == fromSqlite && |fromMemory| == i && Error !in fromSqlite
      invariant forall o :: o in mem.sessions.Values ==> o in old(mem.sessions.Values) || fresh(o)
    {
      PlayedOn(before, log, i, mem.ttl);
      var a, b := Ack, Ack;
      match log[i] {
        case Ask(request, now) => a, b := AskBoth(mem, sql, request, now);
        case ReapAt(now) =>
          TickIsSafe(sql.codec, sql.sessionsTable, sql.messagesTable, sql.View(), now, sql.ttl, z);
          ReapBoth(mem, sql, now);
      }
      fromMemory, fromSqlite := fromMemory + [a], fromSqlite + [b];
    }
    assert log[..|log|] == log;
  }
}
