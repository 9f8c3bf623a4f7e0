/** Conversation sessions: what both stores mean, and the in-memory store. */
module Sessions {
  import opened Common
  import Llm

  type ToolCall = Llm.ToolCall<string, string>

  type ToolResult = Llm.ToolResultContent<string>

  type Message = Llm.Message<string, string>

  function Plain(role: string, content: string): Message { Llm.Message(role, content, [], []) }

  /** What a caller sees of a session; times are nanoseconds. */
  datatype SessionView = SessionView(messages: seq<Message>, createdAt: nat, lastActive: nat)

  type Store = map<string, SessionView>

  function NewSession(prompt: string, now: nat): SessionView {
    SessionView([Plain("system", prompt)], now, now)
  }

  function Opened(st: Store, id: string, prompt: string, now: nat): Store {
    if id in st then st else st[id := NewSession(prompt, now)]
  }

  function Extended(st: Store, id: string, msg: Message, now: nat): Store {
    if id in st then st[id := st[id].(messages := st[id].messages + [msg], lastActive := now)] else st
  }

  function Transcript(st: Store, id: string): seq<Message> { if id in st then st[id].messages else [] }

  predicate Expired(s: SessionView, now: int, ttl: int) { now - s.lastActive > ttl }

  /** The sessions a reaper with the given clock leaves alone. */
  function Reaped(st: Store, now: int, ttl: int): Store {
    map id | id in st && !Expired(st[id], now, ttl) :: st[id]
  }

  datatype Request =
    | GetOrCreate(id: string, prompt: string)
    | Get(id: string)
    | Append(id: string, msg: Message)
    | AppendAndSnapshot(id: string, msg: Message)
    | Len

  datatype Reply = Session(view: Option<SessionView>) | Ack | Snapshot(messages: seq<Message>) | Count(n: nat) | Error

  function After(st: Store, r: Request, now: nat): Store {
    match r
    case GetOrCreate(id, prompt) => Opened(st, id, prompt, now)
    case Append(id, msg) => Extended(st, id, msg, now)
    case AppendAndSnapshot(id, msg) => Extended(st, id, msg, now)
    case _ => st
  }

  function ReplyTo(st: Store, r: Request, now: nat): Reply {
    var after := After(st, r, now);
    match r
    case GetOrCreate(id, _) => Session(Some(after[id]))
    case Get(id) => Session(if id in st then Some(st[id]) else None)
    case Append(_, _) => Ack
    case AppendAndSnapshot(id, _) => Snapshot(Transcript(after, id))
    case Len => Count(|st|)
  }

  /** What happens to a store: a request, or a tick of its reaper. */
  datatype Entry = Ask(request: Request, now: nat) | ReapAt(now: nat)

  function Step(st: Store, e: Entry, ttl: int): Store {
    match e
    case Ask(request, now) => After(st, request, now)
    case ReapAt(now) => Reaped(st, now, ttl)
  }

  /** The contents after a log of requests and ticks. */
  function Played(st: Store, log: seq<Entry>, ttl: int): Store {
    if log == [] then st else Step(Played(st, log[..|log| - 1], ttl), log[|log| - 1], ttl)
  }

  // ----- the in-memory store

  class SessionObject {
    const id: string
    var messages: seq<Message>
    const createdAt: nat
    var lastActive: nat

    constructor (id: string, prompt: string, now: nat)
      ensures this.id == id && View() == NewSession(prompt, now)
    {
      this.id := id;
      messages := [Plain("system", prompt)];
      createdAt := now;
      lastActive := now;
    }

    function View(): SessionView
      reads this
    {
      SessionView(messages, createdAt, lastActive)
    }
  }

  class MemoryStore {
    const ttl: int
    var sessions: map<string, SessionObject>

    /** Each session is filed under its own id, so no object is filed twice. */
    ghost predicate Valid()
      reads this, sessions.Values
    {
      forall id :: id in sessions ==> sessions[id].id == id
    }

    ghost function View(): Store
      reads this, sessions.Values
    {
      map id | id in sessions :: sessions[id].View()
    }

    constructor (ttl: int)
      ensures Valid() && View() == map[] && this.ttl == ttl && sessions == map[]
    {
      this.ttl := ttl;
      sessions := map[];
    }

    method GetOrCreate(id: string, prompt: string, now: nat) returns (s: SessionObject)
      requires Valid()
      modifies this
      ensures Valid() && id in sessions && s == sessions[id]
      ensures View() == Opened(old(View()), id, prompt, now)
      ensures forall o :: o in sessions.Values ==> o in old(sessions.Values) || fresh(o)
    {
      if id in sessions {
        return sessions[id];
      }
      s := new SessionObject(id, prompt, now);
      sessions := sessions[id := s];
      assert forall k :: k in sessions && k != id ==> k in old(sessions) && sessions[k] == old(sessions)[k];
    }

    method Get(id: string) returns (s: SessionObject?)
      requires Valid()
      ensures id in sessions ==> s == sessions[id]
      ensures id !in sessions ==> s == null
    {
      s := if id in sessions then sessions[id] else null;
    }

    method Append(id: string, msg: Message, now: nat)
      requires Valid()
      modifies sessions.Values
      ensures Valid() && View() == Extended(old(View()), id, msg, now)
    {
      if id !in sessions {
        return;
      }
      var s := sessions[id];
      s.messages := s.messages + [msg];
      s.lastActive := now;
      assert forall k :: k in sessions && k != id ==> sessions[k] != s;
    }

    method AppendAndSnapshot(id: string, msg: Message, now: nat) returns (snapshot: seq<Message>)
      requires Valid()
      modifies sessions.Values
      ensures Valid() && View() == Extended(old(View()), id, msg, now)
      ensures snapshot == Transcript(View(), id)
    {
      if id !in sessions {
        return [];
      }
      var s := sessions[id];
      s.messages := s.messages + [msg];
      s.lastActive := now;
      assert forall k :: k in sessions && k != id ==> sessions[k] != s;
      snapshot := s.messages;
    }

    method Len() returns (n: nat)
      requires Valid()
      ensures n == |View()|
    {
      n := |sessions|;
      assert View().Keys == sessions.Keys;
    }

    method Reap(now: int)
      requires Valid()
      modifies this
      ensures Valid() && View() == Reaped(old(View()), now, ttl)
      ensures forall o :: o in sessions.Values ==> o in old(sessions.Values)
    {
      var todo := sessions.Keys;
      while todo != {}
        invariant todo <= sessions.Keys <= old(sessions.Keys)
        invariant forall id :: id in sessions ==> sessions[id] == old(sessions)[id]
        invariant forall id :: id in old(sessions) && id !in todo ==>
                    (id in sessions <==> !Expired(old(sessions)[id].View(), now, ttl))
        decreases todo
      {
        var id :| id in todo;
        todo := todo - {id};
        if now - sessions[id].lastActive > ttl {
          sessions := sessions - {id};
        }
      }
    }
  }
}
