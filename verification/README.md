# A verified model of DocsClaw's stateful core

DocsClaw is an agent runtime. Most of it joins SDKs together, but several of its
parts hold real state machines, concurrency, or a transformation that has to
preserve a meaning. This project models those parts in Dafny and proves what
they promise: over every input, every run, or every interleaving.

| module | what it models |
|---|---|
| `KeyCache`, `KeyCacheRuns` | the issuer-key cache: the object behind the mutex, and every interleaving of its callers |
| `TokenCheck`, `Middleware`, `Words` | token verification as a decision list, the bearer middleware, white-space splitting |
| `Sessions`, `SqliteSessions`, `Columns`, `Stamps`, `Text` | the two session stores, text columns that suit one of them, the timestamp text it compares, and text order |
| `ExecutorRuns`, `SessionKeys` | message executions interleaved with the session reaper; the key a session is stored under |
| `CardForms`, `CardGate` | the payload forms a card signature may cover; the gate in front of peer calls |
| `Utf8`, `JsonText`, `ChatStream`, `ToolCallDeltas`, `ChatReceiver`, `StreamLimits`, `StreamWire` | printing a chat-completion stream, reading one, reassembling tool calls, what a stream can carry, and reading whatever a server of the protocol sends |
| `Registry`, `ToolLoop`, `Truncation`, `ContextLoader` | the agentic tool loop, its tool registry, and the cutting of texts to size |
| `Dashboard`, `Batch` | a scenario run with its goroutines; splitting documents over agents and ranking results |
| `Llm` | messages, tool calls and tool results |
| `Common` | options, results, minimum and maximum |

Code that changes state is imperative Dafny: the key source, both stores, the
card memo, the tool registry, the scenario server and the request are classes,
and the loops of the parsers, printers, strippers, splitters and loaders are
loops, each proved against a specification function whose own properties are
proved beside it. Concurrency is modelled in two ways. Where the interleaving
matters (key cache, card gate, executor and reaper, dashboard) a step system
makes every lock hold one atomic step and a run is a sequence of states. Where
goroutines only fill slots of their own (tool calls of one turn, batch workers)
a loop picks the next one to finish arbitrarily.

What the environment does is an argument or a step label, so that every theorem
is about all of it: fetch outcomes, model answers, tool results, hook decisions,
the clock, signature verification, JSON columns. Time is in nanoseconds.

Some results say exactly when a promise of the code's comments holds, because it
does not always; the model follows the code:

- the SQLite reaper and the in-memory reaper agree on a session if and only if
  text order and time order agree on its last activity and the cutoff
  (`SqliteSessions.ReapersAgree`), and on a whole store if and only if they do on
  each session (`SqliteSessions.SameReap`); they differ only in UTC and within one second,
  and do differ on a session half a second short of its ttl when the cutoff is a
  whole second (`SqliteSessions.ReapersDisagree`);
- a served stream is received without error if and only if every event line fits
  the 64 KiB scanner, and then with the same content if and only if that content
  was well-formed UTF-8 (`ChatReceiver.StreamRoundTrip`). A line fits if and only
  if what it escapes leaves room for the rest (`StreamLimits.CompleteExactly`); one
  long word does not fit (`StreamLimits.LongWordFails`), and one malformed byte
  arrives as U+FFFD (`StreamLimits.BadByteIsReplaced`);
- when a scenario run ends, an agent is still shown as pending, deploying, ready
  or working if and only if the remote agent itself answered with that word
  (`Dashboard.FinalPhase`), and a run can end that way
  (`Dashboard.DoneWithPendingAgent`);
- two callers can share a session if and only if the prefix of one continues the
  prefix of the other within the length of an ID (`SessionKeys.SharedSessionIff`);
- trying several payload forms (four, where a comment speaks of two) binds a
  signature to the non-default properties of a card: two cards have one normal
  form if and only if they agree on those (`CardForms.SameNormalIffAgree`), an
  accepted card agrees with the signed one (`CardForms.SignedAgreesWithServed`),
  and a card signed in normal form is accepted if and only if the served card
  agrees with it (`CardForms.BoundExactly`);
- a transcript never holds more answers than questions as long as no reap deleted
  its session under an execution that had opened it and not yet answered; idle
  reaps and reopening do no harm (`ExecutorRuns.TranscriptIsBalanced`). Such a reap
  happens for every ttl (`ExecutorRuns.CatchIsReachable`) and a run can then end
  with an answer and no question (`ExecutorRuns.ReapBreaksBalance`). From any state
  of any run, all that can follow without a further catch is balanced if and only
  if the questions outnumber the answers by the executions still to answer and
  whoever has opened the session finds it there (`ExecutorRuns.SafeExactly`).

## Model

| member | source | states |
|---|---|---|
| KeyCache.KeySource.constructor | pkg/inboundauth/keys.go:38-40 | a new cache holds no key and has attempted nothing |
| KeyCache.KeySource.Enter | pkg/inboundauth/keys.go:42-86 | a call is answered at once exactly when its key is cached or a refresh was attempted less than the interval ago, waits exactly when otherwise a refresh is in flight, and claims one exactly when none is; only that changes the state, opening a fresh signal |
| KeyCache.KeySource.Reread | pkg/inboundauth/keys.go:68-78 | a woken waiter is answered from the state it finds and changes nothing |
| KeyCache.KeySource.Finish | pkg/inboundauth/keys.go:90-112 | the second lock hold publishes a success or only records a failure, closes the caller's own signal and answers from the caller's own fetch |
| KeyCache.CollectKeys | pkg/inboundauth/keys.go:141-153 | the fetched map holds, for every named key ID, the last key listed under it, and nothing unnamed |
| KeyCacheRuns.StepKeepsFlight | pkg/inboundauth/keys.go:42-113 | at most one refresh is in flight, `refreshing` and an open `refreshDone` hold exactly while it is, and every waiter holds that signal or a closed one |
| KeyCacheRuns.StepKeepsHistory | pkg/inboundauth/keys.go:42-113 | the cached keys and failure flag are a function of the completed fetches, stamps stay apart, answers stay justified |
| KeyCacheRuns.InvThroughout | pkg/inboundauth/keys.go:42-113 | the whole invariant holds in every state of every run |
| KeyCacheRuns.NeverStuckOnNilSignal | pkg/inboundauth/keys.go:60-67 | no reachable state lets a caller wait on a signal that does not exist |
| KeyCacheRuns.WaiterIsServed | pkg/inboundauth/keys.go:60-66 | a waiter's signal is closed or belongs to a fetch in flight whose end closes it: no lost wake-up |
| KeyCacheRuns.PublishedFromAFetch | pkg/inboundauth/keys.go:88-94 | published keys are those of a completed success followed only by failures |
| KeyCacheRuns.KeysAreLastSuccess | pkg/inboundauth/keys.go:88-97 | in every run the keys equal the result of the last successful completed fetch, and only such a fetch changes them |
| KeyCacheRuns.AnswersAreJustified | pkg/inboundauth/keys.go:44-112 | every answer follows from the fetches completed before it: a key from one that delivered it, "unknown" without a trailing failure, "unavailable" from a failure or the caller's own cancellation |
| KeyCacheRuns.NewCallMeets | pkg/inboundauth/keys.go:42-86 | in every run a new call is answered at once exactly when the last published keys hold its key ID or a refresh was stamped within the interval; otherwise it waits exactly when a fetch is in flight, and starts one, with a new stamp, when none is |
| KeyCacheRuns.SpacedApart | pkg/inboundauth/keys.go:51-58 | refresh stamps n places apart differ by at least n minimum intervals |
| KeyCacheRuns.RefreshRate | pkg/inboundauth/keys.go:51-86 | any window of length W holds at most floor(W/M)+1 refresh stamps |
| KeyCacheRuns.WaitMeansSlowFetch | pkg/inboundauth/keys.go:51-66 | a caller starts to wait only when the fetch in flight has run for at least the minimum interval |
| KeyCacheRuns.NobodyWaits | pkg/inboundauth/keys.go:51-66 | when fetches end within a timeout below the interval, no reachable state has a waiter |
| KeyCacheRuns.NobodyWaitsByDefault | pkg/inboundauth/config.go:11-14 | so with the 60 s default and the 10 s fetch timeout nobody ever waits |
| TokenCheck.CollectStrings | pkg/inboundauth/verify.go:173-181 | the string entries of a list claim, in order, others skipped |
| TokenCheck.CollectScopes | pkg/inboundauth/verify.go:158-184 | the scopes of `scope`, then those of `scp` in whichever form it comes |
| TokenCheck.StringsOfList | pkg/inboundauth/verify.go:173-181 | a list claim grants exactly its string entries |
| TokenCheck.ScopeCheckMeans | pkg/inboundauth/verify.go:103-111 | for every form of the two claims the scope check holds exactly when nothing is required or a required scope is a maximal non-blank run of the `scope` or `scp` text or an entry of the `scp` list |
| TokenCheck.CallerAllowed | pkg/inboundauth/verify.go:197-211 | a non-empty caller is allowed exactly when some entry equals it or, ending in a slash, is a prefix of it |
| TokenCheck.ContainsAny | pkg/inboundauth/verify.go:213-229 | true exactly when the two lists share an element |
| TokenCheck.VerifyKey | pkg/inboundauth/verify.go:45-74 | the checks up to the signature decide: none fails, or the first failing one gives the code |
| TokenCheck.VerifyTimes | pkg/inboundauth/verify.go:76-92 | the time checks decide, in order |
| TokenCheck.VerifyPolicy | pkg/inboundauth/verify.go:93-121 | issuer, audience, scope, caller and payload decide, in order |
| TokenCheck.VerifyToken | pkg/inboundauth/verify.go:41-132 | accepted exactly when key, times, issuer, audience, scope, caller and payload are right in the token's own terms, and each code exactly under its own condition; the claims are the token's, its caller the one it names and its scopes those it grants |
| TokenCheck.DecisionMeans | pkg/inboundauth/verify.go:41-132 | what the list of checks decides, spelled out: the condition of acceptance and of each of the nine codes |
| TokenCheck.CallerSpelledOut | pkg/inboundauth/verify.go:186-211 | the caller is a non-empty `azp`, or else `client_id`; an entry allows a caller it equals, or that lies below it when it ends in a slash |
| TokenCheck.StringsInOrder | pkg/inboundauth/verify.go:173-181 | the strings of a list claim come in its order |
| TokenCheck.DecisionIsUnique | pkg/inboundauth/verify.go:41-44 | a list of checks has one verdict, so the order of checks fixes the code |
| TokenCheck.AcceptingTimes | pkg/inboundauth/verify.go:76-92 | for a fixed token and key the accepting times are exactly the interval from max(nbf, iat)-skew to exp+skew |
| TokenCheck.SkewWidens | pkg/inboundauth/verify.go:77-92 | a larger skew accepts whatever a smaller one did |
| Words.TrimBetween | pkg/inboundauth/middleware.go:68-78 | trimming finds the text between any two runs of white space |
| Words.FieldsAreExactly | pkg/inboundauth/verify.go:158-170 | a text has given fields exactly when it is laid out as those words with white space between them and any white space around them |
| Words.FieldsAreRuns | pkg/inboundauth/verify.go:158-170 | a word is a field exactly when it is a maximal non-blank stretch of the text |
| Words.JoinedRoundTrip | pkg/inboundauth/verify.go:158-170 | a list of scopes with one space between them reads back as those scopes |
| Words.FieldsAreWords | pkg/inboundauth/verify.go:158-170 | every scope read from a string is non-empty and free of white space |
| Words.AsciiSpaces | pkg/inboundauth/verify.go:158-170 | which ASCII characters separate scopes |
| Middleware.BearerReads | pkg/inboundauth/middleware.go:68-78 | every well-formed Bearer value, in any case and spacing, gives its token |
| Middleware.BearerSplits | pkg/inboundauth/middleware.go:68-78 | whatever gives a token is a well-formed Bearer value |
| Middleware.BearerValues | pkg/inboundauth/middleware.go:68-78 | the parser accepts exactly the well-formed values |
| Middleware.PlainBearer | pkg/inboundauth/middleware.go:68-78 | the scheme in any case, one space and a token give that token |
| Middleware.IsExempt | pkg/inboundauth/middleware.go:55-66 | exempt means the cleaned path is listed verbatim |
| Middleware.Decide | pkg/inboundauth/middleware.go:18-53 | `next` is reached on a non-exempt path exactly for one well-formed Bearer value whose token is accepted in its own terms, and with that token's claims; missing, malformed and failing requests get their own codes |
| Middleware.Handle | pkg/inboundauth/middleware.go:18-53 | a served request has lost its Authorization header and nothing else and carries the identity of its own token; a denied one is untouched |
| Middleware.AcceptedUnderFetchedKey | pkg/inboundauth/verify.go:61-74 | in every interleaving of the key cache, an accepted token is signed under a key some completed fetch delivered for its key ID |
| Sessions.MemoryStore.GetOrCreate | internal/session/store.go:46-66 | opens the session with its system prompt unless it exists |
| Sessions.MemoryStore.Get | internal/session/store.go:68-72 | the session under that ID, if any, and nothing changes |
| Sessions.MemoryStore.Append | internal/session/store.go:74-85 | the one session grows by the message and becomes active; an unknown ID changes nothing |
| Sessions.MemoryStore.AppendAndSnapshot | internal/session/store.go:87-101 | as Append, and the snapshot is the whole transcript |
| Sessions.MemoryStore.Len | internal/session/store.go:103-107 | the number of sessions |
| Sessions.MemoryStore.Reap | internal/session/store.go:127-140 | exactly the sessions idle longer than the ttl go |
| SqliteSessions.TimestampsAreFaithful | internal/session/sqlite_store.go:90-91 | the stored timestamp format reads back as written |
| SqliteSessions.RowRoundTrip | internal/session/sqlite_store.go:158-184 | a message written as a row reads back as that message |
| Columns.ColumnsAreFaithful | internal/session/sqlite_store.go:172-181 | columns that give back every tool list and timestamp exist: what the store needs of its columns can be met, in every zone |
| Columns.CallsRoundTrip | internal/session/sqlite_store.go:172-176 | every list of tool calls printed as a JSON column reads back as itself |
| Columns.ResultsRoundTrip | internal/session/sqlite_store.go:177-181 | so does every list of tool results |
| SqliteSessions.CascadeKeepsRows | internal/session/sqlite_store.go:296-305 | deleting sessions removes their rows and keeps the other sessions' rows in order |
| SqliteSessions.NumberedRows | internal/session/sqlite_store.go:255-258 | rows numbered from 0 give the row count as next number and are already in order |
| SqliteSessions.NextRowIsFree | internal/session/sqlite_store.go:255-266 | in coupled tables MAX(seq)+1 is the row count and the insert never breaks a constraint |
| SqliteSessions.FirstRowIsFree | internal/session/sqlite_store.go:107-113 | a new session has no rows, so the insert at seq 0 never breaks a constraint |
| SqliteSessions.OneSessionChanges | internal/session/sqlite_store.go:221-280 | writing one session's rows leaves the view of all others alone |
| SqliteSessions.OpenKeepsCoupling | internal/session/sqlite_store.go:90-125 | creating a session keeps the coupling and is the abstract Opened |
| SqliteSessions.AppendKeepsCoupling | internal/session/sqlite_store.go:221-280 | appending keeps the coupling and is the abstract Extended |
| SqliteSessions.OpenSucceeds | internal/session/sqlite_store.go:90-125 | both inserts of a creation go through, and what they leave is the abstract Opened |
| SqliteSessions.NextRow | internal/session/sqlite_store.go:255-266 | the row for a message is numbered by the rows its session has, reads back as the message, and its insert goes through |
| SqliteSessions.AppendSucceeds | internal/session/sqlite_store.go:245-279 | the insert of the next row goes through, and with the new stamp it leaves the abstract Extended |
| SqliteSessions.DeleteKeepsCoupling | internal/session/sqlite_store.go:296-305 | reaping keeps the coupling: no orphan row, no renumbering |
| SqliteSessions.ScanRows | internal/session/sqlite_store.go:158-187 | loading succeeds exactly when every row decodes, and gives the messages in row order |
| SqliteSessions.SqliteStore.LoadSession | internal/session/sqlite_store.go:134-195 | never fails on coupled tables and returns exactly the abstract session |
| SqliteSessions.SqliteStore.GetOrCreate | internal/session/sqlite_store.go:78-126 | refines the abstract Opened and answers with the session |
| SqliteSessions.SqliteStore.Append | internal/session/sqlite_store.go:197-201 | every statement goes through and the store refines the abstract Extended |
| SqliteSessions.SqliteStore.AppendAndSnapshot | internal/session/sqlite_store.go:203-219 | refines Extended and answers with the whole transcript |
| SqliteSessions.SqliteStore.Len | internal/session/sqlite_store.go:70-76 | the number of abstract sessions |
| SqliteSessions.SqliteStore.Reap | internal/session/sqlite_store.go:296-309 | deletes exactly the sessions whose stored text sorts before the cutoff's |
| SqliteSessions.AskMemory | internal/session/store.go:46-107 | each request to the in-memory store has the specified reply and effect |
| SqliteSessions.AskSqlite | internal/session/sqlite_store.go:70-280 | each request to the table store has the same specified reply and effect |
| SqliteSessions.ReapBoth | internal/session/store.go:127-140 | a reap of both stores, where the two reapers agree, leaves both with the sessions the clock spares |
| SqliteSessions.Lockstep | internal/session/store.go:21-29 | any sequence of requests, and of reaps that meet no flipped session, at equal clock readings, gets equal replies from both stores, no error, and leaves both with the contents of the abstract store |
| Stamps.FieldsOrder | internal/session/sqlite_store.go:300-301 | earlier seconds have lexicographically smaller date and clock fields |
| Stamps.TrimKeepsOrder | internal/session/sqlite_store.go:300-301 | trimming trailing zeros keeps the order of equally long digit strings |
| Stamps.TextOrder | internal/session/sqlite_store.go:296-309 | text order of two timestamps is time order except exactly when, in UTC and within one second, one trimmed fraction extends the other |
| Stamps.FlipIsReachable | internal/session/sqlite_store.go:296-309 | half a second past a whole second sorts before it in UTC; numeric offsets never flip |
| Stamps.StampRoundTrip | internal/session/sqlite_store.go:146-147 | parsing a formatted instant gives the instant back |
| Stamps.GregorianDays | internal/session/sqlite_store.go:90-91 | the days before a year by the three leap-year rules in closed form |
| Stamps.FormatIsCivil | internal/session/sqlite_store.go:90-91 | a stored timestamp spells the Gregorian date and clock time of its instant with the separators of RFC 3339, then the fraction and the zone |
| Stamps.FractionIs | internal/session/sqlite_store.go:90-91 | no fraction for a whole second, otherwise a point and the nanoseconds without trailing zeros |
| SqliteSessions.TextBelowCutoff | internal/session/sqlite_store.go:300-301 | the text comparison decides as the clock would unless the two timestamps are flipped |
| SqliteSessions.ReapersAgree | internal/session/sqlite_store.go:296-309 | the two reapers treat a session alike exactly when its last activity and the cutoff are not flipped |
| SqliteSessions.SameReap | internal/session/sqlite_store.go:296-309 | the two reapers leave the same store exactly when no session's last activity is flipped with the cutoff |
| SqliteSessions.ReapersDisagree | internal/session/sqlite_store.go:296-309 | in UTC, whenever the cutoff is a whole second, a session half a second short of its ttl is deleted by one reaper and kept by the other |
| SqliteSessions.ReaperWithinASecond | internal/session/sqlite_store.go:296-309 | idle for at least ttl+1s is deleted, idle for at most ttl-1s is kept, in every zone |
| ExecutorRuns.DeathIsAReap | internal/session/store.go:127-140 | a session that was there and is gone fell to a reap in between |
| ExecutorRuns.StepKeepsStore | internal/bridge/executor.go:94-133 | every stored session was created and since then not reaped, and starts with the system prompt |
| ExecutorRuns.InvThroughout | internal/bridge/executor.go:38-142 | the invariant of store, executions and events holds in every state of every interleaving |
| ExecutorRuns.ReapKeepsTurns | internal/session/store.go:127-140 | a reap that catches no busy execution of a session leaves nobody with a question asked and no session to answer in |
| ExecutorRuns.OrderThroughout | internal/bridge/executor.go:94-133 | along every trace whose reaps spare the session, its questions outnumber its answers by at least the executions still to answer, and whoever opened it finds it there |
| ExecutorRuns.SnapshotEndsWithOwnMessage | internal/bridge/executor.go:94-118 | the messages handed to the processor end with the caller's own message unless a reap of that session, idle longer than the ttl, fell between opening and appending |
| ExecutorRuns.TranscriptIsBalanced | internal/bridge/executor.go:94-133 | a transcript starts with the system prompt and, if no reap so far caught a busy execution of its session, no prefix has more answers than questions |
| ExecutorRuns.EventsFollowProtocol | internal/bridge/executor.go:38-142 | at every moment an execution has sent a prefix of [Submitted] Working and then Failed, or Artifact and Completed |
| ExecutorRuns.EndedHasSentAll | internal/bridge/executor.go:38-142 | an execution that is over has sent the whole sequence, up to Failed or Completed, unless its consumer stopped |
| ExecutorRuns.ResultIsSavedAndSent | internal/bridge/executor.go:105-142 | once the processor has returned a result, exactly one step of the execution writes, adding the assistant's message with that result to its session if it is still there, and any artifact holds that result; after an error nothing is saved and there is no artifact |
| ExecutorRuns.OneOutcome | internal/bridge/executor.go:105-120 | the processor returns to an execution at most once |
| ExecutorRuns.ArtifactIsAResult | internal/bridge/executor.go:120-142 | every artifact is a result the processor returned to this execution |
| ExecutorRuns.EndedTellsOutcome | internal/bridge/executor.go:38-142 | a finished execution whose consumer went on has sent its result and Completed, or Failed, as the processor's outcome calls for |
| ExecutorRuns.StopEnds | internal/bridge/executor.go:38-142 | an event whose consumer does not go on is the last |
| ExecutorRuns.ExecIsAsBegun | internal/bridge/executor.go:38-95 | an execution keeps the session key, text and newness it began with |
| ExecutorRuns.SnapshotIsTaken | internal/bridge/executor.go:94-118 | the processor is given the whole session as the execution's own message left it, the prompt and that message without sessions, or nothing when the session is gone |
| ExecutorRuns.MessageHasAuthor | internal/bridge/executor.go:94-133 | every message that comes to a session is the text of one of its executions or a result its processor returned |
| ExecutorRuns.CaughtBreaksBalance | internal/bridge/executor.go:94-133 | from every state after a reap that caught a busy execution, steps lead to a transcript that is the prompt and an answer without a question |
| ExecutorRuns.SafeExactly | internal/bridge/executor.go:94-133 | from any state of a run, whatever was caught before, every future without a further catch keeps the transcript balanced exactly when its questions outnumber its answers by the executions still to answer and whoever opened the session finds it there |
| ExecutorRuns.ReapSparesBalance | internal/bridge/executor.go:94-133 | after a run that spared the session, one more reap is safe in that sense exactly when it catches no busy execution |
| ExecutorRuns.CatchIsReachable | internal/session/store.go:127-140 | for every ttl, a run from the empty store in which a message outlasts the ttl, so that the next reap catches its execution |
| ExecutorRuns.ReapBreaksBalance | internal/bridge/executor.go:94-133 | for every configuration with sessions and a processor, and every key, a run from the empty store that ends with an answer and no question |
| SessionKeys.SharedSessionIff | internal/bridge/executor.go:89-155 | two verified callers can reach one session exactly when one prefix continues the other by fewer than 64 characters |
| SessionKeys.KeyIs | internal/bridge/executor.go:145-155 | the key is subject, party and at most 64 characters of the ID between bars; without a caller the ID alone; an empty ID is no key |
| SessionKeys.PlainNamesAreIsolated | internal/bridge/executor.go:145-155 | distinct callers whose names hold no separator never share a session |
| SessionKeys.SeparatorShares | internal/bridge/executor.go:151-152 | a separator inside a name is enough for two callers to share one |
| CardForms.DropZeros | internal/a2acall/cardverify.go:309-321 | deleting while ranging removes exactly the zero entries |
| CardForms.StripValues | internal/a2acall/cardverify.go:297-323 | required properties and non-zero values stay, capabilities lose their zero entries |
| CardForms.DropEmptyRequired | internal/a2acall/cardverify.go:247-256 | exactly the empty required properties go |
| CardForms.ZeroValues | internal/a2acall/cardverify.go:325-365 | the values a pass strips are exactly null, the empty string, array and object, and for the full pass false and zero |
| CardForms.FormsSpelledOut | internal/a2acall/cardverify.go:211-323 | the four forms property by property, with the eight required names and the default values written out |
| CardForms.CardPayloads | internal/a2acall/cardverify.go:211-241 | the candidates are the canonical payloads of the four forms, each once |
| CardForms.NormalKeeps | internal/a2acall/cardverify.go:243-323 | which properties survive every stripping pass, and with what value |
| CardForms.NormalOfStripped | internal/a2acall/cardverify.go:286-323 | stripping less first does not change the normal form |
| CardForms.NormalIsIdempotent | internal/a2acall/cardverify.go:243-323 | the normal form is a normal form |
| CardForms.FormsShareNormal | internal/a2acall/cardverify.go:219-224 | all four candidate forms have the normal form of the served card |
| CardForms.SameNormalAgree | internal/a2acall/cardverify.go:282-365 | equal normal forms agree on every non-default property, at top level and inside capabilities |
| CardForms.SameNormalIffAgree | internal/a2acall/cardverify.go:282-365 | two cards have one normal form exactly when they agree on every non-default property, at top level and inside capabilities |
| CardForms.SignedAgreesWithServed | internal/a2acall/cardverify.go:201-241 | whatever object was signed, if its payload is among the candidates it agrees with the served card on every non-default property |
| CardForms.TamperedIsRefused | internal/a2acall/cardverify.go:201-241 | a card that says something else under some name than was signed, an added, changed or removed non-default value, has another payload in each of its forms |
| CardForms.TamperedCapabilityIsRefused | internal/a2acall/cardverify.go:201-241 | so has a card that says something else of a capability |
| CardForms.NormalCardAccepted | internal/a2acall/cardverify.go:211-241 | a card signed in normal form is a candidate exactly when the served card has that normal form |
| CardForms.BoundExactly | internal/a2acall/cardverify.go:201-241 | a card signed in normal form is a candidate exactly when the served card agrees with it on every non-default property |
| CardForms.ReServedWithDefaults | internal/a2acall/cardverify.go:201-223 | re-serving a default-stripped signed card with default-valued optional properties added still yields the signed card |
| CardForms.DefaultsAreNotBound | internal/a2acall/cardverify.go:243-256 | an explicit false capability and its absence are covered by one signature |
| CardForms.VerifySignature | internal/a2acall/cardverify.go:367-404 | an entry is malformed, verifies over some payload, or verifies over none |
| CardForms.VerifyCard | internal/a2acall/cardverify.go:134-154 | the loop with its two flags computes the verdict of the set of entry kinds |
| CardForms.VerifyServed | internal/a2acall/cardverify.go:101-154 | accepted exactly when a well-formed entry verifies over one of the four forms; a format error exactly when there are entries and none is well formed |
| CardForms.AcceptedAgreesWithSigned | internal/a2acall/cardverify.go:201-210 | with a sound verifier an accepted card agrees with a signed one on every non-default property |
| CardForms.OrderIsIrrelevant | internal/a2acall/cardverify.go:134-154 | the verdict does not depend on the order or repetition of signatures |
| CardGate.CardMemo.CardOK | internal/a2acall/a2acall.go:193-197 | whether the peer is recorded |
| CardGate.CardMemo.MarkCardOK | internal/a2acall/a2acall.go:199-203 | the record grows by exactly this peer |
| CardGate.StepKeepsFlights | internal/a2acall/a2acall.go:136-157 | an open flight of a peer is led by exactly one call |
| CardGate.StepKeepsWaiters | internal/a2acall/a2acall.go:140-149 | nobody waits for a flight that is neither open nor decided |
| CardGate.StepKeepsSuccesses | internal/a2acall/a2acall.go:140-149 | a success is in the log exactly when it is remembered or about to be |
| CardGate.InvThroughout | internal/a2acall/a2acall.go:136-157 | the invariant holds in every state of every run of any number of calls and peers |
| CardGate.GatePrecedesInvoke | internal/a2acall/a2acall.go:136-174 | a keyed peer is invoked only after one of its cards verified, no fetch starts after that, and between two fetches of a peer the earlier one failed |
| CardGate.OneFetchPerPeer | internal/a2acall/a2acall.go:140-149 | at most one card fetch per peer is in flight |
| CardGate.OnlySuccessIsRemembered | internal/a2acall/a2acall.go:191-203 | the memo holds verified peers only, and a refused call saw a flight of its peer fail after it arrived |
| CardGate.VerifiedIsServed | internal/a2acall/a2acall.go:136-157 | a call that arrives once a card of its peer has verified is never refused |
| CardGate.CallHasArrived | internal/a2acall/a2acall.go:136-140 | a call keeps its peer and the place in the log at which it arrived |
| CardGate.WaiterFaresAsLeader | internal/a2acall/a2acall.go:136-157 | a waiting call is refused exactly when the call leading its flight was; a peer without a key is called unchecked and never fetched |
| CardGate.WaiterIsServed | internal/a2acall/a2acall.go:140-149 | a waiting call or the call leading its flight can always go on |
| Utf8.SanitizeFixesValid | internal/openaiapi/stream.go:149-152 | replacement of malformed bytes leaves exactly well-formed text alone |
| JsonText.RunesAreScalars | internal/openaiapi/stream.go:149-152 | what counts as well-formed is exactly what the encoding of code points gives: no overlong form, no surrogate, none left out |
| JsonText.NothingRaw | internal/openaiapi/stream.go:149-152 | printed strings hold no HTML character and no unescaped quote |
| JsonText.EscapesAre | internal/openaiapi/stream.go:149-152 | the escapes of control characters, quotes, HTML characters and malformed bytes |
| JsonText.SurrogatesRead | internal/openai/openai.go:449-453 | a pair of surrogate escapes reads as the code point that UTF-16 splits that way |
| JsonText.LeadingBlanks | internal/openai/openai.go:449-453 | blanks before a value do not matter |
| JsonText.StringRoundTrip | internal/openaiapi/stream.go:149-152 | a printed JSON string reads back with malformed bytes replaced |
| JsonText.RoundTrip | internal/openaiapi/stream.go:149-152 | a printed JSON document reads back as the document |
| JsonText.PrintHasNoControls | internal/openaiapi/stream.go:149-152 | printed JSON holds no control character, hence no line break |
| ChatStream.Tokenize | internal/openaiapi/stream.go:156-177 | the two-index loop computes the maximal runs |
| ChatStream.TokensShape | internal/openaiapi/stream.go:154-177 | tokens concatenate to the input, are non-empty and uniform, and alternate between white space and the rest |
| ChatStream.TokensKeepRunes | internal/openaiapi/stream.go:154-177 | tokens of well-formed text are well-formed: no rune is split |
| ChatStream.StreamResponse | internal/openaiapi/stream.go:14-70 | the output is the role event, one event per token, the stop event and the end marker |
| ToolCallDeltas.AddAllDescribes | internal/openai/openai.go:418-493 | what is pending under an index is described by the deltas of that index alone |
| ToolCallDeltas.SameCalls | internal/openai/openai.go:477-493 | two delta sequences equal per index build the same calls |
| ToolCallDeltas.InterleavingIsIrrelevant | internal/openai/openai.go:477-493 | neighbouring deltas of distinct indices may trade places |
| ToolCallDeltas.SplittingIsIrrelevant | internal/openai/openai.go:477-493 | splitting an argument fragment changes nothing |
| ToolCallDeltas.ChunkingIsIrrelevant | internal/openai/openai.go:424-570 | equal text, deltas per index, finish reason and usage give the same response however they are cut into chunks |
| ToolCallDeltas.CallsAreKept | internal/openai/openai.go:543-559 | the calls built are those of the indices below the number of distinct indices, in order |
| ToolCallDeltas.CallSurvives | internal/openai/openai.go:543-559 | every call survives exactly when the indices are 0 to n-1 |
| ChatReceiver.ScanLines | internal/openai/openai.go:426-515 | the scan loop gathers what the specification gathers, and is complete exactly when no line is too long before the end |
| ChatReceiver.ReceiveAbsorbs | internal/openai/openai.go:426-515 | what is gathered are the chunks on the data lines up to the end mark, in order |
| ChatReceiver.LineEnds | internal/openai/openai.go:426-433 | a line ends in a line feed, with or without a carriage return, or with the stream |
| ChatReceiver.ResponseIs | internal/openai/openai.go:517-570 | the response in terms of those chunks: joined text, tool use exactly for the finish reason "tool_calls", the last usage, and for each kept index the last non-empty ID and name and what all its argument fragments parse to, or the raw text |
| ChatReceiver.StreamWithTools | internal/openai/openai.go:413-570 | succeeds exactly when no line before the end is too long, and then gives that response; otherwise an error event |
| ChatReceiver.AccumulateDeltas | internal/openai/openai.go:477-493 | the inner loop adds the deltas to the pending calls |
| ChatReceiver.BuildCalls | internal/openai/openai.go:543-559 | the counting loop builds the calls of the response |
| ChatReceiver.EventsMatchContent | internal/openai/openai.go:466-475 | the text events concatenate to the content |
| ChatReceiver.TakesEvent | internal/openai/openai.go:426-463 | one printed event is one line and one chunk, or stops the scanner |
| ChatReceiver.TakesEvents | internal/openai/openai.go:426-515 | printed events are absorbed one by one, or reading fails at the first line over the limit |
| ChatReceiver.SanitizedJoin | internal/openaiapi/stream.go:41-51 | the replaced tokens join to well-formed text, and to the content if it was well-formed |
| ChatReceiver.StreamRoundTrip | internal/openai/openai.go:413-526 | reading what StreamResponse printed succeeds exactly when every event line fits the scanner, and then gives end of turn, no tool calls, and the same content exactly when it was well-formed |
| ChatReceiver.EventsIdentify | internal/openaiapi/stream.go:14-70 | every event parses to an object with the completion's own ID, time and model |
| ChatReceiver.FirstEventIsRole | internal/openaiapi/stream.go:28-66 | the first event names the role, each later one its token, the last the stop reason |
| StreamWire.WireRoundTrip | internal/openai/openai.go:105-129 | any chunk of the protocol, tool-call deltas and usage included, printed as JSON reads back field by field |
| StreamWire.ShortDeltaReads | internal/openai/openai.go:120-129 | a delta without ID and name goes on with the arguments of its index |
| StreamWire.AnyStreamIsRead | internal/openai/openai.go:413-570 | any sequence of well-formed chunks whose lines fit gets the response they call for |
| StreamLimits.LineLength | internal/openaiapi/stream.go:14-70 | the length of an event line is that of the escaped ID, time and model, the delta and the finish reason, and 120 bytes |
| StreamLimits.EncodingGrows | internal/openaiapi/stream.go:149-152 | escaping never makes a string shorter |
| StreamLimits.CompleteExactly | internal/openai/openai.go:413-526 | reading what StreamResponse printed succeeds exactly when escaped ID, time and model with 144 bytes stay below 64 KiB, and so do they with 138 bytes and any one escaped token |
| StreamLimits.LongTokenFails | internal/openai/openai.go:413-526 | one token that reaches the scanner's limit makes reading fail, whatever the rest |
| StreamLimits.LongWordFails | internal/openai/openai.go:413-526 | a well-formed content, one word of 64 KiB, that no reader takes |
| StreamLimits.BadByteIsReplaced | internal/openaiapi/stream.go:149-152 | a content of one malformed byte arrives, as U+FFFD |
| Registry.Registry.constructor | pkg/tools/registry.go:17-29 | an empty list filters nothing, any other list allows exactly its names |
| Registry.Registry.Register | pkg/tools/registry.go:31-35 | the tool under its name changes and what is allowed does not |
| Registry.Registry.RegisterAlwaysAllowed | pkg/tools/registry.go:37-42 | the tool is offered whatever the filter says |
| Registry.Registry.Get | pkg/tools/registry.go:44-55 | gives a tool exactly when it is offered |
| Registry.Registry.Definitions | pkg/tools/registry.go:57-76 | lists exactly the tools Get would give, each once, in name order |
| Registry.ListingIsUnique | pkg/tools/registry.go:61-75 | the listing does not depend on the order the map was traversed in |
| ToolLoop.ExecuteTool | pkg/tools/loop.go:148-195 | denied, unknown or run, with the result of that case |
| ToolLoop.WrittenAt | pkg/tools/loop.go:117-130 | after any part of the goroutines has finished, in any order, a slot holds its own call's result or nothing |
| ToolLoop.OrdersAgree | pkg/tools/loop.go:117-130 | any two completion orders of a turn leave the same slots |
| ToolLoop.RunCalls | pkg/tools/loop.go:117-130 | the calls of a turn finish once each in an arbitrary order, the results are those that order writes, and exactly the allowed and offered calls ran |
| ToolLoop.RunToolLoop | pkg/tools/loop.go:35-146 | each model call sees the conversation the turns before it left, at most MaxIterations are made, the outcome is the one the last answer calls for, and exactly the allowed and offered calls ran, for some completion order of each turn |
| ToolLoop.TurnIsAPair | pkg/tools/loop.go:111-206 | a turn adds the assistant's calls and one tool message whose i-th result carries the i-th call's ID and is the tool's own output and error flag, or as an error the hook's reason or the unknown name, whole when it fits the limit and cut with a note when not |
| ToolLoop.ConversationsGrow | pkg/tools/loop.go:111-141 | the n-th model call sees the initial messages and n pairs, and every later conversation extends every earlier one |
| ToolLoop.ScheduleIsIrrelevant | pkg/tools/loop.go:56-145 | two runs in one world, whose model answers the conversation it sees, make the same model calls and have the same outcome whatever the completion orders of their turns |
| ToolLoop.RanWasOffered | pkg/tools/loop.go:148-177 | a call whose tool ran was asked for by the model's answer to that conversation, names a definition the model was offered, and was not denied |
| Truncation.DroppedIsValid | pkg/tools/loop.go:197-206 | what is kept of a cut result is well-formed whatever came in |
| Truncation.ResultKeepsLongestPrefix | pkg/tools/loop.go:197-206 | cut well-formed output keeps its longest well-formed prefix within the limit, at most three bytes below it, and the note says how much |
| Truncation.FittingIsKept | pkg/tools/loop.go:197-206 | output that fits, or any without a limit, is passed on as it is; the rest is a well-formed part within the limit and a note of both lengths |
| Truncation.BadByteGoes | pkg/tools/loop.go:197-206 | dropping malformed bytes keeps the well-formed text on either side |
| Truncation.Truncate | internal/telemetry/content.go:55-68 | the shrinking loop ends with the longest well-formed prefix, and the result with its suffix never exceeds the limit |
| Truncation.EventIsValid | internal/telemetry/content.go:55-68 | a cut event is well-formed whatever came in |
| Truncation.TruncateRunes | pkg/agentcontext/loader.go:101-110 | the loop cuts after n decoding steps |
| Truncation.FirstRunes | pkg/agentcontext/loader.go:101-110 | exactly the first min(n, count) runes are kept |
| Truncation.FirstRunesAreWhole | pkg/agentcontext/loader.go:101-110 | no code point of well-formed text is split |
| Truncation.CutTwice | pkg/agentcontext/loader.go:64-81 | cutting twice is cutting to the smaller number |
| ContextLoader.OneCut | pkg/agentcontext/loader.go:64-83 | the file limit followed by the remaining budget is one cut to the smaller |
| ContextLoader.CutToBudget | pkg/agentcontext/loader.go:63-83 | the content kept, with its rune count |
| ContextLoader.Load | pkg/agentcontext/loader.go:38-97 | the sections are what the budget buys in profile order and totalChars is the sum of their runes, never above the limit |
| ContextLoader.BudgetHolds | pkg/agentcontext/loader.go:43-86 | the total is never overdrawn |
| ContextLoader.NothingMissed | pkg/agentcontext/loader.go:43-86 | a position of the profile has a section exactly when its file loads and the files before it have left something of the total |
| ContextLoader.SectionsAreCut | pkg/agentcontext/loader.go:57-86 | section i is the front of its trimmed file and its length is exactly the least of the file's length, the file limit and what the sections before it left of the total |
| ContextLoader.TextIs | pkg/agentcontext/loader.go:48-60 | a file loads exactly when it can be read and is not blank, and its text is then trimmed |
| ContextLoader.InProfileOrder | pkg/agentcontext/loader.go:43-86 | every section comes from its own position of the profile, and they are in the profile's order |
| ContextLoader.LoadFile | pkg/agentcontext/loader.go:43-86 | one turn of the loop skips a file that does not load and otherwise adds its cut section, the rest of the budget buying the rest of the whole |
| Dashboard.CoordinateKeeps | demo/batch/dashboard/main.go:176-270 | every coordinator step keeps the run invariant, moves the phase forward only and leaves failed agents failed |
| Dashboard.WorkKeeps | demo/batch/dashboard/main.go:272-316 | so does every goroutine step |
| Dashboard.InvThroughout | demo/batch/dashboard/main.go:140-316 | the invariant of all runs and registrations holds in every history |
| Dashboard.EveryStepAdvances | demo/batch/dashboard/main.go:176-316 | in every history the phase moves deploying, waiting, running, done-or-failed, and a failed agent stays failed |
| Dashboard.EveryRunGoesOn | demo/batch/dashboard/main.go:176-316 | in every history a run in progress has a step it can take: no deadlock |
| Dashboard.EveryRunEnds | demo/batch/dashboard/main.go:176-316 | each step of a run uses up one of finitely many and no other step adds to them, so every run ends |
| Dashboard.FailedExactly | demo/batch/dashboard/main.go:176-370 | in every history an agent is failed exactly when its creation failed, it did not get ready, was not found, did not answer, or answered that it failed |
| Dashboard.ReplyIsAnswer | demo/batch/dashboard/main.go:272-316 | and its reply is what its remote agent answered |
| Dashboard.FinalPhase | demo/batch/dashboard/main.go:254-316 | a run ends as failed exactly when some agent is failed; an agent ends as completed exactly for an empty or "completed" reply, and is left pending, deploying, ready or working exactly when the remote agent replied so |
| Dashboard.DoneWithPendingAgent | demo/batch/dashboard/main.go:254-316 | a history of one agent whose remote task is answered as pending, ending done with that agent shown as pending |
| Dashboard.RunIsNotReplaced | demo/batch/dashboard/main.go:152-168 | no step other than its own cleanup replaces a registered run in progress |
| Dashboard.OneRunInProgress | demo/batch/dashboard/main.go:152-168 | two runs of one scenario are in progress together only after a cleanup removed one of them |
| Dashboard.CleanupAllowsTwo | demo/batch/dashboard/main.go:421-443 | a history in which a cleanup lets a second run start beside the first |
| Dashboard.Server.HandleRun | demo/batch/dashboard/main.go:140-174 | the server's history goes on by this step and its fields show the state that leads to; each refusal has its exact condition and changes nothing; a start puts a fresh run with pending agents under that name alone |
| Dashboard.Server.HandleCleanup | demo/batch/dashboard/main.go:421-443 | the history goes on by this step; a known scenario is unregistered, nothing else changes |
| Dashboard.Server.Write | demo/batch/dashboard/main.go:176-316 | a step of a run that writes its runtime under the lock keeps what the server shows in line with the history |
| Dashboard.ShownWhenFinished | demo/batch/dashboard/main.go:254-270 | a finished run that the server shows is failed exactly when one of its agents is |
| Batch.SplitDocuments | internal/cmd/batch.go:85-106 | min(agents, docs) non-empty batches that concatenate to the input, with sizes that never grow and differ by at most one |
| Batch.SortByScore | internal/cmd/batch.go:54-57 | a score-descending permutation |
| Batch.RunWorkers | internal/cmd/batch.go:142-170 | whatever the completion order, slot i holds the answer of worker i for its own batch, answers being free to differ from slot to slot |
| Batch.Collect | internal/cmd/batch.go:172-183 | the results of successful workers in batch order |
| Batch.MissingAreLost | internal/cmd/batch.go:172-184 | the documents without a result are those in the batches of failed workers, less the surplus of successful ones |
| Batch.RunBatch | internal/cmd/batch.go:127-193 | failed is the number of documents in failed batches less the surplus of results, just that number when agents answer one for one, and negative exactly when more results than documents come back; the ranked rows are a score-descending permutation of all parsed results |

## Left out

- HTTP, redirects, response size limits, logging, spans, metrics and command-line flags: plumbing.
- Cryptography, JWT, JWK and JWS parsing: verification is an arbitrary predicate, and a parsed token is a record of what the libraries read from it.
- Canonicalization of cards (RFC 8785): an arbitrary injective function; a number is a real, so two spellings of one double count as one value.
- Card JSON with duplicate or differently cased keys: a card is a finite map with exact names.
- JSON in the stream reader: integers only, so a chunk with a fractional number is not modelled; duplicate keys take the last value and key case is exact.
- Read errors and cancellation inside the stream scan loop, and the scanner's buffer growth: the whole stream is given as one text.
- Tool-call arguments: parsing them is an arbitrary function, with the raw text kept when it fails.
- SQL engine errors, drivers and busy retries: statements are functions on the two tables and a transaction is one assignment; the JSON columns are an arbitrary inverse pair on texts, where the source's encoder replaces malformed UTF-8 in them.
- Years beyond 9999 and changes of the local offset in stored timestamps: one fixed zone, four-digit years.
- The session object GetOrCreate of the in-memory store hands out: later reads through it are not modelled, only its contents on return.
- KeyCacheRuns.NobodyWaits: assumes that a fetch ends by its timeout; scheduling delay between the deadline and the second lock hold is not modelled.
- KeyCacheRuns.RefreshRate: for a positive minimum interval, as the source asks for in its defaults.
- A panic inside a single-flight function, and callers leaving the group early, which the library does not offer.
- Header names other than their canonical form, path cleaning (an arbitrary function) and response writing of the middleware.
- Registration of tools while a loop runs: it happens only at start-up, so a loop sees one registry.
- ToolLoop.RunCalls: each goroutine's work is one step, so interleavings inside a tool are not modelled; a tool's result and a hook's decision are arbitrary functions of turn, position and call, and the model's answer one of the call's number and the conversation.
- The clean-up of trailing NULs in events for a negative limit: limits are natural numbers there and in the context loader.
- ContextLoader.Load: gives the sections, not the Markdown text they are joined into.
- Dashboard.Server.Write: what the coordinator and its goroutines do between two lock holds is in the step system, not in the class, which only records what they write.
- The poll loop that waits for a pod, metrics enrichment and the status page of the dashboard.
- Batch.SortByScore: the order among equal scores is open, as it is for the library's sort; quoting of CSV fields is left out.
- Parsing of batch results, including the fenced-block search: an agent's parsed results are an arbitrary function.
- Configuration validation, skill discovery, manifests, catalogs, path and host allow-lists: short matchers or templates.
- SDK providers other than the OpenAI-compatible one, vector search and remote tool servers: foreign calls.
