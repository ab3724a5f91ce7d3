# plexus-core: a model and its proofs

A Dafny model of the hardest parts of `plexus-core`, the hub that serves activations over one
socket, and proofs of what those parts promise. `dafny verify dfyconfig.toml` checks all of it.

- **The input half of a duplex call** (`Ledger`, `Duplex*`, `Calls`, `Table`, `Reading`). A client
  streams items into a running call under credit. Five parties act at once: the client, the
  socket's reader, the pipe with the gate's stream it polls, the handler, and writers who move the
  grants generation. `Duplex` is a step system whose steps are single atomic operations: the
  writes of `frame_done`, the reads of `owed` and the checks of a re-verification are each their
  own step. `DuplexOrder`, `DuplexFlow`, `DuplexWake` and `DuplexVerdict` hold its invariants and
  what they say of every run. The classes run the same operations as the source's objects do, and
  link lemmas show that each is its steps with nothing in between.
- **The caller's view and its cache** (`Cache`, `CacheFresh`, `View`, `ViewSteps`,
  `ViewProofs`, `GrantGate`).
  A cache under two generations, raced by writers and askers; a view kept as indices that must
  rebuild the filtered schemas; and the gate that must admit what the view shows.
- **JSON texts and hashes** (`Numbers`, `JsonText`, `JsonWrite`, `JsonRoundTrip`, `JsonMeaning`,
  `JsonLayout`, `JsonOut`, `Rollup`). Two canonical writers against one reader of RFC 8259
  (sections 2 to 7), a decimal reformatter against exact values, and the hashes built on them.
- **The schema rewrite and the walk** (`Spell*`, `Worklist`). `spell_json_values` against a
  validator, and the graph search that gathers an IR's schemas.
- **Handles and sign-ins** (`Handle`, `Sessions`, `SessionRuns`). A text format's exact round trip,
  and a session store over all its runs.

## Where the code is not what its documentation says

The model follows the code. Each of these is a lemma with the exact condition.

- `ir/json.rs` says `number` writes what aeson reads. It reads an exponent with
  `parse::<i64>().unwrap_or(0)` and adds lengths to it as i64s, which wrap in a release build, so
  the value is kept only of zero and of numbers whose exponent and whose order of magnitude an i64
  holds (`Numbers.NumberKeepsValue`; lost at `1e9223372036854775808` by
  `Numbers.ExponentPastI64IsLost` and at `15e9223372036854775807` by
  `Numbers.OrderPastI64IsLost`). Such a text reaches the code only where another crate of the
  build turns on serde_json's `arbitrary_precision`, which `Cargo.toml:19` does not: else it is an
  integer's or an f64's, and kept (`Numbers.OrdinaryNumbersAreKept`). The choice of form fails
  with it: `past_1e19` and the fixed form are right exactly where `Numbers.PastIsPast` and
  `Numbers.FixedIsModerate` say, and both wrong at `1.5e9223372036854775808`
  (`Numbers.MisreadIsModerate`).
- `view.rs` says that what a caller can discover is exactly what it can use. A method whose path
  ends in `.schema`, or is the service's own `hash`, `hashes` or `ir`, is admitted though hidden,
  and no other
  (`GrantGate.DiscoverableIsUsable`, `GrantGate.HiddenYetOpen`).
- `input.rs` says a refusal is never an end, and that code after a read loop runs only when the
  client ended its input. Two kinds of handler see an end no client sent: one that reads in a task
  of its own, which dropping its stream does not drop, and one whose stream, having said `done` or
  an error, polls its input again (`wire.rs` drops the inbox and polls the stream on). It holds of
  every other, and of none of those (`DuplexOrder.EndIsCleanExactlyWhenOwned`). The
  library's own wrapping polls the method's stream no more after its `done`
  (`streaming.rs:290-303`), so it makes no handler of the second kind.
- `auth_memory.rs` says a session never outlives the one it was asked on. The clock is read twice,
  and a session already expired at the first reading has no lifetime left to cut to
  (`Sessions.DerivedNeverOutlives`).

## Model

| member | source | states |
|---|---|---|
| DuplexOrder.StepKeepsOrder | src/plexus/wire.rs:958-1052 | one atomic step of any party (client, reader, gate, pipe, handler, writer) keeps the order invariant: what was accepted, queued, admitted, received, read and acknowledged are prefixes of one another |
| DuplexOrder.RunKeepsOrder | src/plexus/input.rs:580-632 | that invariant holds in every state any interleaving reaches |
| DuplexOrder.RunKeepsSent | src/plexus/input.rs:580-615 | in every reachable state what is accepted, with the frame in hand, is what the client sent with frames left out, in order, and the rest of what it sent is on its way |
| DuplexOrder.ReadsInOrder | src/plexus/input.rs:385-422 | whatever is resent, skipped or refused, the handler has read a prefix of the concatenated items of frames 0, 1, 2, … (exactly once, in order), each of them a frame the client sent |
| DuplexOrder.AcksNameWhatWasConsumed | src/plexus/input.rs:240-254 | acks strictly increase and name only frames whose every item, and every earlier one, was read |
| DuplexOrder.EndIsClean | src/plexus/input.rs:409-421 | a handler whose input lives no longer than its stream, and is polled no longer than up to the stream's `done` or error, sees an end only after the client's `end`, which named exactly the frames accepted, and after reading every item of them |
| DuplexOrder.EndIsCleanExactlyWhenOwned | src/plexus/wire.rs:1011-1037 | that promise holds of a handler if and only if dropping its stream drops its input and, once the stream has said `done` or an error, it polls that input no more |
| DuplexOrder.ExpiredRun | src/plexus/wire.rs:1011-1019 | the first failing run: a sign-in expires, the inbox goes, and a handler that reads in a task of its own sees an end no client sent |
| DuplexOrder.SaidRun | src/plexus/wire.rs:1030-1037 | the second: the handler's stream says an error, the inbox goes, and the stream reads on to an end no client sent |
| DuplexFlow.RunKeepsFlow | src/plexus/input.rs:193-254 | in every reachable state the ledger, the credit and the client's plan are tied together by the flow invariant, `frame_done` and `owed` split into their single reads and writes |
| DuplexFlow.FitsTheWindow | src/plexus/input.rs:603-612 | a frame of a client within its told credit passes the reader's window test wherever the four writes of `frame_done` stand |
| DuplexFlow.WithinCredit | src/plexus/duplex_gate.rs:528-530 | and passes the gate's credit test, credit being granted before it is said |
| DuplexFlow.ObedientIsNeverRefused | src/plexus/duplex_gate.rs:505-537 | a client whose frames follow one another, none empty, never past the credit it was told, is never marked on arrival nor refused for credit, sequence or emptiness, in any interleaving |
| DuplexFlow.WithinCeilings | src/plexus/duplex_gate.rs:531-536 | and one that sends no more than the method takes is refused only for its grant or its sign-in, in any interleaving |
| DuplexFlow.RefusalHasCause | src/plexus/duplex_gate.rs:479-536 | for any client: a call ended for too much input names the ceiling the frame after those admitted goes past, and one ended for its grant ends with a check that failed |
| DuplexFlow.ObedientIsReadAsSent | src/plexus/input.rs:385-422 | what such a client's handler reads is a prefix of exactly what it sent |
| DuplexFlow.LedgerConserves | src/plexus/input.rs:144-201 | conservation for any client: held = taken − released ≤ window, returned ≤ consumed ≤ received, granted ≤ window + returned, admitted within credit and both ceilings |
| DuplexFlow.NothingUnderflows | src/plexus/input.rs:193-254 | no unsigned subtraction of `frame_done` or `owed` goes below zero |
| DuplexFlow.ClosedAdmitsNothing | src/plexus/duplex_gate.rs:505-508 | once a call is closed no step admits a frame of it, and it stays closed |
| DuplexWake.RunKeepsWake | src/plexus/input.rs:193-211 | in every reachable state, credit worth granting has a wake pending, a handler about to give one, or the pipe still to look |
| DuplexWake.CreditIsNeverForgotten | src/plexus/input.rs:193-201 | while the input runs and the pipe waits with half a window due and nothing held back, a wake is pending or the handler is about to give one |
| DuplexWake.QuietLeavesCredit | src/plexus/input.rs:240-254 | when all is quiet with nothing held, an obedient client has more than a window less a half still to send, so at least one item |
| DuplexWake.GrantFollowsRoom | src/plexus/input.rs:235-245 | in every run a grant of credit comes in a turn in which the pipe read fewer than `max_buffered` bytes held, the input neither finished nor ended when it was asked |
| DuplexWake.LastAckIsSaid | src/plexus/input.rs:247-253 | once the handler has seen its end, a pipe waiting with no wake pending has said an ack naming the last frame done, however little is past the one before |
| DuplexWake.LettingGoIsNeverForgotten | src/plexus/wire.rs:1020-1024 | an input let go with the half open closes it: the pipe never waits with the slot still there and no wake pending |
| DuplexWake.RefusalIsNeverForgotten | src/plexus/input.rs:213-233 | an item that does not decode ends its call: the pipe waits with one refused only while its wake is pending, and once it is taken up the call is ending |
| DuplexVerdict.RunKeepsVerdict | src/plexus/duplex_gate.rs:479-497 | in every reachable state each verdict a call holds was computed no earlier than the generation the call has seen |
| DuplexVerdict.NoStaleAdmission | src/plexus/duplex_gate.rs:505-514 | every admission of a rechecked call rests on its whole round of passing checks, each made at or after the generation the admission read, or on the opening decision with none moved since |
| DuplexVerdict.ChecksAreBounded | src/plexus/duplex_gate.rs:479-497 | re-verification asks the gate at most max(1, targets) times per move since the opening decision began, and never where the gate admits whoever calls |
| Ledgers.Half | src/plexus/input.rs:188-190 | half a window, never nothing, never more than the window |
| Ledgers.Ledger.FrameDone | src/plexus/input.rs:193-201 | what is held goes down by the frame, `done` is one past it, `consumed` up by its items, and the pipe is woken when half a window is not granted |
| Ledgers.Ledger.Owed | src/plexus/input.rs:240-254 | on its fields: nothing while the input runs with `max_buffered` bytes held, nor under half a window but for the last word; else the last frame done when it is news and all that is consumed and not granted, no credit once the input is over; `returned` moves exactly when it answers |
| Reading.FrameDoneIsItsSteps | src/plexus/input.rs:193-201 | the protocol's split steps of `frame_done`, run with nothing between, are the method's effect |
| Reading.OwedIsItsSteps | src/plexus/input.rs:240-254 | the protocol's split reads and write of `owed`, run with nothing between, answer what the method does |
| Reading.PolledReads | src/plexus/input.rs:385-422 | a poll answers the next unread item; an end only with nothing left and the inbox closed; else nothing, for now or because the next item does not decode |
| Reading.PolledConsumes | src/plexus/input.rs:385-422 | before it answers, every frame read through is counted in the ledger, once and in order, and an end or a refusal is said there |
| Reading.PollIsItsSteps | src/plexus/input.rs:385-422 | the protocol's split steps of a poll, run with nothing between, leave the inbox, the batch in hand and the ledger as `poll_item` does, answer the same, and read what they answer |
| Reading.WireInput.PollItem | src/plexus/input.rs:385-422 | a poll is that function of the input and its ledger, with what it means: the next unread item, an end only with nothing left and the inbox closed, frames read through counted in order, an unreadable item a refusal that ends the reading |
| Reading.WireInput.ReadOn | src/plexus/input.rs:391-421 | the loop of a poll, a batch finished and another taken in place until an item, an end or nothing, computes the same |
| Reading.WireInput.Drop | src/plexus/input.rs:424-430 | an input dropped before its end abandons the ledger, one dropped after does nothing |
| Table.InputTable.Arrive | src/plexus/input.rs:580-615 | by sequence, emptiness and window in that order a frame is dropped, refused with one last mark naming its cause, or queued and counted; one naming no call here is dropped when its call is one of the last here and unknown otherwise; no other slot changes |
| Table.InputTable.End | src/plexus/input.rs:619-632 | closes the half; ended only when it names the frames accepted, else one last mark |
| Table.InputTable.Remove | src/plexus/input.rs:674-685 | the slot goes and is among the last calls remembered, at most so many |
| Table.ReaderIsArrive | src/plexus/input.rs:580-615 | the protocol's reader, run with nothing between, does to its slot and ledger exactly what `arrive` does |
| Calls.DuplexCall.constructor | src/plexus/duplex_gate.rs:383-418 | a call opens with the generation its decision read, nothing counted and nothing closed |
| Calls.DuplexCall.Reverify | src/plexus/duplex_gate.rs:479-497 | passes exactly when the grant is held on every target, or, with no targets, at all; then the generation read before the checks is seen, else the call closes; the checks made are in order up to the first that fails |
| Calls.AskedSays | src/plexus/duplex_gate.rs:481-487 | the same of the protocol's round of checks: what they are of, when they pass, and how many are made |
| Calls.ReverifyIsItsSteps | src/plexus/duplex_gate.rs:479-497 | the protocol's re-verification, its checks made one a step with nothing between, does to the call what `reverify` does, check for check |
| Calls.AdmitIsItsSteps | src/plexus/duplex_gate.rs:505-537 | a frame taken up and stepped through the protocol's gate with nothing between leaves the call as `admit` does: verdicts, generation seen, counts, close and what reaches the inbox |
| Calls.DuplexCall.Admit | src/plexus/duplex_gate.rs:505-537 | refuses a closed half or another connection's frame with nothing changed; else admits exactly a batch of something within the credit and both ceilings, of a caller whose generation stands or who passes again; each refusal says its own cause and values, closes the call and counts nothing |
| Numbers.RenderedIsRead | src/plexus/ir/json.rs:94-105 | the number grammar of section 6 of RFC 8259 is unambiguous: splitting a rendered text gives its parts back |
| Numbers.NumberIsWellFormed | src/plexus/ir/json.rs:94-136 | `number` writes text of that grammar for any text of it |
| Numbers.NumberShape | src/plexus/ir/json.rs:106-163 | which of three shapes is written when: one digit but zero before the point with a small `e` and a plain exponent, digits alone, or digits on both sides; no fraction ends in a zero but its only one, and zero is `0` or `0.0` unsigned |
| Numbers.NumberKeepsValue | src/plexus/ir/json.rs:94-136 | the exact decimal value is kept if and only if it is zero, or its text's exponent and its order of magnitude are both ones an i64 holds (i64 sums wrap) |
| Numbers.OrdinaryNumbersAreKept | src/plexus/ir/json.rs:94-136 | no sum wraps and the value is kept for every text under 2^32 characters with an exponent within ±400: all an f64 or an integer can be written as |
| Numbers.OrderIsMagnitude | src/plexus/ir/json.rs:111-117 | the order of magnitude of that condition is the exponent of the greatest power of ten not past the value |
| Numbers.ExponentPastI64IsLost | src/plexus/ir/json.rs:101-104 | every exponent past i64 is read as 0: 1e9223372036854775808 is written 1 |
| Numbers.OrderPastI64IsLost | src/plexus/ir/json.rs:106-116 | an exponent that is an i64 is not enough: 15e9223372036854775807 is written 1.5e-9223372036854775808 |
| Numbers.WrittenValue | src/plexus/ir/json.rs:119-163 | each of the three forms (integer, exponent, fixed) has exactly the value of the digits and the sum it says |
| Numbers.PastIsPast | src/plexus/ir/json.rs:101-119 | for every text, the digit test `past_1e19` is exactly the magnitude of the value > 10^19 if and only if the value is zero, or the sum tested is an i64, or, the exponent being past i64 and read as 0, the digits alone lie on the side of 10^19 its sign puts the value on |
| Numbers.FixedIsModerate | src/plexus/ir/json.rs:120-134 | for every text read with a negative power, the fixed form is used exactly for zero and magnitudes in [0.1, 10^7) if and only if the value is zero, or its exponent is an i64, or the digits alone are not in that range |
| Numbers.MisreadIsModerate | src/plexus/ir/json.rs:101-134 | the input where both fail: 1.5e9223372036854775808 and every greater exponent is tested not to be past 10^19 and written 1.5 |
| Numbers.Format | src/plexus/ir/json.rs:94-136 | the zeros pushed one by one make exactly that text |
| JsonRoundTrip.StringIsRead | src/plexus/ir/json.rs:73-87 | a reader of section 7 of RFC 8259 reads every escaped string back character for character, in both writers' escapes |
| JsonRoundTrip.NumberIsRead | src/plexus/ir/json.rs:94-136 | a reader of section 6 of RFC 8259 reads back exactly a number's characters, whatever structural text follows |
| JsonRoundTrip.ValueIsRead | src/plexus/ir/json.rs:26-71 | the text of any value at any indent, any text after it, is read back as that value and that text: the encoding is prefix-free |
| JsonMeaning.CanonicalIsRead | src/plexus/ir/json.rs:13-71 | `canonical`, read by RFC 8259, gives the value with its keys sorted and its numbers rewritten |
| JsonMeaning.CanonicalCanBeInverted | src/plexus/ir/json.rs:13-136 | what is read back means what was written (objects as maps, strings exactly, numbers by exact decimal value) if and only if every number is one `number` keeps |
| JsonMeaning.CanonicalIgnoresOrder | src/plexus/ir/json.rs:54-55 | values equal up to the insertion order of their objects print identically |
| JsonMeaning.CanonicalJsonIsRead | src/plexus/content_hash.rs:41-76 | canonical JSON is uniquely decodable: it reads back as the sorted value |
| JsonMeaning.CanonicalJsonIsInjective | src/plexus/content_hash.rs:41-76 | two values have equal canonical JSON if and only if they are equal with objects as maps and arrays as sequences |
| JsonMeaning.TidyMeans | src/plexus/content_hash.rs:49-63 | sorting keys at every level changes nothing of the meaning, rewriting numbers only those |
| JsonMeaning.AscendingIsUnique | src/plexus/content_hash.rs:52 | any members have one ascending order |
| JsonLayout.CanonicalIsText | src/plexus/ir/json.rs:13-71 | both canonical texts put together from their parts: a line and two spaces a level for each, `": "`, `[]` and `{}` when empty, one newline last; or no white space at all |
| JsonLayout.EscapeSays | src/plexus/ir/json.rs:73-87 | what is escaped and how: quote, backslash, what is under a space, and nothing else, its two hexadecimal digits in lower case; `canonical_json` writes two more of them short |
| JsonLayout.BelowIsFirstDifference | src/plexus/content_hash.rs:51-52 | keys are in order of the first code point that differs, a text before what it begins |
| JsonOut.Out.PushString | src/plexus/ir/json.rs:73-87 | the loop over a string's characters writes exactly its quoted, escaped text |
| JsonOut.Out.Write | src/plexus/ir/json.rs:26-71 | `write` adds exactly the value's indented text to the string, objects sorted before they are written |
| JsonOut.Out.WriteCanonical | src/plexus/content_hash.rs:47-76 | `write_canonical` adds exactly the value's compact text |
| JsonOut.CanonicalText | src/plexus/ir/json.rs:13-18 | `canonical` as it runs, with the inversion it allows |
| JsonOut.CanonicalJsonText | src/plexus/content_hash.rs:41-45 | `canonical_json` as it runs, with the value it decodes to |
| Rollup.HashLines | src/plexus/content_hash.rs:91-98 | the loop hashes each input on a line of its own |
| Rollup.LinesAreUnambiguous | src/plexus/content_hash.rs:88-98 | one-line texts, however many, are determined by their lines |
| Rollup.ComputeHashes | src/plexus/schema.rs:1018-1027 | self is the digest of the methods' hashes by line, children's of theirs and only for a hub, and the whole that of self and children's, each with a newline |
| Rollup.RollUpIsSound | src/plexus/schema.rs:1018-1027 | equal plugin hashes mean equal method-hash lists and equal child-hash lists in order, a leaf never a hub, or a named collision of the digest |
| Rollup.ContentHashIsSound | src/plexus/schema.rs:1579-1585 | methods agree on every serialized field but `hash` exactly when their content hashes are equal, but for a named collision |
| Rollup.SealedMethodsAgree | src/plexus/schema.rs:1590-1593 | sealed methods of one `hash` agree on every other field, but for a named collision |
| Rollup.SealingIsStable | src/plexus/schema.rs:1590-1593 | sealing moves no hash and sealing again changes nothing |
| SpellMeaning.SpelledAccepts | src/plexus/schema.rs:934-970 | the rewrite of a schema accepts exactly the instances the schema accepts, for any meaning of the keywords not walked |
| SpellMeaning.SpellKeepsMeaning | src/plexus/schema.rs:927-970 | and so with references into its definitions resolved in itself, however deep they are followed |
| SpellMeaning.AnyAcceptsAll | src/plexus/schema.rs:906-918 | what `is_json_type_object` recognises accepts every value |
| SpellMeaning.SpellSaysIt | src/plexus/schema.rs:943-970 | afterwards every any-JSON position walked, the root among them, is the six types in order |
| SpellMeaning.AnyIsRecognised | src/plexus/schema.rs:890-918 | recognised are exactly the nodes of twelve annotations and a `type` at most, the six in any order where there is one |
| SpellMeaning.WalkSays | src/plexus/schema.rs:943-970 | what becomes of each member of a node: definitions rewritten always, properties, items, additional properties and the unions' branches where it is not any JSON value, all else left |
| SpellMeaning.SpellIsIdempotent | src/plexus/schema.rs:927-970 | a second run changes nothing |
| SpellSteps.SpellKey | src/plexus/schema.rs:946-969 | one key at a time: its value rewritten, every other member as it was |
| SpellSteps.SpellObject | src/plexus/schema.rs:943-970 | definitions first, the type inserted and nothing else where any value was accepted, the other keys in turn elsewhere |
| SpellSteps.Run | src/plexus/schema.rs:927-932 | `false` is left; all else is the rewrite |
| Caches.Cache.Base | src/plexus/view.rs:528-537 | a stale reader gets nothing and changes nothing; one of the kept generation gets the kept cell; a newer one starts the state over with a fresh cell, its grants generation kept |
| Caches.Cache.View | src/plexus/view.rs:541-562 | a stale reader of either generation gets nothing and changes nothing; one of both generations gets the kept cell of its key, or a fresh one kept beside at most 1023; a newer one drops what was kept for the ones before |
| Caches.Cache.Reset | src/plexus/view.rs:517-520 | the generation moves and nothing kept stands |
| CacheFresh.StepKeeps | src/plexus/plexus.rs:1581-1604 | each lock, read, fill and write by itself keeps the freshness invariant |
| CacheFresh.AnswersAreFresh | src/plexus/plexus.rs:1581-1604 | every answer, in any interleaving of writers and askers, reflects every write whose move was complete when the ask began; its view is for its own caller and shaped over the description it comes with |
| CacheFresh.OneCellOneAnswer | src/plexus/view.rs:479-485 | asks that took one cell have one answer: each entry is built once |
| CacheFresh.TakenAgain | src/plexus/view.rs:551-561 | asks of one key at the generations kept take one cell: who takes what was just taken finds it kept and changes nothing |
| CacheFresh.StaleReadersTouchNothing | src/plexus/view.rs:528-545 | a reader holding an older generation neither lowers the kept ones nor replaces what is kept |
| CacheFresh.KeptGenerationsRise | src/plexus/view.rs:526-563 | the kept generations only rise, but for a service changed while it is built |
| CacheFresh.KeptViewsAreTheirOwn | src/plexus/view.rs:495-503 | what is kept for a key is that key's, over the description kept beside it |
| ViewProofs.ShapeIsThePlainView | src/plexus/view.rs:441-469 | the compressed view fits its description, every index in bounds, and rebuilt it is exactly the view filtered from whole schemas, hashes included |
| ViewProofs.ActivationIsPlain | src/plexus/view.rs:361-408 | one activation kept as indices is the activation filtered, its auto entry last and its summaries those of methods shown |
| ViewProofs.SchemaOfIsRebuilt | src/plexus/view.rs:325-331 | `schema_of` is reading the whole rebuilt view |
| ViewProofs.MethodOfIsFound | src/plexus/view.rs:334-340 | `method_of` is the method of that name in the whole rebuilt view |
| ViewProofs.PublicMethodsAreRebuilt | src/plexus/view.rs:343-351 | `public_methods` is what the whole rebuilt view's own would be |
| ViewProofs.ShownIsInView | src/plexus/view.rs:445-448 | where namespaces are distinct, as the map they come from makes them, what is shown of one activation is exactly what the whole view that `shape` returns shows of it |
| ViewProofs.ShownIffDecided | src/plexus/view.rs:366-390 | a method of its own is shown exactly when the asker keeps it |
| ViewProofs.ShownIsUsable | src/plexus/view.rs:131-145 | a method is shown exactly when the caller can use it, with where it holds the grant; a static child that describes itself exactly when something at or below it can be used |
| ViewProofs.EntryIsShown | src/plexus/view.rs:361-395 | the auto `schema` entry is shown as declared, last, exactly when something else of the activation is; nothing is kept of an activation otherwise |
| ViewProofs.ServiceListsKept | src/plexus/view.rs:450-459 | the service lists exactly its summaries of activations the view keeps, each with that activation's hash in the view |
| ViewProofs.ViewHashIsSound | src/plexus/view.rs:415-433 | views of one kind and one hash are one view, whoever asks and over whatever description: the same service schema, and of each activation it lists the same methods and `held_on`, but where the digest fails to tell two of them apart |
| ViewSteps.DecideActivation | src/plexus/view.rs:361-408 | the loop over an activation's methods, auto entry set aside and static children looked below, keeps exactly what the specification does |
| ViewSteps.DecideView | src/plexus/view.rs:441-469 | and the collecting of activations by namespace gives exactly the shaped view |
| GrantGate.GateIndex | src/plexus/plexus.rs:2002-2031 | the index holds, for each path, the last method inserted under it: the hub's, the activations', the static children's |
| GrantGate.LastMethodIsIndexed | src/plexus/plexus.rs:2021-2028 | the entry of an activation's or static child's path is the last method's there: public, target, and the grant it names or else its path |
| GrantGate.HubMethodIsIndexed | src/plexus/plexus.rs:2005-2012 | the hub's own methods are granted under its runtime namespace whatever grant they name |
| GrantGate.Decide | src/plexus/grant_gate.rs:170-215 | params refused unless an object or absent, introspection open, public and signed-in methods reached, else every named target checked, the first refusal returned |
| GrantGate.DecisionSays | src/plexus/grant_gate.rs:170-215 | the order of its tests, each answer with its cause: shape, introspection, public, signed in, unreadable targets, then every target named, or the grant held anywhere |
| GrantGate.OpensTo | src/plexus/grant_gate.rs:181-186 | of an activation's method, Open exactly for params of the right shape and the names `schema`, whatever ends in `.schema`, and the service's own `hash`, `hashes` and `ir` |
| GrantGate.OpensByName | src/plexus/grant_gate.rs:180-183 | the same read off any path, dotted namespaces included |
| GrantGate.TargetsSay | src/plexus/grant_gate.rs:132-153 | the targets a param names: none when absent or null, one for each scalar, and a list or value that cannot be read refused, never skipped |
| GrantGate.DiscoverableIsUsable | src/plexus/view.rs:149-158 | a registered method is in the caller's view if and only if a call of it naming no target is admitted, but for paths that end in `.schema` or are the service's own `hash`, `hashes` or `ir` |
| GrantGate.AdmittedIsShown | src/plexus/grant_gate.rs:187-214 | whatever it names, a call is admitted only to a method the caller's view shows, but for those paths |
| GrantGate.HiddenYetOpen | src/plexus/grant_gate.rs:180-186 | the exception is real: a hidden method named `x.schema` is admitted |
| GrantGate.ViewsAreMonotone | src/plexus/view.rs:149-158 | what is shown to a caller, or to nobody, is shown to one that holds as much, of each activation and in the whole view |
| Worklist.Walk | src/plexus/plexus.rs:1779-1795 | ends on any finite tree; its map holds exactly the paths reached from the roots through child links along which every path is permitted and answered, each with its schema |
| Worklist.Visit | src/plexus/plexus.rs:1781-1794 | one turn forgets no root and no child, and adds only what is reached |
| Worklist.ClosedIsComplete | src/plexus/plexus.rs:1781-1794 | with the stack empty every path reached is in the map |
| Handles.RoundTripsIffClean | src/types.rs:69-112 | parse(display(h)) == h if and only if the version has no `::` and does not end in `:`, and the method and meta parts have no `:` |
| Handles.ParsedIsClean | src/types.rs:83-111 | every text parsed yields such a handle, and displaying it reproduces all after the `@` |
| Handles.Write | src/types.rs:69-78 | the parts written one by one make exactly that text |
| Handles.ShowSays | src/types.rs:69-78 | the text is id, `@`, version, `::`, method, and a colon and its text for each meta part |
| Handles.ParsesWhen | src/types.rs:83-111 | a text is read exactly when what stands before its first `@` is an id and a `::` follows |
| Sessions.MemoryAuthBackend.Mint | src/plexus/auth_memory.rs:278-305 | a session of the given principal, agent and layers under its token, expiring its lifetime after the reading |
| Sessions.MemoryAuthBackend.Complete | src/plexus/auth_memory.rs:267-275 | a state that waits waits no longer and has one code; any other is refused with nothing changed |
| Sessions.MemoryAuthBackend.TradeCode | src/plexus/auth_memory.rs:365-375 | the code is gone whatever follows; a session, of its person and for the default lifetime, exactly for its own state within 60 seconds; each refusal says its cause |
| Sessions.MemoryAuthBackend.Derive | src/plexus/auth_memory.rs:385-404 | a session exactly for a caller who is someone and whose ceilings parse: its own principal, name and agent, its layers and at most the asked one, for the asked or default lifetime cut to what is left of the caller's; else nothing changes |
| Sessions.MemoryAuthBackend.Identify | src/plexus/auth_memory.rs:308-326 | a token stands for its session until its expiry and not at it |
| Sessions.MemoryAuthBackend.CheckPassword | src/plexus/auth_memory.rs:376-384 | a session for the user's own principal exactly when the password is theirs; a wrong one signs nobody in and changes nothing |
| Sessions.DerivedLasts | src/plexus/auth_memory.rs:393-400 | a session minted from another lasts what was asked, or the default, but no longer than was left of that one at the first reading |
| Sessions.KeptLasts | src/plexus/auth_memory.rs:399-403 | one minted by a caller without an expiry lasts what was asked, or the default, if and only if that is under 2^63 seconds |
| Sessions.DerivedNeverOutlives | src/plexus/auth_memory.rs:393-400 | a session expires no later than the one it was minted from plus the clock's advance between the two readings if and only if that one had not expired at the first; if it had, the new one is nobody's; and never later than the lifetime asked, or the default |
| Sessions.DerivedIsNarrower | src/plexus/auth_memory.rs:385-404 | same principal, agent and name; the parent's ceiling layers a prefix, and one more, the asked one's text, exactly when one is asked |
| Sessions.ChainsNarrow | src/plexus/auth_memory.rs:385-404 | along any chain of such sessions: one principal, one agent, the first ceiling a prefix of the last |
| Sessions.ChainsNeverOutlive | src/plexus/auth_memory.rs:393-400 | along any chain with no link made of an expired session, the last outlives the first by the clock's advances at most |
| SessionRuns.CodeSessionsAreSignIns | src/plexus/auth_memory.rs:353-375 | over any run code sessions ≤ completed sign-ins ≤ browser starts; each session has a sign-in of its own with its code, state and person, within a minute; no code or state serves twice |
| SessionRuns.SignOutEndsOne | src/plexus/auth_memory.rs:437-461 | signing out ends exactly the session it names, for its token and for connections signed in with it |
| SessionRuns.StandsWhileItWouldBeTaken | src/plexus/auth_memory.rs:451-461 | a connection's sign-in stands exactly while its token would still be taken |

## Left out

- Ledgers.Ledger.Owed: running totals are unbounded here; the source's are u64 and would have to pass 2^64 items in one call.
- Ledgers.Ledger.Refuse: the writes of `input_finished`, `abandon` and `refuse` (a flag, or a refusal and its flag, then the wake) are one step, and so are the two locks of a slot's guard.
- Numbers.NumberKeepsValue: asks that the digits fit in memory with the two copies made of them, far under 2^63; sums wrap as in a build without overflow checks, and where one does a build with them panics instead.
- SessionRuns.CodeSessionsAreSignIns: a sign-in takes the code out (or finds the user) under one lock and puts its session in under another; in `TradeCode` and in every run both are one step, and so is `Derive`, whose caller was identified before.
- Sessions.DerivedNeverOutlives: asks that the parent's expiry less the clock's reading be an i64, as it is for any clock that is one; sums with the clock are unbounded.
- Worklist.Walk: asks for a finite tree of answered schemas; on an endless one the source's loop does not end either.
- GrantGate.DiscoverableIsUsable: asks that no other method claim the same dotted path, since the index keeps the last; and that the gate's checks and `held_on_by` agree, as the external `Gate` promises.
- ViewProofs.ViewHashIsSound: is about the activations the service lists a summary of, as a hub does of every one; `rehash` covers no other.
- SpellMeaning.SpellKeepsMeaning: references are `#`, `#/$defs/<name>` and `#/definitions/<name>`; paths into other places of the root are not resolved.
- SpellSteps.SpellObject: the source rewrites a JSON value in place; here each step gives the rewritten object back, so aliasing is not modelled.
- Rollup.ContentHashIsSound: a method is the JSON object it serializes to; that serde writes distinct schemas as distinct objects is not proved.
- Caches.Cache.View: cells are numbered rather than shared references, and a generation does not wrap.
- Duplex: the awaits of the pipe and every socket failure are the one step Cancel; the expiry timer may fire at any select.
- Duplex: items are opaque, `decode` is the set of items that do not read as the method's type; binary frames, base64 and the parsing of a frame's params are not modelled.
- The insides of `plexus_auth_core` (ceilings, roles, memberships, principals), SHA-256, UUIDs and the real clock: functions or parameters.
- `DuplexGate::open`: its own check is the decision a call opens on, which the protocol is given as the generation it was made at.
- The scope gate's decision table, audit records, envelopes of introspection answers (`Shell`), credential envelopes, the building of an IR from the schemas walked, registration, subscriptions, HTTP and MCP: plumbing or easy members.
- `qualify_grant`, cookie parsing, `signup`, `ask_access` and the builders: easy members.
