# dario: models and proofs

dario is a local proxy that serves Claude Code and other clients from subscription accounts. This project models the
parts of it that keep state across events, across instances or across turns, and proves what those parts promise.

- **Responses to Messages** (`Responses`, `Translation`, `WellFormed`, `Conservation`, `Assembly`, `ParallelCalls`,
  `MixedTurns`, `CallMeaning`, `CallFacts`, `SegmentMeaning`, `Translator`, `Assembler`, `Turn`): the translator of a
  Responses stream into a Messages stream, which has one block open at a time and a queue of tool calls waiting for it;
  the fold of that stream back into one message.
- **Framing** (`Framing`, `SseParser`, `WireForm`): cutting a text into records at blank lines, chunk by chunk.
- **Shared accounts** (`Credentials`, `Registry`, `SyncRule`, `SyncWorld`, `Convergence`, `AccountFiles`): a replicated
  last-writer-wins registry with removal markers, synced by any number of instances whose steps interleave at every
  await.
- **Single use** (`PendingLogins`, `RefreshLock`, `RefreshLockFailures`): logins that may be completed once, refresh
  tokens that may be shown once.
- **Tools** (`ReverseMap`, `ReverseMapper`, `ToolNames`, `CacheBreakpoints`): renaming and reshaping the model's tool
  calls back to the client's, streamed and whole; the names tools travel under; where prompt-cache breakpoints go.
- **Smaller cores** (`CodexSeats`, `CodexStore`, `CacheTrace`, `CacheTraceLateness`, `CacheTracer`, `CchStamp`,
  `CchBodies`, `CchRewrites`): ChatGPT seat files and their refreshes, the bounded cache trace, the request-integrity stamp.

Objects whose methods update fields are classes (`Translator.ResponsesTranslator`, `Assembler.MessageAssembler`,
`SseParser.Parser`, `ReverseMapper.StreamingReverseMapper`, `AccountFiles.AccountStore`, `CodexStore.Store`,
`CacheTracer.Tracer`, `CacheBreakpoints.CcRequest`); each method is tied to a function of its state, and the theorems
are about those functions. Code that suspends at an `await` is a state machine with one step between two awaits, and the
theorems range over every sequence of steps.

Parameters stand for what lies outside: the parsing and printing of JSON, the backward translation of a tool's
arguments (any function, which may throw), the 64-bit hash, the token endpoint's answers, the clock, and, for every call
to the service, whether it is answered, lost on the way there or lost on the way back.

## Where a promise does not hold of the code

Each of these is a lemma with the failing input, beside the exact condition or the hypothesis under which the promise
holds.

- The translator's stream is well formed exactly when every reasoning delta and every finished web search names the open
  block (`UndisciplinedRunsBreak`); the comment at `src/anthropic-responses-translate.ts:1094-1124` promises it always.
- A registry put of a record without a grant time can bring a removed account back (`UngrantedPutRevives`).
- "Newer" is no order once some records lack a grant time (`NewerCanCycle`), and then even a run in which the lock
  service works can show a spent refresh token (`MissingGrantFails`). Nor does a rotation whose record expires no later
  reach anyone, so the next caller shows the token it spent (`EarlierExpiryFails`).
- The lock's contract (`redis-lock/README.md`) acquires at once and releases at once; `redis-lock/server.mjs` reads the
  cache and takes the lock with two commands, and a peer's whole refresh fits between them (`TwoCommandAcquireFails`);
  it deletes the lock and caches the credentials with two more, and a peer acquires between those
  (`TwoCommandReleaseFails`).
- A stream is not renamed at all when no mapping needs translation, while a whole body is (`PassThroughAgreesIff`); and
  a tool without a backward translation is renamed in a stream that is mapped (`UntranslatedIsRenamed`), though the
  comment at `src/cc-template.ts:2712-2714` says it passes unchanged. The model follows the code.
- A stream that starts a block over while its tool input is held can have text taken for that input; exactly when is
  `StreamCommutesIff`, and `RestartIsSwallowed` is such a stream.
- A ChatGPT refresh overwrites another login granted in the same millisecond, or when neither carries a grant time
  (`CommitReplacesOtherIff`).
- A ChatGPT seat's file loses its grant time when the registry's record has none and expires later, and in no other way
  (`GrantsGoBackIff`, `UngrantedSaveLosesGrant`).
- The cache trace can hold an older dispatch than one it has dropped (`ExpiredCanRegress`, `TiesRegress`). It never does
  while no input arrives more than a lifetime and a millisecond late and inputs of one millisecond on one key arrive in
  the order of dispatch; any later one it may (`LatenessIff`), and without that order any bound that lets two inputs
  share a millisecond (`TiesIff`).
- The stamp of a body is stable under a proxy's rewrites (`src/cch.ts:15-22`) exactly when its first token is in none of
  the rewritten fields before and after, or in one of them before and after, or there is nothing to zero
  (`StampStaysIff`), and a reader accepts it exactly when that token is in no field these rewrites touch
  (`StampSurvivesIff`). A token that a rewrite puts in the model changes what is hashed (`TokenInModelChangesPreImage`).
- A cch quoted in a conversation is not left alone, as `src/cch.ts:126-135` promises, when the whole billing tag is
  quoted: `messages` stands before `system`, takes the stamp, and the header keeps what it had
  (`QuotedHeaderTakesStamp`). The header takes it exactly when no entry ahead of it has a token (`OnlyHeaderIff`).
- On the genuine-client path a breakpoint can sit on an empty text block of the system prompt (`GenuineSystemLegalIff`,
  `EmptySystemBlockIsStamped`).

## Model

| member | source | states |
|---|---|---|
| WellFormed.WellFormedIffDisciplined | src/anthropic-responses-translate.ts:1125-1512 | for every sequence of events, cut off anywhere, the emitted stream is accepted by an independent automaton (one message_start, blocks numbered 0,1,2,… each start/deltas/stop, never two open, deltas only of the block's kind, one message_delta, one message_stop, nothing after) if and only if every reasoning delta and every finished web search names the open block |
| WellFormed.EndedEmitsNothing | src/anthropic-responses-translate.ts:1504-1510 | once ended, a stream stays ended and emits nothing for any further events, so `end()` is idempotent |
| WellFormed.UndisciplinedRunsBreak | src/anthropic-responses-translate.ts:1280-1338 | two concrete runs, one per kind of indiscipline, whose streams the automaton rejects |
| WellFormed.PushReads | src/anthropic-responses-translate.ts:1372-1502 | one event takes the automaton from the phase the state stands for to the phase of the new state, or breaks it exactly when the event is undisciplined |
| Conservation.StreamIsFaithful | src/anthropic-responses-translate.ts:1340-1512 | over every stream, cut off anywhere, the text and the thoughts that go out are exactly those that came in before its end, in order; and the stop reason is tool_use exactly when a tool_use block was started, those opened at the very end included, else what the ending event's status says |
| Conservation.StopReasonMeans | src/anthropic-responses-translate.ts:849-855 | the stop reason of every stream: tool_use when a call was started, else max_tokens when the ending event is incomplete for any reason but the content filter, else end_turn, cut off included |
| Assembly.BlockGathers | src/anthropic-responses-translate.ts:1588-1602 | over any stream, well formed or not, a block gathers until it is started over the text, thoughts and citations addressed to it, in order, and on a tool block, and no other, the fragments of its input |
| SegmentMeaning.MessageNames | src/anthropic-responses-translate.ts:1153-1174 | every stream starts with the message, under the model asked for, or else the one the first event with anything to say names, and under its id |
| ParallelCalls.CallsRefineBatch | src/anthropic-responses-translate.ts:1202-1261 | from any state between calls, any interleaving of the events of any number of calls, cut off anywhere and then settled, yields the calls' blocks in the order announced from the next index on, each holding that call's own folded arguments in full, and no earlier block changed |
| ParallelCalls.TurnIsBatch | src/anthropic-responses-translate.ts:1372-1512 | a turn of calls assembles to exactly the batch message computed call by call from the events before its end: ended by response.completed, incomplete, failed or an error, with anything after that, or cut off after any event |
| ParallelCalls.BeforeEndOfTurn | src/anthropic-responses-translate.ts:1379-1396 | of calls followed by nothing, or by an ending event and anything after it, what comes before the end is the calls |
| ParallelCalls.StreamCloses | src/anthropic-responses-translate.ts:1372-1512 | every stream is its events before the end and then one closing: what comes after an ending event is not heard |
| ParallelCalls.InterleavingIrrelevant | src/anthropic-responses-translate.ts:1142-1150 | two interleavings with the same events per call and the same order of announcement assemble to the same message, however each of them ends |
| CallMeaning.FinalArgumentsArrive | src/anthropic-responses-translate.ts:1462-1484 | read off the events' fields alone: a call's block holds the whole text its final events carry when that goes on from all its fragments, and exactly its fragments when it does not, or when no final event carries any |
| CallMeaning.ArgumentsAfter | src/anthropic-responses-translate.ts:1058-1068 | one event more, for any events: a fragment is added, a whole text takes over when it goes on from what there is, and nothing else counts |
| CallMeaning.DoneAloneArrives | src/anthropic-responses-translate.ts:1462-1484 | a call of which there is only the adding and the done has the arguments it is done with |
| CallMeaning.CallsAreNamed | src/anthropic-responses-translate.ts:1184-1200 | each call's block bears the name it was announced with, and its call id, or else its item id, or else the number of calls before it without either |
| CallMeaning.AnnouncedFirst | src/anthropic-responses-translate.ts:1417-1423 | a call is announced by the first event there is of it, the one that adds its item |
| CallFacts.CallsAreKnown | src/anthropic-responses-translate.ts:1202-1212 | over every stream, orderly or not: of each call is known exactly the item that the first of its events with one gave it, late or not, and its own arguments, and every call opened bears the id and the name of one |
| CallFacts.EveryCallIsNamed | src/anthropic-responses-translate.ts:1372-1512 | and so for every whole stream, ended in any way or cut off, the calls opened at its end included |
| CallFacts.WaitsBehindCalls | src/anthropic-responses-translate.ts:1214-1242 | a new call waits exactly behind an open call whose end has not come, whatever else is open; else its block is the next to open |
| CallFacts.DrainStopsAtCalls | src/anthropic-responses-translate.ts:1244-1254 | when the waiting calls have had their turn, none waits but behind such a call |
| MixedTurns.TurnIsSegments | src/anthropic-responses-translate.ts:1125-1512 | a turn of prose with citations, thoughts, web searches and runs of interleaved calls, in any order, assembles to exactly the blocks computed segment by segment from the events before its end, ids numbered across segments: ended in any way, with anything after that, or cut off anywhere |
| MixedTurns.CutIsTurn | src/anthropic-responses-translate.ts:1504-1510 | such a turn cut off after any event is such a turn, of the segments so far and a part of the next |
| MixedTurns.BeforeEndOfSegments | src/anthropic-responses-translate.ts:1379-1396 | of its segments followed by nothing, or by an ending event and anything after it, what comes before the end is the segments |
| SegmentMeaning.ProseSays | src/anthropic-responses-translate.ts:1430-1441 | a message has a text block exactly when something was said or cited, and it says every fragment in order, with one citation for each cited |
| SegmentMeaning.CitationsQuote | src/anthropic-responses-translate.ts:1442-1459 | each citation, whatever comes after it, quotes the span it names of the text streamed before it, as far as that text goes, negative positions included |
| SegmentMeaning.SearchesArrive | src/anthropic-responses-translate.ts:1264-1303 | a finished search is a call with its query, or the first of its queries, or its page, then under the same id every page found, once, in the order first found; an unfinished one is the call alone |
| ParallelCalls.DrainMid | src/anthropic-responses-translate.ts:1245-1254 | draining the waiting calls keeps the queue invariant: shown calls keep their blocks, the next get theirs in order, the rest still wait with all they gathered |
| Translator.ResponsesTranslator.Push | src/anthropic-responses-translate.ts:1372-1502 | pushing an event updates the translator's fields and returns the events exactly as the specification step does |
| Translator.ResponsesTranslator.End | src/anthropic-responses-translate.ts:1504-1510 | ending emits the closing events of the specification, or nothing when already ended |
| Translator.ResponsesTranslator.DrainToolCalls | src/anthropic-responses-translate.ts:1245-1254 | the loop over the waiting queue ends, with the state and events of the recursive drain |
| Translator.ResponsesTranslator.PlaceToolCall | src/anthropic-responses-translate.ts:1230-1242 | a call is opened, queued behind the one in flight, or, once placed, only sent, leaving the rest of the state alone |
| Translator.ResponsesTranslator.FinishSearchBlock | src/anthropic-responses-translate.ts:1280-1302 | the search input goes out, the open block closes, and the result block lists each page once |
| Translator.TranslateStream | src/anthropic-responses-translate.ts:1125-1512 | a translator fed a whole stream and ended emits the specification's output |
| Assembler.MessageAssembler.Push | src/anthropic-responses-translate.ts:1588-1624 | the in-place fold of emitted events equals the mathematical fold of the stream |
| Turn.TurnMessage | src/anthropic-responses-translate.ts:1580-1635 | translating a turn of calls, ended or cut off, folding the stream and reading the message gives every call in the order announced with its own arguments |
| Turn.MixedTurnMessage | src/anthropic-responses-translate.ts:1580-1635 | translating such a turn, folding the stream and reading the message gives the blocks of its segments, in order |
| Framing.SplitConcat | src/anthropic-responses-translate.ts:1656-1681 | cutting a longer text is cutting its first part and going on from what that left over, for every separator that satisfies the framing laws |
| Framing.ChunksIrrelevant | src/anthropic-responses-translate.ts:1656-1681 | for every string and every way of cutting it into chunks, the records and the remainder are those of the whole |
| Framing.SplitCuts | src/anthropic-responses-translate.ts:1656-1668 | the split cuts at every separator and nowhere else, the first one first, and drops nothing but the separators |
| Framing.BlankLineCrIs | src/anthropic-responses-translate.ts:1656-1658 | a record ends at two newlines, each of which a carriage return may precede |
| Framing.BlankLineCrSeparates | src/anthropic-responses-translate.ts:1656-1668 | the separator of optional carriage returns and two newlines satisfies those laws, so a chunk may end inside it |
| Framing.BlankLineSeparates | src/cc-template.ts:2963-2985 | so does the plain blank line the reverse mapper cuts at |
| SseParser.Parser.Push | src/anthropic-responses-translate.ts:1656-1669 | the buffer keeps exactly what follows the last complete record, and the events are those of the complete records in order |
| SseParser.Parser.Flush | src/anthropic-responses-translate.ts:1670-1679 | the unterminated record is parsed once, and the buffer is empty after |
| SseParser.ParseChunks | src/anthropic-responses-translate.ts:1637-1681 | pushes and a flush over any chunks give the events of one read of the whole stream |
| Credentials.NewerIsAnOrder | src/accounts.ts:145-152 | among records that carry a grant time, newer is irreflexive and transitive, and two records neither of which is newer agree on grant and expiry |
| Credentials.NewerTransitiveIff | src/accounts.ts:145-152 | exactly when two steps of newer fail to add up, for arbitrary records |
| Credentials.NewerCanCycle | src/accounts.ts:145-152 | three records each newer than the next, all the way round |
| Registry.PutFollowsClientRule | redis-lock/server.mjs:198-207 | the put script, branch by branch, is the client's rule: stored exactly when granted after the marker and newer than what is held, clearing the marker |
| Registry.PutKeepsRemovalIff | redis-lock/server.mjs:198-207 | a put keeps a standing removal exactly when the record carries a grant time or is refused |
| Registry.RemovalsArePermanent | redis-lock/README.md:149-156 | over every run of puts of granted records and of removals, each removal still stands at the end: a later grant is held, or a marker at least as late, although storing clears the marker |
| Registry.CoveredPutRefused | redis-lock/server.mjs:198-207 | while a removal stands, a put of a record granted no later than it changes nothing |
| Registry.UngrantedPutRevives | redis-lock/server.mjs:198-207 | a run in which a record without a grant time brings a removed account back |
| SyncRule.PlanMerges | src/account-sync.ts:199-222 | carrying out the plan of one alias leaves in the file, and in the registry, a newest record of those that outlive the latest removal, or nothing |
| SyncRule.DecideTakes | src/account-sync.ts:199-222 | a plan only ever moves the registry's record to the file or the file's to the registry, and deletes only a file there is, for the latest removal |
| SyncWorld.SyncsNeverPutBack | src/account-sync.ts:436-491 | over every interleaving of all instances' sync steps, removals, writes and lost calls, an instance's file never again holds a record granted at or before its latest local removal, unless a login or refresh wrote one there |
| SyncWorld.AcknowledgedRemovalsStand | src/account-sync.ts:440-446 | over every interleaving in which written records carry grant times, every removal the registry acknowledged to an instance still stands there |
| SyncWorld.CheckHeeds | src/account-sync.ts:492-497 | a check lets a record through to the registry exactly when it outlives the last removal made here, as of that moment |
| SyncWorld.SentOutlived | src/account-sync.ts:492-498 | over every interleaving, whatever an instance is sending was let through by such a check and has been on its way ever since |
| SyncWorld.RemovedIsNotSent | src/account-sync.ts:492-498 | over every interleaving, a record granted at or before a removal made here is never sent to the registry after it, unless it already was on its way |
| SyncWorld.RemovedWhilePushing | src/account-sync.ts:492-498 | an account removed between the plan and the check is not put back: the registry stays as it was |
| SyncWorld.PublicationsAreRemembered | src/account-sync.ts:436-449 | a removal is sent exactly when none as late was acknowledged; an answer is remembered, and a lost call leaves the sync unclean |
| SyncWorld.NodeKeepsSaveSafe | src/accounts.ts:220-234 | a save in hand is of a record outliving the last local removal, or that removal came at or after the list was asked for, which the write then refuses |
| Convergence.SyncsConverge | src/account-sync.ts:436-503 | with removals and logins stopped, for any interleaving of syncs and any lost calls: once every instance has finished a clean sync the registry holds the newest record granted after the latest removal, or nothing under that removal's marker; every instance whose next clean sync listed it holds the same in its file |
| Convergence.TwoRoundsConverge | src/account-sync.ts:436-503 | after every instance has synced once and then once more, in any two orders, every file and the registry agree on that outcome |
| Convergence.LoginReachesAll | src/account-sync.ts:436-503 | a login or a refresh newer than every record and granted after every removal is, two rounds of syncs later, in every file and in the registry |
| Convergence.RemovalReachesAll | src/account-sync.ts:436-503 | an account removed on one instance is, two rounds of syncs later, in no file, and the registry holds nothing but the removal |
| Convergence.OutcomeExists | src/account-sync.ts:181-222 | the latest removal and the newest outliving record exist for every world whose records carry grant times, so the two theorems above speak of every such world |
| Convergence.DoKeepsConverging | src/account-sync.ts:436-503 | one step of any instance keeps the convergence invariant: nothing unaccounted for, removals published, the best record pushed and never overwritten, final registries adopted |
| AccountFiles.PlanAccountSync | src/account-sync.ts:199-222 | the one-pass plan over all aliases says for each alias exactly what the per-alias rule says, in at most one of the three lists |
| AccountFiles.AccountStore.SaveSharedAccount | src/accounts.ts:220-234 | the guarded write changes only this alias, as the rule the sync protocol is proved for, and reports what it replaced |
| AccountFiles.AccountStore.RemoveSharedAccount | src/accounts.ts:243-256 | the guarded removal deletes only a file no later login replaced, and records no local removal |
| AccountFiles.AccountStore.RemoveAccount | src/accounts.ts:189-201 | a removal is recorded, at its time, exactly when there was a file to remove |
| PendingLogins.AtMostOneWins | src/admin-api.ts:380-393 | over every interleaving of starts, restarts, lapses and completions on any number of instances, while the service answers every publication and removal, lookups lost or not, a login is won by at most one completion |
| PendingLogins.AtMostTwoWin | src/admin-api.ts:353-393 | with any calls lost, by at most two, and only by completions whose pasted state, if any, is that login's |
| PendingLogins.TwoCanWin | src/admin-api.ts:390-392 | a run with one lost call in which two completions win, so the bound of two is tight |
| PendingLogins.PublishedLoginCompletes | src/admin-api.ts:353-393 | an undisturbed completion of the login the service holds, on any instance that shares, wins it and leaves it nowhere |
| PendingLogins.UnpublishedLoginCompletes | src/admin-api.ts:353-389 | a login that was never published completes on the instance that kept it |
| PendingLogins.CompletionsSpareOthers | src/admin-api.ts:353-412 | no step of a completion deletes, here or on the service, a login other than the one it found |
| PendingLogins.SharedIsAskedFor | src/admin-api.ts:371-393 | a copy the service is known to hold too is won only by asking the service |
| PendingLogins.LapsedIsDropped | src/admin-api.ts:395-412 | a login found lapsed is dropped here, and on the service exactly when it is held there too; nobody wins it and no other is touched |
| PendingLogins.CreateNeverReplaces | redis-lock/server.mjs:262-272 | a login started under a name of its own never takes the place of one the service holds |
| PendingLogins.StartReplaces | src/admin-api.ts:315-335 | any other does when there is room and the call arrives, and is kept here exactly when it was stored or the answer did not come |
| PendingLogins.DoKeeps | src/admin-api.ts:353-412 | every step keeps each login's two copies, the instance's and the service's, spent at most once each |
| RefreshLock.NoSpentTokenIsPresented | src/accounts.ts:570-664 | over every interleaving of logins and refreshes on any number of instances, from whichever records ever issued, every refresh token shown was good when shown, while the service acquires and releases at once and answers, releases land before their leases lapse, rotations are heard of and expire strictly later than what they replace, nobody runs out of attempts, and newer ranks the records issued |
| RefreshLock.UniformIsRanked | src/accounts.ts:145-152 | it does rank them when every record carries a grant time, and when none does |
| RefreshLock.RefreshedAlone | src/accounts.ts:601-617 | a caller with nothing newer cached and the lock free refreshes, replaces its token, and leaves the result cached and the lock free |
| RefreshLock.AdoptedIsNotBeaten | src/accounts.ts:594-600 | over every run, whatever else goes wrong in it, a caller handed credentials by an acquire no longer holds any that the cache beats |
| RefreshLock.AdoptedAlone | src/accounts.ts:594-617 | a caller with the lock free and newer credentials cached that are near their end refreshes those and never its own, and leaves their rotation cached |
| RefreshLock.OnlyHolderReleases | redis-lock/README.md:70-73 | a release by a caller that does not hold the lock changes neither the lock nor the cached credentials |
| RefreshLock.EightAttempts | src/accounts.ts:574-626 | a caller refreshes without the lock after eight attempts and no sooner |
| RefreshLock.TwoCommandsAcquire | redis-lock/server.mjs:88-107 | with nothing in between, the two commands of an acquire that takes the lock are that acquire |
| RefreshLock.TwoCommandsRelease | redis-lock/server.mjs:110-122 | and so are the two of a release |
| RefreshLockFailures.TwoCommandAcquireFails | redis-lock/server.mjs:88-107 | a run in which an acquire that reads the cache and then takes the lock lets a spent token be shown, everything else in order |
| RefreshLockFailures.TwoCommandReleaseFails | redis-lock/server.mjs:110-122 | so does a release that deletes the lock and then caches the credentials |
| RefreshLockFailures.LapsedLeaseFails | redis-lock/README.md:56-60 | so does a lease that lapses between the refresh and its release |
| RefreshLockFailures.LostReleaseFails | src/accounts.ts:601-616 | so does a release that never arrives |
| RefreshLockFailures.LostRotationFails | src/accounts.ts:628-664 | so does a rotation that is never heard of |
| RefreshLockFailures.UnreachableFails | src/accounts.ts:583-592 | so does one caller the service does not answer |
| RefreshLockFailures.ExhaustedFails | src/accounts.ts:619-626 | so does one caller that runs out of attempts |
| RefreshLockFailures.EarlierExpiryFails | src/accounts.ts:628-664 | so does a rotation that expires no later than what it replaces |
| RefreshLockFailures.MissingGrantFails | src/accounts.ts:145-152 | so does a single login without a grant time among logins that have one |
| ReverseMap.StreamCommutes | src/cc-template.ts:2813-2961 | for every event sequence in which no event is read against a stale hold, the assembled mapped stream is, block by block, a function of the assembled stream: translated input whole, over-long or unparsable input exactly as sent under the client's name, cut-off input held back |
| ReverseMap.StreamCommutesIff | src/cc-template.ts:2813-2961 | that condition is exact: the mapped stream says the right thing after every event if and only if no delta or stop is read against what was held for a block since started over |
| ReverseMap.DisciplinedReadsNothingStale | src/cc-template.ts:2847-2890 | an event sequence that starts no block over while it is open meets it |
| ReverseMap.UntranslatedIsRenamed | src/cc-template.ts:2847-2869 | in a mapped stream a tool without a backward translation arrives under the client's name, its input untouched |
| ReverseMap.StreamAgreesWithBody | src/cc-template.ts:2617-2679 | when some mapping needs translation and every input can be translated, assembling the mapped stream equals mapping the assembled body |
| ReverseMap.PassThroughAgreesIff | src/cc-template.ts:2762-2773 | when none does, stream and body agree exactly if every mapped tool the message calls already bears the client's name |
| ReverseMap.PassThroughKeepsName | src/cc-template.ts:2762-2773 | a stream left under the upstream's name where the body is renamed |
| ReverseMap.BrokenInputStays | src/cc-template.ts:2617-2679 | when the translation of a call's input throws or nothing can be injected, the name is the client's all the same and the input goes out as far as it got |
| ReverseMap.RestartIsSwallowed | src/cc-template.ts:2847-2890 | a block started over an open tool block has its deltas taken for that tool's input |
| ReverseMap.GivenUpKeepsFragments | src/cc-template.ts:2884-2944 | for every event sequence read against no stale hold, a finished block given up on, past the cap or for its input, arrives with exactly the concatenation of its fragments, under the client's name |
| ReverseMapper.StreamingReverseMapper.ProcessBuffer | src/cc-template.ts:2963-2985 | every complete group is processed once and in order, the partial one waits or is flushed, and what is sent is what the groups so far map to |
| ReverseMapper.MapChunks | src/cc-template.ts:2987-3000 | for every chunking, feeds and an end send exactly the text of one whole read, held-block state included |
| ReverseMapper.MappedTextReads | src/cc-template.ts:2803-3000 | what a client reads from the mapped text of any response, however it ends, is the mapping of the response's own events: no group is merged, split or lost, the last one, which may lack its blank line, included |
| ReverseMapper.MappedTextAssembles | src/cc-template.ts:2681-2727 | from text to text, for any text, the message a client assembles is the block-by-block mapping of the message the response says |
| ReverseMapper.UntouchedGoesAsItCame | src/cc-template.ts:2762-2773 | a response that calls no mapped tool goes out byte for byte, but for groups without a character |
| WireForm.FirstDataLineIsRead | src/cc-template.ts:2813-2837 | a group is read for its first data line, whatever lines stand before it and whatever comes after: the trimmed payload decoded, and nothing when that is empty or the end mark |
| WireForm.NoDataLineIsNothing | src/cc-template.ts:2829-2831 | a group with no data line says nothing, whether or not its last line is ended |
| WireForm.WrittenIsLawful | src/cc-template.ts:2792-2799 | what is written as an event line and a data line reads back as the event, so the theorems above hold of the form the mapper itself writes |
| ToolNames.BuildReverseLookup | src/cc-template.ts:2578-2604 | only true inverses: the last identity claim, else the first declaration with the highest score that is not zero, and an entry for every name that has a claim |
| ToolNames.ReverseIsUnique | src/cc-template.ts:2578-2604 | that description determines the lookup |
| ToolNames.MapTools | src/cc-template.ts:2067-2208 | for every declaration: beside one of the provider's tools, it is accepted, with every tool carried, exactly when every tool outside the provider's set can be carried, and otherwise fails with precisely the names that cannot; else the map holds under each name what its last declaration puts there, known tools as known, others dropped in hybrid mode and sent round the fallback tools without it |
| ToolNames.KnownGoesWhere | src/cc-template.ts:2080-2119 | a tool of the provider's set or an MCP tool goes under its own name, an alias, whatever its case, on the tool it is an alias of, and any other in hybrid mode nowhere |
| ToolNames.CarriesWhen | src/cc-template.ts:2145-2153 | other tools are carried exactly when the declaration names, whatever the case, a tool the template advertises, or has the provider's own definition of one it does not |
| ToolNames.OnlyCustomToolsAreCarried | src/cc-template.ts:2144-2177 | nothing goes out under an MCP name but custom tools with a schema, whose names are valid there and not taken |
| ToolNames.FieldsAreTheSchema | src/cc-template.ts:2105-2117 | in hybrid mode a known tool carries the fields of its last declaration's schema, otherwise its alias's own |
| ToolNames.CarriedNamesRoundTrip | src/cc-template.ts:2144-2177 | of every accepted declaration, each tool outside the provider's set is advertised under its MCP name with the client's own definition, advertised names are distinct, and a call to that name maps back to exactly the client's name |
| ToolNames.FallbackNeverAnswers | src/cc-template.ts:2198-2207 | a tool on a fallback never takes a call back: every name in the reverse lookup goes to a tool mapped for what it is |
| ToolNames.FallbackIsSharedIff | src/cc-template.ts:2178-2184 | a fallback shares its tool with one the declaration uses itself exactly when it uses all six |
| ToolNames.FallbacksCollideIff | src/cc-template.ts:2178-2184 | two unknown tools share a fallback exactly when whole rounds of the pool lie between them |
| ToolNames.DedupedIsFirst | src/cc-template.ts:1740-1750 | no name twice, none lost, and the first declared under a name keeps it |
| ToolNames.DedupeToolsByName | src/cc-template.ts:1740-1750 | the loop over a set of seen names computes that list |
| CacheBreakpoints.PlaceBreakpoints | src/cc-template.ts:1688-1730 | on both build paths at most four breakpoints after placement, none on a tool, none on an empty text block of the conversation |
| CacheBreakpoints.CcRequest.ApplyCcPromptCaching | src/cc-template.ts:1688-1730 | walking backward in place stamps exactly the last two user turns that can carry a breakpoint, each on its last block that is no empty text |
| CacheBreakpoints.PlacedWhere | src/cc-template.ts:1688-1730 | turn by turn: the last two user turns with a block that can take it get one breakpoint more, on the last such block; every other turn goes out as it came |
| CacheBreakpoints.CcRequest.BuildGenuine | src/cc-template.ts:1956-1977 | a genuine client's breakpoints are replaced by those on its last two system blocks |
| CacheBreakpoints.GenuineSystemKeeps | src/cc-template.ts:1956-1977 | its system keeps its blocks, but for the text of the first, which is the billing tag, and the last two behind it are stamped, or the one there is |
| CacheBreakpoints.TemplateStamps | src/cc-template.ts:2319-2323 | on the template path the billing tag carries no breakpoint, the identity and the prompt behind it one each |
| CacheBreakpoints.GenuineSystemLegalIff | src/cc-template.ts:1966-1968 | on that path no breakpoint sits on an empty system block exactly when neither of those two is one |
| CacheBreakpoints.EmptySystemBlockIsStamped | src/cc-template.ts:1966-1968 | a system prompt whose empty last block gets a breakpoint |
| CacheBreakpoints.AnchorIsPreviousRolling | src/cc-template.ts:1671-1678 | extending a conversation by one stampable user turn puts the anchor exactly where the previous request's rolling breakpoint was, and stamps nothing else before the new turn |
| CodexSeats.GrantsNeverGoBack | src/codex-accounts.ts:168-229 | over every interleaving of refreshes, registry saves and removals, local removals and logins that saves no ungranted record over a granted one, the file's grant time never goes backwards until the file is removed |
| CodexSeats.GrantsGoBackIff | src/codex-accounts.ts:168-229 | that exclusion is exact, over every interleaving and records with grant times or without: no step takes the grant back if and only if no registry record without a grant time and with a later expiry is saved over a file that has one |
| CodexSeats.UngrantedSaveLosesGrant | src/codex-accounts.ts:190-206 | a run in which one does |
| CodexSeats.GoneStaysGone | src/codex-accounts.ts:310-331 | over every run, a refresh never recreates an absent file |
| CodexSeats.RefreshesKeepLogins | src/codex-accounts.ts:320-331 | over every interleaving, while no two logins share a grant time and at most one has none, no refresh ever replaces a login other than the one it refreshed, nor removes the file |
| CodexSeats.CommitReplacesOtherIff | src/codex-accounts.ts:325-327 | it does replace one exactly when both were granted in the same millisecond, or neither has a grant time, and the other expires no later than the answer |
| CodexSeats.AnswersLand | src/codex-accounts.ts:320-331 | the whole fate of an answer: nothing where the file has gone; the file that still holds the token takes it, whatever it expires at; under the same grant the later expiry stands, the answer on a tie; a file of another grant stands |
| CodexSeats.RefreshLands | src/codex-accounts.ts:498-546 | a request, its answer, its commit and its end with nothing in between leave the answer in the file under the old grant, the seat free and nothing held back |
| CodexSeats.SavesReach | src/codex-accounts.ts:190-206 | a registry record reaches the file when it is newer, or what is there was removed since, unless it was listed before a removal here |
| CodexSeats.RemovalsTake | src/codex-accounts.ts:168-229 | a removal in the registry takes the file unless a login came after it; one here is remembered only when there was a file |
| CodexSeats.EndsFree | src/codex-accounts.ts:521-546 | the end of a refresh frees the seat, and forgets the failure when there was still a file |
| CodexSeats.AtMostOneInFlight | src/codex-accounts.ts:521-546 | over every run of concurrent callers at most one refresh of the seat has not ended |
| CodexSeats.FailureCoolsDown | src/codex-accounts.ts:434-465 | after a failed request none starts for 60 seconds, forced or not, unless the seat's credentials are replaced, removed or found fresh |
| CodexStore.Store.CommitCodexRefresh | src/codex-accounts.ts:320-331 | the weighing of an answer against the file, in place, changes only this alias and answers with what survives |
| CodexStore.Store.SaveSharedCodexAccount | src/codex-accounts.ts:190-206 | a registry save takes the protocol's save step, and forgets the remembered failure exactly when it writes |
| CodexStore.Store.GetFreshCodexAccount | src/codex-accounts.ts:498-507 | fresh credentials clear the failure and send nothing; others send a request exactly when the protocol's step does |
| CacheTrace.HeldIsLatest | src/cache-trace.ts:167-197 | after any inputs each held key maps to the one that went out last, by time and then dispatch order, of its inputs since it was last dropped, and the trace is within its cap |
| CacheTrace.HeldIsAnInput | src/cache-trace.ts:167-174 | whatever a key holds was said by one of its inputs: alias, prefix and kept part |
| CacheTraceLateness.HeldIsLatestEver | src/cache-trace.ts:167-197 | whatever expires and whatever is evicted: while no input arrives more than ttl + 1 behind one that arrived before it, and inputs of one millisecond on one key arrive in the order of dispatch, no input there ever was on a held key went out later, by time and then by dispatch, than what the key holds |
| CacheTraceLateness.HeldIsNewestEver | src/cache-trace.ts:167-197 | by time alone that holds without the order: while no input arrives more than ttl + 1 behind one that arrived before it, each held key's time is at least that of every input there ever was on it |
| CacheTraceLateness.LatenessIff | src/cache-trace.ts:167-197 | with ties in order and room for two keys, ttl + 1 is exactly how late inputs may be |
| CacheTraceLateness.TiesIff | src/cache-trace.ts:167-174 | without ties in order, inputs may be late by no bound that lets two of them share a millisecond, whatever the cap |
| CacheTrace.SweepDropsOnly | src/cache-trace.ts:182-197 | a sweep drops every expired entry, and beyond those only when the cap is reached, none that went out after one it keeps |
| CacheTrace.ArrivalOrderIrrelevant | src/cache-trace.ts:167-174 | when nothing can expire or be evicted, the final map is the same for every permutation of the inputs |
| CacheTrace.ExpiredCanRegress | src/cache-trace.ts:182-197 | three inputs, the last of which went out before the first, after which the key holds the last and the first has been dropped |
| CacheTrace.CompareKept | src/cache-trace.ts:200-213 | comparing the kept items is sound for the full inputs: yes means strict prefix, no means not one, no answer exactly when the previous input ran past the cap and the kept parts agree on a longer input, and an index is the first that differs |
| CacheTracer.Tracer.Peek | src/cache-trace.ts:145-159 | answers nothing for a missing or expired key, else as soundly as the comparison about the full inputs, the first index at which they differ and the exact case of no answer included, and stamps the dispatch order only when absent |
| CacheTracer.Tracer.Remember | src/cache-trace.ts:167-174 | the in-place update, sweep included, is the trace step, and keeps the cap |
| CacheTracer.RememberEach | src/cache-trace.ts:167-197 | inputs remembered one by one leave the trace of the sequence |
| CchStamp.PutKeepsFirst | src/cch.ts:138-138 | writing five hex characters over the first anchored token changes nothing else and makes no earlier match |
| CchStamp.EntrypointLengths | src/cch.ts:138-138 | a billing tag is one exactly when its entrypoint has 1 to 32 characters, and then the stamp goes right behind it |
| CchStamp.Hex5IsValue | src/cch.ts:157-161 | the five characters are the twenty bits of the hash, most significant first, padded |
| CchStamp.StampIsConsistent | src/cch.ts:157-186 | a text that stamps carries the very stamp that is computed from it, has the same length, and stamps again to itself; one without a token or a known seed is left alone; one with both throws exactly when it does not parse |
| CchStamp.MaterialIgnoresStamp | src/cch.ts:141-149 | the pre-image of the stamped text is that of the original |
| CchBodies.PutShown | src/cch.ts:138-149 | stamping a body's JSON text is stamping the first key or value of it that has a token: none lies across two of them |
| CchBodies.OnlyHeaderIff | src/cch.ts:126-138 | the stamp goes to one given entry with a token, and to nothing else, exactly when no entry ahead of it has one |
| CchBodies.QuotedHeaderTakesStamp | src/cch.ts:126-138 | a conversation that quotes a billing tag takes the stamp, and the header behind it keeps what it had |
| CchRewrites.PreImageStaysIff | src/cch.ts:141-149 | after any setting and dropping of model, fallbacks, fallback_credit_token and max_tokens, what is hashed is what it was exactly when the first token is in one of those fields both before and after or neither, or there is nothing in the billing header to zero |
| CchRewrites.RewritesKeepStamp | src/cch.ts:15-22 | from JSON text to JSON text: under that condition the stamp of a body is the same before and after |
| CchRewrites.StampStaysIff | src/cch.ts:15-22 | and only under it is it the same whatever the hash |
| CchRewrites.StampSurvivesRewrites | src/cch.ts:15-22 | a body stamped first and rewritten afterwards goes out with the very stamp a reader computes from what it receives, while its first token is in no field these rewrites touch, before or after |
| CchRewrites.StampSurvivesIff | src/cch.ts:15-22 | and only then does a reader accept it whatever the hash |
| CchRewrites.TokenInModelChangesPreImage | src/cch.ts:141-149 | a token that a rewrite puts in the model, ahead of a billing header with something to zero, changes what is hashed, and stands in a field that was touched |
| CchRewrites.HeaderBehindModel | src/cch.ts:138-138 | such a body: a model, and a billing header behind it |

## Left out

- Token usage and the netting of cached input: numbers copied through, no state.
- JSON text, UTF-8 decoding, xxHash64, OAuth exchanges, HTTP, file durability and the keychain: parameters or outcomes of a step.
- The placeholder input of a tool block's start event: the mapper empties it, and the model takes it to be empty as upstream sends it.
- PendingLogins, RefreshLock, SyncWorld and CodexSeats are on values, one alias at a time, since their code suspends at awaits; aliasing of the maps they share within a process is not modelled, and a skipped later alias is a lost call.
- The registry list is read at once, as its contract says; the Redis server reads records and markers with two commands.
- Convergence starts with no sync running and no removal made in the current millisecond: a save fetched in the very millisecond of a local removal is refused and waits for the sync after.
- The live pool's view of a sync (`kept`, `onChange`), the queueing of overlapping syncs, logs and counters.
- `doRefreshAccountToken` saves unconditionally, so a Claude token refresh may restore a removed file; `SyncsNeverPutBack` excludes it by hypothesis.
- The choice of a default alias and the retry of a taken one, the cap on pending logins, the order of ChatGPT seats and their sticky bindings: bounded loops with one-function facts.
- ReverseMapper: a `data: null` group, whose null event throws out of `feed` at `src/cc-template.ts:2840`; `Wire.decode` answers an event or nothing.
- Merge and preserve tool modes, the tables of argument renames, a fallback's rewritten arguments and the prompt edits.
- The dropping of empty turns before placement, and the rewind of an empty final turn: filters ahead of the breakpoints.
- Case folding beyond ASCII: tool names are ASCII.
