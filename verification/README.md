# AdaClaw, modelled and proved

AdaClaw is an agent daemon: it receives chat messages, routes each to an agent, runs the agent's
tool loop against a language model, and keeps memories.  This project models the parts of it that
decide something, and proves what they promise.

- **The turn** (`Engine`, `Transcript`, `ToolCalls`, `Topics`, `Sessions`).  A working transcript is
  pushed to, summarised, trimmed and force-compressed in place while tools run.  Model, tools and
  intent checks answer arbitrarily: they are functions of the number of the call, and a meter counts
  the calls.
- **The dispatch loop** (`Dispatch`).  A transition system with one label per step of the loop and of
  the tasks it spawns; a run is any sequence of enabled labels, so every interleaving is covered.
- **Patterns** (`Glob`, `Allowlist`, `Router`).  One declarative meaning of globs; the greedy matcher
  and the compilation to regular expressions are both proved against it.
- **Ranking and recall** (`Sorting`, `Fusion`, `Qmd`, `FrontMatter`, `MarkdownStore`, `GlobalRecall`).
- **Text** (`Text`, `Splitter`, `Utf8`, `Framing`).
- **Topics and memory upkeep** (`Vectors`, `Consolidation`).

`dafny verify dfyconfig.toml` checks everything.

## Where the program differs from its comments and promises

The model follows the code; each difference below is stated by the theorems named with it.

- Hidden messages are said to be restored on switching back (`src/agents/engine.rs:584-585`,
  `src/agents/compact.rs:31-35`); nothing ever un-hides one: `Topics.HiddenForever`.
- Tool calls are said to need explicit markers (`src/agents/parser.rs:15-16`); a bare `name>json`
  line is a call, too: `ToolCalls.BareLineIsACall`, `ToolCalls.MarkerFreeReplies`.
- The allowlist says that `*` matches any run (`crates/adaclaw-channels/src/base.rs:19-27`); the
  greedy search rejects some such texts: `Glob.CompletePatterns` says for which patterns.
- A glob is said to be compiled to an equivalent expression (`src/bus/router.rs:84-86`); a wildcard
  never matches a line feed afterwards: `Router.CompilationExactOnAllTexts`.
- The original query is said always to be asked, and first (`crates/adaclaw-memory/src/query.rs:136-137`);
  the cap of five can drop it, and an answer that repeats it elsewhere keeps it there:
  `Qmd.OriginalKeptExactly`, `Qmd.OriginalFirstExactly`.
- Global entries are said always to be included (`crates/adaclaw-memory/src/global.rs:108-110`); they
  are filtered out of the first `limit` hits, so more relevant private entries can crowd them out:
  `GlobalRecall.GlobalMemory.Recall` says when, `GlobalRecall.GlobalMemory.DroppedGlobal` gives a store.
- Returned deletions are said to be originals replaced by merges
  (`crates/adaclaw-memory/src/consolidation.rs:69`); a cluster that repeats its first key deletes the
  merged entry itself: `Consolidation.MergedEntrySurvivesExactly`.  Overlapping clusters store a deleted
  key again, so that the total is not the drop of the count: `Consolidation.DropsByTotalExactly`,
  `Consolidation.OverlapRecreates`.  A repeated category can delete what its first listing merged:
  `Consolidation.RepeatedCategoryLosesMerge`.
- A reply to an accepted message on a stream goes to the stream, except that a message met by the
  freeze check is answered by an ordinary notice (`src/daemon/run.rs:1044-1057`):
  `Dispatch.StreamsEndUnlessFrozen`, `Dispatch.FrozenStream`.
- Native calls are said to stay with their results in the follow-up request (`src/agents/engine.rs:405-409`).
  In an ordinary run a summary or a hard trim can take a call and leave its result:
  `Transcript.SummaryCanOrphanAResult`, `Transcript.TrimCanOrphanAResult`, and `Transcript.CompactionOrphansExactly`
  says when.  After a context error without a system head a summary can take the results and leave the
  call: `Transcript.RetryThenSummarySplitsAPair`; `Engine.ToolLoop` says from which request on.

## Conventions

Numbers are unbounded; the only width that matters, the 32-bit length in a frame, is written out.
Floating-point scores, weights and vectors are exact reals, and a square root is any nonnegative
number with the right square.  Strings are sequences of Unicode scalar values; UTF-8 is spelled out
where bytes decide.  Directories and hash maps are visited in any order.  Ghost out-parameters and
ghost fields only record what theorems speak of: messages appended, summaries written,
requests sent with their answers, keys deleted and stored, clusters answered.  A turn's counters are
proved equal to sums over its requests (`Engine.Accounts`).

## Model

| member | source | states |
|---|---|---|
| Engine.AgentEngine.RunToolLoop | src/agents/engine.rs:214-541 | one turn, for every provider, tool set and topic answer: the new state is `AfterTurn` of the old one (one block appended, at most a pruning); the requests are a run of the loop from the visible history and the input, and it succeeds if and only if the last loop request is answered by a reply that asks for no tool, with that reply scrubbed and possibly corrected by this turn's reflection; at most 4·max_iter+3 provider calls; 13·summaries + length is at most initial length + messages of the replies and answers; every loop request has 1 to 60 messages; calls are paired with results in every request before a recorded cut behind a call-carrying head, and without a context-error retry in this turn there is no such cut; the loop starts from the input behind exactly the visible history, entry by entry (`Engine.Shows`), which after a switch comes from entries of the new topic only; a corrective request follows exactly if the reply is reflected on and not accepted, and quotes input and reply; no topic is labelled |
| Engine.ToolLoop | src/agents/engine.rs:311-541 | the loop alone, completely: its requests are a run (each determined by the one before: a compaction pass of the transcript so far, or a halving behind a context error); transcript, appended messages, summaries, calls and result are the stated functions of these requests; at most 4·max_iter+2 calls; 13·(count-triggered summaries) + length is at most initial length + appended messages; requests bounded; pairing holds in every request before the recorded cut behind a call-carrying head and is lost at it, unless a hard trim by chance leaves the same ids; no cut is recorded without a retry in this turn |
| Engine.RunsAreDetermined | src/agents/engine.rs:323-533 | environment and starting point determine the run: of two runs one is the beginning of the other |
| Engine.NothingFollows | src/agents/engine.rs:323-541 | behind a run that concludes no request can follow, except that of one iteration more than allowed |
| Engine.AskModel | src/agents/engine.rs:335-391 | an iteration costs one compaction pass and one request with retries, one to four calls: the transcript is the compacted one, halved once per retry; nothing is appended, and a summary is counted if and only if the pass wrote one because of the message count; the run is extended by these requests; the loop invariant is kept, the potential never rises and at most 60 messages remain; the token trigger needs only the three messages that the previous iteration left |
| Engine.RequestWithRetries | src/agents/engine.rs:369-391 | a retry follows each context error, at most two; the transcript is the old one compressed once per retry, the first request is the old transcript and the last the new one, with its answer; they extend the run by one iteration; compression keeps pairing, roles and the three-message floor; without a retry nothing changes |
| Engine.Act | src/agents/engine.rs:411-533 | the transcript grows by exactly the reply and one answer per call in call order, and the count of appended messages with it; the turn ends exactly if nothing is asked for; the error flag is set exactly if some tool is unknown or fails; the loop invariant is kept |
| Engine.RecordReply | src/agents/engine.rs:411-428 | native calls take precedence over calls parsed from text, and a native reply is recorded together with its calls |
| Engine.FillSlots | src/agents/engine.rs:478-518 | whatever the order in which tools finish, slot i holds the outcome of call i and no slot stays empty; the error flag is exact |
| Engine.ExecutePending | src/agents/engine.rs:478-533 | the answers are one per call, in call order, linked by id for native calls and by name for others; each tells its own outcome: the output, the error, that the tool crashed, or that it is not known |
| Engine.BlockIsPaired | src/agents/engine.rs:411-533 | a reply with its answers appended to a paired transcript leaves it paired |
| Engine.TieredReflect | src/agents/engine.rs:946-1030 | exactly which call decides the reply: the candidate stays unless a second call corrects it; one or two calls, and the one corrective request is the transcript and one user message that quotes up to 300 characters of the request and 500 of the reply |
| Engine.CorrectionQuotes | src/agents/engine.rs:998-1005 | the correction prompt quotes both texts, one behind the other, cut to 300 and 500 characters |
| Engine.Finish | src/agents/engine.rs:430-466 | an iteration without pending calls ends the loop: the moment of return is a complete outcome of the run |
| Engine.Reflect | src/agents/engine.rs:448-457 | the reflection step costs nothing or one or two calls, keeps the loop invariant and adds at most one corrective request; that request is sent exactly if the verdict is not favourable |
| Engine.AgentEngine.DecideScope | src/agents/engine.rs:239-280 | a clean keyword asks nothing and leaves the window of messages as it is; otherwise the message joins the last five, and the overlap with the messages before it and, on a drift, the model's one answer decide together whether the topic is kept, switched or cleanly switched and which scope is recalled; the topic switched to is a known one to reuse or the fresh id; history is pruned and the topic set exactly as decided |
| Engine.AgentEngine.PruneHistoryForTopicSwitch | src/agents/engine.rs:586-593 | in place, exactly the entries of other topics become hidden |
| Engine.AgentEngine.PushHistory | src/agents/engine.rs:550-551 | appends one entry |
| Engine.VisibleShows | src/agents/engine.rs:574-581 | what the model sees are exactly the entries that are not hidden, each once and in order, with role and content |
| Engine.SwitchShowsTopic | src/agents/engine.rs:574-593 | after a switch every message shown comes from an entry of the new topic that was visible before |
| Engine.AgentEngine.OpenTurn | src/agents/engine.rs:239-298 | a turn opens with the topic decision, at most one call; its transcript shows exactly the history that is left visible, behind it the input, which is recorded as the only new entry |
| Engine.RoundsAreIterations | src/agents/engine.rs:335-533 | the rounds of the example transcripts are iterations of the loop: compaction, retries, a reply with two calls and their answers |
| Transcript.CutKeepsPairing | src/agents/compact.rs:101-157 | replacing messages 1..k by a call-free one keeps the pairing if and only if message 0 carries no calls |
| Transcript.AnsweredExactly | src/agents/engine.rs:405-409 | a message is answered if and only if the results that follow it are, id by id, those of its calls |
| Transcript.CompactedKeepsPairing | src/agents/compact.rs:91-192 | any trim or summary keeps every remaining call with all its results while the head has no calls |
| Transcript.UnseveredKeepsPairing | src/agents/compact.rs:91-192 | a pass that does not put a summary behind a call-carrying head keeps the pairing |
| Transcript.SeversLosesPairing | src/agents/compact.rs:69-157 | a pass that cuts behind a call-carrying head loses the pairing, except for a hard trim whose kept messages by chance start with the head's ids |
| Transcript.CompactedBounds | src/agents/compact.rs:91-192 | a pass leaves 1 to 60 messages and the first one; a count-triggered summary leaves 17 and gains at least 13 |
| Transcript.AsksExactly | src/agents/compact.rs:97-124 | a pass asks for a summary from 30 messages or 24000 prompt tokens on, unless all it would replace is one earlier summary |
| Transcript.SummaryIsTold | src/agents/compact.rs:151-157 | the model's text stands behind `[Conversation summary]: ` in a system message at index 1, between the first message and the newest 15 |
| Transcript.SummariesDiffer | src/agents/compact.rs:151-157 | different texts leave different transcripts |
| Transcript.SummaryIsNotRepeated | src/agents/compact.rs:116-124 | a transcript fresh from a summary is not summarised again, whatever the tokens |
| Transcript.CutOrphansExactly | src/agents/compact.rs:69-76 | behind a plain front a cut orphans no result if and only if it does not start at one |
| Transcript.CompactionOrphansExactly | src/agents/compact.rs:91-192 | a compaction pass leaves every result with its call if and only if its cut point is not at a result |
| Transcript.RoundsArise | src/agents/compact.rs:91-192 | iterations without summaries leave the transcript of n rounds of two or three messages, up to the 61 messages of 20 rounds of three |
| Transcript.SummaryCanOrphanAResult | src/agents/compact.rs:91-157 | on the loop's transcript of 15 rounds with a single call (31 messages), for every summary text: an ordinary summary takes a call and leaves its result |
| Transcript.TrimCanOrphanAResult | src/agents/compact.rs:69-76 | on the loop's transcript of 20 rounds (61 messages) the hard trim keeps the pairing but leaves a result without its call |
| Transcript.ForceCompressedBounds | src/agents/engine.rs:811-841 | never empty, never longer, keeps the last message and a system head, keeps three messages if there were three, and shrinks anything longer than four |
| Transcript.ForceCompressedKeepsPairing | src/agents/engine.rs:811-841 | dropping the older half never separates a remaining call from its results |
| Transcript.RetryThenSummarySplitsAPair | src/agents/engine.rs:369-391 | on the loop's transcript of 19 rounds (58 messages), for every summary: a forced compression without a system head and one more round, and the next summary separates a call from its results |
| Transcript.RewritesKeepRoles | src/agents/compact.rs:69-175 | rewrites never put calls on a message that is not an assistant's |
| Transcript.PairedAppend | src/agents/engine.rs:411-533 | a complete block of a reply and its results extends a paired transcript |
| Transcript.PairedSuffix | src/agents/engine.rs:834-834 | a suffix of a paired transcript is paired |
| Transcript.PairedPrepend | src/agents/compact.rs:151-157 | call-free messages in front keep the pairing |
| Transcript.Log.Push | src/agents/engine.rs:411-428 | appends one message and counts it |
| Transcript.Log.TrimHistory | src/agents/compact.rs:69-76 | in place, the hard trim |
| Transcript.Log.ReplaceBySummary | src/agents/compact.rs:151-157 | in place, messages 1..end become one summary message |
| Transcript.Log.RollingCompact | src/agents/compact.rs:91-175 | in place, one pass; the precondition is exactly that the summarised slice is in range; the potential 13·summaries + length - appended never grows; the first cut behind a call-carrying head is recorded with the number of the next request; the summary stands in the messages with the model's text |
| Transcript.Log.AutoCompactHistory | src/agents/compact.rs:180-192 | at most 60 messages remain, so the hard limit applied behind the rolling pass is never reached; a summary is counted if and only if the message count asked for one and the model gave it; pairing is kept while no cut behind a call-carrying head is recorded |
| Transcript.Log.ForceCompress | src/agents/engine.rs:811-841 | in place, the older half is dropped |
| ToolCalls.TaggedReplyParses | src/agents/parser.rs:79-106 | a reply that follows the advertised `<tool_call>` protocol parses to exactly its calls, in order, then the calls that `<function_call>` and `<invoke>` decode to; calls in fences, if there are any, replace them all |
| ToolCalls.TagsInOrder | src/agents/parser.rs:81-107 | the calls of the first tag come before those of the other two |
| ToolCalls.PlainProseHasNoCalls | src/agents/parser.rs:47-107 | without fence lines there are no fenced calls, and without the other two tags none of theirs |
| ToolCalls.FencedReplyParses | src/agents/parser.rs:47-75 | every text whose lines are calls fenced by ```` ```tool_call ```` or ```` ```function_call ```` and ```` ``` ```` among prose parses to exactly its calls, in order, with blanks around the fences, either kind of line end and with or without a last one |
| Text.LinesOfAnyEnds | src/agents/parser.rs:52-53 | the lines of a text do not depend on the kind of line ends, nor on whether the last line has one |
| Text.TrimMeaning | src/agents/parser.rs:52-70 | trimming drops white space on both ends, as tabulated in `Text.WhitespaceExactly`, and nothing else |
| Text.SplitFirst | src/daemon/run.rs:1307-1314 | splitting at the first separator |
| ToolCalls.TaggedBodiesOfRendered | src/agents/parser.rs:84-103 | scanning rendered prose and tagged bodies gives back the bodies; each step reads on behind the closing tag |
| ToolCalls.FencedBodiesOfRendered | src/agents/parser.rs:52-72 | reading rendered fences line by line gives back the bodies |
| ToolCalls.ParseTag | src/agents/parser.rs:88-103 | the scan for one tag finds the decoded bodies, and it terminates |
| ToolCalls.DecodedMembers | src/agents/parser.rs:84-103 | the calls are exactly those that some body decodes to |
| ToolCalls.DecodedInOrder | src/agents/parser.rs:84-103 | if every body decodes, the calls are the decoded bodies, in order |
| ToolCalls.ParseXmlTags | src/agents/parser.rs:81-107 | the three tags are scanned one after the other over the whole text |
| ToolCalls.ParseMarkdownFence | src/agents/parser.rs:47-75 | the line scanner decodes the closed fences, in order |
| ToolCalls.ParseShortened | src/agents/parser.rs:110-151 | the shortened line format, with its name check, line by line |
| ToolCalls.PlainNameExactly | src/agents/parser.rs:123-137 | a name of the shortened format has 1 to 64 bytes and none of ten characters |
| ToolCalls.Utf8LengthIsEncoded | src/agents/parser.rs:123-137 | its length is that of its UTF-8 encoding |
| ToolCalls.Parse | src/agents/parser.rs:20-42 | a format is tried only if the ones before it gave no call |
| ToolCalls.NoMarkersNoBlockCalls | src/agents/parser.rs:15-16 | without fence or tag the first two formats give nothing |
| ToolCalls.MarkerFreeReplies | src/agents/parser.rs:110-151 | a reply without markers asks for no tool if and only if no line of it has the shortened form |
| ToolCalls.BareLineIsACall | src/agents/parser.rs:15-16 | the documented rule that calls need markers fails: any bare `name>json` line, such as `ls>{}`, is a call |
| ToolCalls.CollectTextToolCalls | src/agents/engine.rs:1086-1108 | the parsed calls with repetitions skipped |
| ToolCalls.DeduplicatedMeaning | src/agents/engine.rs:1086-1108 | nothing is invented, every call is represented, and no repetition is left |
| ToolCalls.DeduplicatedOrder | src/agents/engine.rs:1086-1108 | the calls left are first occurrences, in their order |
| Topics.HistoryOnlyGrows | src/agents/engine.rs:239-298 | over any run of turns entries are only appended and hidden flags only go from false to true |
| Topics.HiddenForever | src/agents/engine.rs:583-593 | a hidden entry stays hidden whatever happens later, although the comment promises restoration |
| Topics.SwitchIsolates | src/agents/engine.rs:264-283 | after a switch the new topic is current and every visible entry belongs to it |
| Topics.IsolationKeptExactly | src/agents/engine.rs:239-298 | a turn breaks `visible implies current topic` if and only if it is a clean switch to another topic while something is visible |
| Topics.IsolationOverRuns | src/agents/engine.rs:239-298 | runs without a clean switch keep the isolation throughout |
| Topics.SwitchRestoresIsolation | src/agents/engine.rs:239-298 | after any run, a real switch restores the isolation until the next clean switch |
| Topics.OneWordMore | crates/adaclaw-memory/src/topic.rs:319-325 | each shared word adds the same share, one over the number of words; with `Topics.OtherWordsDoNotCount` this fixes the ratio |
| Topics.OtherWordsDoNotCount | crates/adaclaw-memory/src/topic.rs:319-325 | words outside the first set do not count |
| Topics.RatioByCounts | crates/adaclaw-memory/src/topic.rs:319-325 | the ratio is below n tenths if and only if ten times the shared words are fewer than n times all |
| Topics.WordsOfWindow | crates/adaclaw-memory/src/topic.rs:214-217 | the words of a window are those of its messages |
| Topics.TopicManager.PushRecentMessage | crates/adaclaw-memory/src/topic.rs:286-292 | a window of the last five messages |
| Topics.TopicManager.FindOrCreateTopic | crates/adaclaw-memory/src/topic.rs:244-271 | the last of the best known topics at or above 0.70, and a fresh one if and only if there is none |
| Topics.TopicManager.CheckAndSwitch | crates/adaclaw-memory/src/topic.rs:201-238 | by counts of words: switched if and only if 10·shared < 3·earlier, drift if and only if 3·earlier <= 10·shared < 6·earlier, same topic otherwise, where the earlier words are those of the messages before this one; the window is the last five messages; the current topic changes only on a switch, to a reusable or fresh one |
| Topics.TopicManager.ReuseByCounts | crates/adaclaw-memory/src/topic.rs:244-271 | a known topic can be reused if and only if the current words have at least seven tenths of the words of its label |
| Topics.TopicManager.RegisterTopic | crates/adaclaw-memory/src/topic.rs:273-282 | the first known topic with this id is relabelled, else one is added; every other label stays, and topic ids stay distinct |
| Dispatch.HistoriesAreBlocks | src/daemon/run.rs:821-1220 | in every interleaving an engine's history is what it was restored from followed by blocks `[user]` or `[user, assistant]`, each of one task of that engine, no task twice |
| Dispatch.ExactlyOneReply | src/daemon/run.rs:821-1220 | in every interleaving a message has exactly one terminal reply once its task has finished and none before, to its own address; nothing follows it; the streamed text is the emitted text; the reply tells what was recorded |
| Dispatch.VerdictsAreObeyed | src/daemon/run.rs:845-960 | in every interleaving, for every receipt and the task counted by the receipts before it: an emergency stop or a limit gives exactly one refusal, to the sender's channel and session and in reply to the message; a forwarded system message exactly one message to its origin; a dropped or unsupported one, or one without an agent, nothing ever; an accepted one a task of its own engine |
| Dispatch.VerdictsExactly | src/daemon/run.rs:836-960 | which verdicts a message can meet |
| Dispatch.OriginIsEncoded | src/daemon/run.rs:1303-1315 | without metadata the session text names the origin, up to a second separator, and `default` stands for a missing session |
| Dispatch.OriginIsGiven | src/daemon/run.rs:1303-1315 | metadata, where given, decides |
| Dispatch.StreamRuns | src/daemon/run.rs:1059-1215 | a streamed message can run to its end: its text is streamed, the stream closed, and the block recorded |
| Dispatch.NeverStuck | src/daemon/run.rs:1043-1125 | from every reachable state, whatever outcome each turn has, a run without receipts finishes all tasks, in at most as many steps as work is left: the per-session lock cannot deadlock |
| Dispatch.Drained | src/daemon/run.rs:1043-1130 | such a run, built step by step from any state with the invariants |
| Dispatch.AnsweredByItsTurn | src/daemon/run.rs:1043-1215 | in every run a finished accepted task has the reply of its turn if and only if the freeze check did not stop it, and the frozen notice if and only if it did |
| Dispatch.StreamsEndUnlessFrozen | src/daemon/run.rs:1043-1215 | in every run an accepted, finished task with a stream ends its own stream if and only if the freeze check did not stop it |
| Dispatch.FrozenStream | src/daemon/run.rs:1044-1057 | two steps after which the only output for a message with a stream is an ordinary notice |
| Dispatch.SoundOverRuns | src/daemon/run.rs:821-1220 | the four invariants hold over every run |
| Dispatch.LockInvKept | src/daemon/run.rs:1059-1130 | every step keeps mutual exclusion: a task holds its engine's lock exactly while its turn is under way |
| Dispatch.HistoryInvKept | src/agents/engine.rs:298-466 | every step keeps histories in blocks of tasks that have got that far |
| Dispatch.OutputInvKept | src/daemon/run.rs:840-1215 | every step keeps: one terminal reply for finished tasks and none for others, right addresses, deltas passed on in order and before the end of the stream |
| Dispatch.ReportInvKept | src/daemon/run.rs:1095-1215 | every step keeps: success is reported for a full block, an error for a lone request, a refusal for no entry at all |
| Dispatch.BlocksOf | src/agents/engine.rs:298-466 | a history that satisfies the invariant can be read in blocks of distinct tasks |
| Sessions.SessionManager.GetOrCreate | src/agents/instance.rs:91-113 | the first call creates an engine from the stored history, later calls return the same object, other sessions are untouched and no two sessions share engine or topic state; a new engine has the given tokeniser, no recent messages and no labelled topics |
| Glob.GlobMatchPattern | crates/adaclaw-channels/src/base.rs:28-61 | accepts if and only if the pattern denotes the text and, unless it ends in `*`, no proper prefix of the text |
| Glob.LeftmostIsFirst | crates/adaclaw-channels/src/base.rs:37-52 | the exchange argument: leftmost placement behind the first end of a pattern gives the first end of the longer pattern, or shows that there is none |
| Glob.PlacePart | crates/adaclaw-channels/src/base.rs:37-52 | one part placed keeps the first end, and a failed placement means that the text has no match at all |
| Glob.Verdict | crates/adaclaw-channels/src/base.rs:54-60 | the final position decides exactly acceptance |
| Glob.DenotesConcat | crates/adaclaw-channels/src/base.rs:19-27 | matches of two patterns compose to a match of their concatenation |
| Glob.DenotesSplit | crates/adaclaw-channels/src/base.rs:19-27 | a match of a concatenation splits into matches of the two patterns |
| Glob.CompleteWhenLastLiteralIsUnique | crates/adaclaw-channels/src/base.rs:54-60 | the matcher is right on texts in which the last literal occurs only at the end |
| Glob.EarlyPlacement | crates/adaclaw-channels/src/base.rs:54-60 | for every pattern with a `*` that does not end in one: a text it denotes and the matcher rejects |
| Glob.CompletePatterns | crates/adaclaw-channels/src/base.rs:28-61 | a pattern is matched rightly on all texts if and only if it has no `*` or ends in `*` |
| Allowlist.BaseChannel.MatchesAllowlist | crates/adaclaw-channels/src/base.rs:146-182 | true if and only if some entry fits the sender, its id or its nonempty user name, globs in lower case and other entries up to leading `@` |
| Allowlist.BaseChannel.IsAllowed | crates/adaclaw-channels/src/base.rs:126-131 | an empty list admits everybody |
| Allowlist.BaseChannel.IsGroupAllowed | crates/adaclaw-channels/src/base.rs:134-144 | without a group list the personal list decides |
| Allowlist.PlainEntry | crates/adaclaw-channels/src/base.rs:116-121 | with or without `@`, a plain entry admits exactly the senders known by that name |
| Allowlist.CompositeSender | crates/adaclaw-channels/src/base.rs:148-152 | a composite sender is known by its id, its nonempty user name and both together |
| Router.GlobToRegex | src/bus/router.rs:87-102 | the produced text parses back to the glob's tokens |
| Router.CompiledParses | src/bus/router.rs:87-102 | compilation is inverted by parsing, for every glob |
| Router.CompilationPreservesMeaning | src/bus/router.rs:35-102 | the anchored expression matches a text without line feeds if and only if the glob denotes it |
| Router.RegexSound | src/bus/router.rs:35-73 | the expression never accepts more than the glob denotes |
| Router.RegexComplete | src/bus/router.rs:35-73 | on texts without line feeds it accepts no less |
| Router.RegexCountsLineFeeds | src/bus/router.rs:87-102 | an accepted text has exactly the glob's own line feeds |
| Router.CompilationExactOnAllTexts | src/bus/router.rs:87-102 | compilation keeps the meaning on every text if and only if the glob has no wildcard |
| Router.AllowlistWithinRouter | src/bus/router.rs:87-102 | for `?`-free globs the allowlist matcher accepts only what the router accepts |
| Router.AgentRouter.Route | src/bus/router.rs:35-73 | the agent of the first matching rule, judged by its first filled field, and none if and only if no rule matches; `Router.RuleExactly` says what the fields mean |
| Router.RuleExactly | src/bus/router.rs:35-73 | a rule for a channel glob, a sender's id, a sender-name glob, or everything, each compared with its own field |
| Router.AgentRouter.Matched | src/bus/router.rs:38-44 | compiling and matching decides the glob's meaning |
| Fusion.ReciprocalRankFusion | crates/adaclaw-memory/src/rrf.rs:25-51 | every key of the union once, with its exact score, best first |
| Fusion.MergeMultipleRankedLists | crates/adaclaw-memory/src/query.rs:200-217 | the same for any number of lists with k = 60; a single list passes through |
| Fusion.Accumulate | crates/adaclaw-memory/src/rrf.rs:32-38 | adding one ranked list adds its contributions to the table, and nothing else |
| Fusion.Ranked | crates/adaclaw-memory/src/rrf.rs:40-51 | the table as a duplicate-free list in descending score |
| Fusion.DominanceScores | crates/adaclaw-memory/src/rrf.rs:32-38 | a key above another in every list that has the other scores higher |
| Fusion.DominantKeyComesFirst | crates/adaclaw-memory/src/rrf.rs:25-51 | such a key comes first in the merged list |
| Fusion.FoundInBothComesFirst | crates/adaclaw-memory/src/rrf.rs:25-51 | a key at rank at most k in both lists comes before every key found in only one |
| Fusion.ContestWon | crates/adaclaw-memory/src/query.rs:207-217 | the consensus bound for given lists: rank at most R in all m lists beats a key missing from one if (m-1)·R < k+1 |
| Fusion.ContestLost | crates/adaclaw-memory/src/query.rs:207-217 | for every other m and R: lists in which such a key does not win |
| Fusion.ConsensusBound | crates/adaclaw-memory/src/query.rs:207-217 | the bound holds for all lists if and only if (m-1)·R < k+1 |
| Qmd.ParseSubQueries | crates/adaclaw-memory/src/query.rs:182-194 | distinct queries in order, the original in front if missing, at most five |
| Qmd.OriginalKeptExactly | crates/adaclaw-memory/src/query.rs:182-194 | the original query is asked if and only if the answer omits it or lists fewer than five different queries in front of it, although the comment promises it always |
| Qmd.OriginalFirstExactly | crates/adaclaw-memory/src/query.rs:136-137 | the original query is asked first if and only if the answer omits it or starts with it |
| Qmd.Collect | crates/adaclaw-memory/src/query.rs:114-118 | each key found has the entry found last for it |
| Qmd.TakeEntries | crates/adaclaw-memory/src/query.rs:120-123 | the entries of the distinct keys, in order of first appearance |
| Qmd.MergeResults | crates/adaclaw-memory/src/query.rs:101-123 | the best `limit` keys of the fusion, or of the only list with repetitions dropped, in order, each once and with the entry found last for it |
| Splitter.SplitMessage | crates/adaclaw-channels/src/telegram.rs:1295-1340 | the chunks are those of the specification; it terminates |
| Splitter.SplitDiscordMessage | crates/adaclaw-channels/src/discord.rs:487-531 | the same specification, hence both splitters agree on all inputs |
| Splitter.ChooseCut | crates/adaclaw-channels/src/telegram.rs:1318-1333 | the cut position of the specification |
| Splitter.CutPreference | crates/adaclaw-channels/src/telegram.rs:1318-1333 | a chunk ends behind the last line feed if the second half has one, else behind the last space, else at the limit |
| Splitter.PiecesRebuild | crates/adaclaw-channels/src/telegram.rs:1335-1336 | chunks and dropped gaps, interleaved, are the text again |
| Splitter.PiecesFit | crates/adaclaw-channels/src/telegram.rs:1293-1336 | chunks are nonempty and within the limit, gaps are only line feeds and spaces |
| Splitter.PiecesCount | crates/adaclaw-channels/src/telegram.rs:1295-1340 | at most one chunk more than half the characters for a limit of at least two |
| Splitter.SplitPromise | crates/adaclaw-channels/src/telegram.rs:1293-1340 | every chunk fits, the visible characters are conserved in order, and there are at most |content|/2 + 1 chunks |
| Utf8.Truncate | src/agents/engine.rs:761-770 | the encoding of the longest prefix of characters that fits, after at most three steps back |
| Utf8.EncodingSpells | src/agents/engine.rs:761-770 | the encoding spells its value, its first byte tells its length, and no shorter one would do, as in section 3 of RFC 3629 |
| Utf8.EncodingIsInjective | src/agents/engine.rs:761-770 | bytes determine their text |
| Utf8.BoundaryIsPrefix | crates/adaclaw-memory/src/consolidation.rs:271-280 | character boundaries are exactly the ends of encoded prefixes, at most three bytes behind any position |
| Framing.Unframe | crates/adaclaw-channels/src/wechat_work.rs:215-260 | accepts if and only if the buffer is a frame of well-formed text and returns its message; every error names its cause; no index is out of range |
| Framing.FrameRoundTrip | crates/adaclaw-channels/src/wechat_work.rs:215-260 | unframing inverts framing for every message below 2^32 bytes, with padding to 32 as in section 6.3 of RFC 5652 |
| Framing.FramesAreRecognised | crates/adaclaw-channels/src/wechat_work.rs:243-260 | a buffer is a frame of a message if and only if padding and header are right and that message stands in it |
| Framing.PartsMakeFrame | crates/adaclaw-channels/src/wechat_work.rs:243-256 | every buffer with right padding and header has the shape of a frame |
| Framing.BigEndianInverse | crates/adaclaw-channels/src/wechat_work.rs:249-249 | big-endian decoding and encoding of four bytes are inverse |
| Vectors.CauchySchwarz | crates/adaclaw-memory/src/topic.rs:305-316 | for vectors of any length (a·b)² is at most (a·a)(b·b) |
| Vectors.SimilarityExactly | crates/adaclaw-memory/src/topic.rs:305-316 | the similarity lies in [-1, 1], is the plain quotient wherever it is not cut off to zero, and is 1 for a vector and itself |
| Vectors.ClampIsIdentity | crates/adaclaw-memory/src/topic.rs:315-315 | the cosine quotient already lies in [-1, 1], so clamping changes nothing |
| Vectors.NormalisedIsUnit | crates/adaclaw-memory/src/topic.rs:192-196 | dividing by a positive norm gives a unit vector |
| Vectors.RollingEmbedding.Update | crates/adaclaw-memory/src/topic.rs:181-197 | the first vector is taken as it is; later updates keep the dimension and leave a unit vector whenever the norm exceeds 1e-8 |
| Vectors.AveragedAt | crates/adaclaw-memory/src/topic.rs:187-191 | each component is seven tenths of the old and three tenths of the new one; components without a partner stay |
| Vectors.DividedAt | crates/adaclaw-memory/src/topic.rs:193-196 | every component is divided by the norm |
| Consolidation.Consolidate | crates/adaclaw-memory/src/consolidation.rs:70-116 | whatever the model answers: global and unlisted entries stay as they are, no key is new, no category changes; |after| + deleted = |before| + recreated, where these are the keys actually deleted and the absent keys actually stored; the total returned is at most the deletions, and all of them if no store failed; if the answers of this pass are disjoint repetition-free clusters nothing is recreated, the count drops by the deletions, and, if only the global category is listed twice, every merged entry is still there with its merged content; the only error is a failed listing; store, number of operations, stored entries and total are exactly those of the listings' batches, category by category, the global one passed over, up to the first listing that fails |
| Consolidation.ConsolidateCategory | crates/adaclaw-memory/src/consolidation.rs:97-112 | the batches of one category have exactly the effect of its chunks of `batch` entries one after the other, a failed one not stopping the next; frame and balance are kept; after tidy answers every merged entry of all batches is there with its content |
| Consolidation.ListAndConsolidate | crates/adaclaw-memory/src/consolidation.rs:86-112 | lists all entries of a category and does exactly its batches, or nothing below five entries, with the same guarantees; an error means that the listing failed |
| Consolidation.RepeatedCategoryLosesMerge | crates/adaclaw-memory/src/consolidation.rs:70-116 | for any three entries of a category listed twice: a second listing that clusters the merged key behind another one deletes the merged entry, although both answers are disjoint and repetition-free |
| Consolidation.ConsolidateClusters | crates/adaclaw-memory/src/consolidation.rs:138-186 | the loop over clusters reaches exactly the specified store, clock and deletions, up to the first store that fails; frame and balance are kept |
| Consolidation.ConsolidateCluster | crates/adaclaw-memory/src/consolidation.rs:139-183 | one cluster, merged if it names two entries and the model has a text for it |
| Consolidation.ConsolidateBatch | crates/adaclaw-memory/src/consolidation.rs:122-189 | one batch does exactly the merges of the model's clusters, or nothing without an answer; it keeps frame and balance and touches only its own keys; disjoint repetition-free clusters keep every merged entry and every first key |
| Consolidation.BatchIsPassed | crates/adaclaw-memory/src/consolidation.rs:97-112 | what a batch does is one chunk of the pass: a failed one adds nothing to the total and leaves its merges |
| Consolidation.OneMoreCategory | crates/adaclaw-memory/src/consolidation.rs:80-112 | one more category acts on the store that those before it have left, from a listing of its own |
| Consolidation.ResolveOne | crates/adaclaw-memory/src/consolidation.rs:139-152 | a key of a cluster is looked up in the batch, and skipped if unknown |
| Consolidation.ResolveConcat | crates/adaclaw-memory/src/consolidation.rs:139-152 | the entries of a cluster come in the cluster's order |
| Consolidation.MergeCluster | crates/adaclaw-memory/src/consolidation.rs:153-170 | the exact new store, and its effect: the merged text under the first key, deletions only of other members; a failed store changes nothing |
| Consolidation.ForgetRest | crates/adaclaw-memory/src/consolidation.rs:165-170 | the exact store after deleting the rest, and the number of deletions that succeeded |
| Consolidation.ForgetAllEffect | crates/adaclaw-memory/src/consolidation.rs:165-170 | deletions change no other entry and the count drops by the successful ones |
| Consolidation.MergedEntrySurvivesExactly | crates/adaclaw-memory/src/consolidation.rs:156-170 | if no deletion fails, the merged entry survives if and only if its key is not named again in the cluster |
| Consolidation.ClusterKeepsFirsts | crates/adaclaw-memory/src/consolidation.rs:138-186 | a merged well-formed cluster keeps the first entries of all clusters so far |
| Consolidation.ClusterKeepsMerges | crates/adaclaw-memory/src/consolidation.rs:138-186 | a merged well-formed cluster keeps the entries merged before it and adds its own, with their contents |
| Consolidation.FateDecides | crates/adaclaw-memory/src/consolidation.rs:138-186 | with a working store the clusters alone decide which keys remain after a batch |
| Consolidation.CountAfterClusters | crates/adaclaw-memory/src/consolidation.rs:138-186 | the count of entries drops by the deletions less the keys that a later cluster stores again |
| Consolidation.DropsByTotalExactly | crates/adaclaw-memory/src/consolidation.rs:69-69 | the count drops by the reported total if and only if no cluster's first key was deleted by an earlier cluster |
| Consolidation.OverlapRecreates | crates/adaclaw-memory/src/consolidation.rs:138-186 | clusters [a, b] and [b, c] store `b` again |
| Consolidation.MemoryBackend.List | crates/adaclaw-memory/src/consolidation.rs:86-86 | a snapshot of exactly the entries of the category |
| Consolidation.MemoryBackend.FindSimilarClusters | crates/adaclaw-memory/src/consolidation.rs:128-129 | one model call, whose answer is the batch's clusters |
| Consolidation.MemoryBackend.MergedText | crates/adaclaw-memory/src/consolidation.rs:154-154 | one model call for the text of a cluster |
| Consolidation.MemoryBackend.StoreEntry | crates/adaclaw-memory/src/consolidation.rs:160-163 | writes one key, or nothing when it fails |
| Consolidation.MemoryBackend.Forget | crates/adaclaw-memory/src/consolidation.rs:165-170 | removes one key and says whether it was there |
| FrontMatter.RoundTripExactly | crates/adaclaw-memory/src/markdown.rs:55-142 | reading the text written for an entry gives the entry back if and only if it is well formed; content may itself contain fences |
| FrontMatter.WrittenText | crates/adaclaw-memory/src/markdown.rs:55-80 | the text of the file, field by field |
| FrontMatter.WrittenReadsBack | crates/adaclaw-memory/src/markdown.rs:55-142 | the reading of what was written for any entry, line feeds in header values included: the lines up to the first fence are the header, whichever value they come from, and all text behind it is the content |
| FrontMatter.WrittenReadsAsNormal | crates/adaclaw-memory/src/markdown.rs:55-142 | with one-line header values the reading is the stated normal form: trimmed values, reserved category names resolved |
| FrontMatter.ReadEntriesAreWellFormed | crates/adaclaw-memory/src/markdown.rs:100-142 | whatever the text, an entry read from it is well formed |
| FrontMatter.ClosingFound | crates/adaclaw-memory/src/markdown.rs:102-102 | the closing fence found first is the one behind the header |
| FrontMatter.CategoryRoundTrip | crates/adaclaw-memory/src/markdown.rs:145-163 | the category codec loses exactly the custom names that spell a fixed category |
| FrontMatter.ParseMarkdownEntry | crates/adaclaw-memory/src/markdown.rs:100-142 | computes the specified reading |
| FrontMatter.ParseHeader | crates/adaclaw-memory/src/markdown.rs:104-126 | later lines win, empty optional values are skipped, unknown lines are ignored |
| MarkdownStore.PathStaysInside | crates/adaclaw-memory/src/markdown.rs:43-53 | for every key the file name has no separator, no NUL and no `..`, and does not start with a dot; and it ends in `.md` |
| MarkdownStore.NameIsSanitised | crates/adaclaw-memory/src/markdown.rs:43-53 | the name is the key with separators, NUL and neighbouring dots replaced by underscores and nothing else, without the underscores and dots at its ends, or `_` if nothing is left |
| MarkdownStore.PathsCollide | crates/adaclaw-memory/src/markdown.rs:43-53 | every key shares its file with another one: a leading underscore is stripped |
| MarkdownStore.SafeKeysHaveTheirOwnFile | crates/adaclaw-memory/src/markdown.rs:43-53 | file names are injective on safe keys, and every file name is that of a safe key |
| MarkdownStore.SafeKeysExactly | crates/adaclaw-memory/src/markdown.rs:43-53 | the keys that are their own safe name are exactly those of allowed characters without `..` whose ends are not stripped, and `_` |
| MarkdownStore.SafeNameIsSafe | crates/adaclaw-memory/src/markdown.rs:43-53 | every sanitised name is safe, so sanitising twice changes nothing |
| MarkdownStore.CountIsMaximum | crates/adaclaw-memory/src/markdown.rs:254-265 | counting from the left gives the largest number of pairwise disjoint occurrences |
| MarkdownStore.CountIsLargest | crates/adaclaw-memory/src/markdown.rs:254-265 | no choice of disjoint occurrences beats counting from the left |
| MarkdownStore.CountOccurrences | crates/adaclaw-memory/src/markdown.rs:256-265 | the counting loop computes that number and terminates for a nonempty query |
| MarkdownStore.MarkdownMemory.RelevanceCounts | crates/adaclaw-memory/src/markdown.rs:254-265 | the relevance of an entry is the largest number of disjoint occurrences of the query in its content, both in lower case |
| MarkdownStore.MarkdownMemory.Recall | crates/adaclaw-memory/src/markdown.rs:220-271 | the best `limit` entries that pass the session, scope and content filters, in descending relevance; a passing entry is missing only behind `limit` entries at least as relevant |
| MarkdownStore.MarkdownMemory.Filtered | crates/adaclaw-memory/src/markdown.rs:233-252 | exactly the stored entries that pass, each read from a file of its own |
| MarkdownStore.MarkdownMemory.Select | crates/adaclaw-memory/src/markdown.rs:233-252 | the subsequence of exactly the entries that pass the session, scope and content filters |
| MarkdownStore.MarkdownMemory.AllEntries | crates/adaclaw-memory/src/markdown.rs:87-95 | every readable file once, with the entry it reads as |
| MarkdownStore.Best | crates/adaclaw-memory/src/markdown.rs:254-270 | sorting and truncating keeps the best |
| MarkdownStore.MarkdownMemory.WriteEntry | crates/adaclaw-memory/src/markdown.rs:55-80 | writes the one file of the key |
| MarkdownStore.MarkdownMemory.Get | crates/adaclaw-memory/src/markdown.rs:273-280 | reads the one file of the key |
| MarkdownStore.MarkdownMemory.StoreThenGet | crates/adaclaw-memory/src/markdown.rs:55-142 | storing and getting gives the entry back if and only if it is well formed, and leaves other files alone |
| MarkdownStore.MarkdownMemory.Forget | crates/adaclaw-memory/src/markdown.rs:307-316 | removes the one file of the key |
| GlobalRecall.GlobalMemory.Recall | crates/adaclaw-memory/src/global.rs:96-145 | at most `limit` entries, distinct keys, globals first, globals and others each in descending relevance, all within the table of scopes; a passing entry is there if fewer than `limit` others are at least as relevant, and is not there if `limit` others are strictly more relevant |
| GlobalRecall.FiltersAreTable | crates/adaclaw-memory/src/global.rs:96-118 | session and scope filters are the documented table, category by category |
| GlobalRecall.GlobalMemory.DroppedGlobal | crates/adaclaw-memory/src/global.rs:108-118 | a store with one private and one global note, and a query at limit 1 that both pass: the global note is outranked, hence not returned |
| GlobalRecall.GlobalMemory.GlobalsComplete | crates/adaclaw-memory/src/global.rs:108-142 | a passing global entry is in any merge of the recalls, or crowded out by `limit` entries at least as relevant |
| GlobalRecall.GlobalMemory.OthersComplete | crates/adaclaw-memory/src/global.rs:119-142 | the same for the others, although globals take places in front of them |
| GlobalRecall.FirstOfEachKey | crates/adaclaw-memory/src/global.rs:132-142 | the first entry of each key in chain order, until `limit` are kept |

## Left out

- Channels, HTTP, WebSocket, mail, SQLite, processes, command line, tracing, audit and configuration: input and output around the modelled decisions.
- Cryptography, base64 and the JSON codec: the codec is a parameter that decodes some texts; decryption ends where `Framing` begins.
- The regular-expression library beyond the fragment that the compiler emits.
- Image attachments of a turn, and the vision gate that appends a note to the text.
- The durable session store, its asynchronous appends and its compaction, and the indexing of turns into memory: a history is restored from given entries.
- Tier-1 reflection heuristics, clean-intent keywords, context-error detection by message text and credential scrubbing: arbitrary functions.
- Emergency stop and rate limiter: their verdicts are arbitrary in `Dispatch`, which also leaves out what the audit log and observers record.
- The prompts of the summary and of the intent and completeness checks: the answer to such a call is arbitrary in any case.
- The texts of refusals, notices and replies in `Dispatch`: an output carries its kind, its address and what it answers; the text of a reply is that of `Engine.AgentEngine.RunToolLoop`.
- Delivery on the bus: an output counts once it is sent, although a send can fail when nobody listens.
- The order in which the lock of a session is granted to waiting tasks: any order.
- Shutdown of the dispatch loop: a run simply ends.
- The embedding path of the topic check, beyond its vector arithmetic.
- Tokenising with stop words, lower-casing and the printed time of an entry: functions and parameters.
- The SQLite backend under query decomposition and consolidation, and the fall-backs to plain recall.
- Stability of sorting: which of several equally good entries comes first is left open.
- Rounding of `f32` and `f64`.
- Splitter.SplitMessage: asks for a limit of at least one; with a limit of zero the loop makes no progress.
- Splitter.SplitDiscordMessage: asks for a limit of at least one, for the same reason.
- MarkdownStore.MarkdownMemory.Recall: an empty query is admitted only if at most one file passes the filters; with two the entries are compared and the counting loop does not advance.
- GlobalRecall.GlobalMemory.Recall: the same for an empty query, and recall there is that of the Markdown store.
- MarkdownStore.MarkdownMemory.StoreThenGet: the time stamp is one line, as printed numbers are.
- Fusion.ReciprocalRankFusion: asks for k above -1, outside of which a denominator can be zero.
- Consolidation.Consolidate: asks for a batch size other than zero, on which the chunking of the library panics.
- Consolidation.ConsolidateBatch: a listed category is a snapshot in which every key occurs once.
- Vectors.RollingEmbedding.Update: the norm is given as any nonnegative root of the sum of squares.
- Transcript.Log.RollingCompact: asks for two messages when the token trigger is armed, without which the original panics; `Engine.ToolLoop` proves that it always has three.
- Engine.ToolLoop: nothing is said about the pairing in requests behind the one at which a compaction first cuts behind a call-carrying head; there it may come back when the head is dropped.
- The JSON-array format that the parser's comment lists: the parser does not implement it.
