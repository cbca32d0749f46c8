/**
 The working transcript of one turn and the rewrites that keep it small: hard trim, rolling
 summary and forced compression.
 */
module Transcript {
  import opened Wrappers
  import opened Text

  const HARD_MAX_HISTORY: nat := 60
  const ROLLING_THRESHOLD: nat := 30
  const ROLLING_TOKEN_THRESHOLD: nat := 24_000
  const ROLLING_KEEP: nat := 15
  const HARD_KEEP_RECENT: nat := 20
  /** Least number of messages removed by a summary that the message count triggered. */
  const SUMMARY_GAIN: nat := 13

  const SUMMARY_MARK := "[Conversation summary]"

  datatype ToolCall = ToolCall(id: string, name: string, arguments: string)

  datatype ChatMessage = ChatMessage(
    role: string, content: string, toolCalls: seq<ToolCall>, toolCallId: Option<string>)

  function NewMessage(role: string, content: string): ChatMessage {
    ChatMessage(role, content, [], None)
  }

  function AssistantToolCalls(content: string, calls: seq<ToolCall>): ChatMessage {
    ChatMessage("assistant", content, calls, None)
  }

  function ToolResultMessage(id: string, content: string): ChatMessage {
    ChatMessage("tool", content, [], Some(id))
  }

  function SummaryMessage(summary: string): ChatMessage {
    NewMessage("system", SUMMARY_MARK + ": " + summary)
  }

  // ---- pairing of native calls with their results ----

  /** The calls of message `i` are answered at once, one result each, in call order. */
  predicate AnsweredAt(m: seq<ChatMessage>, i: nat)
    requires i < |m|
  {
    var calls := m[i].toolCalls;
    && i + |calls| < |m|
    && (forall j | 0 <= j < |calls| :: m[i + 1 + j].toolCallId == Some(calls[j].id))
    && (i + 1 + |calls| < |m| ==> m[i + 1 + |calls|].toolCallId.None?)
  }

  /** The ids of the results that stand together from position `k` on. */
  function ResultsFrom(m: seq<ChatMessage>, k: nat): (ids: seq<string>)
    ensures k <= |m| ==> k + |ids| <= |m|
    ensures forall j | 0 <= j < |ids| :: k + j < |m| && m[k + j].toolCallId == Some(ids[j])
    ensures k + |ids| < |m| ==> m[k + |ids|].toolCallId.None?
    decreases |m| - k
  {
    if k < |m| && m[k].toolCallId.Some? then [m[k].toolCallId.value] + ResultsFrom(m, k + 1) else []
  }

  /** A message is answered exactly if the results that follow it are, id by id, those of its calls. */
  lemma AnsweredExactly(m: seq<ChatMessage>, i: nat)
    requires i < |m|
    ensures var ids, calls := ResultsFrom(m, i + 1), m[i].toolCalls;
            AnsweredAt(m, i) <==> |ids| == |calls| && forall j | 0 <= j < |ids| :: ids[j] == calls[j].id
  {
    var ids, calls := ResultsFrom(m, i + 1), m[i].toolCalls;
    assert |calls| < |ids| ==> m[i + 1 + |calls|].toolCallId == Some(ids[|calls|]);
    assert i + 1 + |ids| < |m| ==> m[i + 1 + |ids|].toolCallId.None?;
    assert |ids| < |calls| && i + |calls| < |m| ==> m[i + 1 + |ids|].toolCallId != Some(calls[|ids|].id);
    if AnsweredAt(m, i) {
      forall j | 0 <= j < |ids| ensures ids[j] == calls[j].id { assert m[i + 1 + j].toolCallId == Some(ids[j]); }
    }
  }

  predicate Paired(m: seq<ChatMessage>) {
    forall i | 0 <= i < |m| && m[i].toolCalls != [] :: AnsweredAt(m, i)
  }

  /** Only assistant messages carry calls. */
  predicate WellRoled(m: seq<ChatMessage>) {
    forall i | 0 <= i < |m| && m[i].toolCalls != [] :: m[i].role == "assistant"
  }

  /** Message `k` has the place and the id of a result for a call of message `i`. */
  predicate AnswersCall(m: seq<ChatMessage>, i: nat, k: nat)
    requires i < k < |m|
  {
    k - i <= |m[i].toolCalls| && m[k].toolCallId == Some(m[i].toolCalls[k - i - 1].id)
  }

  /** Every native result still stands behind the call it answers. */
  predicate NoOrphans(m: seq<ChatMessage>) {
    forall k | 0 <= k < |m| && m[k].toolCallId.Some? :: exists i | 0 <= i < k :: AnswersCall(m, i, k)
  }

  lemma PairedSuffix(m: seq<ChatMessage>, k: nat)
    requires Paired(m) && k <= |m|
    ensures Paired(m[k..])
  {
    var s := m[k..];
    forall i | 0 <= i < |s| && s[i].toolCalls != [] ensures AnsweredAt(s, i) {
      assert s[i] == m[k + i] && AnsweredAt(m, k + i);
    }
  }

  /** Call-free messages may be put in front. */
  lemma PairedPrepend(head: seq<ChatMessage>, m: seq<ChatMessage>)
    requires Paired(m) && forall i | 0 <= i < |head| :: head[i].toolCalls == []
    ensures Paired(head + m)
  {
    var s := head + m;
    forall i | 0 <= i < |s| && s[i].toolCalls != [] ensures AnsweredAt(s, i) {
      var k := i - |head|;
      assert s[i] == m[k] && AnsweredAt(m, k);
    }
  }

  /** What is appended behind does not disturb an answered call, unless it starts with a result. */
  lemma StillAnswered(m: seq<ChatMessage>, more: seq<ChatMessage>, i: nat)
    requires i < |m| && AnsweredAt(m, i) && (more != [] ==> more[0].toolCallId.None?)
    ensures AnsweredAt(m + more, i)
  {
    var s, calls := m + more, m[i].toolCalls;
    forall j | 0 <= j < |calls| ensures s[i + 1 + j].toolCallId == Some(calls[j].id) {
      assert m[i + 1 + j].toolCallId == Some(calls[j].id);
    }
  }

  /** A message with all its results is answered. */
  lemma BlockAnswered(m: seq<ChatMessage>, call: ChatMessage, results: seq<ChatMessage>)
    requires |results| == |call.toolCalls|
    requires forall j | 0 <= j < |results| :: results[j].toolCallId == Some(call.toolCalls[j].id)
    ensures (m + ([call] + results))[|m|] == call && AnsweredAt(m + ([call] + results), |m|)
  {
    var s := m + ([call] + results);
    forall j | 0 <= j < |results| ensures s[|m| + 1 + j].toolCallId == Some(call.toolCalls[j].id) {
      assert s[|m| + 1 + j] == results[j];
    }
  }

  /** A complete block of calls and results may be put behind. */
  lemma PairedAppend(m: seq<ChatMessage>, call: ChatMessage, results: seq<ChatMessage>)
    requires Paired(m) && call.toolCallId.None?
    requires call.toolCalls != [] ==> |results| == |call.toolCalls|
    requires call.toolCalls != [] ==> forall j | 0 <= j < |results| :: results[j].toolCallId == Some(call.toolCalls[j].id)
    requires forall j | 0 <= j < |results| :: results[j].toolCalls == []
    ensures Paired(m + [call] + results)
  {
    Associative(m, [call], results);
    var s := m + ([call] + results);
    assert forall k | |m| < k < |s| :: s[k] == results[k - |m| - 1];
    forall i | 0 <= i < |s| && s[i].toolCalls != [] ensures AnsweredAt(s, i) {
      hide AnsweredAt;
      if i < |m| {
        assert s[i] == m[i] && AnsweredAt(m, i);
        StillAnswered(m, [call] + results, i);
      } else {
        BlockAnswered(m, call, results);
      }
    }
  }

  /**
   Replacing the messages between the first one and position `k` by call-free messages keeps
   the pairing exactly when the first message carries no calls.
   */
  lemma CutKeepsPairing(m: seq<ChatMessage>, middle: ChatMessage, k: nat)
    requires Paired(m) && 1 <= k <= |m| && middle.toolCalls == [] && middle.toolCallId.None?
    ensures Paired([m[0], middle] + m[k..]) <==> m[0].toolCalls == []
  {
    var s := [m[0], middle] + m[k..];
    if m[0].toolCalls == [] {
      PairedSuffix(m, k);
      PairedPrepend([m[0], middle], m[k..]);
    } else {
      assert s[0] == m[0] && s[1] == middle;
      assert s[0 + 1 + 0].toolCallId != Some(m[0].toolCalls[0].id);
      assert !AnsweredAt(s, 0);
    }
  }

  // ---- the rewrites as functions of the messages ----

  function Trimmed(m: seq<ChatMessage>): seq<ChatMessage> {
    if |m| > HARD_MAX_HISTORY then [m[0]] + m[|m| - HARD_KEEP_RECENT..] else m
  }

  /** End of the part that a summary replaces. */
  function SummaryEnd(length: nat): nat {
    if length < ROLLING_KEEP + 2 then 2 else length - ROLLING_KEEP
  }

  predicate OverTokens(promptTokens: Option<nat>) {
    promptTokens.Some? && promptTokens.value >= ROLLING_TOKEN_THRESHOLD
  }

  predicate IsSummary(m: ChatMessage) {
    SUMMARY_MARK <= m.content
  }

  /** Whether a compaction pass asks the model for a summary. */
  predicate AsksForSummary(m: seq<ChatMessage>, promptTokens: Option<nat>) {
    && (|m| >= ROLLING_THRESHOLD || OverTokens(promptTokens))
    && (SummaryEnd(|m|) == 2 && |m| >= 2 ==> !IsSummary(m[1]))
  }

  /** A pass on this transcript writes a summary because of the message count. */
  predicate CountsSummary(m: seq<ChatMessage>, promptTokens: Option<nat>, summary: Option<string>) {
    |m| >= ROLLING_THRESHOLD && AsksForSummary(m, promptTokens) && summary.Some?
  }

  function Compacted(m: seq<ChatMessage>, promptTokens: Option<nat>, summary: Option<string>): seq<ChatMessage>
    requires OverTokens(promptTokens) ==> |m| >= 2
  {
    if !AsksForSummary(m, promptTokens) then m
    else match summary
      case Some(text) => [m[0], SummaryMessage(text)] + m[SummaryEnd(|m|)..]
      case None => Trimmed(m)
  }

  function ForceCompressed(m: seq<ChatMessage>): seq<ChatMessage> {
    if |m| <= 4 then m
    else if m[0].role == "system" then [m[0]] + m[1 + (|m| - 2) / 2..]
    else m[(|m| - 1) / 2..]
  }

  // ---- what every compaction pass guarantees ----

  lemma CompactedBounds(m: seq<ChatMessage>, promptTokens: Option<nat>, summary: Option<string>)
    requires |m| >= 1 && (OverTokens(promptTokens) ==> |m| >= 2)
    ensures var c := Compacted(m, promptTokens, summary);
            && 1 <= |c| <= 60 && |c| <= |m| && c[0] == m[0]
            && (|m| >= 30 && summary.Some? ==> |c| == 17 && |c| + 13 <= |m|)
  {
  }

  lemma CompactedCases(m: seq<ChatMessage>, promptTokens: Option<nat>, summary: Option<string>)
    requires OverTokens(promptTokens) ==> |m| >= 2
    ensures var c := Compacted(m, promptTokens, summary);
            && |c| <= |m|
            && (!AsksForSummary(m, promptTokens) ==> c == m)
            && (AsksForSummary(m, promptTokens) && summary.Some? ==>
                  c == [m[0], SummaryMessage(summary.value)] + m[SummaryEnd(|m|)..]
                  && (|m| >= ROLLING_THRESHOLD ==> |c| + SUMMARY_GAIN <= |m|))
            && (AsksForSummary(m, promptTokens) && summary.None? ==> c == Trimmed(m))
  {
    hide IsSummary, OverTokens, SummaryMessage;
  }

  /** Trims and summaries never split a call from its results while the head has no calls. */
  lemma CompactedKeepsPairing(m: seq<ChatMessage>, promptTokens: Option<nat>, summary: Option<string>)
    requires |m| >= 1 && (OverTokens(promptTokens) ==> |m| >= 2)
    requires Paired(m) && m[0].toolCalls == []
    ensures Paired(Compacted(m, promptTokens, summary))
  {
    if AsksForSummary(m, promptTokens) && summary.Some? {
      CutKeepsPairing(m, SummaryMessage(summary.value), SummaryEnd(|m|));
    } else if AsksForSummary(m, promptTokens) && |m| > HARD_MAX_HISTORY {
      PairedSuffix(m, |m| - HARD_KEEP_RECENT);
      PairedPrepend([m[0]], m[|m| - HARD_KEEP_RECENT..]);
    }
  }

  /**
   A pass asks for a summary from 30 messages or 24000 prompt tokens on, unless all it would replace is
   an earlier summary.
   */
  lemma AsksExactly(m: seq<ChatMessage>, promptTokens: Option<nat>)
    requires |m| >= 2
    ensures AsksForSummary(m, promptTokens) <==>
              && (|m| >= 30 || (promptTokens.Some? && promptTokens.value >= 24_000))
              && !(|m| <= 17 && "[Conversation summary]" <= m[1].content)
  {
  }

  /** A summary tells what the model said, in the place of all but the first and the newest 15 messages. */
  lemma SummaryIsTold(m: seq<ChatMessage>, promptTokens: Option<nat>, text: string)
    requires |m| >= 2 && AsksForSummary(m, promptTokens)
    ensures var c, told := Compacted(m, promptTokens, Some(text)), "[Conversation summary]: ";
            && |c| >= 2 && c[0] == m[0] && c[1].role == "system" && c[1].toolCalls == [] && c[1].toolCallId.None?
            && told <= c[1].content && c[1].content[|told|..] == text
            && c[2..] == (if |m| <= 17 then m[2..] else m[|m| - 15..])
  {
    var c := Compacted(m, promptTokens, Some(text));
    assert c[2..] == m[SummaryEnd(|m|)..];
  }

  /** The message behind the first one is a summary with this text. */
  predicate TellsSummary(m: seq<ChatMessage>, text: string) {
    |m| >= 2 && m[1].role == "system" && m[1].content == "[Conversation summary]: " + text
  }

  /** Different summaries lead to different transcripts. */
  lemma SummariesDiffer(m: seq<ChatMessage>, promptTokens: Option<nat>, a: string, b: string)
    requires |m| >= 2 && AsksForSummary(m, promptTokens) && a != b
    ensures Compacted(m, promptTokens, Some(a)) != Compacted(m, promptTokens, Some(b))
  {
    SummaryIsTold(m, promptTokens, a);
    SummaryIsTold(m, promptTokens, b);
  }

  /** A summary is not summarised again at once, whatever the tokens. */
  lemma SummaryIsNotRepeated(m: seq<ChatMessage>, promptTokens: Option<nat>, text: string, later: Option<nat>)
    requires |m| >= 2 && AsksForSummary(m, promptTokens)
    ensures !AsksForSummary(Compacted(m, promptTokens, Some(text)), later)
  {
    var c := Compacted(m, promptTokens, Some(text));
    SummaryIsTold(m, promptTokens, text);
    assert "[Conversation summary]" <= "[Conversation summary]: ";
    AsksExactly(c, later);
  }

  /** Rewrites only keep messages or add a summary. */
  lemma RewritesKeepRoles(m: seq<ChatMessage>, promptTokens: Option<nat>, summary: Option<string>)
    requires |m| >= 1 && (OverTokens(promptTokens) ==> |m| >= 2) && WellRoled(m)
    ensures WellRoled(Compacted(m, promptTokens, summary)) && WellRoled(ForceCompressed(m))
  {
    assert forall i | 0 <= i < |m| && m[i].toolCalls != [] :: m[i].role == "assistant";
  }

  lemma ForceCompressedBounds(m: seq<ChatMessage>)
    requires |m| >= 1
    ensures var f := ForceCompressed(m);
            && 1 <= |f| <= |m| && f[|f| - 1] == m[|m| - 1]
            && (|m| >= 3 ==> |f| >= 3)
            && (|m| > 4 ==> |f| < |m|)
            && (m[0].role == "system" ==> f[0] == m[0])
  {
  }

  /** Forced compression keeps the pairing too, though it may leave a call-carrying head. */
  lemma ForceCompressedKeepsPairing(m: seq<ChatMessage>)
    requires Paired(m) && WellRoled(m)
    ensures Paired(ForceCompressed(m))
  {
    if |m| > 4 {
      if m[0].role == "system" {
        var k := 1 + (|m| - 2) / 2;
        PairedSuffix(m, k);
        assert m[0].toolCalls == [];
        PairedPrepend([m[0]], m[k..]);
      } else {
        PairedSuffix(m, (|m| - 1) / 2);
      }
    }
  }

  // ---- the converse of pairing ----

  /** What follows a call within its number of results is a result. */
  lemma InsideBlock(m: seq<ChatMessage>, i: nat, k: nat)
    requires Paired(m) && i < k < |m| && k - i <= |m[i].toolCalls|
    ensures m[k].toolCallId.Some?
  {
    var j := k - i - 1;
    assert AnsweredAt(m, i);
    assert m[i + 1 + j].toolCallId == Some(m[i].toolCalls[j].id);
  }

  /** Behind a cut at a non-result, a result still has its call. */
  lemma CallIsKept(m: seq<ChatMessage>, front: seq<ChatMessage>, k: nat, at: nat) returns (i: nat)
    requires Paired(m) && NoOrphans(m) && k <= at < |m| && m[at].toolCallId.Some? && m[k].toolCallId.None?
    ensures var s, j := front + m[k..], |front| + (at - k);
            s[j] == m[at] && i < j && AnswersCall(s, i, j)
  {
    var s := front + m[k..];
    var c: nat :| c < at && AnswersCall(m, c, at);
    if c < k {
      InsideBlock(m, c, k);
      assert false;
    }
    i := |front| + (c - k);
    assert s[i] == m[c] && s[|front| + (at - k)] == m[at];
  }

  /**
   Behind a plain front, a cut orphans no result exactly when it does not start at one: cutting
   inside a block of results always loses their call.
   */
  lemma CutOrphansExactly(m: seq<ChatMessage>, front: seq<ChatMessage>, k: nat)
    requires Paired(m) && NoOrphans(m) && k <= |m|
    requires forall i | 0 <= i < |front| :: front[i].toolCalls == [] && front[i].toolCallId.None?
    ensures NoOrphans(front + m[k..]) <==> (k < |m| ==> m[k].toolCallId.None?)
  {
    var s, n := front + m[k..], |front|;
    if k < |m| && m[k].toolCallId.Some? {
      assert s[n] == m[k];
      assert forall i | 0 <= i < n :: !AnswersCall(s, i, n);
    } else {
      hide Paired, AnswersCall;
      forall j | 0 <= j < |s| && s[j].toolCallId.Some? ensures exists i | 0 <= i < j :: AnswersCall(s, i, j) {
        assert j >= n && s[j] == m[k + (j - n)];
        var i := CallIsKept(m, front, k, k + (j - n));
      }
    }
  }

  /** Where a compaction pass cuts, if it does. */
  function CutPoint(m: seq<ChatMessage>, promptTokens: Option<nat>, summary: Option<string>): Option<nat> {
    if !AsksForSummary(m, promptTokens) then None
    else if summary.Some? then Some(SummaryEnd(|m|))
    else if |m| > HARD_MAX_HISTORY then Some(|m| - HARD_KEEP_RECENT)
    else None
  }

  /** A compaction pass cuts behind a head that carries calls. */
  predicate Severs(m: seq<ChatMessage>, promptTokens: Option<nat>, summary: Option<string>) {
    CutPoint(m, promptTokens, summary).Some? && m != [] && m[0].toolCalls != []
  }

  /** Only such a pass can separate a call from its results. */
  lemma UnseveredKeepsPairing(m: seq<ChatMessage>, promptTokens: Option<nat>, summary: Option<string>)
    requires |m| >= 1 && (OverTokens(promptTokens) ==> |m| >= 2)
    requires Paired(m) && !Severs(m, promptTokens, summary)
    ensures Paired(Compacted(m, promptTokens, summary))
  {
    if m[0].toolCalls == [] {
      CompactedKeepsPairing(m, promptTokens, summary);
    } else {
      assert Compacted(m, promptTokens, summary) == m;
    }
  }

  /** A compaction pass keeps every result with its call exactly if it does not cut at a result. */
  lemma CompactionOrphansExactly(m: seq<ChatMessage>, promptTokens: Option<nat>, summary: Option<string>)
    requires |m| >= 1 && (OverTokens(promptTokens) ==> |m| >= 2)
    requires Paired(m) && NoOrphans(m) && m[0].toolCalls == []
    ensures NoOrphans(Compacted(m, promptTokens, summary)) <==>
              var cut := CutPoint(m, promptTokens, summary);
              cut.Some? && cut.value < |m| ==> m[cut.value].toolCallId.None?
  {
    assert m[0].toolCallId.None?;
    var cut := CutPoint(m, promptTokens, summary);
    hide NoOrphans, Paired, IsSummary, OverTokens;
    if cut.Some? {
      var front := if summary.Some? then [m[0], SummaryMessage(summary.value)] else [m[0]];
      CutOrphansExactly(m, front, cut.value);
      assert Compacted(m, promptTokens, summary) == front + m[cut.value..];
    }
  }

  /** Cutting behind a head with calls loses its results, unless the kept part by chance starts with their ids. */
  lemma SeversLosesPairing(m: seq<ChatMessage>, promptTokens: Option<nat>, summary: Option<string>)
    requires OverTokens(promptTokens) ==> |m| >= 2
    requires Paired(m) && Severs(m, promptTokens, summary)
    ensures var c := Compacted(m, promptTokens, summary);
            c != [] && c[0] == m[0] && (!Paired(c) || (|c| == HARD_KEEP_RECENT + 1 && summary.None?))
  {
    if summary.Some? {
      CutKeepsPairing(m, SummaryMessage(summary.value), SummaryEnd(|m|));
    }
  }

  // ---- example runs: the same calls in every iteration ----

  /** What one iteration with two parallel calls appends. */
  function EchoRound(): seq<ChatMessage> {
    [AssistantToolCalls("", [ToolCall("a", "echo", "1"), ToolCall("b", "echo", "2")]),
     ToolResultMessage("a", "1"), ToolResultMessage("b", "2")]
  }

  /** What one iteration with a single call appends. */
  function SingleRound(): seq<ChatMessage> {
    [AssistantToolCalls("", [ToolCall("a", "echo", "1")]), ToolResultMessage("a", "1")]
  }

  /** The transcript after `n` such iterations, each of which starts with a compaction pass that gets no summary. */
  function LoopTranscript(round: seq<ChatMessage>, n: nat): seq<ChatMessage> {
    if n == 0 then [NewMessage("user", "go")] else Compacted(LoopTranscript(round, n - 1), None, None) + round
  }

  /** A request, then `n` rounds of two or three messages. */
  predicate IsRounds(m: seq<ChatMessage>, round: seq<ChatMessage>, n: nat) {
    && 2 <= |round| <= 3 && |m| == 1 + (if |round| == 2 then 2 * n else 3 * n)
    && m[0] == NewMessage("user", "go")
    && forall i | 0 < i < |m| :: m[i] == round[if |round| == 2 then (i - 1) % 2 else (i - 1) % 3]
  }

  /** A pass without a summary leaves up to 60 messages alone, so the rounds pile up to 61. */
  lemma {:induction false} RoundsArise(round: seq<ChatMessage>, n: nat)
    requires 2 <= |round| <= 3 && n <= 20
    ensures IsRounds(LoopTranscript(round, n), round, n)
  {
    if n > 0 {
      RoundsArise(round, n - 1);
      var m := LoopTranscript(round, n - 1);
      assert Compacted(m, None, None) == m;
      NextRound(m, round, n - 1);
    }
  }

  lemma NextRound(m: seq<ChatMessage>, round: seq<ChatMessage>, n: nat)
    requires IsRounds(m, round, n)
    ensures IsRounds(m + round, round, n + 1)
  {
    var s := m + round;
    forall i | 0 < i < |s| ensures s[i] == round[if |round| == 2 then (i - 1) % 2 else (i - 1) % 3] {
      if i >= |m| { RoundOffset(n, |round|, i - |m|); }
    }
  }

  lemma RoundOffset(n: nat, size: nat, j: nat)
    requires 2 <= size <= 3 && j < size
    ensures (if size == 2 then (2 * n + j) % 2 else (2 * n + n + j) % 3) == j
  {
  }

  lemma RoundsArePaired(m: seq<ChatMessage>, n: nat)
    requires IsRounds(m, EchoRound(), n)
    ensures Paired(m)
  {
    forall i | 0 <= i < |m| && m[i].toolCalls != [] ensures AnsweredAt(m, i) {
      assert i % 3 == 1 && m[i + 1 + 0].toolCallId == Some("a") && m[i + 1 + 1].toolCallId == Some("b");
    }
  }

  lemma RoundsHaveNoOrphans(m: seq<ChatMessage>, n: nat)
    requires IsRounds(m, EchoRound(), n)
    ensures NoOrphans(m)
  {
    forall k | 0 <= k < |m| && m[k].toolCallId.Some?
      ensures exists i | 0 <= i < k :: AnswersCall(m, i, k)
    {
      if k % 3 == 2 {
        assert AnswersCall(m, k - 1, k);
      } else {
        assert AnswersCall(m, k - 2, k);
      }
    }
  }

  lemma SinglesArePaired(m: seq<ChatMessage>, n: nat)
    requires IsRounds(m, SingleRound(), n)
    ensures Paired(m) && NoOrphans(m)
  {
    forall i | 0 <= i < |m| && m[i].toolCalls != [] ensures AnsweredAt(m, i) {
      assert i % 2 == 1 && m[i + 1 + 0].toolCallId == Some("a");
    }
    forall k | 0 <= k < |m| && m[k].toolCallId.Some?
      ensures exists i | 0 <= i < k :: AnswersCall(m, i, k)
    {
      assert AnswersCall(m, k - 1, k);
    }
  }

  /** Without any error: the summary of the 16th iteration with single calls takes a call and leaves its result. */
  lemma SummaryCanOrphanAResult(text: string)
    ensures var m := LoopTranscript(SingleRound(), 15);
            && |m| == 31 && Paired(m) && NoOrphans(m) && AsksForSummary(m, None)
            && Paired(Compacted(m, None, Some(text))) && !NoOrphans(Compacted(m, None, Some(text)))
  {
    var m := LoopTranscript(SingleRound(), 15);
    RoundsArise(SingleRound(), 15);
    hide LoopTranscript;
    SinglesArePaired(m, 15);
    CompactedKeepsPairing(m, None, Some(text));
    CompactionOrphansExactly(m, None, Some(text));
    assert m[16] == SingleRound()[1];
  }

  /** The converse of pairing is lost: the hard trim of the 21st iteration leaves a result without its call. */
  lemma TrimCanOrphanAResult()
    ensures var r := LoopTranscript(EchoRound(), 20);
            Paired(r) && NoOrphans(r) && Paired(Compacted(r, None, None)) && !NoOrphans(Compacted(r, None, None))
  {
    var r := LoopTranscript(EchoRound(), 20);
    RoundsArise(EchoRound(), 20);
    hide LoopTranscript;
    RoundsArePaired(r, 20);
    RoundsHaveNoOrphans(r, 20);
    CompactedKeepsPairing(r, None, None);
    CompactionOrphansExactly(r, None, None);
    assert r[41] == EchoRound()[1];
  }

  /** A forced compression of 19 rounds leaves a head with calls, still paired. */
  lemma CompressedRounds(r: seq<ChatMessage>)
    requires IsRounds(r, EchoRound(), 19)
    ensures var f := ForceCompressed(r);
            |f| == 30 && Paired(f) && f[0] == EchoRound()[0]
  {
    RoundsArePaired(r, 19);
    hide EchoRound;
    assert ForceCompressed(r) == r[28..];
    PairedSuffix(r, 28);
  }

  lemma RoundIsPaired(m: seq<ChatMessage>)
    requires Paired(m)
    ensures Paired(m + EchoRound()) && EchoRound()[0].toolCalls != []
  {
    var round := EchoRound();
    PairedAppend(m, round[0], [round[1], round[2]]);
    assert m + [round[0]] + [round[1], round[2]] == m + round;
  }

  /**
   A context error in the 20th iteration leaves a head with calls; if the next iteration gets its
   summary, that summary splits the head from its results.
   */
  lemma RetryThenSummarySplitsAPair(text: string)
    ensures var r := Compacted(LoopTranscript(EchoRound(), 19), None, None);
            var m := ForceCompressed(r) + EchoRound();
            && |r| <= HARD_MAX_HISTORY && Paired(r) && Paired(m)
            && AsksForSummary(m, None) && !Paired(Compacted(m, None, Some(text)))
  {
    var r := LoopTranscript(EchoRound(), 19);
    RoundsArise(EchoRound(), 19);
    hide LoopTranscript;
    RoundsArePaired(r, 19);
    assert Compacted(r, None, None) == r;
    CompressedRounds(r);
    hide Paired, IsRounds, IsSummary, ForceCompressed, EchoRound;
    RoundIsPaired(ForceCompressed(r));
    var m := ForceCompressed(r) + EchoRound();
    assert m[0] == EchoRound()[0];
    CutKeepsPairing(m, SummaryMessage(text), SummaryEnd(|m|));
  }

  // ---- the transcript object ----

  class Log {
    var messages: seq<ChatMessage>
    /** Messages pushed so far. */
    ghost var appended: nat
    /** Summaries written because of the message count. */
    ghost var countSummaries: nat
    /** Requests sent before the first compaction that cut behind a head with calls. */
    ghost var severedAt: Option<nat>

    constructor (messages: seq<ChatMessage>)
      ensures this.messages == messages && appended == 0 && countSummaries == 0 && severedAt.None?
    {
      this.messages := messages;
      appended, countSummaries, severedAt := 0, 0, None;
    }

    /** Summaries are paid for by pushes: this never grows. */
    ghost function Potential(): int
      reads this
    {
      SUMMARY_GAIN * countSummaries + |messages| - appended
    }

    method Push(m: ChatMessage)
      modifies this
      ensures messages == old(messages) + [m] && appended == old(appended) + 1
      ensures countSummaries == old(countSummaries) && severedAt == old(severedAt)
    {
      messages := messages + [m];
      appended := appended + 1;
    }

    /** Removal of a range; the bounds are those outside which the original would panic. */
    method Drain(lo: nat, hi: nat)
      requires lo <= hi <= |messages|
      modifies this`messages
      ensures messages == old(messages)[..lo] + old(messages)[hi..]
    {
      messages := messages[..lo] + messages[hi..];
    }

    method TrimHistory()
      modifies this`messages
      ensures messages == Trimmed(old(messages))
    {
      if |messages| > HARD_MAX_HISTORY {
        var drainEnd := |messages| - HARD_KEEP_RECENT;
        if drainEnd > 1 {
          Drain(1, drainEnd);
        }
      }
    }

    /** Puts a summary in the place of the messages between the first one and `end`. */
    method ReplaceBySummary(end: nat, text: string)
      requires 1 <= end <= |messages|
      modifies this`messages
      ensures messages == [old(messages)[0], SummaryMessage(text)] + old(messages)[end..]
    {
      Drain(1, end);
      messages := messages[..1] + [SummaryMessage(text)] + messages[1..];
    }

    /**
     One rolling-summary pass.  `summary` is the model's answer, should it be asked; the
     precondition is exactly that the summarised slice is in range.
     */
    method RollingCompact(promptTokens: Option<nat>, provider: Provider) returns (asked: bool)
      requires OverTokens(promptTokens) ==> |messages| >= 2
      modifies this, provider
      ensures asked == AsksForSummary(old(messages), promptTokens)
      ensures provider.Asked(asked, old(provider.calls)) && provider.requests == old(provider.requests)
      ensures messages == Compacted(old(messages), promptTokens, provider.world.text(old(provider.calls)))
      ensures asked && |old(messages)| >= 2 && provider.world.text(old(provider.calls)).Some? ==>
                TellsSummary(messages, provider.world.text(old(provider.calls)).value)
      ensures appended == old(appended) && Potential() <= old(Potential())
      ensures countSummaries == old(countSummaries)
                + (if CountsSummary(old(messages), promptTokens, provider.world.text(old(provider.calls))) then 1 else 0)
      ensures severedAt == (if old(severedAt).None? && Severs(old(messages), promptTokens, provider.world.text(old(provider.calls)))
                            then Some(|provider.requests|) else old(severedAt))
    {
      ghost var was := messages;
      CompactedCases(was, promptTokens, provider.world.text(provider.calls));
      if |was| >= 2 && AsksForSummary(was, promptTokens) && provider.world.text(provider.calls).Some? {
        SummaryIsTold(was, promptTokens, provider.world.text(provider.calls).value);
      }
      hide IsSummary, OverTokens, SummaryMessage, Compacted, Trimmed;
      var overCount := |messages| >= ROLLING_THRESHOLD;
      var overTokens := OverTokens(promptTokens);
      if !overCount && !overTokens {
        return false;
      }
      var sumEnd := SummaryEnd(|messages|);
      var toSummarise := messages[1..sumEnd];
      if |toSummarise| == 1 && IsSummary(toSummarise[0]) {
        return false;
      }
      asked := true;
      var summary := provider.ChatWithSystem();
      if severedAt.None? && Severs(was, promptTokens, summary) {
        severedAt := Some(|provider.requests|);
      }
      match summary {
        case Some(text) =>
          ReplaceBySummary(sumEnd, text);
          if overCount { countSummaries := countSummaries + 1; }
        case None =>
          TrimHistory();
      }
    }

    /** Rolling pass.  The hard limit that the source applies once more behind it is never reached. */
    method AutoCompactHistory(promptTokens: Option<nat>, provider: Provider) returns (asked: bool)
      requires OverTokens(promptTokens) ==> |messages| >= 2
      modifies this, provider
      ensures asked == AsksForSummary(old(messages), promptTokens)
      ensures provider.Asked(asked, old(provider.calls)) && provider.requests == old(provider.requests)
      ensures messages == Compacted(old(messages), promptTokens, provider.world.text(old(provider.calls)))
      ensures |messages| <= 60
      ensures old(messages) != [] ==> messages != [] && messages[0] == old(messages)[0]
      ensures appended == old(appended) && Potential() <= old(Potential())
      ensures countSummaries == old(countSummaries)
                + (if CountsSummary(old(messages), promptTokens, provider.world.text(old(provider.calls))) then 1 else 0)
      ensures severedAt == (if old(severedAt).None? && Severs(old(messages), promptTokens, provider.world.text(old(provider.calls)))
                            then Some(|provider.requests|) else old(severedAt))
      ensures Paired(old(messages)) && severedAt.None? ==> Paired(messages)
    {
      if messages != [] {
        CompactedBounds(messages, promptTokens, provider.world.text(provider.calls));
        if Paired(messages) && !Severs(messages, promptTokens, provider.world.text(provider.calls)) {
          UnseveredKeepsPairing(messages, promptTokens, provider.world.text(provider.calls));
        }
      }
      asked := RollingCompact(promptTokens, provider);
      if |messages| > HARD_MAX_HISTORY {
        assert false;
      }
    }

    /** Drops the older half of the conversation, keeping a system head and the last message. */
    method ForceCompress()
      modifies this`messages
      ensures messages == ForceCompressed(old(messages))
    {
      if |messages| <= 4 {
        return;
      }
      var hasSystem := messages[0].role == "system";
      var convStart := if hasSystem then 1 else 0;
      var convLen := if |messages| < convStart + 1 then 0 else |messages| - (convStart + 1);
      if convLen == 0 {
        return;
      }
      var dropCount := convLen / 2;
      if dropCount == 0 {
        return;
      }
      Drain(convStart, convStart + dropCount);
    }
  }

  // ---- the model behind the transcript ----

  datatype Response = Response(content: string, toolCalls: seq<ToolCall>, promptTokens: Option<nat>)

  datatype ChatAnswer = Answer(response: Response) | ContextError | OtherError(reason: string)

  /** A request, the number of its call, and its answer. */
  datatype Sent = Sent(messages: seq<ChatMessage>, corrective: bool, call: nat, answer: ChatAnswer)

  /** Everything outside the engine, as an arbitrary function of the number of the call. */
  datatype World = World(
    chat: nat -> ChatAnswer,
    text: nat -> Option<string>)

  /** The provider, with a meter on it: answers can be had only through a counted call. */
  class Provider {
    const world: World
    var calls: nat
    /** The transcripts sent, in order. */
    ghost var requests: seq<Sent>

    constructor (world: World)
      ensures this.world == world && calls == 0 && requests == []
    {
      this.world := world;
      calls, requests := 0, [];
    }

    ghost predicate Asked(asked: bool, before: nat)
      reads this
    {
      calls == before + (if asked then 1 else 0)
    }

    method ChatWithSystem() returns (answer: Option<string>)
      modifies this
      ensures answer == world.text(old(calls)) && calls == old(calls) + 1 && requests == old(requests)
    {
      answer := world.text(calls);
      calls := calls + 1;
    }

    /** A request of the tool loop, or the corrective request of the reflection step. */
    method Chat(messages: seq<ChatMessage>, corrective: bool) returns (answer: ChatAnswer)
      modifies this
      ensures answer == world.chat(old(calls)) && calls == old(calls) + 1
      ensures requests == old(requests) + [Sent(messages, corrective, old(calls), answer)]
    {
      answer := world.chat(calls);
      requests := requests + [Sent(messages, corrective, calls, answer)];
      calls := calls + 1;
    }
  }
}
