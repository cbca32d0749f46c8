/**
 One turn of the agent: topic decision, tool loop with compaction and retries, tool
 execution, reflection.  Provider and tools answer as they like.
 */
module Engine {
  import opened Wrappers
  import opened Transcript
  import opened Topics
  import opened MemoryTypes
  import ToolCalls

  const DEFAULT_MAX_ITERATIONS: nat := 10
  const MAX_CONTEXT_RETRIES: nat := 2

  datatype ToolOutcome = Succeeded(output: string) | Failed(error: Option<string>) | Crashed(reason: string)

  /** `tool(n, i)` is the outcome of the i-th call requested by the n-th provider answer. */
  datatype Environment = Environment(
    codec: ToolCalls.Codec,
    knownTool: string -> bool,
    tool: (nat, nat) -> ToolOutcome,
    cleanKeyword: string -> bool,
    saysYes: string -> bool,
    scrub: string -> string,
    needsReflection: (string, string, bool, nat) -> bool)

  // ---- pending calls and their results ----

  datatype PendingCall = PendingCall(id: Option<string>, name: string, arguments: string)

  function FromNative(calls: seq<ToolCall>): (p: seq<PendingCall>)
    ensures |p| == |calls|
    ensures forall i | 0 <= i < |p| :: p[i] == PendingCall(Some(calls[i].id), calls[i].name, calls[i].arguments)
  {
    seq(|calls|, i requires 0 <= i < |calls| => PendingCall(Some(calls[i].id), calls[i].name, calls[i].arguments))
  }

  function FromText(calls: seq<ToolCalls.Call>): (p: seq<PendingCall>)
    ensures |p| == |calls|
    ensures forall i | 0 <= i < |p| :: p[i] == PendingCall(None, calls[i].name, calls[i].arguments)
  {
    seq(|calls|, i requires 0 <= i < |calls| => PendingCall(None, calls[i].name, calls[i].arguments))
  }

  function OutcomeText(outcome: ToolOutcome): string {
    match outcome
    case Succeeded(output) => output
    case Failed(error) => "Error: " + (match error case Some(e) => e case None => "unknown error")
    case Crashed(reason) => "Error executing tool: " + reason
  }

  function ResultText(env: Environment, n: nat, call: PendingCall, i: nat): string {
    if env.knownTool(call.name) then OutcomeText(env.tool(n, i)) else "Error: tool '" + call.name + "' not found"
  }

  /** The transcript message that answers a call. */
  function Answering(call: PendingCall, text: string): ChatMessage {
    match call.id
    case Some(id) => ToolResultMessage(id, text)
    case None => NewMessage("tool", "[" + call.name + "]: " + text)
  }

  /** One answer per call, in call order. */
  function Answers(env: Environment, n: nat, pending: seq<PendingCall>): (r: seq<ChatMessage>)
    ensures |r| == |pending|
    ensures forall i | 0 <= i < |r| :: r[i] == Answering(pending[i], ResultText(env, n, pending[i], i))
  {
    seq(|pending|, i requires 0 <= i < |pending| => Answering(pending[i], ResultText(env, n, pending[i], i)))
  }

  /** The call had an error: the tool is unknown or did not succeed. */
  predicate CallFails(env: Environment, n: nat, call: PendingCall, i: nat) {
    !env.knownTool(call.name) || !env.tool(n, i).Succeeded?
  }

  predicate SomeCallFails(env: Environment, n: nat, pending: seq<PendingCall>) {
    exists i | 0 <= i < |pending| :: CallFails(env, n, pending[i], i)
  }

  /**
   Launches the known tools together and takes their outcomes in whatever order they finish;
   every slot is filled.
   */
  method FillSlots(env: Environment, n: nat, pending: seq<PendingCall>)
    returns (slots: seq<Option<string>>, hadError: bool)
    ensures |slots| == |pending|
    ensures forall i | 0 <= i < |pending| :: slots[i] == Some(ResultText(env, n, pending[i], i))
    ensures hadError <==> SomeCallFails(env, n, pending)
  {
    hide OutcomeText;
    hadError := false;
    slots := seq(|pending|, _ => None);
    var running: set<nat> := {};
    for idx := 0 to |pending|
      invariant |slots| == |pending|
      invariant forall i | i in running :: i < idx && env.knownTool(pending[i].name)
      invariant forall i | 0 <= i < idx && i !in running ::
                  !env.knownTool(pending[i].name) && slots[i] == Some(ResultText(env, n, pending[i], i))
      invariant hadError <==> exists i | 0 <= i < idx :: i !in running && CallFails(env, n, pending[i], i)
    {
      var call := pending[idx];
      if env.knownTool(call.name) {
        running := running + {idx};
      } else {
        hadError := true;
        slots := slots[idx := Some("Error: tool '" + call.name + "' not found")];
      }
    }
    while running != {}
      invariant |slots| == |pending|
      invariant forall i | i in running :: i < |pending| && env.knownTool(pending[i].name)
      invariant forall i | 0 <= i < |pending| && i !in running :: slots[i] == Some(ResultText(env, n, pending[i], i))
      invariant hadError <==> exists i | 0 <= i < |pending| :: i !in running && CallFails(env, n, pending[i], i)
      decreases running
    {
      var idx :| idx in running;
      var outcome := env.tool(n, idx);
      if !outcome.Succeeded? {
        hadError := true;
      }
      slots := slots[idx := Some(OutcomeText(outcome))];
      running := running - {idx};
    }
  }

  /** The text that tells the model how a call went. */
  predicate IsToldAs(text: string, call: PendingCall, known: bool, outcome: ToolOutcome) {
    if !known then text == "Error: tool '" + call.name + "' not found"
    else match outcome
      case Succeeded(output) => text == output
      case Failed(Some(error)) => text == "Error: " + error
      case Failed(None) => text == "Error: unknown error"
      case Crashed(reason) => text == "Error executing tool: " + reason
  }

  /** A native call is answered under its id, with the bare text; another one by name. */
  predicate TellsOutcome(m: ChatMessage, call: PendingCall, known: bool, outcome: ToolOutcome) {
    && m.role == "tool" && m.toolCalls == [] && m.toolCallId == call.id
    && (call.id.Some? ==> IsToldAs(m.content, call, known, outcome))
    && (call.id.None? ==> var name := "[" + call.name + "]: ";
          name <= m.content && IsToldAs(m.content[|name|..], call, known, outcome))
  }

  lemma TellOutcomes(env: Environment, n: nat, pending: seq<PendingCall>)
    ensures forall i | 0 <= i < |pending| ::
              TellsOutcome(Answers(env, n, pending)[i], pending[i], env.knownTool(pending[i].name), env.tool(n, i))
  {
  }

  /** Runs the pending calls; the answers come out in call order. */
  method ExecutePending(env: Environment, n: nat, pending: seq<PendingCall>)
    returns (answers: seq<ChatMessage>, hadError: bool)
    ensures answers == Answers(env, n, pending)
    ensures forall i | 0 <= i < |pending| :: TellsOutcome(answers[i], pending[i], env.knownTool(pending[i].name), env.tool(n, i))
    ensures hadError <==> SomeCallFails(env, n, pending)
  {
    TellOutcomes(env, n, pending);
    hide CallFails, ResultText, Answering;
    var slots;
    slots, hadError := FillSlots(env, n, pending);
    answers := [];
    for i := 0 to |pending|
      invariant answers == Answers(env, n, pending)[..i]
    {
      match slots[i] {
        case Some(text) => answers := answers + [Answering(pending[i], text)];
        case None =>
      }
    }
  }

  // ---- reflection ----

  /** The reply behind a completeness verdict, whose call has number `n`, and a correction if the verdict is negative. */
  function Reflected(env: Environment, world: World, candidate: string, n: nat): string {
    if Accepted(env, world, n) then candidate
    else match world.chat(n + 1) case Answer(r) => env.scrub(r.content) case _ => candidate
  }

  /** The transcript, and a message that quotes up to 300 characters of the request and 500 of the reply. */
  ghost predicate IsCorrection(sent: seq<ChatMessage>, messages: seq<ChatMessage>, input: string, candidate: string) {
    && |sent| == |messages| + 1 && messages <= sent && sent[|messages|].role == "user"
    && var quoted := input[..if |input| < 300 then |input| else 300];
       var repeated := candidate[..if |candidate| < 500 then |candidate| else 500];
       Quotes(sent[|messages|].content, quoted, repeated)
  }

  /** Both texts stand in the content, one behind the other. */
  ghost predicate Quotes(content: string, a: string, b: string) {
    exists before, between, behind :: IsMadeOf(content, before, a, between, b, behind)
  }

  predicate IsMadeOf(content: string, before: string, a: string, between: string, b: string, behind: string) {
    content == before + a + between + b + behind
  }

  const CORRECTION_LEAD := "Your previous response to the user's request may be incomplete or incorrect.\n\nUser request: \""
  const CORRECTION_REPEAT := "\"\n\nYour previous response:\n"
  const CORRECTION_ASK := "\n\nPlease provide a complete and correct response, addressing any gaps or errors."

  function Correction(input: string, candidate: string): string {
    CORRECTION_LEAD + (if |input| <= 300 then input else input[..300])
    + CORRECTION_REPEAT + (if |candidate| <= 500 then candidate else candidate[..500]) + CORRECTION_ASK
  }

  lemma CorrectionQuotes(input: string, candidate: string)
    ensures Quotes(Correction(input, candidate), input[..if |input| < 300 then |input| else 300],
                   candidate[..if |candidate| < 500 then |candidate| else 500])
  {
    hide CORRECTION_LEAD, CORRECTION_REPEAT, CORRECTION_ASK;
    var quoted, repeated := if |input| <= 300 then input else input[..300], if |candidate| <= 500 then candidate else candidate[..500];
    assert quoted == input[..if |input| < 300 then |input| else 300];
    assert repeated == candidate[..if |candidate| < 500 then |candidate| else 500];
    assert IsMadeOf(Correction(input, candidate), CORRECTION_LEAD, quoted, CORRECTION_REPEAT, repeated, CORRECTION_ASK);
  }

  predicate Accepted(env: Environment, world: World, n: nat) {
    world.text(n).None? || env.saysYes(world.text(n).value)
  }

  /** Asks for a completeness verdict and, on a negative one, for a corrected reply. */
  method TieredReflect(env: Environment, provider: Provider, input: string, candidate: string, messages: seq<ChatMessage>)
    returns (reply: string)
    modifies provider
    ensures reply == Reflected(env, provider.world, candidate, old(provider.calls))
    ensures Accepted(env, provider.world, old(provider.calls)) ==>
              provider.calls == old(provider.calls) + 1 && provider.requests == old(provider.requests)
    ensures !Accepted(env, provider.world, old(provider.calls)) ==>
              && provider.calls == old(provider.calls) + 2 && |provider.requests| == |old(provider.requests)| + 1
              && old(provider.requests) <= provider.requests && provider.requests[|old(provider.requests)|].corrective
              && IsCorrection(provider.requests[|old(provider.requests)|].messages, messages, input, candidate)
  {
    hide Correction, Quotes;
    var verdict := provider.ChatWithSystem();
    if verdict.None? || env.saysYes(verdict.value) {
      return candidate;
    }
    CorrectionQuotes(input, candidate);
    var prompt := Correction(input, candidate);
    var fix := NewMessage("user", prompt);
    var answer := provider.Chat(messages + [fix], true);
    match answer {
      case Answer(response) => reply := env.scrub(response.content);
      case ContextError => reply := candidate;
      case OtherError(_) => reply := candidate;
    }
  }

  // ---- the tool loop ----

  /** The reply is what scrubbing left of one of the provider's answers, from call `from` on. */
  ghost predicate IsScrubbed(env: Environment, world: World, reply: string, from: nat, calls: nat) {
    exists n | from <= n < calls :: world.chat(n).Answer? && reply == env.scrub(world.chat(n).response.content)
  }

  /** The calls a reply asks for: native ones, else those in its text. */
  function PendingOf(env: Environment, response: Response): seq<PendingCall> {
    if response.toolCalls != [] then FromNative(response.toolCalls)
    else FromText(ToolCalls.Deduplicated(ToolCalls.Parsed(env.codec, response.content)))
  }

  /** Messages that carry neither calls nor native results, as persistent history produces them. */
  predicate AllPlain(m: seq<ChatMessage>) {
    forall i | 0 <= i < |m| :: m[i].toolCalls == [] && m[i].toolCallId.None?
  }

  /** No loop request from `from` on was answered by a context error, so nothing was force-compressed. */
  ghost predicate NoRetry(requests: seq<Sent>, from: nat) {
    forall i | from <= i < |requests| && !requests[i].corrective :: !requests[i].answer.ContextError?
  }

  /**
   Request `at` was the first one behind a cut that left a head with calls; a retry came before it.  It
   is no longer paired, unless it was trimmed, and the kept messages by chance start with the head's ids.
   */
  ghost predicate SeveredIn(requests: seq<Sent>, from: nat, at: nat) {
    && from <= at < |requests| && !requests[at].corrective
    && requests[at].messages != [] && requests[at].messages[0].toolCalls != []
    && !NoRetry(requests[..at], from)
    && (!Paired(requests[at].messages) || |requests[at].messages| == HARD_KEEP_RECENT + 1)
  }

  /** Every loop request has between 1 and 60 messages; a corrective one two more at most. */
  ghost predicate RequestsBounded(requests: seq<Sent>, from: nat) {
    forall i | from <= i < |requests| ::
      1 <= |requests[i].messages| <= 60 + (if requests[i].corrective then 2 else 0)
  }

  /** In loop requests `from..to` every native call is followed by exactly its results. */
  ghost predicate RequestsPaired(requests: seq<Sent>, from: nat, to: nat) {
    forall i | from <= i < to && i < |requests| && !requests[i].corrective :: Paired(requests[i].messages)
  }

  // ---- runs of the loop, read off its requests ----

  /** Where a loop starts: its transcript, the number of its first call, and the requests sent before it. */
  datatype Origin = Origin(messages: seq<ChatMessage>, calls: nat, sent: nat)

  function Last(requests: seq<Sent>): Sent
    requires requests != []
  {
    requests[|requests| - 1]
  }

  /** The transcript behind the last request: a reply is recorded and the calls it asks for are answered. */
  function Transcribed(env: Environment, o: Origin, requests: seq<Sent>): seq<ChatMessage> {
    if |requests| <= o.sent then o.messages
    else
      var r := Last(requests);
      match r.answer
      case Answer(response) =>
        r.messages + [ChatMessage("assistant", response.content, response.toolCalls, None)]
        + Answers(env, r.call, PendingOf(env, response))
      case _ => r.messages
  }

  /** The number of the call behind the last request. */
  function CallsBehind(o: Origin, requests: seq<Sent>): nat {
    if |requests| <= o.sent then o.calls else Last(requests).call + 1
  }

  /** The prompt tokens that the last reply reported. */
  function TokensBehind(o: Origin, requests: seq<Sent>): Option<nat> {
    if |requests| > o.sent && Last(requests).answer.Answer? then Last(requests).answer.response.promptTokens else None
  }

  /** Another iteration is due: nothing was sent yet, or the last reply asks for tools. */
  predicate GoesOn(env: Environment, o: Origin, requests: seq<Sent>) {
    |requests| > o.sent ==> Last(requests).answer.Answer? && PendingOf(env, Last(requests).answer.response) != []
  }

  /** The context errors at the end, each answered by a retry so far. */
  function Errors(requests: seq<Sent>, from: nat): nat {
    if |requests| > from && Last(requests).answer.ContextError? then 1 + Errors(requests[..|requests| - 1], from) else 0
  }

  /** `r` is the first request of an iteration: it sends the transcript after one compaction pass. */
  predicate StartsIteration(env: Environment, world: World, o: Origin, before: seq<Sent>, r: Sent) {
    var m, promptTokens, n := Transcribed(env, o, before), TokensBehind(o, before), CallsBehind(o, before);
    && GoesOn(env, o, before) && (OverTokens(promptTokens) ==> |m| >= 2)
    && r.call == n + (if AsksForSummary(m, promptTokens) then 1 else 0)
    && r.messages == Compacted(m, promptTokens, world.text(n))
  }

  /** `r` is a retry: it sends the newer half of the request before it. */
  predicate IsRetry(o: Origin, before: seq<Sent>, r: Sent) {
    && |before| > o.sent && Last(before).answer.ContextError? && Errors(before, o.sent) <= MAX_CONTEXT_RETRIES
    && r.call == Last(before).call + 1 && r.messages == ForceCompressed(Last(before).messages)
  }

  /** The requests behind the first `o.sent` are those of a loop that starts at `o`. */
  predicate IsRun(env: Environment, world: World, o: Origin, requests: seq<Sent>) {
    if |requests| <= o.sent then |requests| == o.sent
    else
      var before, r := requests[..|requests| - 1], Last(requests);
      && IsRun(env, world, o, before) && !r.corrective && r.answer == world.chat(r.call)
      && (StartsIteration(env, world, o, before, r) || IsRetry(o, before, r))
  }

  /** Environment and origin determine a run: of two runs, the shorter one is the beginning of the longer one. */
  lemma {:induction false} RunsAreDetermined(env: Environment, world: World, o: Origin, a: seq<Sent>, b: seq<Sent>)
    requires IsRun(env, world, o, a) && IsRun(env, world, o, b)
    requires o.sent <= |a| <= |b| && a[..o.sent] == b[..o.sent]
    ensures a <= b
    decreases |b|
  {
    hide *;
    if |b| == o.sent {
      assert a[..o.sent] == a && b[..o.sent] == b;
    } else {
      var shorter := b[..|b| - 1];
      assert shorter[..o.sent] == b[..o.sent];
      RunStep(env, world, o, b);
      if |a| < |b| {
        RunsAreDetermined(env, world, o, a, shorter);
        assert shorter <= b;
      } else {
        RunStep(env, world, o, a);
        assert a[..|a| - 1][..o.sent] == a[..o.sent];
        RunsAreDetermined(env, world, o, a[..|a| - 1], shorter);
        assert a[..|a| - 1] == shorter;
        NextIsDetermined(env, world, o, shorter, a[|a| - 1], b[|b| - 1]);
        assert a == a[..|a| - 1] + [a[|a| - 1]] && b == shorter + [b[|b| - 1]];
      }
    }
  }

  lemma RunStep(env: Environment, world: World, o: Origin, requests: seq<Sent>)
    requires IsRun(env, world, o, requests) && |requests| > o.sent
    ensures var before, r := requests[..|requests| - 1], requests[|requests| - 1];
            && IsRun(env, world, o, before) && !r.corrective && r.answer == world.chat(r.call)
            && (StartsIteration(env, world, o, before, r) || IsRetry(o, before, r))
  {
    hide StartsIteration, IsRetry;
  }

  lemma NextIsDetermined(env: Environment, world: World, o: Origin, before: seq<Sent>, a: Sent, b: Sent)
    requires StartsIteration(env, world, o, before, a) || IsRetry(o, before, a)
    requires StartsIteration(env, world, o, before, b) || IsRetry(o, before, b)
    requires !a.corrective && a.answer == world.chat(a.call) && !b.corrective && b.answer == world.chat(b.call)
    ensures a == b
  {
    hide Transcribed, Errors, Compacted, ForceCompressed, AsksForSummary;
  }

  /** The number of messages that a reply and the answers to its calls take. */
  function Size(env: Environment, answer: ChatAnswer): nat {
    match answer case Answer(response) => 1 + |PendingOf(env, response)| case _ => 0
  }

  /** The messages that the answers to the requests have added. */
  function Appended(env: Environment, requests: seq<Sent>, from: nat): nat {
    if |requests| <= from then 0
    else Appended(env, requests[..|requests| - 1], from) + Size(env, Last(requests).answer)
  }

  /** The iterations whose compaction pass wrote a summary because of the message count. */
  function Summaries(env: Environment, world: World, o: Origin, requests: seq<Sent>): nat {
    if |requests| <= o.sent then 0
    else
      var before := requests[..|requests| - 1];
      Summaries(env, world, o, before)
      + (if GoesOn(env, o, before)
            && CountsSummary(Transcribed(env, o, before), TokensBehind(o, before), world.text(CallsBehind(o, before)))
         then 1 else 0)
  }

  /** The iterations that got a reply. */
  function Iterations(requests: seq<Sent>, from: nat): nat {
    if |requests| <= from then 0
    else Iterations(requests[..|requests| - 1], from) + (if Last(requests).answer.Answer? then 1 else 0)
  }

  /** Some call of this request's reply failed. */
  predicate HasFailure(env: Environment, r: Sent) {
    r.answer.Answer? && SomeCallFails(env, r.call, PendingOf(env, r.answer.response))
  }

  predicate HadError(env: Environment, requests: seq<Sent>, from: nat) {
    |requests| > from && (HadError(env, requests[..|requests| - 1], from) || HasFailure(env, Last(requests)))
  }

  /** The last reply asks for no tool. */
  predicate IsAnswered(env: Environment, o: Origin, requests: seq<Sent>) {
    |requests| > o.sent && Last(requests).answer.Answer? && PendingOf(env, Last(requests).answer.response) == []
  }

  /** Provider and transcript at one moment. */
  datatype Moment = Moment(requests: seq<Sent>, calls: nat, messages: seq<ChatMessage>, appended: nat, summaries: nat,
                           severedAt: Option<nat>)

  ghost function Now(provider: Provider, log: Log): Moment
    reads provider, log
  {
    Moment(provider.requests, provider.calls, log.messages, log.appended, log.countSummaries, log.severedAt)
  }

  /** More requests have been sent. */
  ghost predicate Extends(before: Moment, after: Moment) {
    before.requests <= after.requests
  }

  lemma ExtendsFurther(a: Moment, b: Moment, c: Moment)
    requires Extends(a, b) && Extends(b, c)
    ensures Extends(a, c)
  {
  }

  lemma ExtendsItself(a: Moment)
    ensures Extends(a, a)
  {
  }

  /** Transcript and counters are what the requests of a run say. */
  ghost predicate Accounts(env: Environment, world: World, o: Origin, now: Moment) {
    && IsRun(env, world, o, now.requests) && now.calls == CallsBehind(o, now.requests)
    && now.messages == Transcribed(env, o, now.requests)
    && now.appended == Appended(env, now.requests, o.sent) && now.summaries == Summaries(env, world, o, now.requests)
  }

  /** What one iteration has done to a run: a first request, retries, and the last answer. */
  ghost predicate OneIteration(env: Environment, world: World, o: Origin, before: seq<Sent>, first: Sent, after: seq<Sent>) {
    && before + [first] <= after && o.sent <= |before| && IsRun(env, world, o, after)
    && Summaries(env, world, o, after) == Summaries(env, world, o, before + [first])
    && Appended(env, after, o.sent) == Appended(env, before, o.sent) + Size(env, Last(after).answer)
    && Iterations(after, o.sent) == Iterations(before, o.sent) + (if Last(after).answer.Answer? then 1 else 0)
    && (HadError(env, after, o.sent) <==> HadError(env, before, o.sent) || HasFailure(env, Last(after)))
    && (Last(after).answer.ContextError? ==> Errors(after, o.sent) == |after| - |before|)
  }

  lemma OneMore<T>(s: seq<T>, x: T)
    ensures (s + [x])[..|s + [x]| - 1] == s
  {
  }

  lemma IterationStarts(env: Environment, world: World, o: Origin, before: seq<Sent>, first: Sent)
    requires IsRun(env, world, o, before) && StartsIteration(env, world, o, before, first)
    requires !first.corrective && first.answer == world.chat(first.call)
    ensures OneIteration(env, world, o, before, first, before + [first])
  {
    RunIsLong(env, world, o, before);
    hide StartsIteration, HasFailure, Size;
    var after := before + [first];
    OneMore(before, first);
    assert Last(after) == first;
    assert Errors(before, o.sent) == 0 by { ErrorsOfStart(env, world, o, before, first); }
  }

  lemma ErrorsOfStart(env: Environment, world: World, o: Origin, before: seq<Sent>, first: Sent)
    requires StartsIteration(env, world, o, before, first)
    ensures Errors(before, o.sent) == 0
  {
  }

  lemma RunIsLong(env: Environment, world: World, o: Origin, requests: seq<Sent>)
    requires IsRun(env, world, o, requests)
    ensures o.sent <= |requests|
  {
  }

  lemma IterationRetries(env: Environment, world: World, o: Origin, before: seq<Sent>, first: Sent, after: seq<Sent>, r: Sent)
    requires OneIteration(env, world, o, before, first, after)
    requires Last(after).answer.ContextError? && |after| - |before| <= MAX_CONTEXT_RETRIES
    requires r == Sent(ForceCompressed(Last(after).messages), false, Last(after).call + 1, world.chat(Last(after).call + 1))
    ensures OneIteration(env, world, o, before, first, after + [r])
  {
    hide StartsIteration, HasFailure, Size, ForceCompressed, Transcribed;
    OneMore(after, r);
    assert Last(after + [r]) == r && IsRetry(o, after, r);
    NothingFromErrors(env, Last(after));
  }

  lemma NothingFromErrors(env: Environment, r: Sent)
    requires r.answer.ContextError?
    ensures Size(env, r.answer) == 0 && !HasFailure(env, r)
  {
  }

  function CompressedTimes(m: seq<ChatMessage>, n: nat): seq<ChatMessage> {
    if n == 0 then m else ForceCompressed(CompressedTimes(m, n - 1))
  }

  lemma CompressionKeeps(m: seq<ChatMessage>)
    requires m != [] && WellRoled(m)
    ensures var f := ForceCompressed(m);
            && 1 <= |f| <= |m| && (|m| >= 3 ==> |f| >= 3) && WellRoled(f) && (Paired(m) ==> Paired(f))
  {
    ForceCompressedBounds(m);
    RewritesKeepRoles(m, None, None);
    if Paired(m) {
      ForceCompressedKeepsPairing(m);
    }
  }

  /** The loop request that would be sent next. */
  ghost function NextRequest(provider: Provider, m: seq<ChatMessage>): Sent
    reads provider
  {
    Sent(m, false, provider.calls, provider.world.chat(provider.calls))
  }

  /** One request with up to two retries, each after halving the transcript. */
  method RequestWithRetries(provider: Provider, log: Log, ghost env: Environment, ghost o: Origin)
    returns (answer: ChatAnswer)
    requires 1 <= |log.messages| <= HARD_MAX_HISTORY && WellRoled(log.messages)
    requires IsRun(env, provider.world, o, provider.requests)
    requires StartsIteration(env, provider.world, o, provider.requests, NextRequest(provider, log.messages))
    modifies provider, log`messages
    ensures old(provider.calls) < provider.calls <= old(provider.calls) + 3
    ensures answer == provider.world.chat(provider.calls - 1)
    // a retry follows each context error, until there are no retries left
    ensures forall n | old(provider.calls) <= n < provider.calls - 1 :: provider.world.chat(n).ContextError?
    ensures answer.ContextError? ==> provider.calls == old(provider.calls) + 3
    ensures log.messages == CompressedTimes(old(log.messages), provider.calls - old(provider.calls) - 1)
    // each call is one more request, of the transcript compressed once more
    ensures old(provider.requests) < provider.requests
    ensures |provider.requests| - |old(provider.requests)| == provider.calls - old(provider.calls)
    ensures provider.requests[|old(provider.requests)|].messages == old(log.messages)
    ensures Last(provider.requests) == Sent(log.messages, false, provider.calls - 1, answer)
    ensures forall i | |old(provider.requests)| <= i < |provider.requests| :: !provider.requests[i].corrective
    ensures OneIteration(env, provider.world, o, old(provider.requests), old(NextRequest(provider, log.messages)),
                         provider.requests)
    // what the compressions keep
    ensures 1 <= |log.messages| <= |old(log.messages)| && WellRoled(log.messages)
    ensures |old(log.messages)| >= 3 ==> |log.messages| >= 3
    ensures RequestsBounded(provider.requests, |old(provider.requests)|)
    ensures Paired(old(log.messages)) ==>
              Paired(log.messages) && RequestsPaired(provider.requests, |old(provider.requests)|, |provider.requests|)
    ensures NoRetry(provider.requests, |old(provider.requests)|) ==> log.messages == old(log.messages)
  {
    hide Paired, ForceCompressed, WellRoled, IsRun, StartsIteration, OneIteration;
    ghost var before, first := provider.requests, NextRequest(provider, log.messages);
    IterationStarts(env, provider.world, o, before, first);
    answer := provider.Chat(log.messages, false);
    var retry := 0;
    while answer.ContextError? && retry < MAX_CONTEXT_RETRIES
      invariant 0 <= retry <= MAX_CONTEXT_RETRIES && provider.calls == old(provider.calls) + 1 + retry
      invariant answer == provider.world.chat(provider.calls - 1)
      invariant forall n | old(provider.calls) <= n < provider.calls - 1 :: provider.world.chat(n).ContextError?
      invariant log.messages == CompressedTimes(old(log.messages), retry)
      invariant old(provider.requests) < provider.requests && |provider.requests| == |old(provider.requests)| + 1 + retry
      invariant provider.requests[|old(provider.requests)|].messages == old(log.messages)
      invariant Last(provider.requests) == Sent(log.messages, false, provider.calls - 1, answer)
      invariant OneIteration(env, provider.world, o, before, first, provider.requests)
      invariant forall i | |old(provider.requests)| <= i < |provider.requests| :: !provider.requests[i].corrective
      invariant 1 <= |log.messages| <= |old(log.messages)| && WellRoled(log.messages)
      invariant |old(log.messages)| >= 3 ==> |log.messages| >= 3
      invariant RequestsBounded(provider.requests, |old(provider.requests)|)
      invariant Paired(old(log.messages)) ==>
                  Paired(log.messages) && RequestsPaired(provider.requests, |old(provider.requests)|, |provider.requests|)
      invariant NoRetry(provider.requests, |old(provider.requests)|) ==> log.messages == old(log.messages)
    {
      CompressionKeeps(log.messages);
      ghost var failed, sofar := |provider.requests| - 1, provider.requests;
      log.ForceCompress();
      retry := retry + 1;
      IterationRetries(env, provider.world, o, before, first, sofar, NextRequest(provider, log.messages));
      answer := provider.Chat(log.messages, false);
      assert provider.requests[failed].answer.ContextError?;
    }
  }

  /** Records a reply, together with the native calls that its results will refer to. */
  method RecordReply(env: Environment, log: Log, response: Response) returns (pending: seq<PendingCall>)
    modifies log
    ensures log.messages == old(log.messages) + [ChatMessage("assistant", response.content, response.toolCalls, None)]
    ensures pending == PendingOf(env, response)
    ensures log.appended == old(log.appended) + 1
    ensures log.countSummaries == old(log.countSummaries) && log.severedAt == old(log.severedAt)
  {
    if response.toolCalls != [] {
      log.Push(AssistantToolCalls(response.content, response.toolCalls));
      pending := FromNative(response.toolCalls);
    } else {
      log.Push(NewMessage("assistant", response.content));
      var calls := ToolCalls.CollectTextToolCalls(env.codec, response.content);
      pending := FromText(calls);
    }
  }

  /** Appends the answers in order. */
  method PushAll(log: Log, answers: seq<ChatMessage>)
    modifies log
    ensures log.messages == old(log.messages) + answers && log.appended == old(log.appended) + |answers|
    ensures log.countSummaries == old(log.countSummaries) && log.severedAt == old(log.severedAt)
  {
    for i := 0 to |answers|
      invariant log.messages == old(log.messages) + answers[..i] && log.appended == old(log.appended) + i
      invariant log.countSummaries == old(log.countSummaries) && log.severedAt == old(log.severedAt)
    {
      log.Push(answers[i]);
    }
  }

  /** A recorded reply with its answers is a complete block. */
  lemma BlockIsPaired(env: Environment, n: nat, m: seq<ChatMessage>, response: Response)
    requires Paired(m)
    ensures Paired(m + [ChatMessage("assistant", response.content, response.toolCalls, None)]
                     + Answers(env, n, PendingOf(env, response)))
  {
    hide ToolCalls.Parsed, ToolCalls.Deduplicated, ResultText;
    PairedAppend(m, ChatMessage("assistant", response.content, response.toolCalls, None),
                 Answers(env, n, PendingOf(env, response)));
  }

  lemma BlockIsWellRoled(env: Environment, n: nat, m: seq<ChatMessage>, response: Response)
    requires WellRoled(m)
    ensures WellRoled(m + [ChatMessage("assistant", response.content, response.toolCalls, None)]
                        + Answers(env, n, PendingOf(env, response)))
  {
    hide ResultText, PendingOf;
  }

  /** The requests sent before any compaction cut behind a head with calls. */
  function CleanRequests(requests: seq<Sent>, severedAt: Option<nat>): nat {
    match severedAt case Some(at) => at case None => |requests|
  }

  /** What holds between iterations; only a forced compression can put a head with calls in place. */
  ghost predicate LoopSound(now: Moment, from: nat) {
    && now.messages != [] && WellRoled(now.messages) && from <= |now.requests|
    && RequestsBounded(now.requests, from)
    && RequestsPaired(now.requests, from, CleanRequests(now.requests, now.severedAt))
    && (now.severedAt.None? ==> Paired(now.messages))
    && (now.severedAt.Some? ==> SeveredIn(now.requests, from, now.severedAt.value))
    && (NoRetry(now.requests, from) ==> now.severedAt.None? && now.messages[0].toolCalls == [])
  }

  /** More requests do not change which one was the first behind a cut. */
  lemma SeveredStays(before: seq<Sent>, after: seq<Sent>, from: nat, at: nat)
    requires before <= after && SeveredIn(before, from, at)
    ensures SeveredIn(after, from, at) && at < |before|
  {
    assert after[..at] == before[..at];
  }

  lemma NoRetryBefore(before: seq<Sent>, after: seq<Sent>, from: nat)
    requires before <= after && from <= |before| && NoRetry(after, from)
    ensures NoRetry(before, from) && NoRetry(after, |before|)
  {
    forall i | from <= i < |before| && !before[i].corrective ensures !before[i].answer.ContextError? {
      assert after[i] == before[i];
    }
  }

  /** Bounds and pairing of the earlier requests and of the new ones are those of all. */
  lemma RequestsJoin(before: seq<Sent>, after: seq<Sent>, from: nat)
    requires before <= after && from <= |before|
    ensures RequestsBounded(before, from) && RequestsBounded(after, |before|) ==> RequestsBounded(after, from)
    ensures RequestsPaired(before, from, |before|) && RequestsPaired(after, |before|, |after|) ==>
              RequestsPaired(after, from, |after|)
  {
    hide Paired;
    assert forall i | 0 <= i < |before| :: after[i] == before[i];
  }

  lemma PairedStays(before: seq<Sent>, after: seq<Sent>, from: nat, to: nat)
    requires before <= after && to <= |before| && RequestsPaired(before, from, to)
    ensures RequestsPaired(after, from, to)
  {
    hide Paired;
    assert forall i | 0 <= i < |before| :: after[i] == before[i];
  }

  /** Compaction sends the transcript of the run so far on its way. */
  lemma PassStarts(env: Environment, world: World, o: Origin, now: Moment, promptTokens: Option<nat>)
    requires Accounts(env, world, o, now) && GoesOn(env, o, now.requests)
    requires promptTokens == TokensBehind(o, now.requests) && (OverTokens(promptTokens) ==> |now.messages| >= 2)
    ensures var m, summary := now.messages, world.text(now.calls);
            var n := now.calls + (if AsksForSummary(m, promptTokens) then 1 else 0);
            var first := Sent(Compacted(m, promptTokens, summary), false, n, world.chat(n));
            && IsRun(env, world, o, now.requests) && StartsIteration(env, world, o, now.requests, first)
            && now.appended == Appended(env, now.requests, o.sent)
            && Summaries(env, world, o, now.requests + [first])
               == now.summaries + (if CountsSummary(m, promptTokens, summary) then 1 else 0)
  {
    RunIsLong(env, world, o, now.requests);
    var n := now.calls + (if AsksForSummary(now.messages, promptTokens) then 1 else 0);
    OneMore(now.requests, Sent(Compacted(now.messages, promptTokens, world.text(now.calls)), false, n, world.chat(n)));
    hide Compacted, AsksForSummary, CountsSummary, Transcribed, TokensBehind;
  }

  /** What holds once an iteration behind `before` has its answer, which is not recorded yet. */
  ghost predicate Replied(env: Environment, world: World, o: Origin, before: seq<Sent>, now: Moment, answer: ChatAnswer) {
    && IsRun(env, world, o, now.requests) && o.sent <= |before| < |now.requests| && before <= now.requests
    && now.calls > 0 && Last(now.requests) == Sent(now.messages, false, now.calls - 1, answer)
    && answer == world.chat(now.calls - 1)
    && now.summaries == Summaries(env, world, o, now.requests)
    && now.appended + Size(env, answer) == Appended(env, now.requests, o.sent)
    && Iterations(now.requests, o.sent) == Iterations(before, o.sent) + (if answer.Answer? then 1 else 0)
    && (HadError(env, now.requests, o.sent) <==> HadError(env, before, o.sent) || HasFailure(env, Last(now.requests)))
    && (answer.ContextError? ==> Errors(now.requests, o.sent) == 1 + MAX_CONTEXT_RETRIES)
  }

  lemma RepliedBy(env: Environment, world: World, o: Origin, before: seq<Sent>, first: Sent, now: Moment, answer: ChatAnswer)
    requires OneIteration(env, world, o, before, first, now.requests) && now.calls > 0
    requires Last(now.requests) == Sent(now.messages, false, now.calls - 1, answer) && answer == world.chat(now.calls - 1)
    requires now.summaries == Summaries(env, world, o, before + [first]) && now.appended == Appended(env, before, o.sent)
    requires answer.ContextError? ==> |now.requests| - |before| == 1 + MAX_CONTEXT_RETRIES
    ensures Replied(env, world, o, before, now, answer)
  {
    hide IsRun, Summaries, Appended, Iterations, HadError, HasFailure, Errors, Size;
  }

  /** One compaction pass, then one request and as many forced compressions as retries. */
  ghost predicate IsPass(world: World, before: Moment, after: Moment, promptTokens: Option<nat>) {
    var m, summary := before.messages, world.text(before.calls);
    var firstCall := before.calls + (if AsksForSummary(m, promptTokens) then 1 else 0);
    && (OverTokens(promptTokens) ==> |m| >= 2) && firstCall < after.calls
    && after.messages == CompressedTimes(Compacted(m, promptTokens, summary), after.calls - 1 - firstCall)
    && after.appended == before.appended
    && after.summaries == before.summaries + (if CountsSummary(m, promptTokens, summary) then 1 else 0)
  }

  /** One to four calls were made, and the potential has not grown: a summary is paid for by appended messages. */
  ghost predicate IsPaidFor(before: Moment, after: Moment) {
    && before.calls < after.calls <= before.calls + 4
    && SUMMARY_GAIN * after.summaries + |after.messages| - after.appended
       <= SUMMARY_GAIN * before.summaries + |before.messages| - before.appended
  }

  /** What holds when an iteration starts. */
  ghost predicate IsReady(env: Environment, world: World, o: Origin, now: Moment, promptTokens: Option<nat>) {
    && LoopSound(now, o.sent) && Accounts(env, world, o, now) && GoesOn(env, o, now.requests)
    // the token trigger is armed only behind a recorded call and its answers
    && promptTokens == TokensBehind(o, now.requests) && (promptTokens.Some? ==> |now.messages| >= 3)
  }

  /** What holds when the model has answered in an iteration. */
  ghost predicate IsAsked(env: Environment, world: World, o: Origin, before: Moment, now: Moment, promptTokens: Option<nat>,
      answer: ChatAnswer) {
    && LoopSound(now, o.sent) && |now.messages| <= HARD_MAX_HISTORY && Extends(before, now)
    && IsPass(world, before, now, promptTokens) && IsPaidFor(before, now)
    && Replied(env, world, o, before.requests, now, answer)
  }

  /** Compaction and the request of one iteration: at most four provider calls. */
  method AskModel(env: Environment, provider: Provider, log: Log, promptTokens: Option<nat>, ghost o: Origin)
    returns (answer: ChatAnswer)
    requires IsReady(env, provider.world, o, Now(provider, log), promptTokens)
    modifies provider, log
    ensures IsAsked(env, provider.world, o, old(Now(provider, log)), Now(provider, log), promptTokens, answer)
  {
    hide Paired, WellRoled, Compacted, AsksForSummary, CountsSummary, RequestsBounded, RequestsPaired, NoRetry, SeveredIn,
         Severs, CompressedTimes, IsRun, StartsIteration, OneIteration, Accounts, Replied, LoopSound, GoesOn, TokensBehind,
         Summaries, Appended, OverTokens, Last;
    ghost var before := Now(provider, log);
    ReadyToAsk(before, o.sent, promptTokens, provider.world.text(provider.calls));
    PassStarts(env, provider.world, o, before, promptTokens);
    var asked := log.AutoCompactHistory(promptTokens, provider);
    ghost var first := NextRequest(provider, log.messages);
    answer := RequestWithRetries(provider, log, env, o);
    RepliedBy(env, provider.world, o, before.requests, first, Now(provider, log), answer);
    IterationIsSound(before, Now(provider, log), o.sent, promptTokens, provider.world.text(before.calls));
  }

  lemma ReadyToAsk(now: Moment, from: nat, promptTokens: Option<nat>, summary: Option<string>)
    requires LoopSound(now, from) && (promptTokens.Some? ==> |now.messages| >= 3)
    ensures now.messages != [] && (OverTokens(promptTokens) ==> |now.messages| >= 2)
    ensures var c := Compacted(now.messages, promptTokens, summary);
            1 <= |c| <= HARD_MAX_HISTORY && WellRoled(c)
  {
    CompactedBounds(now.messages, promptTokens, summary);
    RewritesKeepRoles(now.messages, promptTokens, summary);
  }

  /** Compaction and retries keep what holds between iterations. */
  lemma IterationIsSound(before: Moment, after: Moment, from: nat, promptTokens: Option<nat>, summary: Option<string>)
    requires LoopSound(before, from) && (OverTokens(promptTokens) ==> |before.messages| >= 2)
    requires after.severedAt == if before.severedAt.None? && Severs(before.messages, promptTokens, summary)
                                then Some(|before.requests|) else before.severedAt
    requires before.requests < after.requests && after.messages != [] && WellRoled(after.messages)
    requires forall i | |before.requests| <= i < |after.requests| :: !after.requests[i].corrective
    requires var c, sent := Compacted(before.messages, promptTokens, summary), |before.requests|;
             && after.requests[sent].messages == c && RequestsBounded(after.requests, sent)
             && (Paired(c) ==> Paired(after.messages) && RequestsPaired(after.requests, sent, |after.requests|))
             && (NoRetry(after.requests, sent) ==> after.messages == c)
    ensures LoopSound(after, from)
  {
    hide Paired, WellRoled, Compacted, RequestsBounded, RequestsPaired, NoRetry, SeveredIn, Severs;
    var m := before.messages;
    RequestsJoin(before.requests, after.requests, from);
    CompactedHead(m, promptTokens, summary);
    if NoRetry(after.requests, from) { NoRetryBefore(before.requests, after.requests, from); }
    if before.severedAt.Some? {
      SeveredStays(before.requests, after.requests, from, before.severedAt.value);
      PairedStays(before.requests, after.requests, from, before.severedAt.value);
    } else if after.severedAt.Some? {
      PairedStays(before.requests, after.requests, from, |before.requests|);
      SeversLosesPairing(m, promptTokens, summary);
      SeveredNow(before.requests, after.requests, from);
    } else {
      UnseveredKeepsPairing(m, promptTokens, summary);
    }
  }

  lemma CompactedHead(m: seq<ChatMessage>, promptTokens: Option<nat>, summary: Option<string>)
    requires m != [] && (OverTokens(promptTokens) ==> |m| >= 2)
    ensures Compacted(m, promptTokens, summary) != [] && Compacted(m, promptTokens, summary)[0] == m[0]
    ensures Severs(m, promptTokens, summary) ==> m[0].toolCalls != []
  {
  }

  lemma SeveredNow(before: seq<Sent>, after: seq<Sent>, from: nat)
    requires from <= |before| < |after| && before <= after && !NoRetry(before, from)
    requires !after[|before|].corrective && after[|before|].messages != [] && after[|before|].messages[0].toolCalls != []
    requires !Paired(after[|before|].messages) || |after[|before|].messages| == HARD_KEEP_RECENT + 1
    ensures SeveredIn(after, from, |before|)
  {
    assert after[..|before|] == before;
  }

  /** A reply and one answer for each of its calls, in call order, are recorded, and nothing else changes. */
  ghost predicate Recorded(env: Environment, asked: Moment, now: Moment, response: Response) {
    && now == asked.(messages := now.messages, appended := asked.appended + Size(env, Answer(response)))
    && asked.calls > 0
    && now.messages == asked.messages + [ChatMessage("assistant", response.content, response.toolCalls, None)]
                       + Answers(env, asked.calls - 1, PendingOf(env, response))
  }

  /** Records a reply and, if it asks for tools, the answers to its calls. */
  method Act(env: Environment, provider: Provider, log: Log, response: Response, ghost from: nat)
    returns (done: bool, hadError: bool)
    requires LoopSound(Now(provider, log), from) && Now(provider, log).calls > 0
    modifies log
    ensures LoopSound(Now(provider, log), from)
    ensures Recorded(env, old(Now(provider, log)), Now(provider, log), response)
    ensures done <==> PendingOf(env, response) == []
    ensures hadError <==> SomeCallFails(env, old(Now(provider, log)).calls - 1, PendingOf(env, response))
  {
    hide SomeCallFails, PendingOf, Paired, WellRoled, RequestsBounded, RequestsPaired, SeveredIn, NoRetry, ToolCalls.Parsed,
         ToolCalls.Deduplicated;
    var n := provider.calls - 1;
    ghost var before := log.messages;
    var pending := RecordReply(env, log, response);
    BlockIsWellRoled(env, n, before, response);
    if log.severedAt.None? {
      BlockIsPaired(env, n, before, response);
    }
    var answers, failed := ExecutePending(env, n, pending);
    PushAll(log, answers);
    done, hadError := pending == [], failed;
  }

  /** The reply of an answered run is corrected if the first look says so. */
  predicate Reflects(env: Environment, input: string, streaming: bool, o: Origin, requests: seq<Sent>)
    requires IsAnswered(env, o, requests)
  {
    !streaming && env.needsReflection(input, env.scrub(Last(requests).answer.response.content),
                                      HadError(env, requests, o.sent), IterationNumber(requests, o.sent))
  }

  /** The number of the last answered iteration, from 0. */
  function IterationNumber(requests: seq<Sent>, from: nat): nat {
    if Iterations(requests, from) == 0 then 0 else Iterations(requests, from) - 1
  }

  /** The reply of an answered run. */
  function ReplyOf(env: Environment, world: World, input: string, streaming: bool, o: Origin, requests: seq<Sent>): string
    requires IsAnswered(env, o, requests)
  {
    var candidate := env.scrub(Last(requests).answer.response.content);
    if Reflects(env, input, streaming, o, requests) then Reflected(env, world, candidate, CallsBehind(o, requests))
    else candidate
  }

  /** The calls of an answered run, with those of its reflection. */
  function CallsOf(env: Environment, world: World, input: string, streaming: bool, o: Origin, requests: seq<Sent>): nat
    requires IsAnswered(env, o, requests)
  {
    var n := CallsBehind(o, requests);
    if !Reflects(env, input, streaming, o, requests) then n else if Accepted(env, world, n) then n + 1 else n + 2
  }

  /** The requests of the loop: all but the corrective one that may follow. */
  function LoopPart(requests: seq<Sent>, from: nat): seq<Sent> {
    if |requests| > from && Last(requests).corrective then requests[..|requests| - 1] else requests
  }

  /** Why a run that is not answered ended. */
  function FailureOf(o: Origin, requests: seq<Sent>): string {
    if |requests| <= o.sent then "Exceeded maximum tool call iterations"
    else match Last(requests).answer
      case OtherError(reason) => reason
      case ContextError => "context window exceeded"
      case Answer(_) => "Exceeded maximum tool call iterations"
  }

  /**
   The run is over, with this result.  It succeeds exactly if its last reply asks for no tool, and
   fails at an error, behind two retries if it is a context error, or when the iterations are used up.
   */
  ghost predicate Concludes(env: Environment, world: World, o: Origin, requests: seq<Sent>, calls: nat,
      result: Result<string, string>, input: string, maxIter: nat, streaming: bool) {
    && Iterations(requests, o.sent) <= maxIter
    && (|requests| > o.sent && !Last(requests).answer.Answer? ==> Iterations(requests, o.sent) < maxIter)
    && (result.Ok? <==> IsAnswered(env, o, requests))
    && (result.Ok? ==> result.value == ReplyOf(env, world, input, streaming, o, requests)
                       && calls == CallsOf(env, world, input, streaming, o, requests))
    && (result.Err? ==> result.error == FailureOf(o, requests) && calls == CallsBehind(o, requests))
    && (GoesOn(env, o, requests) ==> Iterations(requests, o.sent) == maxIter)
    && (Errors(requests, o.sent) > 0 ==> Errors(requests, o.sent) == 3)
  }

  /** A concluded run is complete: only one more iteration could go on from it. */
  lemma NothingFollows(env: Environment, world: World, o: Origin, requests: seq<Sent>, r: Sent, calls: nat,
      result: Result<string, string>, input: string, maxIter: nat, streaming: bool)
    requires Concludes(env, world, o, requests, calls, result, input, maxIter, streaming)
    requires o.sent <= |requests| && IsRun(env, world, o, requests + [r])
    ensures result.Err? && Iterations(requests, o.sent) == maxIter && StartsIteration(env, world, o, requests, r)
  {
    OneMore(requests, r);
    assert Last(requests + [r]) == r;
    hide Transcribed, Iterations, Compacted, PendingOf, ReplyOf, CallsOf, FailureOf, HadError;
  }

  /** One corrective request was sent. */
  ghost predicate IsCorrected(before: seq<Sent>, after: seq<Sent>, messages: seq<ChatMessage>, input: string,
      candidate: string) {
    && |after| == |before| + 1 && before <= after && Last(after).corrective
    && IsCorrection(Last(after).messages, messages, input, candidate)
  }

  /** Behind a run a corrective request is sent exactly if its reply is reflected on and not accepted. */
  ghost predicate IsCorrectedRun(env: Environment, world: World, input: string, streaming: bool, o: Origin, loop: seq<Sent>,
      requests: seq<Sent>, messages: seq<ChatMessage>) {
    if IsAnswered(env, o, loop) && Reflects(env, input, streaming, o, loop) && !Accepted(env, world, CallsBehind(o, loop)) then
      IsCorrected(loop, requests, messages, input, env.scrub(Last(loop).answer.response.content))
    else requests == loop
  }

  /** What the reflection step, if it takes place, makes of a reply and a run. */
  ghost predicate IsFinished(env: Environment, world: World, before: Moment, now: Moment, input: string, content: string,
      reflect: bool, reply: string, from: nat) {
    && LoopSound(now, from) && now == before.(requests := now.requests, calls := now.calls)
    && reply == (if reflect then Reflected(env, world, content, before.calls) else content)
    && now.calls == before.calls + (if !reflect then 0 else if Accepted(env, world, before.calls) then 1 else 2)
    && if reflect && !Accepted(env, world, before.calls) then
         IsCorrected(before.requests, now.requests, before.messages, input, content)
       else now.requests == before.requests
  }

  /** The reflection step, if it takes place. */
  method Reflect(env: Environment, provider: Provider, log: Log, input: string, content: string, reflect: bool,
      ghost from: nat)
    returns (reply: string)
    requires LoopSound(Now(provider, log), from) && |Now(provider, log).messages| <= HARD_MAX_HISTORY + 1
    modifies provider
    ensures IsFinished(env, provider.world, old(Now(provider, log)), Now(provider, log), input, content, reflect, reply, from)
  {
    hide Paired, WellRoled, SeveredIn, Reflected, Accepted;
    ghost var before := provider.requests;
    reply := content;
    if reflect {
      reply := TieredReflect(env, provider, input, content, log.messages);
    }
    RequestsJoin(before, provider.requests, from);
    if NoRetry(provider.requests, from) { NoRetryBefore(before, provider.requests, from); }
    if log.severedAt.Some? {
      SeveredStays(before, provider.requests, from, log.severedAt.value);
      PairedStays(before, provider.requests, from, log.severedAt.value);
    }
  }

  /** The bounds that hold throughout the loop. */
  ghost predicate InBounds(o: Origin, now: Moment, iterations: nat) {
    && o.calls <= now.calls <= o.calls + 4 * iterations
    && SUMMARY_GAIN * now.summaries + |now.messages| <= |o.messages| + now.appended
  }

  /** What holds between iterations of the loop. */
  ghost predicate LoopInv(env: Environment, world: World, o: Origin, now: Moment, iteration: nat, promptTokens: Option<nat>,
      hadToolError: bool) {
    && IsReady(env, world, o, now, promptTokens) && InBounds(o, now, iteration)
    && Iterations(now.requests, o.sent) == iteration && Errors(now.requests, o.sent) == 0
    && (hadToolError <==> HadError(env, now.requests, o.sent))
  }

  lemma LoopBegins(env: Environment, world: World, o: Origin, requests: seq<Sent>)
    requires o.messages != [] && AllPlain(o.messages) && o.sent == |requests|
    ensures LoopInv(env, world, o, Moment(requests, o.calls, o.messages, 0, 0, None), 0, None, false)
  {
    AllPlainIsPaired(o.messages);
  }

  lemma LoopInvMeans(env: Environment, world: World, o: Origin, now: Moment, iteration: nat, promptTokens: Option<nat>,
      hadToolError: bool)
    requires LoopInv(env, world, o, now, iteration, promptTokens, hadToolError)
    ensures IsReady(env, world, o, now, promptTokens) && LoopSound(now, o.sent) && Accounts(env, world, o, now)
    ensures InBounds(o, now, iteration)
    ensures Iterations(now.requests, o.sent) == iteration && (hadToolError <==> HadError(env, now.requests, o.sent))
  {
    hide LoopSound, Accounts, GoesOn, TokensBehind, Iterations, Errors, HadError, InBounds;
  }

  /** With its reply recorded, an iteration is accounted for. */
  lemma ReplyAccounted(env: Environment, world: World, o: Origin, before: seq<Sent>, asked: Moment, now: Moment,
      response: Response)
    requires Replied(env, world, o, before, asked, Answer(response)) && Recorded(env, asked, now, response)
    ensures Accounts(env, world, o, now)
  {
    hide PendingOf, Answers, IsRun, Summaries, Appended, Iterations, HadError, HasFailure, Errors, Size;
    assert Last(now.requests) == Sent(asked.messages, false, asked.calls - 1, Answer(response));
  }

  /** How the last reply of a run decides how it goes on. */
  lemma ReplyDecides(env: Environment, world: World, o: Origin, before: seq<Sent>, asked: Moment, response: Response,
      hadError: bool)
    requires Replied(env, world, o, before, asked, Answer(response))
    requires hadError <==> SomeCallFails(env, asked.calls - 1, PendingOf(env, response))
    ensures var requests := asked.requests;
            && TokensBehind(o, requests) == response.promptTokens && Errors(requests, o.sent) == 0
            && Iterations(requests, o.sent) == Iterations(before, o.sent) + 1
            && (HadError(env, requests, o.sent) <==> HadError(env, before, o.sent) || hadError)
            && (GoesOn(env, o, requests) <==> PendingOf(env, response) != [])
            && (IsAnswered(env, o, requests) <==> PendingOf(env, response) == [])
  {
    hide PendingOf, Answers, SomeCallFails, IsRun, Summaries, Appended, Iterations, HadError, Size;
    assert Last(asked.requests).answer == Answer(response) && Last(asked.requests).call == asked.calls - 1;
  }

  lemma BoundsKept(env: Environment, o: Origin, before: Moment, asked: Moment, iteration: nat)
    requires InBounds(o, before, iteration) && IsPaidFor(before, asked)
    ensures InBounds(o, asked, iteration + 1) && o.calls < asked.calls
    ensures forall acted, response | Recorded(env, asked, acted, response) :: InBounds(o, acted, iteration + 1)
  {
    hide PendingOf;
  }

  lemma BoundsGrow(o: Origin, now: Moment, iterations: nat, maxIter: nat)
    requires InBounds(o, now, iterations) && iterations <= maxIter
    ensures InBounds(o, now, maxIter)
  {
  }

  lemma NoCallsNoFailure(env: Environment, n: nat, pending: seq<PendingCall>)
    requires pending == []
    ensures !SomeCallFails(env, n, pending)
  {
  }

  lemma FinishedMeans(env: Environment, world: World, before: Moment, now: Moment, input: string, content: string,
      reflect: bool, reply: string, from: nat)
    requires IsFinished(env, world, before, now, input, content, reflect, reply, from)
    ensures LoopSound(now, from) && now == before.(requests := now.requests, calls := now.calls)
    ensures reply == if reflect then Reflected(env, world, content, before.calls) else content
    ensures now.calls == before.calls + (if !reflect then 0 else if Accepted(env, world, before.calls) then 1 else 2)
    ensures if reflect && !Accepted(env, world, before.calls) then
              IsCorrected(before.requests, now.requests, before.messages, input, content)
            else now.requests == before.requests
    ensures Extends(before, now)
  {
    hide LoopSound, Reflected, Accepted, IsCorrection;
  }

  lemma AskedMeans(env: Environment, world: World, o: Origin, before: Moment, now: Moment, promptTokens: Option<nat>,
      answer: ChatAnswer)
    requires IsAsked(env, world, o, before, now, promptTokens, answer)
    ensures LoopSound(now, o.sent) && |now.messages| <= HARD_MAX_HISTORY && Extends(before, now)
    ensures IsPaidFor(before, now) && Replied(env, world, o, before.requests, now, answer) && now.calls > 0
  {
    hide LoopSound, IsPass;
  }

  lemma RecordedMeans(env: Environment, asked: Moment, now: Moment, response: Response)
    requires Recorded(env, asked, now, response)
    ensures now.requests == asked.requests && now.calls == asked.calls && |now.messages| == |asked.messages| + 1 + |PendingOf(env, response)|
    ensures Extends(asked, now)
  {
  }

  lemma SoundHasMessages(now: Moment, from: nat)
    requires LoopSound(now, from)
    ensures now.messages != []
  {
  }

  lemma InvHolds(env: Environment, world: World, o: Origin, now: Moment, iteration: nat, promptTokens: Option<nat>,
      hadToolError: bool)
    requires LoopSound(now, o.sent) && Accounts(env, world, o, now) && GoesOn(env, o, now.requests)
    requires promptTokens == TokensBehind(o, now.requests) && |now.messages| >= 3 && InBounds(o, now, iteration)
    requires Iterations(now.requests, o.sent) == iteration && Errors(now.requests, o.sent) == 0
    requires hadToolError <==> HadError(env, now.requests, o.sent)
    ensures LoopInv(env, world, o, now, iteration, promptTokens, hadToolError)
  {
  }

  /** An iteration that asks for tools leads to the next one. */
  lemma LoopGoesOn(env: Environment, world: World, o: Origin, before: Moment, asked: Moment, acted: Moment, iteration: nat,
      promptTokens: Option<nat>, hadToolError: bool, response: Response, hadError: bool)
    requires LoopInv(env, world, o, before, iteration, promptTokens, hadToolError)
    requires IsAsked(env, world, o, before, asked, promptTokens, Answer(response))
    requires Recorded(env, asked, acted, response) && LoopSound(acted, o.sent) && PendingOf(env, response) != []
    requires hadError <==> SomeCallFails(env, asked.calls - 1, PendingOf(env, response))
    ensures LoopInv(env, world, o, acted, iteration + 1, response.promptTokens, hadToolError || hadError)
    ensures Extends(before, acted)
  {
    hide *;
    LoopInvMeans(env, world, o, before, iteration, promptTokens, hadToolError);
    AskedMeans(env, world, o, before, asked, promptTokens, Answer(response));
    BoundsKept(env, o, before, asked, iteration);
    SoundHasMessages(asked, o.sent);
    RecordedMeans(env, asked, acted, response);
    ReplyAccounted(env, world, o, before.requests, asked, acted, response);
    ReplyDecides(env, world, o, before.requests, asked, response, hadError);
    ExtendsFurther(before, asked, acted);
    InvHolds(env, world, o, acted, iteration + 1, response.promptTokens, hadToolError || hadError);
  }

  /** What the loop promises of the moment at which it returns. */
  ghost predicate IsOutcome(env: Environment, world: World, o: Origin, end: Moment, result: Result<string, string>,
      input: string, maxIter: nat, streaming: bool) {
    // the requests are those of a run; transcript, counters, calls and result are what they say
    && var loop := LoopPart(end.requests, o.sent);
    && Accounts(env, world, o, end.(requests := loop, calls := CallsBehind(o, loop)))
    && Concludes(env, world, o, loop, end.calls, result, input, maxIter, streaming)
    && IsCorrectedRun(env, world, input, streaming, o, loop, end.requests, end.messages)
    // nothing unscrubbed is returned
    && (result.Ok? ==> IsScrubbed(env, world, result.value, o.calls, end.calls))
    // cost: four provider calls an iteration, and two for the reflection
    && end.calls <= o.calls + 4 * maxIter + 2
    // an amortised bound on the summaries that the message count triggers
    && SUMMARY_GAIN * end.summaries + |end.messages| <= |o.messages| + end.appended
    // requests: size, and pairing of calls with results up to the first cut behind a head with calls
    && RequestsBounded(end.requests, o.sent)
    && RequestsPaired(end.requests, o.sent, CleanRequests(end.requests, end.severedAt))
    && (end.severedAt.Some? ==> SeveredIn(end.requests, o.sent, end.severedAt.value))
    && (NoRetry(end.requests, o.sent) ==> end.severedAt.None?)
  }

  lemma LastIsLoopRequest(env: Environment, world: World, o: Origin, requests: seq<Sent>)
    requires IsRun(env, world, o, requests)
    ensures LoopPart(requests, o.sent) == requests
  {
  }

  /** A run that ends without a reply. */
  lemma FailureIsOutcome(env: Environment, world: World, o: Origin, now: Moment, reason: string, input: string,
      maxIter: nat, streaming: bool)
    requires LoopSound(now, o.sent) && Accounts(env, world, o, now) && InBounds(o, now, maxIter)
    requires Concludes(env, world, o, now.requests, now.calls, Err(reason), input, maxIter, streaming)
    ensures IsOutcome(env, world, o, now, Err(reason), input, maxIter, streaming)
  {
    LastIsLoopRequest(env, world, o, now.requests);
    hide IsRun, Concludes, RequestsBounded, RequestsPaired, SeveredIn, NoRetry, Transcribed, Appended, Summaries, Paired,
         WellRoled, LoopPart;
  }

  /** A failed answer ends the run. */
  lemma FailureConcludes(env: Environment, world: World, o: Origin, before: seq<Sent>, now: Moment, answer: ChatAnswer,
      input: string, maxIter: nat, streaming: bool)
    requires Replied(env, world, o, before, now, answer) && !answer.Answer? && Iterations(before, o.sent) < maxIter
    ensures Accounts(env, world, o, now)
    ensures Concludes(env, world, o, now.requests, now.calls,
                      Err(if answer.OtherError? then answer.reason else "context window exceeded"), input, maxIter, streaming)
  {
    hide PendingOf, Answers, IsRun, Summaries, Appended, Iterations, HadError, HasFailure;
    assert Last(now.requests) == Sent(now.messages, false, now.calls - 1, answer);
  }

  /** An iteration whose answer is an error ends the loop. */
  lemma ErrorEnds(env: Environment, world: World, o: Origin, before: Moment, asked: Moment, iteration: nat,
      promptTokens: Option<nat>, hadToolError: bool, answer: ChatAnswer, reason: string, input: string, maxIter: nat,
      streaming: bool)
    requires LoopInv(env, world, o, before, iteration, promptTokens, hadToolError) && iteration < maxIter
    requires IsAsked(env, world, o, before, asked, promptTokens, answer) && !answer.Answer?
    requires reason == if answer.OtherError? then answer.reason else "context window exceeded"
    ensures IsOutcome(env, world, o, asked, Err(reason), input, maxIter, streaming) && Extends(before, asked)
  {
    hide *;
    LoopInvMeans(env, world, o, before, iteration, promptTokens, hadToolError);
    AskedMeans(env, world, o, before, asked, promptTokens, answer);
    BoundsKept(env, o, before, asked, iteration);
    BoundsGrow(o, asked, iteration + 1, maxIter);
    FailureConcludes(env, world, o, before.requests, asked, answer, input, maxIter, streaming);
    FailureIsOutcome(env, world, o, asked, reason, input, maxIter, streaming);
  }

  /** A run that has used up its iterations ends. */
  lemma UsedUp(env: Environment, world: World, o: Origin, now: Moment, promptTokens: Option<nat>, hadToolError: bool,
      input: string, maxIter: nat, streaming: bool)
    requires LoopInv(env, world, o, now, maxIter, promptTokens, hadToolError)
    ensures Concludes(env, world, o, now.requests, now.calls, Err("Exceeded maximum tool call iterations"), input, maxIter,
                      streaming)
  {
    hide LoopSound, PendingOf, Answers, IsRun, Summaries, Appended, Iterations, HadError, HasFailure, Errors;
  }

  lemma UsedUpEnds(env: Environment, world: World, o: Origin, now: Moment, promptTokens: Option<nat>, hadToolError: bool,
      input: string, maxIter: nat, streaming: bool)
    requires LoopInv(env, world, o, now, maxIter, promptTokens, hadToolError)
    ensures IsOutcome(env, world, o, now, Err("Exceeded maximum tool call iterations"), input, maxIter, streaming)
  {
    hide *;
    LoopInvMeans(env, world, o, now, maxIter, promptTokens, hadToolError);
    UsedUp(env, world, o, now, promptTokens, hadToolError, input, maxIter, streaming);
    FailureIsOutcome(env, world, o, now, "Exceeded maximum tool call iterations", input, maxIter, streaming);
  }

  /** An answered run ends with its reply. */
  lemma ReplyConcludes(env: Environment, world: World, o: Origin, requests: seq<Sent>, calls: nat, candidate: string,
      reflect: bool, reply: string, input: string, maxIter: nat, streaming: bool)
    requires IsAnswered(env, o, requests) && candidate == env.scrub(Last(requests).answer.response.content)
    requires 0 < Iterations(requests, o.sent) <= maxIter
    requires reflect == (!streaming && env.needsReflection(input, candidate, HadError(env, requests, o.sent),
                                                           Iterations(requests, o.sent) - 1))
    requires var n := CallsBehind(o, requests);
             && reply == (if reflect then Reflected(env, world, candidate, n) else candidate)
             && calls == n + (if !reflect then 0 else if Accepted(env, world, n) then 1 else 2)
    ensures Concludes(env, world, o, requests, calls, Ok(reply), input, maxIter, streaming)
  {
    hide PendingOf, Iterations, HadError, Reflected, Accepted;
  }

  /** The reply is an answer of this run. */
  lemma ReplyIsScrubbed(env: Environment, world: World, n: nat, from: nat, candidate: string, reflect: bool, reply: string,
      calls: nat)
    requires from < n && world.chat(n - 1).Answer? && candidate == env.scrub(world.chat(n - 1).response.content)
    requires reply == (if reflect then Reflected(env, world, candidate, n) else candidate)
    requires calls == n + (if !reflect then 0 else if Accepted(env, world, n) then 1 else 2)
    ensures IsScrubbed(env, world, reply, from, calls)
  {
    if reply != candidate {
      assert world.chat(n + 1).Answer? && reply == env.scrub(world.chat(n + 1).response.content);
    }
  }

  /** The moment at which an answered run returns. */
  lemma ReplyIsOutcome(env: Environment, world: World, o: Origin, acted: Moment, end: Moment, reply: string, input: string,
      maxIter: nat, streaming: bool)
    requires Accounts(env, world, o, acted) && InBounds(o, acted, maxIter) && LoopSound(end, o.sent)
    requires end == acted.(requests := end.requests, calls := end.calls) && end.calls <= acted.calls + 2
    requires IsCorrectedRun(env, world, input, streaming, o, acted.requests, end.requests, end.messages)
    requires Concludes(env, world, o, acted.requests, end.calls, Ok(reply), input, maxIter, streaming)
    requires IsScrubbed(env, world, reply, o.calls, end.calls)
    ensures IsOutcome(env, world, o, end, Ok(reply), input, maxIter, streaming)
  {
    LastIsLoopRequest(env, world, o, acted.requests);
    RunIsLong(env, world, o, acted.requests);
    assert acted.requests != end.requests ==> end.requests[..|end.requests| - 1] == acted.requests;
    hide IsCorrection, IsAnswered, Reflects, Accepted, Last;
    hide IsRun, Concludes, IsScrubbed, RequestsBounded, RequestsPaired, SeveredIn, NoRetry, Transcribed, Appended, Summaries,
         Paired, WellRoled;
  }

  lemma ReplyIsCorrected(env: Environment, world: World, input: string, streaming: bool, o: Origin, loop: seq<Sent>,
      requests: seq<Sent>, messages: seq<ChatMessage>, candidate: string, reflect: bool)
    requires IsAnswered(env, o, loop) && candidate == env.scrub(Last(loop).answer.response.content)
    requires 0 < Iterations(loop, o.sent)
    requires reflect == (!streaming && env.needsReflection(input, candidate, HadError(env, loop, o.sent),
                                                           Iterations(loop, o.sent) - 1))
    requires if reflect && !Accepted(env, world, CallsBehind(o, loop)) then IsCorrected(loop, requests, messages, input, candidate)
             else requests == loop
    ensures IsCorrectedRun(env, world, input, streaming, o, loop, requests, messages)
  {
    hide IsCorrected, Accepted, HadError, Iterations, PendingOf;
  }

  /** An iteration whose reply asks for no tool ends the loop, behind `Reflect`. */
  lemma ReplyEnds(env: Environment, world: World, o: Origin, before: Moment, asked: Moment, acted: Moment, end: Moment,
      iteration: nat, promptTokens: Option<nat>, hadToolError: bool, response: Response, reflect: bool, reply: string,
      input: string, maxIter: nat, streaming: bool)
    requires LoopInv(env, world, o, before, iteration, promptTokens, hadToolError) && iteration < maxIter
    requires IsAsked(env, world, o, before, asked, promptTokens, Answer(response))
    requires Recorded(env, asked, acted, response) && PendingOf(env, response) == []
    requires reflect == (!streaming && env.needsReflection(input, env.scrub(response.content), hadToolError, iteration))
    requires IsFinished(env, world, acted, end, input, env.scrub(response.content), reflect, reply, o.sent)
    ensures IsOutcome(env, world, o, end, Ok(reply), input, maxIter, streaming) && Extends(before, end)
  {
    hide *;
    var candidate := env.scrub(response.content);
    LoopInvMeans(env, world, o, before, iteration, promptTokens, hadToolError);
    AskedMeans(env, world, o, before, asked, promptTokens, Answer(response));
    BoundsKept(env, o, before, asked, iteration);
    BoundsGrow(o, acted, iteration + 1, maxIter);
    RecordedMeans(env, asked, acted, response);
    FinishedMeans(env, world, acted, end, input, candidate, reflect, reply, o.sent);
    NoCallsNoFailure(env, asked.calls - 1, PendingOf(env, response));
    ExtendsFurther(before, asked, acted);
    ExtendsFurther(before, acted, end);
    ReplyAccounted(env, world, o, before.requests, asked, acted, response);
    ReplyDecides(env, world, o, before.requests, asked, response, false);
    RepliedMeans(env, world, o, before.requests, asked, response);
    ReplyConcludes(env, world, o, acted.requests, end.calls, candidate, reflect, reply, input, maxIter, streaming);
    ReplyIsScrubbed(env, world, acted.calls, o.calls, candidate, reflect, reply, end.calls);
    ReplyIsCorrected(env, world, input, streaming, o, acted.requests, end.requests, end.messages, candidate, reflect);
    ReplyIsOutcome(env, world, o, acted, end, reply, input, maxIter, streaming);
  }

  /** The reply of a turn without pending calls: scrubbed, and possibly corrected. */
  method Finish(env: Environment, provider: Provider, log: Log, response: Response, input: string, hadToolError: bool,
      iteration: nat, streaming: bool, ghost maxIter: nat, ghost o: Origin, ghost before: Moment, ghost asked: Moment,
      ghost promptTokens: Option<nat>)
    returns (reply: string)
    requires LoopInv(env, provider.world, o, before, iteration, promptTokens, hadToolError) && iteration < maxIter
    requires IsAsked(env, provider.world, o, before, asked, promptTokens, Answer(response))
    requires Recorded(env, asked, Now(provider, log), response) && PendingOf(env, response) == []
    requires LoopSound(Now(provider, log), o.sent)
    modifies provider
    ensures IsOutcome(env, provider.world, o, Now(provider, log), Ok(reply), input, maxIter, streaming)
    ensures Extends(before, Now(provider, log))
  {
    hide *;
    ghost var acted := Now(provider, log);
    AskedMeans(env, provider.world, o, before, asked, promptTokens, Answer(response));
    RecordedMeans(env, asked, acted, response);
    var candidate := env.scrub(response.content);
    var reflect := !streaming && env.needsReflection(input, candidate, hadToolError, iteration);
    reply := Reflect(env, provider, log, input, candidate, reflect, o.sent);
    ReplyEnds(env, provider.world, o, before, asked, acted, Now(provider, log), iteration, promptTokens, hadToolError,
              response, reflect, reply, input, maxIter, streaming);
  }

  lemma RepliedMeans(env: Environment, world: World, o: Origin, before: seq<Sent>, asked: Moment, response: Response)
    requires Replied(env, world, o, before, asked, Answer(response))
    ensures asked.requests != [] && Last(asked.requests).answer == Answer(response)
    ensures asked.calls > 0 && world.chat(asked.calls - 1) == Answer(response)
    ensures CallsBehind(o, asked.requests) == asked.calls
  {
  }

  /** The whole loop over one user message, for every provider and every set of tools. */
  method ToolLoop(env: Environment, provider: Provider, log: Log, input: string, maxIter: nat, streaming: bool)
    returns (result: Result<string, string>)
    requires log.messages != [] && AllPlain(log.messages)
    requires log.countSummaries == 0 && log.appended == 0 && log.severedAt.None?
    modifies provider, log
    ensures old(provider.requests) <= provider.requests
    ensures IsOutcome(env, provider.world, Origin(old(log.messages), old(provider.calls), |old(provider.requests)|),
                      Now(provider, log), result, input, maxIter, streaming)
  {
    hide *;
    ghost var o, start := Origin(log.messages, provider.calls, |provider.requests|), Now(provider, log);
    LoopBegins(env, provider.world, o, provider.requests);
    NowMeans(provider, log);
    ExtendsItself(start);
    var hadToolError := false;
    var lastPromptTokens: Option<nat> := None;
    for iteration := 0 to maxIter
      invariant LoopInv(env, provider.world, o, Now(provider, log), iteration, lastPromptTokens, hadToolError)
      invariant Extends(start, Now(provider, log))
    {
      ghost var before := Now(provider, log);
      LoopInvMeans(env, provider.world, o, before, iteration, lastPromptTokens, hadToolError);
      var answer;
      answer := AskModel(env, provider, log, lastPromptTokens, o);
      ghost var asked := Now(provider, log);
      if !answer.Answer? {
        var reason := if answer.OtherError? then answer.reason else "context window exceeded";
        ErrorEnds(env, provider.world, o, before, asked, iteration, lastPromptTokens, hadToolError, answer, reason, input,
                  maxIter, streaming);
        ExtendsFurther(start, before, asked);
        AtEnd(provider, log, start);
        return Err(reason);
      }
      var response := answer.response;
      ghost var tokens := lastPromptTokens;
      lastPromptTokens := response.promptTokens;
      AskedMeans(env, provider.world, o, before, asked, tokens, answer);
      var done, hadError := Act(env, provider, log, response, o.sent);
      ghost var acted := Now(provider, log);
      if done {
        var reply := Finish(env, provider, log, response, input, hadToolError, iteration, streaming, maxIter, o, before,
                            asked, tokens);
        ExtendsFurther(start, before, Now(provider, log));
        AtEnd(provider, log, start);
        return Ok(reply);
      }
      LoopGoesOn(env, provider.world, o, before, asked, acted, iteration, tokens, hadToolError, response, hadError);
      ExtendsFurther(start, before, acted);
      hadToolError := hadToolError || hadError;
    }
    UsedUpEnds(env, provider.world, o, Now(provider, log), lastPromptTokens, hadToolError, input, maxIter, streaming);
    AtEnd(provider, log, start);
    return Err("Exceeded maximum tool call iterations");
  }

  lemma AtEnd(provider: Provider, log: Log, start: Moment)
    requires Extends(start, Now(provider, log))
    ensures start.requests <= provider.requests
  {
  }

  lemma NowMeans(provider: Provider, log: Log)
    ensures Now(provider, log) == Moment(provider.requests, provider.calls, log.messages, log.appended, log.countSummaries,
                                         log.severedAt)
  {
  }

  lemma AllPlainIsPaired(m: seq<ChatMessage>)
    requires AllPlain(m)
    ensures Paired(m) && WellRoled(m)
  {
  }

  /**
   The transcript after one iteration, as `AskModel` and `Act` leave it: a compaction pass, a
   forced compression for each retry, the reply, and the answers to its calls.
   */
  function Iterated(env: Environment, m: seq<ChatMessage>, promptTokens: Option<nat>, summary: Option<string>,
      retries: nat, n: nat, response: Response): seq<ChatMessage>
    requires OverTokens(promptTokens) ==> |m| >= 2
  {
    CompressedTimes(Compacted(m, promptTokens, summary), retries)
    + [ChatMessage("assistant", response.content, response.toolCalls, None)]
    + Answers(env, n, PendingOf(env, response))
  }

  /** The rounds of the example run are iterations of the loop, with and without a retry. */
  lemma RoundsAreIterations(env: Environment, m: seq<ChatMessage>, retries: nat, n: nat, response: Response)
    requires env.knownTool("echo") && env.tool(n, 0) == Succeeded("1") && env.tool(n, 1) == Succeeded("2")
    requires response == Response("", EchoRound()[0].toolCalls, None)
    ensures Iterated(env, m, None, None, retries, n, response)
         == CompressedTimes(Compacted(m, None, None), retries) + EchoRound()
  {
    var pending := PendingOf(env, response);
    assert Answers(env, n, pending) == [ToolResultMessage("a", "1"), ToolResultMessage("b", "2")];
    assert EchoRound() == [EchoRound()[0]] + Answers(env, n, pending);
  }

  // ---- the engine across turns ----

  /** What the model sees of the history. */
  function Visible(history: seq<MessageEntry>): (m: seq<ChatMessage>)
    ensures AllPlain(m) && |m| <= |history|
  {
    if history == [] then []
    else
      var e := history[0];
      (if e.hidden then [] else [NewMessage(e.role, e.content)]) + Visible(history[1..])
  }

  /** `m` are the entries at these positions, in order, with role and content. */
  predicate IsShownFrom(history: seq<MessageEntry>, m: seq<ChatMessage>, at: seq<nat>) {
    && |at| == |m| && (forall k | 0 <= k < |at| :: at[k] < |history|)
    && (forall k, l | 0 <= k < l < |at| :: at[k] < at[l])
    && (forall k | 0 <= k < |at| :: m[k].role == history[at[k]].role && m[k].content == history[at[k]].content)
  }

  /** Exactly the entries that are not hidden are shown, in order. */
  ghost predicate Shows(history: seq<MessageEntry>, m: seq<ChatMessage>) {
    exists at :: IsShownFrom(history, m, at) && forall i | 0 <= i < |history| :: i in at <==> !history[i].hidden
  }

  function Moved(rest: seq<nat>): (moved: seq<nat>)
    ensures |moved| == |rest| && forall k | 0 <= k < |rest| :: moved[k] == rest[k] + 1
  {
    seq(|rest|, k requires 0 <= k < |rest| => rest[k] + 1)
  }

  lemma MovedHas(rest: seq<nat>, i: nat)
    ensures i in Moved(rest) <==> i > 0 && i - 1 in rest
  {
    if i > 0 && i - 1 in rest {
      var k :| 0 <= k < |rest| && rest[k] == i - 1;
      assert Moved(rest)[k] == i;
    }
  }

  lemma ShownBehind(first: MessageEntry, others: seq<MessageEntry>, m: seq<ChatMessage>, rest: seq<nat>)
    requires IsShownFrom(others, m, rest)
    ensures IsShownFrom([first] + others, m, Moved(rest))
  {
    var history, at := [first] + others, Moved(rest);
    forall k | 0 <= k < |at|
      ensures at[k] < |history| && m[k].role == history[at[k]].role && m[k].content == history[at[k]].content
    {
      assert history[rest[k] + 1] == others[rest[k]];
    }
  }

  lemma ShownInFront(first: MessageEntry, history: seq<MessageEntry>, m: seq<ChatMessage>, rest: seq<nat>)
    requires history != [] && history[0] == first && IsShownFrom(history, m, rest) && forall k | 0 <= k < |rest| :: rest[k] > 0
    ensures IsShownFrom(history, [NewMessage(first.role, first.content)] + m, [0] + rest)
  {
    var shown, at := [NewMessage(first.role, first.content)] + m, [0] + rest;
    forall k | 0 <= k < |at|
      ensures at[k] < |history| && shown[k].role == history[at[k]].role && shown[k].content == history[at[k]].content
    {
      if k > 0 { assert at[k] == rest[k - 1] && shown[k] == m[k - 1]; }
    }
    forall k, l | 0 <= k < l < |at| ensures at[k] < at[l] {
      assert at[l] == rest[l - 1];
      if k > 0 { assert at[k] == rest[k - 1]; }
    }
  }

  lemma {:induction false} VisiblePositions(history: seq<MessageEntry>) returns (at: seq<nat>)
    ensures IsShownFrom(history, Visible(history), at) && forall i | 0 <= i < |history| :: i in at <==> !history[i].hidden
  {
    if history == [] {
      at := [];
    } else {
      var rest := VisiblePositions(history[1..]);
      hide IsShownFrom;
      assert history == [history[0]] + history[1..];
      ShownBehind(history[0], history[1..], Visible(history[1..]), rest);
      ShownInFront(history[0], history, Visible(history[1..]), Moved(rest));
      at := if history[0].hidden then Moved(rest) else [0] + Moved(rest);
      assert history[0].hidden ==> [] + Visible(history[1..]) == Visible(history[1..]);
      forall i | 0 <= i < |history| ensures i in at <==> !history[i].hidden {
        MovedHas(rest, i);
        if i > 0 { assert history[i] == history[1..][i - 1]; }
      }
    }
  }

  /** The model sees exactly the entries that are not hidden, in order, with their roles and contents. */
  lemma VisibleShows(history: seq<MessageEntry>)
    ensures Shows(history, Visible(history))
  {
    hide IsShownFrom, Visible;
    var at := VisiblePositions(history);
  }

  /** Behind a switch, everything shown comes from entries of the new topic that were not hidden before. */
  lemma SwitchShowsTopic(history: seq<MessageEntry>, topic: string)
    ensures forall k | 0 <= k < |Visible(Pruned(history, topic))| ::
              ComesFromTopic(history, topic, Visible(Pruned(history, topic))[k])
  {
    var at := VisiblePositions(Pruned(history, topic));
    hide Visible;
    var m := Visible(Pruned(history, topic));
    forall k | 0 <= k < |m| ensures ComesFromTopic(history, topic, m[k]) {
      assert at[k] in at && !Pruned(history, topic)[at[k]].hidden;
      assert history[at[k]].topicId == topic;
    }
  }

  predicate ComesFromTopic(history: seq<MessageEntry>, topic: string, m: ChatMessage) {
    exists i | 0 <= i < |history| ::
      history[i].topicId == topic && !history[i].hidden && m.role == history[i].role && m.content == history[i].content
  }

  /** The transcript a loop starts from. */
  lemma OpeningTranscript(history: seq<MessageEntry>, input: string)
    ensures var m := Visible(history) + [NewMessage("user", input)];
            && AllPlain(m) && m[|m| - 1] == ChatMessage("user", input, [], None)
            && m[..|m| - 1] == Visible(history) && Shows(history, m[..|m| - 1])
  {
    VisibleShows(history);
    hide Visible, Shows;
    var m := Visible(history) + [NewMessage("user", input)];
    assert m[..|m| - 1] == Visible(history);
  }

  lemma OutcomeMeans(env: Environment, world: World, o: Origin, end: Moment, result: Result<string, string>, input: string,
      maxIter: nat, streaming: bool)
    requires IsOutcome(env, world, o, end, result, input, maxIter, streaming)
    ensures var loop := LoopPart(end.requests, o.sent);
            && IsRun(env, world, o, loop) && Concludes(env, world, o, loop, end.calls, result, input, maxIter, streaming)
            && SUMMARY_GAIN * Summaries(env, world, o, loop) + |Transcribed(env, o, loop)|
               <= |o.messages| + Appended(env, loop, o.sent)
            && IsCorrectedRun(env, world, input, streaming, o, loop, end.requests, Transcribed(env, o, loop))
    ensures result.Ok? ==> IsScrubbed(env, world, result.value, o.calls, end.calls)
    ensures end.calls <= o.calls + 4 * maxIter + 2 && RequestsBounded(end.requests, o.sent)
    ensures RequestsPaired(end.requests, o.sent, match end.severedAt case Some(at) => at case None => |end.requests|)
    ensures end.severedAt.Some? ==> SeveredIn(end.requests, o.sent, end.severedAt.value)
    ensures NoRetry(end.requests, o.sent) ==> end.severedAt.None?
  {
    hide IsRun, Concludes, IsScrubbed, RequestsBounded, RequestsPaired, SeveredIn, NoRetry, LoopPart, Transcribed, Summaries,
         Appended, IsCorrectedRun;
  }

  lemma ScrubbedSince(env: Environment, world: World, reply: string, from: nat, earlier: nat, calls: nat)
    requires IsScrubbed(env, world, reply, from, calls) && earlier <= from
    ensures IsScrubbed(env, world, reply, earlier, calls)
  {
  }

  /** What a turn adds to the history. */
  lemma TurnRecorded(s: EngineState, decision: Decision, input: string, reply: Option<string>, kept: seq<MessageEntry>,
      current: string)
    requires kept == if decision.Switch? then Pruned(s.history, decision.topic) else s.history
    requires current == if decision.Stay? then s.current else decision.topic
    ensures var asked := kept + [MessageEntry("user", input, current, false)];
            AfterTurn(s, Turn(decision, input, reply)) == EngineState(
              if reply.None? then asked else asked + [MessageEntry("assistant", reply.value, current, false)], current)
  {
  }

  lemma TenByDefault()
    ensures DEFAULT_MAX_ITERATIONS == 10
  {
  }

  class AgentEngine {
    const topics: TopicManager
    var history: seq<MessageEntry>

    constructor (topics: TopicManager, restored: seq<MessageEntry>)
      ensures this.topics == topics && history == restored
    {
      this.topics := topics;
      history := restored;
    }

    ghost function State(): EngineState
      reads this, topics
    {
      EngineState(history, topics.currentTopicId)
    }

    twostate lemma StateIs()
      ensures State() == EngineState(history, topics.currentTopicId)
      ensures old(State()) == EngineState(old(history), old(topics.currentTopicId))
    {
    }

    method PushHistory(entry: MessageEntry)
      modifies this`history
      ensures history == old(history) + [entry]
    {
      history := history + [entry];
    }

    /** Hides, in place, every entry of another topic. */
    method PruneHistoryForTopicSwitch(topic: string)
      modifies this`history
      ensures history == Pruned(old(history), topic)
    {
      for i := 0 to |history|
        invariant |history| == |old(history)|
        invariant forall j | 0 <= j < i :: history[j] == Pruned(old(history), topic)[j]
        invariant forall j | i <= j < |history| :: history[j] == old(history)[j]
      {
        if history[i].topicId != topic {
          history := history[i := history[i].(hidden := true)];
        }
      }
    }

    /** Keyword check, topic check, and the model's opinion on a drifting message. */
    method DecideScope(env: Environment, provider: Provider, input: string, freshId: string)
      returns (scope: RecallScope, ghost decision: Decision)
      requires |topics.recentMessages| <= 5
      modifies this`history, topics, provider
      // the message joins the last five, except behind a clean keyword; no topic is labelled
      ensures var all := old(topics.recentMessages) + (if env.cleanKeyword(input) then [] else [input]);
              topics.recentMessages == if |all| <= 5 then all else all[|all| - 5..]
      ensures topics.knownTopics == old(topics.knownTopics)
      // a clean keyword asks neither the topic check nor the model
      ensures env.cleanKeyword(input) ==> scope.Clean? && decision.Stay? && provider.calls == old(provider.calls)
      // otherwise the overlap decides, and on a drift the model's opinion
      ensures !env.cleanKeyword(input) ==>
                var drifts := topics.Drifts(input, SAME_TOPIC_THRESHOLD);
                var switches := topics.Drifts(input, RELATED_TOPIC_THRESHOLD);
                var opinion := provider.world.text(old(provider.calls));
                var clean := drifts && opinion.Some? && env.saysYes(opinion.value);
                && provider.calls == old(provider.calls) + (if drifts then 1 else 0)
                && (decision.Stay? <==> !switches) && (decision.CleanSwitch? <==> switches && clean)
                && (!decision.Stay? ==> topics.IsReuse(decision.topic, WordsOf(topics.words, topics.recentMessages), freshId))
                && scope == (if clean then Clean else if switches then CurrentTopic(decision.topic)
                             else if drifts then FactsOnly else Full)
      // and the state is what the decision says
      ensures provider.requests == old(provider.requests)
      ensures history == if decision.Switch? then Pruned(old(history), decision.topic) else old(history)
      ensures topics.currentTopicId == if decision.Stay? then old(topics.currentTopicId) else decision.topic
    {
      hide *;
      if env.cleanKeyword(input) {
        assert topics.recentMessages + [] == topics.recentMessages;
        return Clean, Stay;
      }
      var switch := topics.CheckAndSwitch(input, freshId);
      RecallScopes(topics.currentTopicId);
      var driftWithCleanIntent := false;
      if !switch.SameTopic? {
        var opinion := provider.ChatWithSystem();
        driftWithCleanIntent := opinion.Some? && env.saysYes(opinion.value);
      }
      if driftWithCleanIntent {
        return Clean, if switch.Switched? then CleanSwitch(switch.newTopicId) else Stay;
      }
      if switch.Switched? {
        PruneHistoryForTopicSwitch(switch.newTopicId);
      }
      return ToRecallScope(switch), if switch.Switched? then Switch(switch.newTopicId) else Stay;
    }

    /** The topic decision, and the transcript of the turn: what is visible, behind it the input, which is recorded. */
    method OpenTurn(env: Environment, provider: Provider, input: string, freshId: string)
      returns (log: Log, scope: RecallScope, ghost decision: Decision)
      requires |topics.recentMessages| <= 5
      modifies this`history, topics, provider
      ensures |topics.recentMessages| <= 5 && topics.knownTopics == old(topics.knownTopics)
      ensures scope.CurrentTopic? <==> decision.Switch?
      ensures decision.Switch? ==> scope == CurrentTopic(decision.topic)
      ensures old(provider.calls) <= provider.calls <= old(provider.calls) + 1 && provider.requests == old(provider.requests)
      ensures topics.currentTopicId == if decision.Stay? then old(topics.currentTopicId) else decision.topic
      ensures var kept := if decision.Switch? then Pruned(old(history), decision.topic) else old(history);
              && history == kept + [MessageEntry("user", input, topics.currentTopicId, false)]
              && fresh(log) && log.messages != [] && Shows(kept, log.messages[..|log.messages| - 1])
      ensures log.messages[|log.messages| - 1] == ChatMessage("user", input, [], None) && AllPlain(log.messages)
      ensures log.countSummaries == 0 && log.appended == 0 && log.severedAt.None?
      ensures decision.Switch? ==> forall k | 0 <= k < |log.messages| - 1 ::
                ComesFromTopic(old(history), decision.topic, log.messages[k])
    {
      hide *;
      scope, decision := DecideScope(env, provider, input, freshId);
      OpeningTranscript(history, input);
      if decision.Switch? { SwitchShowsTopic(old(history), decision.topic); }
      log := new Log(Visible(history) + [NewMessage("user", input)]);
      PushHistory(MessageEntry("user", input, topics.currentTopicId, false));
    }

    /** One turn, for every provider, every set of tools and every topic answer. */
    method RunToolLoop(env: Environment, provider: Provider, input: string, maxIterations: Option<nat>,
        streaming: bool, freshId: string)
      returns (result: Result<string, string>, scope: RecallScope, ghost turn: Turn, ghost origin: Origin,
               ghost severedAt: Option<nat>)
      requires |topics.recentMessages| <= 5
      modifies this`history, topics, provider
      ensures |topics.recentMessages| <= 5 && topics.knownTopics == old(topics.knownTopics)
      // the history changes by exactly one block
      ensures State() == AfterTurn(old(State()), turn) && turn.input == input
      ensures turn.reply == match result case Ok(reply) => Some(reply) case Err(_) => None
      ensures scope.CurrentTopic? <==> turn.decision.Switch?
      ensures turn.decision.Switch? ==> scope == CurrentTopic(turn.decision.topic)
      // the loop starts from what is visible, behind at most one call, and runs to this result
      ensures origin.messages != []
      ensures origin.messages[|origin.messages| - 1] == ChatMessage("user", input, [], None)
      ensures Shows(if turn.decision.Switch? then Pruned(old(history), turn.decision.topic) else old(history),
                    origin.messages[..|origin.messages| - 1])
      ensures turn.decision.Switch? ==> forall k | 0 <= k < |origin.messages| - 1 ::
                ComesFromTopic(old(history), turn.decision.topic, origin.messages[k])
      ensures origin.sent == |old(provider.requests)| && old(provider.calls) <= origin.calls <= old(provider.calls) + 1
      ensures var maxIter := if maxIterations.Some? then maxIterations.value else 10;
              var loop := LoopPart(provider.requests, origin.sent);
              && IsRun(env, provider.world, origin, loop)
              && Concludes(env, provider.world, origin, loop, provider.calls, result, input, maxIter, streaming)
              && SUMMARY_GAIN * Summaries(env, provider.world, origin, loop) + |Transcribed(env, origin, loop)|
                 <= |origin.messages| + Appended(env, loop, origin.sent)
              && IsCorrectedRun(env, provider.world, input, streaming, origin, loop, provider.requests,
                                Transcribed(env, origin, loop))
      ensures result.Ok? ==> IsScrubbed(env, provider.world, result.value, old(provider.calls), provider.calls)
      // cost and requests
      ensures var maxIter := if maxIterations.Some? then maxIterations.value else 10;
              provider.calls <= old(provider.calls) + 4 * maxIter + 3
      ensures old(provider.requests) <= provider.requests
      ensures RequestsBounded(provider.requests, |old(provider.requests)|)
      // calls are followed by their results in every request before the first cut behind a head with calls
      ensures RequestsPaired(provider.requests, |old(provider.requests)|,
                             match severedAt case Some(at) => at case None => |provider.requests|)
      ensures severedAt.Some? ==> SeveredIn(provider.requests, |old(provider.requests)|, severedAt.value)
      // without a retry in this turn there is no such cut
      ensures NoRetry(provider.requests, |old(provider.requests)|) ==> severedAt.None?
    {
      hide *;
      StateIs();
      TenByDefault();
      var maxIter := if maxIterations.Some? then maxIterations.value else DEFAULT_MAX_ITERATIONS;
      ghost var decision;
      var log;
      log, scope, decision := OpenTurn(env, provider, input, freshId);
      var currentTopic := topics.currentTopicId;
      ghost var kept := if decision.Switch? then Pruned(old(history), decision.topic) else old(history);
      origin := Origin(log.messages, provider.calls, |provider.requests|);
      result := ToolLoop(env, provider, log, input, maxIter, streaming);
      NowMeans(provider, log);
      OutcomeMeans(env, provider.world, origin, Now(provider, log), result, input, maxIter, streaming);
      if result.Ok? { ScrubbedSince(env, provider.world, result.value, origin.calls, old(provider.calls), provider.calls); }
      severedAt := log.severedAt;
      match result {
        case Ok(reply) =>
          PushHistory(MessageEntry("assistant", reply, currentTopic, false));
          turn := Turn(decision, input, Some(reply));
        case Err(_) =>
          turn := Turn(decision, input, None);
      }
      TurnRecorded(old(State()), decision, input, turn.reply, kept, currentTopic);
      StateIs();
    }
  }
}
