/**
 The dispatch loop as a state machine: messages are received one by one, accepted ones run as
 tasks of their own, and tasks of one session take turns through the lock of its engine.
 Steps of different tasks may be interleaved in any way.
 */
module Dispatch {
  import opened Wrappers
  import opened Text

  datatype Content = TextContent | ImageContent | OtherContent

  datatype Message = Message(
    id: nat, channel: string, session: string, content: Content, streamId: Option<string>,
    originChannel: Option<string>, originSession: Option<string>)

  /** What the loop decides about a received message; estop, limiter and registry answer freely. */
  datatype Verdict = Forward | DropSystem | Kill | Limit | Unsupported | NoAgent | Accept(agent: string)

  predicate Allowed(msg: Message, verdict: Verdict) {
    if msg.channel == "system" then verdict == (if msg.content.TextContent? then Forward else DropSystem)
    else match verdict
      case Forward => false
      case DropSystem => false
      case Kill => true
      case Limit => true
      case Unsupported => msg.content.OtherContent?
      case NoAgent => !msg.content.OtherContent?
      case Accept(_) => !msg.content.OtherContent?
  }

  /** An engine belongs to one session of one agent. */
  datatype EngineKey = EngineKey(agent: string, session: string)

  datatype Entry = Restored(content: string) | User(task: nat) | Assistant(task: nat)

  datatype Engine = Engine(history: seq<Entry>, holder: Option<nat>)

  datatype Phase =
    | Dropped
    | Spawned            // accepted, not yet past the freeze check
    | Waiting            // waiting for the engine lock
    | Locked             // lock held, nothing recorded yet
    | Asked              // user entry recorded
    | Resulted(ok: bool) // turn over, lock still held
    | Released(ok: bool) // lock given back, reply due
    | Finished

  /** `emitted` are the text deltas of a streamed turn, of which `sent` have been passed on. */
  datatype Task = Task(msg: Message, accepted: bool, engine: EngineKey, phase: Phase, emitted: seq<string>, sent: nat)

  datatype Notice = Forwarded | Rejected | Frozen | Answered | ErrorNotice

  datatype Output =
    | Outbound(of: nat, notice: Notice, channel: string, session: string, replyTo: Option<nat>)
    | StreamDelta(of: nat, streamId: string, text: string)
    | StreamEnd(of: nat, streamId: string, ok: bool)

  datatype State = State(tasks: seq<Task>, engines: map<EngineKey, Engine>, outputs: seq<Output>)

  const INITIAL := State([], map[], [])

  datatype Label =
    | Receive(msg: Message, verdict: Verdict)
    | Freeze(t: nat)
    | Enter(t: nat)
    | Acquire(t: nat)
    | Ask(t: nat)
    | Emit(t: nat, text: string)
    | PassOn(t: nat)
    | Succeed(t: nat)
    | Fail(t: nat)
    | Release(t: nat)
    | Reply(t: nat)

  // ---- addresses ----

  const SEPARATOR: char := '\U{001E}'

  /** A result sent on the system channel goes back to the conversation that asked for it. */
  function OriginChannel(msg: Message): string {
    if msg.originChannel.Some? then msg.originChannel.value else Split(msg.session, SEPARATOR)[0]
  }

  function OriginSession(msg: Message): string {
    if msg.originSession.Some? then msg.originSession.value
    else
      var parts := Split(msg.session, SEPARATOR);
      if |parts| > 1 then parts[1] else "default"
  }

  /** Without metadata the session text tells the conversation, up to a second separator. */
  lemma OriginIsEncoded(msg: Message, channel: string, session: string, more: string)
    requires SEPARATOR !in channel && SEPARATOR !in session && msg.originChannel.None? && msg.originSession.None?
    ensures msg.session == channel + [SEPARATOR] + session ==>
              OriginChannel(msg) == channel && OriginSession(msg) == session
    ensures msg.session == channel + [SEPARATOR] + (session + [SEPARATOR] + more) ==>
              OriginChannel(msg) == channel && OriginSession(msg) == session
    ensures msg.session == channel ==> OriginChannel(msg) == channel && OriginSession(msg) == "default"
  {
    SplitFirst(channel, SEPARATOR, session);
    SplitFirst(channel, SEPARATOR, session + [SEPARATOR] + more);
    SplitFirst(session, SEPARATOR, more);
    SplitNothing(session, SEPARATOR);
    SplitNothing(channel, SEPARATOR);
  }

  /** Metadata, where given, decides. */
  lemma OriginIsGiven(msg: Message)
    ensures msg.originChannel.Some? ==> OriginChannel(msg) == msg.originChannel.value
    ensures msg.originSession.Some? ==> OriginSession(msg) == msg.originSession.value
  {
  }

  function OwnReply(t: nat, msg: Message, notice: Notice): Output {
    Outbound(t, notice, msg.channel, msg.session, Some(msg.id))
  }

  function SystemReply(t: nat, msg: Message): Output {
    Outbound(t, Forwarded, OriginChannel(msg), OriginSession(msg), None)
  }

  function TerminalOf(t: nat, task: Task, ok: bool): Output {
    if task.msg.streamId.Some? then StreamEnd(t, task.msg.streamId.value, ok)
    else OwnReply(t, task.msg, if ok then Answered else ErrorNotice)
  }

  // ---- steps ----

  predicate HoldsLock(p: Phase) {
    p.Locked? || p.Asked? || p.Resulted?
  }

  predicate At(s: State, t: nat, phase: Phase) {
    t < |s.tasks| && s.tasks[t].phase == phase
  }

  predicate Enabled(s: State, l: Label) {
    match l
    case Receive(msg, verdict) => Allowed(msg, verdict)
    case Freeze(t) => At(s, t, Spawned)
    case Enter(t) => At(s, t, Spawned)
    case Acquire(t) => At(s, t, Waiting) && s.tasks[t].engine in s.engines && s.engines[s.tasks[t].engine].holder.None?
    case Ask(t) => At(s, t, Locked) && s.tasks[t].engine in s.engines
    case Emit(t, _) => At(s, t, Asked) && s.tasks[t].msg.streamId.Some?
    case PassOn(t) => t < |s.tasks| && s.tasks[t].sent < |s.tasks[t].emitted| && s.tasks[t].msg.streamId.Some?
    case Succeed(t) => At(s, t, Asked) && s.tasks[t].engine in s.engines
    case Fail(t) => At(s, t, Asked)
    case Release(t) => t < |s.tasks| && s.tasks[t].phase.Resulted? && s.tasks[t].engine in s.engines
    case Reply(t) => t < |s.tasks| && s.tasks[t].phase.Released? && s.tasks[t].sent >= |s.tasks[t].emitted|
  }

  function WithPhase(s: State, t: nat, phase: Phase): State
    requires t < |s.tasks|
  {
    s.(tasks := s.tasks[t := s.tasks[t].(phase := phase)])
  }

  function WithEngine(s: State, k: EngineKey, e: Engine): State {
    s.(engines := s.engines[k := e])
  }

  function Record(s: State, k: EngineKey, entry: Entry): State
    requires k in s.engines
  {
    WithEngine(s, k, s.engines[k].(history := s.engines[k].history + [entry]))
  }

  function Send(s: State, o: Output): State {
    s.(outputs := s.outputs + [o])
  }

  /** `restored` is the stored history an engine starts from when it is first created. */
  function Step(restored: EngineKey -> seq<string>, s: State, l: Label): State
    requires Enabled(s, l)
  {
    match l
    case Receive(msg, verdict) => Received(restored, s, msg, verdict)
    case Freeze(t) => Send(WithPhase(s, t, Finished), OwnReply(t, s.tasks[t].msg, Frozen))
    case Enter(t) => WithPhase(s, t, Waiting)
    case Acquire(t) =>
      var k := s.tasks[t].engine;
      WithEngine(WithPhase(s, t, Locked), k, s.engines[k].(holder := Some(t)))
    case Ask(t) => Record(WithPhase(s, t, Asked), s.tasks[t].engine, User(t))
    case Emit(t, text) => s.(tasks := s.tasks[t := s.tasks[t].(emitted := s.tasks[t].emitted + [text])])
    case PassOn(t) =>
      var task := s.tasks[t];
      Send(s.(tasks := s.tasks[t := task.(sent := task.sent + 1)]),
           StreamDelta(t, task.msg.streamId.value, task.emitted[task.sent]))
    case Succeed(t) => Record(WithPhase(s, t, Resulted(true)), s.tasks[t].engine, Assistant(t))
    case Fail(t) => WithPhase(s, t, Resulted(false))
    case Release(t) =>
      var k := s.tasks[t].engine;
      WithEngine(WithPhase(s, t, Released(s.tasks[t].phase.ok)), k, s.engines[k].(holder := None))
    case Reply(t) => Send(WithPhase(s, t, Finished), TerminalOf(t, s.tasks[t], s.tasks[t].phase.ok))
  }

  function RestoredEntries(texts: seq<string>): (h: seq<Entry>)
    ensures |h| == |texts| && forall i | 0 <= i < |h| :: h[i] == Restored(texts[i])
  {
    seq(|texts|, i requires 0 <= i < |texts| => Restored(texts[i]))
  }

  function Received(restored: EngineKey -> seq<string>, s: State, msg: Message, verdict: Verdict): State {
    var t := |s.tasks|;
    match verdict
    case Accept(agent) =>
      var k := EngineKey(agent, msg.session);
      var s1 := s.(tasks := s.tasks + [Task(msg, true, k, Spawned, [], 0)]);
      if k in s.engines then s1 else WithEngine(s1, k, Engine(RestoredEntries(restored(k)), None))
    case _ =>
      var answered := verdict.Forward? || verdict.Kill? || verdict.Limit?;
      var s1 := s.(tasks := s.tasks + [Task(msg, false, EngineKey("", ""), if answered then Finished else Dropped, [], 0)]);
      if answered then Send(s1, if verdict.Forward? then SystemReply(t, msg) else OwnReply(t, msg, Rejected)) else s1
  }

  ghost predicate ValidRun(restored: EngineKey -> seq<string>, s: State, labels: seq<Label>)
    decreases |labels|
  {
    labels == [] || (Enabled(s, labels[0]) && ValidRun(restored, Step(restored, s, labels[0]), labels[1..]))
  }

  function Run(restored: EngineKey -> seq<string>, s: State, labels: seq<Label>): State
    requires ValidRun(restored, s, labels)
    decreases |labels|
  {
    if labels == [] then s else Run(restored, Step(restored, s, labels[0]), labels[1..])
  }

  // ---- the lock ----

  predicate HasEngine(p: Phase) {
    !p.Dropped? && !p.Finished?
  }

  /** A task holds its engine's lock exactly while its turn is under way. */
  ghost predicate LockInv(s: State) {
    && (forall t | 0 <= t < |s.tasks| && HasEngine(s.tasks[t].phase) :: s.tasks[t].engine in s.engines)
    && (forall t | 0 <= t < |s.tasks| && HoldsLock(s.tasks[t].phase) :: s.engines[s.tasks[t].engine].holder == Some(t))
    && (forall k | k in s.engines && s.engines[k].holder.Some? ::
          var t := s.engines[k].holder.value;
          t < |s.tasks| && s.tasks[t].engine == k && HoldsLock(s.tasks[t].phase))
  }

  /** The lock depends only on where tasks stand and who holds which engine. */
  predicate SameLocks(s: State, s': State) {
    && |s.tasks| == |s'.tasks| && s.engines.Keys == s'.engines.Keys
    && (forall t | 0 <= t < |s.tasks| ::
          && s.tasks[t].engine == s'.tasks[t].engine
          && HoldsLock(s.tasks[t].phase) == HoldsLock(s'.tasks[t].phase)
          && (HasEngine(s'.tasks[t].phase) ==> HasEngine(s.tasks[t].phase)))
    && (forall k | k in s.engines :: s.engines[k].holder == s'.engines[k].holder)
  }

  lemma SameLocksKeep(s: State, s': State)
    requires LockInv(s) && SameLocks(s, s')
    ensures LockInv(s')
  {
  }

  lemma ReceivedKeepsLocks(restored: EngineKey -> seq<string>, s: State, msg: Message, verdict: Verdict)
    requires LockInv(s)
    ensures LockInv(Received(restored, s, msg, verdict))
  {
    hide OriginChannel, OriginSession, RestoredEntries;
  }

  lemma HandOverKeepsLocks(restored: EngineKey -> seq<string>, s: State, l: Label)
    requires LockInv(s) && Enabled(s, l) && (l.Acquire? || l.Release?)
    ensures LockInv(Step(restored, s, l))
  {
  }

  lemma LockInvKept(restored: EngineKey -> seq<string>, s: State, l: Label)
    requires LockInv(s) && Enabled(s, l)
    ensures LockInv(Step(restored, s, l))
  {
    match l
    case Receive(msg, verdict) => ReceivedKeepsLocks(restored, s, msg, verdict);
    case Acquire(_) => HandOverKeepsLocks(restored, s, l);
    case Release(_) => HandOverKeepsLocks(restored, s, l);
    case _ =>
      hide LockInv;
      SameLocksKeep(s, Step(restored, s, l));
  }

  // ---- the histories ----

  predicate Recorded(p: Phase) {
    p.Asked? || p.Resulted? || p.Released? || p.Finished?
  }

  /** From `n` on, the history is a chain of blocks `[user]` or `[user, assistant]`, each of one task. */
  predicate InBlocks(h: seq<Entry>, n: nat) {
    && (forall i | n <= i < |h| :: !h[i].Restored?)
    && (forall i | n <= i < |h| && h[i].Assistant? :: i > n && h[i - 1] == User(h[i].task))
    && (forall i, j | n <= i < j < |h| && h[i].User? && h[j].User? :: h[i].task != h[j].task)
  }

  /** The block of task `t` is there, and it holds a reply exactly if `ok`. */
  predicate HasBlock(h: seq<Entry>, t: nat, ok: bool) {
    exists i | 0 <= i < |h| :: h[i] == User(t) && ok == Replied(h, i, t)
  }

  predicate Replied(h: seq<Entry>, i: int, t: nat) {
    0 <= i && i + 1 < |h| && h[i + 1] == Assistant(t)
  }

  predicate Mentions(h: seq<Entry>, t: nat) {
    User(t) in h || Assistant(t) in h
  }

  ghost predicate HistoryOk(restored: EngineKey -> seq<string>, tasks: seq<Task>, k: EngineKey, h: seq<Entry>) {
    var n := |restored(k)|;
    && n <= |h| && h[..n] == RestoredEntries(restored(k)) && InBlocks(h, n)
    && (forall i | n <= i < |h| ::
          h[i].task < |tasks| && tasks[h[i].task].engine == k && Recorded(tasks[h[i].task].phase))
    && (forall i | n <= i < |h| && h[i].Assistant? :: !tasks[h[i].task].phase.Asked?)
  }

  ghost predicate TaskRecorded(s: State, t: nat)
    requires t < |s.tasks|
  {
    var task := s.tasks[t];
    HasEngine(task.phase) && task.engine in s.engines ==>
      var h := s.engines[task.engine].history;
      match task.phase
      case Asked => h != [] && h[|h| - 1] == User(t)
      case Resulted(ok) => HasBlock(h, t, ok)
      case Released(ok) => HasBlock(h, t, ok)
      case _ => true
  }

  ghost predicate HistoryInv(restored: EngineKey -> seq<string>, s: State) {
    && (forall k | k in s.engines :: HistoryOk(restored, s.tasks, k, s.engines[k].history))
    && (forall t | 0 <= t < |s.tasks| :: TaskRecorded(s, t))
  }

  /** Steps that touch no history and only move tasks on. */
  ghost predicate SameHistories(s: State, s': State) {
    && |s.tasks| == |s'.tasks| && s.engines.Keys == s'.engines.Keys
    && (forall k | k in s.engines :: s.engines[k].history == s'.engines[k].history)
    && (forall t | 0 <= t < |s.tasks| ::
          && s.tasks[t].engine == s'.tasks[t].engine
          && (Recorded(s.tasks[t].phase) ==> Recorded(s'.tasks[t].phase))
          && (s'.tasks[t].phase.Asked? ==> s.tasks[t].phase.Asked?))
  }

  /** A history stays sound while its tasks move on and none of them starts over. */
  lemma TasksMoveOn(restored: EngineKey -> seq<string>, tasks: seq<Task>, tasks': seq<Task>, k: EngineKey, h: seq<Entry>)
    requires HistoryOk(restored, tasks, k, h) && |tasks| == |tasks'|
    requires forall t | 0 <= t < |tasks| ::
               && tasks[t].engine == tasks'[t].engine
               && (Recorded(tasks[t].phase) ==> Recorded(tasks'[t].phase))
               && (tasks[t].engine == k && tasks'[t].phase.Asked? ==> tasks[t].phase.Asked?)
    ensures HistoryOk(restored, tasks', k, h)
  {
    hide Recorded, RestoredEntries;
    var n := |restored(k)|;
    forall i | n <= i < |h|
      ensures tasks'[h[i].task].engine == k && Recorded(tasks'[h[i].task].phase)
      ensures h[i].Assistant? ==> !tasks'[h[i].task].phase.Asked?
    {
      assert tasks[h[i].task].engine == k;
    }
  }

  lemma SameHistoriesKeep(restored: EngineKey -> seq<string>, s: State, s': State)
    requires HistoryInv(restored, s) && SameHistories(s, s')
    requires forall t | 0 <= t < |s'.tasks| :: TaskRecorded(s', t)
    ensures HistoryInv(restored, s')
  {
    hide TaskRecorded, HistoryOk, Recorded;
    forall k | k in s'.engines ensures HistoryOk(restored, s'.tasks, k, s'.engines[k].history) {
      assert s'.engines[k].history == s.engines[k].history;
      TasksMoveOn(restored, s.tasks, s'.tasks, k, s.engines[k].history);
    }
  }

  lemma QuietStepKeepsHistories(restored: EngineKey -> seq<string>, s: State, l: Label)
    requires HistoryInv(restored, s) && Enabled(s, l)
    requires !l.Receive? && !l.Ask? && !l.Succeed?
    ensures HistoryInv(restored, Step(restored, s, l))
  {
    hide HistoryOk, OwnReply, TerminalOf;
    var s' := Step(restored, s, l);
    assert forall t | 0 <= t < |s.tasks| :: TaskRecorded(s, t);
    forall t | 0 <= t < |s'.tasks| ensures TaskRecorded(s', t) {
      assert TaskRecorded(s, t);
      if l == Fail(t) && s.tasks[t].engine in s.engines {
        var h := s.engines[s.tasks[t].engine].history;
        assert h[|h| - 1] == User(t) && !Replied(h, |h| - 1, t);
      }
    }
    assert SameHistories(s, s');
    SameHistoriesKeep(restored, s, s');
  }

  /** A block is not affected by what another task appends. */
  lemma BlockStable(h: seq<Entry>, e: Entry, t: nat, ok: bool)
    requires HasBlock(h, t, ok) && e != Assistant(t)
    ensures HasBlock(h + [e], t, ok)
  {
    var i :| 0 <= i < |h| && h[i] == User(t) && ok == Replied(h, i, t);
    var g := h + [e];
    assert g[i] == User(t) && (i + 1 < |h| ==> g[i + 1] == h[i + 1]) && (i + 1 == |h| ==> g[i + 1] == e);
    assert Replied(g, i, t) == Replied(h, i, t);
  }

  /** A new request may follow any history of complete blocks. */
  lemma RequestInBlocks(h: seq<Entry>, n: nat, t: nat)
    requires n <= |h| && InBlocks(h, n) && forall i | n <= i < |h| :: h[i].task != t
    ensures InBlocks(h + [User(t)], n)
  {
  }

  /** A reply may follow the request of its own task. */
  lemma ReplyInBlocks(h: seq<Entry>, n: nat, t: nat)
    requires n < |h| && InBlocks(h, n) && h[|h| - 1] == User(t)
    ensures InBlocks(h + [Assistant(t)], n)
  {
  }

  lemma AskKeepsHistory(restored: EngineKey -> seq<string>, s: State, t: nat)
    requires HistoryInv(restored, s) && Enabled(s, Ask(t))
    ensures var s' := Step(restored, s, Ask(t));
            var k := s.tasks[t].engine;
            HistoryOk(restored, s'.tasks, k, s'.engines[k].history)
  {
    var k := s.tasks[t].engine;
    var h := s.engines[k].history;
    assert HistoryOk(restored, s.tasks, k, h);
    var n := |restored(k)|;
    RequestInBlocks(h, n, t);
    hide HistoryInv, InBlocks, RestoredEntries;
    assert (h + [User(t)])[..n] == h[..n];
  }

  lemma SucceedKeepsHistory(restored: EngineKey -> seq<string>, s: State, t: nat)
    requires HistoryInv(restored, s) && Enabled(s, Succeed(t))
    ensures var s' := Step(restored, s, Succeed(t));
            var k := s.tasks[t].engine;
            HistoryOk(restored, s'.tasks, k, s'.engines[k].history)
  {
    var k := s.tasks[t].engine;
    var h := s.engines[k].history;
    assert HistoryOk(restored, s.tasks, k, h) && TaskRecorded(s, t);
    var n := |restored(k)|;
    assert forall i | 0 <= i < n :: h[i] == h[..n][i] && h[i].Restored?;
    ReplyInBlocks(h, n, t);
    hide HistoryInv, InBlocks, RestoredEntries;
    assert (h + [Assistant(t)])[..n] == h[..n];
  }

  /** While one task records, no other task of that engine is in the middle of its turn. */
  lemma RecordingStepKeepsTasks(restored: EngineKey -> seq<string>, s: State, l: Label, u: nat)
    requires LockInv(s) && HistoryInv(restored, s) && Enabled(s, l) && (l.Ask? || l.Succeed?)
    requires u < |s.tasks|
    ensures TaskRecorded(Step(restored, s, l), u)
  {
    hide HistoryOk;
    var s' := Step(restored, s, l);
    var t := l.t;
    var k := s.tasks[t].engine;
    var h := s.engines[k].history;
    var e := if l.Ask? then User(t) else Assistant(t);
    assert TaskRecorded(s, u) && TaskRecorded(s, t);
    if u == t {
      if l.Succeed? {
        assert (h + [e])[|h| - 1] == User(t) && Replied(h + [e], |h| - 1, t);
      }
    } else if s.tasks[u].engine == k && s.tasks[u].phase.Released? {
      BlockStable(h, e, u, s.tasks[u].phase.ok);
    }
  }

  lemma RecordingStepKeepsHistories(restored: EngineKey -> seq<string>, s: State, l: Label)
    requires LockInv(s) && HistoryInv(restored, s) && Enabled(s, l) && (l.Ask? || l.Succeed?)
    ensures HistoryInv(restored, Step(restored, s, l))
  {
    var s' := Step(restored, s, l);
    forall u | 0 <= u < |s'.tasks| ensures TaskRecorded(s', u) {
      RecordingStepKeepsTasks(restored, s, l, u);
    }
    hide TaskRecorded, HistoryOk;
    if l.Ask? { AskKeepsHistory(restored, s, l.t); } else { SucceedKeepsHistory(restored, s, l.t); }
    forall k | k in s'.engines ensures HistoryOk(restored, s'.tasks, k, s'.engines[k].history) {
      if k != s.tasks[l.t].engine {
        TasksMoveOn(restored, s.tasks, s'.tasks, k, s.engines[k].history);
      }
    }
  }

  /** A new task leaves what is known of the older ones. */
  lemma MoreTasks(restored: EngineKey -> seq<string>, tasks: seq<Task>, more: Task, k: EngineKey, h: seq<Entry>)
    requires HistoryOk(restored, tasks, k, h)
    ensures HistoryOk(restored, tasks + [more], k, h)
  {
    hide InBlocks;
  }

  lemma FreshHistory(restored: EngineKey -> seq<string>, tasks: seq<Task>, k: EngineKey)
    ensures HistoryOk(restored, tasks, k, RestoredEntries(restored(k)))
  {
    FreshInBlocks(restored(k));
    hide InBlocks;
  }

  lemma ReceiveKeepsHistories(restored: EngineKey -> seq<string>, s: State, msg: Message, verdict: Verdict)
    requires LockInv(s) && HistoryInv(restored, s)
    ensures HistoryInv(restored, Received(restored, s, msg, verdict))
  {
    hide OriginChannel, OriginSession, HistoryOk, HasBlock, RestoredEntries;
    var s' := Received(restored, s, msg, verdict);
    var more := s'.tasks[|s.tasks|];
    assert s'.tasks == s.tasks + [more];
    forall k | k in s'.engines ensures HistoryOk(restored, s'.tasks, k, s'.engines[k].history) {
      if k in s.engines {
        MoreTasks(restored, s.tasks, more, k, s.engines[k].history);
      } else {
        FreshHistory(restored, s'.tasks, k);
      }
    }
    forall t | 0 <= t < |s'.tasks| ensures TaskRecorded(s', t) {
      if t < |s.tasks| {
        assert TaskRecorded(s, t);
      }
    }
  }

  lemma FreshInBlocks(texts: seq<string>)
    ensures InBlocks(RestoredEntries(texts), |texts|)
    ensures RestoredEntries(texts)[..|texts|] == RestoredEntries(texts)
  {
  }

  lemma HistoryInvKept(restored: EngineKey -> seq<string>, s: State, l: Label)
    requires LockInv(s) && HistoryInv(restored, s) && Enabled(s, l)
    ensures HistoryInv(restored, Step(restored, s, l))
  {
    hide LockInv, HistoryInv;
    match l
    case Receive(msg, verdict) => ReceiveKeepsHistories(restored, s, msg, verdict);
    case Ask(_) => RecordingStepKeepsHistories(restored, s, l);
    case Succeed(_) => RecordingStepKeepsHistories(restored, s, l);
    case _ => QuietStepKeepsHistories(restored, s, l);
  }

  // ---- the replies ----

  predicate IsTerminal(o: Output) {
    !o.StreamDelta?
  }

  /** Number of terminal replies to message `t`. */
  function Terminals(outputs: seq<Output>, t: nat): nat {
    if outputs == [] then 0
    else
      var n := |outputs| - 1;
      Terminals(outputs[..n], t) + (if outputs[n].of == t && IsTerminal(outputs[n]) then 1 else 0)
  }

  /** The text streamed for message `t`, piece by piece. */
  function Streamed(outputs: seq<Output>, t: nat): seq<string> {
    if outputs == [] then []
    else
      var n := |outputs| - 1;
      Streamed(outputs[..n], t) + (if outputs[n].of == t && outputs[n].StreamDelta? then [outputs[n].text] else [])
  }

  lemma OutputSnoc(outputs: seq<Output>, o: Output, t: nat)
    ensures Terminals(outputs + [o], t) == Terminals(outputs, t) + (if o.of == t && IsTerminal(o) then 1 else 0)
    ensures Streamed(outputs + [o], t) == Streamed(outputs, t) + (if o.of == t && o.StreamDelta? then [o.text] else [])
  {
    assert (outputs + [o])[..|outputs|] == outputs;
  }

  /** Goes to the sender's own conversation, to its own stream, or back to the asking conversation. */
  predicate Addressed(msg: Message, o: Output) {
    match o
    case Outbound(_, notice, channel, session, replyTo) =>
      if notice.Forwarded? then
        msg.channel == "system" && channel == OriginChannel(msg) && session == OriginSession(msg) && replyTo.None?
      else
        && channel == msg.channel && session == msg.session && replyTo == Some(msg.id)
        && (notice.Answered? || notice.ErrorNotice? ==> msg.streamId.None?)
    case StreamDelta(_, streamId, _) => msg.streamId == Some(streamId)
    case StreamEnd(_, streamId, _) => msg.streamId == Some(streamId)
  }

  /** Replies to one message so far, compared with where its task stands. */
  ghost predicate TaskReplied(s: State, t: nat)
    requires t < |s.tasks|
  {
    var task := s.tasks[t];
    && Terminals(s.outputs, t) == (if task.phase.Finished? then 1 else 0)
    && task.sent <= |task.emitted| && Streamed(s.outputs, t) == task.emitted[..task.sent]
    && (task.phase.Finished? ==> task.sent == |task.emitted|)
    && (task.phase.Dropped? || task.phase.Spawned? || task.msg.streamId.None? ==> task.emitted == [])
  }

  ghost predicate OutputInv(s: State) {
    && (forall t | 0 <= t < |s.tasks| :: TaskReplied(s, t))
    && (forall i | 0 <= i < |s.outputs| ::
          s.outputs[i].of < |s.tasks| && Addressed(s.tasks[s.outputs[i].of].msg, s.outputs[i]))
    && (forall i | 0 <= i < |s.outputs| && IsTerminal(s.outputs[i]) :: s.tasks[s.outputs[i].of].phase.Finished?)
    && (forall i, j | 0 <= i < j < |s.outputs| && IsTerminal(s.outputs[i]) :: s.outputs[j].of != s.outputs[i].of)
  }

  lemma {:induction false} NoOutputs(outputs: seq<Output>, t: nat)
    requires forall i | 0 <= i < |outputs| :: outputs[i].of < t
    ensures Terminals(outputs, t) == 0 && Streamed(outputs, t) == []
  {
    if outputs != [] {
      NoOutputs(outputs[..|outputs| - 1], t);
    }
  }

  /** Steps without an output. */
  lemma SilentStepKeepsReplies(restored: EngineKey -> seq<string>, s: State, l: Label)
    requires OutputInv(s) && Enabled(s, l)
    requires !l.Receive? && !l.Freeze? && !l.PassOn? && !l.Reply?
    ensures OutputInv(Step(restored, s, l))
  {
    hide Addressed, Terminals, Streamed;
    var s' := Step(restored, s, l);
    forall t | 0 <= t < |s'.tasks| ensures TaskReplied(s', t) {
      assert TaskReplied(s, t);
    }
    assert forall t | 0 <= t < |s.tasks| :: s'.tasks[t].msg == s.tasks[t].msg;
  }

  /** The output of a step goes to the address of its own task. */
  lemma NewOutput(restored: EngineKey -> seq<string>, s: State, l: Label)
    requires OutputInv(s) && Enabled(s, l) && (l.Freeze? || l.PassOn? || l.Reply?)
    ensures var s' := Step(restored, s, l);
            && |s'.outputs| == |s.outputs| + 1 && s'.outputs == s.outputs + [s'.outputs[|s.outputs|]]
            && s'.outputs[|s.outputs|].of == l.t && Addressed(s.tasks[l.t].msg, s'.outputs[|s.outputs|])
            && (IsTerminal(s'.outputs[|s.outputs|]) <==> !l.PassOn?)
  {
    hide OutputInv, OriginChannel, OriginSession;
  }

  lemma SpeakingStepKeepsReplies(restored: EngineKey -> seq<string>, s: State, l: Label)
    requires OutputInv(s) && Enabled(s, l) && (l.Freeze? || l.PassOn? || l.Reply?)
    ensures OutputInv(Step(restored, s, l))
  {
    hide Terminals, Streamed, Addressed, OwnReply;
    var s' := Step(restored, s, l);
    NewOutput(restored, s, l);
    var t, o := l.t, s'.outputs[|s.outputs|];
    assert TaskReplied(s, t);
    forall u | 0 <= u < |s'.tasks| ensures TaskReplied(s', u) {
      assert TaskReplied(s, u);
      OutputSnoc(s.outputs, o, u);
    }
    assert forall u | 0 <= u < |s.tasks| :: s'.tasks[u].msg == s.tasks[u].msg;
  }

  lemma ReceiveKeepsReplies(restored: EngineKey -> seq<string>, s: State, msg: Message, verdict: Verdict)
    requires OutputInv(s) && Allowed(msg, verdict)
    ensures OutputInv(Received(restored, s, msg, verdict))
  {
    hide Terminals, Streamed, OriginChannel, OriginSession;
    var s' := Received(restored, s, msg, verdict);
    var t := |s.tasks|;
    NoOutputs(s.outputs, t);
    forall u | 0 <= u < |s'.tasks| ensures TaskReplied(s', u) {
      if u < t { assert TaskReplied(s, u); }
      if |s'.outputs| > |s.outputs| { OutputSnoc(s.outputs, s'.outputs[|s.outputs|], u); }
    }
    assert forall u | 0 <= u < t :: s'.tasks[u] == s.tasks[u];
  }

  lemma OutputInvKept(restored: EngineKey -> seq<string>, s: State, l: Label)
    requires OutputInv(s) && Enabled(s, l)
    ensures OutputInv(Step(restored, s, l))
  {
    hide OutputInv;
    match l
    case Receive(msg, verdict) => ReceiveKeepsReplies(restored, s, msg, verdict);
    case Freeze(_) => SpeakingStepKeepsReplies(restored, s, l);
    case PassOn(_) => SpeakingStepKeepsReplies(restored, s, l);
    case Reply(_) => SpeakingStepKeepsReplies(restored, s, l);
    case _ => SilentStepKeepsReplies(restored, s, l);
  }

  // ---- what a reply says about the history ----

  /** A reply reports what its turn recorded: a full block, a lone request, or nothing at all. */
  ghost predicate Reported(s: State, o: Output) {
    match o
    case StreamDelta(_, _, _) => true
    case StreamEnd(t, _, ok) => BlockOf(s, t, ok)
    case Outbound(t, notice, _, _, _) =>
      match notice
      case Answered => BlockOf(s, t, true)
      case ErrorNotice => BlockOf(s, t, false)
      case _ => forall k | k in s.engines :: !Mentions(s.engines[k].history, t)
  }

  ghost predicate BlockOf(s: State, t: nat, ok: bool) {
    t < |s.tasks| && s.tasks[t].engine in s.engines && HasBlock(s.engines[s.tasks[t].engine].history, t, ok)
  }

  ghost predicate ReportInv(s: State) {
    forall i | 0 <= i < |s.outputs| :: Reported(s, s.outputs[i])
  }

  /** Reports depend on the histories and on which engine a task belongs to. */
  lemma SameHistoriesSameReports(s: State, s': State, o: Output)
    requires Reported(s, o) && |s.tasks| <= |s'.tasks|
    requires forall t | 0 <= t < |s.tasks| :: s'.tasks[t].engine == s.tasks[t].engine
    requires forall k | k in s.engines :: k in s'.engines && s'.engines[k].history == s.engines[k].history
    requires forall k | k in s'.engines && k !in s.engines :: !Mentions(s'.engines[k].history, o.of)
    ensures Reported(s', o)
  {
    hide HasBlock, Mentions;
  }

  /** An entry of another task does not change a report. */
  lemma RecordKeepsReport(s: State, s': State, k: EngineKey, e: Entry, o: Output)
    requires Reported(s, o) && k in s.engines && (e.User? || e.Assistant?) && e.task != o.of
    requires |s.tasks| == |s'.tasks| && forall t | 0 <= t < |s.tasks| :: s'.tasks[t].engine == s.tasks[t].engine
    requires s'.engines == s.engines[k := s.engines[k].(history := s.engines[k].history + [e])]
    ensures Reported(s', o)
  {
    var h := s.engines[k].history;
    hide HasBlock;
    if HasBlock(h, o.of, true) { BlockStable(h, e, o.of, true); }
    if HasBlock(h, o.of, false) { BlockStable(h, e, o.of, false); }
  }

  lemma NewEngineMentionsNobody(restored: EngineKey -> seq<string>, s: State, msg: Message, verdict: Verdict, t: nat)
    ensures var s' := Received(restored, s, msg, verdict);
            && |s.tasks| <= |s'.tasks|
            && (forall u | 0 <= u < |s.tasks| :: s'.tasks[u] == s.tasks[u])
            && (forall k | k in s.engines :: k in s'.engines && s'.engines[k] == s.engines[k])
            && (forall k | k in s'.engines && k !in s.engines :: !Mentions(s'.engines[k].history, t))
  {
    hide OriginChannel, OriginSession;
  }

  /** An earlier report stays true: nothing more is recorded for a finished task. */
  lemma ReportStable(restored: EngineKey -> seq<string>, s: State, l: Label, o: Output)
    requires Enabled(s, l) && Reported(s, o)
    requires IsTerminal(o) ==> o.of < |s.tasks| && s.tasks[o.of].phase.Finished?
    ensures Reported(Step(restored, s, l), o)
  {
    var s' := Step(restored, s, l);
    if !IsTerminal(o) {
    } else if l.Receive? {
      NewEngineMentionsNobody(restored, s, l.msg, l.verdict, o.of);
      SameHistoriesSameReports(s, s', o);
    } else if l.Ask? || l.Succeed? {
      hide Reported, OriginChannel, OriginSession;
      RecordKeepsReport(s, s', s.tasks[l.t].engine, if l.Ask? then User(l.t) else Assistant(l.t), o);
    } else {
      hide Reported, OriginChannel, OriginSession;
      SameHistoriesSameReports(s, s', o);
    }
  }

  lemma NotRecordedNotMentioned(restored: EngineKey -> seq<string>, s: State, t: nat)
    requires HistoryInv(restored, s) && (t < |s.tasks| ==> !Recorded(s.tasks[t].phase))
    ensures forall k | k in s.engines :: !Mentions(s.engines[k].history, t)
  {
    forall k | k in s.engines ensures !Mentions(s.engines[k].history, t) {
      var h, n := s.engines[k].history, |restored(k)|;
      assert HistoryOk(restored, s.tasks, k, h);
      assert forall i | 0 <= i < n :: h[i] == h[..n][i] && h[i].Restored?;
    }
  }

  /** The reply sent by a step is a true report. */
  lemma NewReport(restored: EngineKey -> seq<string>, s: State, l: Label)
    requires HistoryInv(restored, s) && LockInv(s) && Enabled(s, l)
    requires |Step(restored, s, l).outputs| > |s.outputs|
    ensures Reported(Step(restored, s, l), Step(restored, s, l).outputs[|s.outputs|])
  {
    hide HasBlock, HistoryOk, OriginChannel, OriginSession;
    if l.Receive? {
      NotRecordedNotMentioned(restored, s, |s.tasks|);
    } else if l.Freeze? {
      NotRecordedNotMentioned(restored, s, l.t);
    } else if l.Reply? {
      assert TaskRecorded(s, l.t);
    }
  }

  lemma ReportInvKept(restored: EngineKey -> seq<string>, s: State, l: Label)
    requires HistoryInv(restored, s) && LockInv(s) && OutputInv(s) && ReportInv(s) && Enabled(s, l)
    ensures ReportInv(Step(restored, s, l))
  {
    var s' := Step(restored, s, l);
    OutputsGrow(restored, s, l);
    forall i | 0 <= i < |s'.outputs| ensures Reported(s', s'.outputs[i]) {
      if i < |s.outputs| {
        hide Reported, Step;
        ReportStable(restored, s, l, s.outputs[i]);
      } else {
        NewReport(restored, s, l);
      }
    }
  }

  lemma OutputsGrow(restored: EngineKey -> seq<string>, s: State, l: Label)
    requires Enabled(s, l)
    ensures var s' := Step(restored, s, l);
            s.outputs <= s'.outputs && |s'.outputs| <= |s.outputs| + 1
  {
    hide OriginChannel, OriginSession;
  }

  // ---- every interleaving ----

  ghost predicate Sound(restored: EngineKey -> seq<string>, s: State) {
    LockInv(s) && HistoryInv(restored, s) && OutputInv(s) && ReportInv(s)
  }

  lemma SoundKept(restored: EngineKey -> seq<string>, s: State, l: Label)
    requires Sound(restored, s) && Enabled(s, l)
    ensures Sound(restored, Step(restored, s, l))
  {
    hide LockInv, HistoryInv, OutputInv, ReportInv, Enabled, Step;
    LockInvKept(restored, s, l);
    HistoryInvKept(restored, s, l);
    OutputInvKept(restored, s, l);
    ReportInvKept(restored, s, l);
  }

  lemma {:induction false} SoundOverRuns(restored: EngineKey -> seq<string>, s: State, labels: seq<Label>)
    requires Sound(restored, s) && ValidRun(restored, s, labels)
    ensures Sound(restored, Run(restored, s, labels))
    decreases |labels|
  {
    hide Sound, Enabled, Step;
    if labels != [] {
      SoundKept(restored, s, labels[0]);
      SoundOverRuns(restored, Step(restored, s, labels[0]), labels[1..]);
    }
  }

  datatype Block = Block(task: nat, replied: bool)

  function Flatten(blocks: seq<Block>): seq<Entry> {
    if blocks == [] then []
    else
      var n := |blocks| - 1;
      Flatten(blocks[..n]) + [User(blocks[n].task)] + (if blocks[n].replied then [Assistant(blocks[n].task)] else [])
  }

  predicate DistinctTasks(blocks: seq<Block>) {
    forall i, j | 0 <= i < j < |blocks| :: blocks[i].task != blocks[j].task
  }

  /** Task `t` asked something from position `n` on. */
  predicate AsksIn(h: seq<Entry>, n: nat, t: nat) {
    exists j | n <= j < |h| :: h[j] == User(t)
  }

  lemma AsksInLonger(h: seq<Entry>, n: nat, more: seq<Entry>, t: nat)
    requires AsksIn(h, n, t)
    ensures AsksIn(h + more, n, t)
  {
    var j :| n <= j < |h| && h[j] == User(t);
    assert (h + more)[j] == User(t);
  }

  lemma MoreDistinctTasks(blocks: seq<Block>, b: Block)
    requires DistinctTasks(blocks) && forall x | x in blocks :: x.task != b.task
    ensures DistinctTasks(blocks + [b])
  {
    var all := blocks + [b];
    forall i, j | 0 <= i < j < |all| ensures all[i].task != all[j].task {
      assert all[i] == blocks[i] && blocks[i] in blocks;
    }
  }

  lemma FlattenSnoc(blocks: seq<Block>, b: Block)
    ensures Flatten(blocks + [b]) == Flatten(blocks) + ([User(b.task)] + (if b.replied then [Assistant(b.task)] else []))
  {
    assert (blocks + [b])[..|blocks|] == blocks;
  }

  /** A block appended behind a history that has been read in blocks. */
  lemma NextBlock(rest: seq<Entry>, n: nat, blocks: seq<Block>, task: nat, replied: bool)
    requires n <= |rest| && rest == rest[..n] + Flatten(blocks) && DistinctTasks(blocks)
    requires forall b | b in blocks :: AsksIn(rest, n, b.task)
    requires !AsksIn(rest, n, task)
    ensures var h := rest + ([User(task)] + (if replied then [Assistant(task)] else []));
            var all := blocks + [Block(task, replied)];
            && h == h[..n] + Flatten(all) && DistinctTasks(all)
            && forall b | b in all :: AsksIn(h, n, b.task)
  {
    var more := [User(task)] + (if replied then [Assistant(task)] else []);
    var h, all := rest + more, blocks + [Block(task, replied)];
    FlattenSnoc(blocks, Block(task, replied));
    MoreDistinctTasks(blocks, Block(task, replied));
    assert h[|rest|] == User(task);
    assert AsksIn(h, n, task);
    hide AsksIn, Flatten, DistinctTasks;
    Associative(rest[..n], Flatten(blocks), more);
    assert h[..n] == rest[..n];
    forall b | b in blocks { AsksInLonger(rest, n, more, b.task); }
  }

  /** A history's last block starts with the request of its task, which has not asked before. */
  lemma LastBlock(h: seq<Entry>, n: nat) returns (start: nat)
    requires n < |h| && InBlocks(h, n)
    ensures var last := h[|h| - 1];
            && n <= start < |h| && InBlocks(h[..start], n) && !AsksIn(h[..start], n, last.task)
            && h == h[..start] + ([User(last.task)] + (if last.Assistant? then [Assistant(last.task)] else []))
  {
    var last := |h| - 1;
    start := if h[last].Assistant? then last - 1 else last;
    assert h[start] == User(h[last].task);
    var rest := h[..start];
    assert forall j | 0 <= j < start :: rest[j] == h[j];
  }

  /** Reading a history in blocks. */
  lemma {:induction false} BlocksOf(h: seq<Entry>, n: nat) returns (blocks: seq<Block>)
    requires n <= |h| && InBlocks(h, n)
    ensures h == h[..n] + Flatten(blocks) && DistinctTasks(blocks)
    ensures forall b | b in blocks :: AsksIn(h, n, b.task)
    decreases |h|
  {
    if |h| == n {
      blocks := [];
    } else {
      var start := LastBlock(h, n);
      hide AsksIn, InBlocks, Flatten, DistinctTasks;
      var task, replied := h[|h| - 1].task, h[|h| - 1].Assistant?;
      var b := BlocksOf(h[..start], n);
      NextBlock(h[..start], n, b, task, replied);
      blocks := b + [Block(task, replied)];
    }
  }

  predicate TasksOfEngine(s: State, k: EngineKey, blocks: seq<Block>) {
    forall b | b in blocks :: b.task < |s.tasks| && s.tasks[b.task].engine == k
  }

  lemma InitialSound(restored: EngineKey -> seq<string>)
    ensures Sound(restored, INITIAL)
  {
  }

  /**
   In every interleaving, the history of every engine is what it was restored from, followed by
   blocks `[user]` or `[user, assistant]`, each of a task of its own that runs on this engine.
   */
  lemma HistoriesAreBlocks(restored: EngineKey -> seq<string>, labels: seq<Label>, k: EngineKey)
    requires ValidRun(restored, INITIAL, labels) && k in Run(restored, INITIAL, labels).engines
    ensures exists blocks :: DistinctTasks(blocks) && TasksOfEngine(Run(restored, INITIAL, labels), k, blocks)
              && Run(restored, INITIAL, labels).engines[k].history == RestoredEntries(restored(k)) + Flatten(blocks)
  {
    InitialSound(restored);
    SoundOverRuns(restored, INITIAL, labels);
    var s := Run(restored, INITIAL, labels);
    var h, n := s.engines[k].history, |restored(k)|;
    assert HistoryOk(restored, s.tasks, k, h);
    var blocks := BlocksOf(h, n);
    forall b | b in blocks ensures b.task < |s.tasks| && s.tasks[b.task].engine == k {
      assert AsksIn(h, n, b.task);
    }
    hide Run, ValidRun, Sound, Flatten, DistinctTasks;
  }

  /**
   In every interleaving, a message has exactly one terminal reply once its task has finished and
   none before; every output goes to its own address, nothing follows a terminal reply, the
   streamed text is the emitted text, and the reply tells what was recorded.
   */
  lemma ExactlyOneReply(restored: EngineKey -> seq<string>, labels: seq<Label>, t: nat)
    requires ValidRun(restored, INITIAL, labels) && t < |Run(restored, INITIAL, labels).tasks|
    ensures var s := Run(restored, INITIAL, labels);
            var task := s.tasks[t];
            && Terminals(s.outputs, t) == (if task.phase.Finished? then 1 else 0)
            && Streamed(s.outputs, t) <= task.emitted
            && (task.phase.Finished? ==> Streamed(s.outputs, t) == task.emitted)
    ensures var s := Run(restored, INITIAL, labels);
            forall i | 0 <= i < |s.outputs| && s.outputs[i].of == t ::
              && Addressed(s.tasks[t].msg, s.outputs[i]) && Reported(s, s.outputs[i])
              && (IsTerminal(s.outputs[i]) ==> forall j | i < j < |s.outputs| :: s.outputs[j].of != t)
  {
    InitialSound(restored);
    SoundOverRuns(restored, INITIAL, labels);
    var s := Run(restored, INITIAL, labels);
    assert TaskReplied(s, t);
    hide Terminals, Streamed, Addressed, Reported;
  }

  // ---- what every received message gets ----

  function Receipts(labels: seq<Label>): nat {
    if labels == [] then 0 else Receipts(labels[..|labels| - 1]) + (if labels[|labels| - 1].Receive? then 1 else 0)
  }

  function OutputsOf(outputs: seq<Output>, t: nat): seq<Output> {
    if outputs == [] then []
    else
      var n := |outputs| - 1;
      OutputsOf(outputs[..n], t) + (if outputs[n].of == t then [outputs[n]] else [])
  }

  /**
   What the verdict on a message means: a refusal is answered to the sender, a system message is
   passed on, nothing is said to what is dropped, and an accepted message gets a task for its session.
   */
  ghost predicate IsSettled(s: State, t: nat, msg: Message, verdict: Verdict)
    requires t < |s.tasks|
  {
    var said := OutputsOf(s.outputs, t);
    && s.tasks[t].msg == msg && (s.tasks[t].accepted <==> verdict.Accept?)
    && match verdict
       case Kill => said == [Outbound(t, Rejected, msg.channel, msg.session, Some(msg.id))]
       case Limit => said == [Outbound(t, Rejected, msg.channel, msg.session, Some(msg.id))]
       case Forward => said == [Outbound(t, Forwarded, OriginChannel(msg), OriginSession(msg), None)]
       case DropSystem => said == []
       case Unsupported => said == []
       case NoAgent => said == []
       case Accept(agent) => s.tasks[t].engine == EngineKey(agent, msg.session)
  }

  /** Every receipt so far has its task, counted by the receipts before it. */
  ghost predicate ReceiptInv(s: State, past: seq<Label>) {
    && |s.tasks| == Receipts(past) && (forall i | 0 <= i < |s.outputs| :: s.outputs[i].of < |s.tasks|)
    && (forall t | 0 <= t < |s.tasks| && !s.tasks[t].accepted :: !HasEngine(s.tasks[t].phase) && s.tasks[t].emitted == [])
    && (forall p | 0 <= p < |past| && past[p].Receive? ::
          Receipts(past[..p]) < |s.tasks| && IsSettled(s, Receipts(past[..p]), past[p].msg, past[p].verdict))
  }

  lemma OutputsOfSnoc(outputs: seq<Output>, o: Output, t: nat)
    ensures OutputsOf(outputs + [o], t) == OutputsOf(outputs, t) + (if o.of == t then [o] else [])
  {
    assert (outputs + [o])[..|outputs|] == outputs;
  }

  lemma {:induction false} NothingSaidYet(outputs: seq<Output>, t: nat)
    requires forall i | 0 <= i < |outputs| :: outputs[i].of < t
    ensures OutputsOf(outputs, t) == []
  {
    if outputs != [] { NothingSaidYet(outputs[..|outputs| - 1], t); }
  }

  /** A step says at most one thing, and nothing more to a message that was not accepted. */
  lemma StepSays(restored: EngineKey -> seq<string>, s: State, l: Label)
    requires Enabled(s, l)
    requires forall t | 0 <= t < |s.tasks| && !s.tasks[t].accepted :: !HasEngine(s.tasks[t].phase) && s.tasks[t].emitted == []
    ensures var s' := Step(restored, s, l);
            && |s'.tasks| == |s.tasks| + (if l.Receive? then 1 else 0)
            && (s'.outputs == s.outputs || (|s'.outputs| == |s.outputs| + 1 && s.outputs <= s'.outputs
                 && s'.outputs[|s.outputs|].of < |s'.tasks|
                 && (s'.outputs[|s.outputs|].of < |s.tasks| ==> s.tasks[s'.outputs[|s.outputs|].of].accepted)
                 && (l.Receive? ==> s'.outputs[|s.outputs|].of == |s.tasks|)))
            && (forall t | 0 <= t < |s.tasks| ::
                  && s'.tasks[t].msg == s.tasks[t].msg && s'.tasks[t].engine == s.tasks[t].engine
                  && s'.tasks[t].accepted == s.tasks[t].accepted && (!s.tasks[t].accepted ==> s'.tasks[t] == s.tasks[t]))
  {
    hide OriginChannel, OriginSession, RestoredEntries;
  }

  lemma StaysSettled(s: State, s': State, t: nat, msg: Message, verdict: Verdict)
    requires t < |s.tasks| && t < |s'.tasks| && IsSettled(s, t, msg, verdict)
    requires s'.tasks[t].msg == s.tasks[t].msg && s'.tasks[t].engine == s.tasks[t].engine
    requires s'.tasks[t].accepted == s.tasks[t].accepted
    requires s'.outputs == s.outputs
          || (|s'.outputs| == |s.outputs| + 1 && s.outputs <= s'.outputs && s'.outputs[|s.outputs|].of < |s'.tasks|
              && (s'.outputs[|s.outputs|].of == t ==> s.tasks[t].accepted))
    ensures IsSettled(s', t, msg, verdict)
  {
    hide OriginChannel, OriginSession, OutputsOf;
    if s'.outputs != s.outputs {
      OutputsOfSnoc(s.outputs, s'.outputs[|s.outputs|], t);
      assert s'.outputs == s.outputs + [s'.outputs[|s.outputs|]];
    }
  }

  /** The receipt itself settles its message. */
  lemma ReceiptSettles(restored: EngineKey -> seq<string>, s: State, msg: Message, verdict: Verdict)
    requires Enabled(s, Receive(msg, verdict)) && forall i | 0 <= i < |s.outputs| :: s.outputs[i].of < |s.tasks|
    ensures var s' := Step(restored, s, Receive(msg, verdict));
            && |s'.tasks| == |s.tasks| + 1 && IsSettled(s', |s.tasks|, msg, verdict)
            && (!s'.tasks[|s.tasks|].accepted ==>
                  !HasEngine(s'.tasks[|s.tasks|].phase) && s'.tasks[|s.tasks|].emitted == [])
  {
    hide OriginChannel, OriginSession, RestoredEntries, OutputsOf;
    var s' := Step(restored, s, Receive(msg, verdict));
    NothingSaidYet(s.outputs, |s.tasks|);
    if s'.outputs != s.outputs {
      OutputsOfSnoc(s.outputs, s'.outputs[|s.outputs|], |s.tasks|);
    }
  }

  lemma ReceiptInvKept(restored: EngineKey -> seq<string>, s: State, past: seq<Label>, l: Label)
    requires ReceiptInv(s, past) && Enabled(s, l)
    ensures ReceiptInv(Step(restored, s, l), past + [l])
  {
    var s', all := Step(restored, s, l), past + [l];
    StepSays(restored, s, l);
    if l.Receive? { ReceiptSettles(restored, s, l.msg, l.verdict); }
    assert all[..|past|] == past;
    hide Step, Enabled, IsSettled, HasEngine, OutputsOf;
    forall p | 0 <= p < |all| && all[p].Receive?
      ensures Receipts(all[..p]) < |s'.tasks| && IsSettled(s', Receipts(all[..p]), all[p].msg, all[p].verdict)
    {
      assert all[..p] == past[..p];
      if p < |past| {
        StaysSettled(s, s', Receipts(past[..p]), past[p].msg, past[p].verdict);
      } else {
        assert past[..p] == past;
      }
    }
  }

  lemma {:induction false} ReceiptInvOverRuns(restored: EngineKey -> seq<string>, s: State, past: seq<Label>, labels: seq<Label>)
    requires ReceiptInv(s, past) && ValidRun(restored, s, labels)
    ensures ReceiptInv(Run(restored, s, labels), past + labels)
    decreases |labels|
  {
    hide ReceiptInv, Enabled, Step;
    if labels == [] {
      assert past + labels == past;
    } else {
      ReceiptInvKept(restored, s, past, labels[0]);
      ReceiptInvOverRuns(restored, Step(restored, s, labels[0]), past + [labels[0]], labels[1..]);
      assert past + labels == (past + [labels[0]]) + labels[1..];
    }
  }

  /** In every interleaving each receipt has the task counted by the receipts before it, and that task is settled. */
  lemma VerdictsAreObeyed(restored: EngineKey -> seq<string>, labels: seq<Label>, p: nat)
    requires ValidRun(restored, INITIAL, labels) && p < |labels| && labels[p].Receive?
    ensures var s, t := Run(restored, INITIAL, labels), Receipts(labels[..p]);
            |s.tasks| == Receipts(labels) && t < |s.tasks| && IsSettled(s, t, labels[p].msg, labels[p].verdict)
  {
    assert ReceiptInv(INITIAL, []);
    ReceiptInvOverRuns(restored, INITIAL, [], labels);
    assert [] + labels == labels;
    hide IsSettled, Run, ValidRun, Receipts;
  }

  /**
   Which verdicts a message can meet: a system message is forwarded if it is text and else dropped;
   any other can be refused, one without text or image is unsupported, and one with either is run by an
   agent if there is one.
   */
  lemma VerdictsExactly(s: State, msg: Message, verdict: Verdict)
    ensures Enabled(s, Receive(msg, verdict)) <==>
              (if verdict.Forward? then msg.channel == "system" && msg.content.TextContent?
               else if verdict.DropSystem? then msg.channel == "system" && !msg.content.TextContent?
               else && msg.channel != "system"
                    && (verdict.Unsupported? ==> msg.content.OtherContent?)
                    && (verdict.NoAgent? || verdict.Accept? ==> msg.content.TextContent? || msg.content.ImageContent?))
  {
  }

  // ---- how accepted messages are answered ----

  predicate Froze(past: seq<Label>, t: nat) {
    exists i | 0 <= i < |past| :: past[i] == Freeze(t)
  }

  ghost predicate TurnReplied(s: State, t: nat)
    requires t < |s.tasks|
  {
    exists ok :: TerminalOf(t, s.tasks[t], ok) in s.outputs
  }

  /** A finished accepted task was answered by the freeze notice if it was frozen, else by its turn. */
  ghost predicate TaskEnded(s: State, past: seq<Label>, t: nat)
    requires t < |s.tasks|
  {
    var task := s.tasks[t];
    && (Froze(past, t) ==> task.phase.Finished?)
    && (task.accepted && task.phase.Finished? ==>
          if Froze(past, t) then OwnReply(t, task.msg, Frozen) in s.outputs else TurnReplied(s, t))
    && (task.accepted ==> !task.phase.Dropped?)
  }

  ghost predicate EndInv(s: State, past: seq<Label>) {
    && (forall t | 0 <= t < |s.tasks| :: TaskEnded(s, past, t))
    && (forall t: nat | Froze(past, t) :: t < |s.tasks|)
  }

  lemma FrozeSnoc(past: seq<Label>, l: Label, t: nat)
    ensures Froze(past + [l], t) <==> Froze(past, t) || l == Freeze(t)
  {
    var all := past + [l];
    assert all[|past|] == l;
    if Froze(past, t) {
      var i :| 0 <= i < |past| && past[i] == Freeze(t);
      assert all[i] == Freeze(t);
    }
  }

  /** What a step does to a task, as far as its answer is concerned. */
  lemma StepAndTask(restored: EngineKey -> seq<string>, s: State, l: Label, t: nat)
    requires Enabled(s, l) && t < |s.tasks|
    ensures var s' := Step(restored, s, l);
            && t < |s'.tasks| && s.outputs <= s'.outputs
            && s'.tasks[t].msg == s.tasks[t].msg && s'.tasks[t].accepted == s.tasks[t].accepted
            && (s'.tasks[t].phase.Dropped? ==> s.tasks[t].phase.Dropped?)
            && (s.tasks[t].phase.Finished? ==> s'.tasks[t].phase.Finished? && l != Freeze(t))
            && (l == Freeze(t) ==> s'.tasks[t].phase.Finished? && OwnReply(t, s.tasks[t].msg, Frozen) in s'.outputs)
            && (s'.tasks[t].phase.Finished? && !s.tasks[t].phase.Finished? && l != Freeze(t) ==> TurnReplied(s', t))
  {
    hide OriginChannel, OriginSession;
    var s' := Step(restored, s, l);
    if l == Reply(t) {
      assert s'.outputs[|s.outputs|] == TerminalOf(t, s'.tasks[t], s.tasks[t].phase.ok);
    } else if l == Freeze(t) {
      assert s'.outputs[|s.outputs|] == OwnReply(t, s.tasks[t].msg, Frozen);
    }
  }

  lemma EndInvKept(restored: EngineKey -> seq<string>, s: State, past: seq<Label>, l: Label)
    requires EndInv(s, past) && Enabled(s, l)
    ensures EndInv(Step(restored, s, l), past + [l])
  {
    var s' := Step(restored, s, l);
    forall t | 0 <= t < |s'.tasks| ensures TaskEnded(s', past + [l], t) {
      FrozeSnoc(past, l, t);
      if t < |s.tasks| {
        assert TaskEnded(s, past, t);
        StepAndTask(restored, s, l, t);
        hide Froze, Step, OwnReply, Enabled;
        if TurnReplied(s, t) { TurnStillReplied(s, s', t); }
      } else {
        NewTaskEnded(restored, s, past, l, t);
      }
    }
    forall t: nat | Froze(past + [l], t) ensures t < |s'.tasks| {
      FrozeSnoc(past, l, t);
      if t < |s.tasks| { StepAndTask(restored, s, l, t); }
    }
  }

  lemma TurnStillReplied(s: State, s': State, t: nat)
    requires t < |s.tasks| && t < |s'.tasks| && s.outputs <= s'.outputs && s'.tasks[t].msg == s.tasks[t].msg
    requires TurnReplied(s, t)
    ensures TurnReplied(s', t)
  {
    var ok :| TerminalOf(t, s.tasks[t], ok) in s.outputs;
    assert TerminalOf(t, s'.tasks[t], ok) in s'.outputs;
  }

  /** A task that a step creates is accepted and open, or not accepted. */
  lemma NewTaskEnded(restored: EngineKey -> seq<string>, s: State, past: seq<Label>, l: Label, t: nat)
    requires EndInv(s, past) && Enabled(s, l) && |s.tasks| <= t < |Step(restored, s, l).tasks|
    ensures TaskEnded(Step(restored, s, l), past + [l], t)
  {
    hide OriginChannel, OriginSession;
    FrozeSnoc(past, l, t);
    assert l.Receive?;
  }

  lemma {:induction false} EndInvOverRuns(restored: EngineKey -> seq<string>, s: State, past: seq<Label>, labels: seq<Label>)
    requires EndInv(s, past) && ValidRun(restored, s, labels)
    ensures EndInv(Run(restored, s, labels), past + labels)
    decreases |labels|
  {
    hide EndInv, Enabled, Step;
    if labels == [] {
      assert past + labels == past;
    } else {
      EndInvKept(restored, s, past, labels[0]);
      EndInvOverRuns(restored, Step(restored, s, labels[0]), past + [labels[0]], labels[1..]);
      assert past + labels == (past + [labels[0]]) + labels[1..];
    }
  }

  /**
   In every interleaving, a finished accepted task was answered by its turn, on its own stream if it
   has one, exactly if the freeze check did not stop it; else by the ordinary notice and nothing more.
   */
  lemma AnsweredByItsTurn(restored: EngineKey -> seq<string>, labels: seq<Label>, t: nat)
    requires ValidRun(restored, INITIAL, labels) && t < |Run(restored, INITIAL, labels).tasks|
    requires var task := Run(restored, INITIAL, labels).tasks[t]; task.accepted && task.phase.Finished?
    ensures var s := Run(restored, INITIAL, labels);
            && (TurnReplied(s, t) <==> Freeze(t) !in labels)
            && (OwnReply(t, s.tasks[t].msg, Frozen) in s.outputs <==> Freeze(t) in labels)
  {
    InitialSound(restored);
    SoundOverRuns(restored, INITIAL, labels);
    assert EndInv(INITIAL, []);
    EndInvOverRuns(restored, INITIAL, [], labels);
    assert [] + labels == labels;
    var s := Run(restored, INITIAL, labels);
    assert TaskEnded(s, labels, t);
    assert Froze(labels, t) <==> Freeze(t) in labels;
    OneOrTheOther(s, t);
  }

  /** The freeze notice and the reply of a turn are two terminal replies, so there is only one of them. */
  lemma OneOrTheOther(s: State, t: nat)
    requires OutputInv(s) && t < |s.tasks|
    ensures !(TurnReplied(s, t) && OwnReply(t, s.tasks[t].msg, Frozen) in s.outputs)
  {
    var frozen := OwnReply(t, s.tasks[t].msg, Frozen);
    forall ok | TerminalOf(t, s.tasks[t], ok) in s.outputs ensures frozen !in s.outputs {
      if frozen in s.outputs { OneTerminal(s, TerminalOf(t, s.tasks[t], ok), frozen); }
    }
  }

  /** A message has at most one terminal reply. */
  lemma OneTerminal(s: State, a: Output, b: Output)
    requires OutputInv(s) && a in s.outputs && b in s.outputs && IsTerminal(a) && IsTerminal(b) && a.of == b.of
    ensures a == b
  {
    hide TaskReplied, Addressed;
    var i :| 0 <= i < |s.outputs| && s.outputs[i] == a;
    var j :| 0 <= j < |s.outputs| && s.outputs[j] == b;
  }

  /** A message with a stream is answered on it exactly if the freeze check did not stop its task. */
  lemma StreamsEndUnlessFrozen(restored: EngineKey -> seq<string>, labels: seq<Label>, t: nat, streamId: string)
    requires ValidRun(restored, INITIAL, labels) && t < |Run(restored, INITIAL, labels).tasks|
    requires var task := Run(restored, INITIAL, labels).tasks[t];
             task.accepted && task.phase.Finished? && task.msg.streamId == Some(streamId)
    ensures (exists ok :: StreamEnd(t, streamId, ok) in Run(restored, INITIAL, labels).outputs) <==> Freeze(t) !in labels
  {
    AnsweredByItsTurn(restored, labels, t);
    var s := Run(restored, INITIAL, labels);
    assert forall ok :: TerminalOf(t, s.tasks[t], ok) == StreamEnd(t, streamId, ok);
  }

  /** The shortest run that leaves a stream open: its only message is accepted, then frozen. */
  lemma FrozenStream(restored: EngineKey -> seq<string>, msg: Message, agent: string)
    requires msg.channel != "system" && !msg.content.OtherContent? && msg.streamId.Some?
    ensures var labels := [Receive(msg, Accept(agent)), Freeze(0)];
            && ValidRun(restored, INITIAL, labels)
            && Run(restored, INITIAL, labels).outputs == [OwnReply(0, msg, Frozen)]
            && Run(restored, INITIAL, labels).tasks == [Task(msg, true, EngineKey(agent, msg.session), Finished, [], 0)]
  {
    hide OriginChannel, OriginSession, RestoredEntries;
    var labels := [Receive(msg, Accept(agent)), Freeze(0)];
    var s1 := Step(restored, INITIAL, labels[0]);
    assert s1.tasks == [Task(msg, true, EngineKey(agent, msg.session), Spawned, [], 0)] && s1.outputs == [];
    assert labels[1..] == [Freeze(0)] && labels[1..][1..] == [];
    var s2 := Step(restored, s1, Freeze(0));
    assert s2.outputs == [OwnReply(0, msg, Frozen)];
    assert ValidRun(restored, s2, []) && Run(restored, s2, []) == s2;
    assert ValidRun(restored, s1, labels[1..]) && Run(restored, s1, labels[1..]) == s2;
  }

  lemma OneStepMore(restored: EngineKey -> seq<string>, s: State, l: Label, rest: seq<Label>)
    requires Enabled(s, l) && ValidRun(restored, Step(restored, s, l), rest)
    ensures ValidRun(restored, s, [l] + rest)
    ensures Run(restored, s, [l] + rest) == Run(restored, Step(restored, s, l), rest)
  {
    hide Enabled, Step;
    assert ([l] + rest)[1..] == rest;
  }

  /** A system with a single task, whose engine is fresh. */
  function LoneTask(restored: EngineKey -> seq<string>, task: Task): State {
    State([task], map[task.engine := Engine(RestoredEntries(restored(task.engine)), None)], [])
  }

  /** The receipt of a streamed message in an idle system. */
  lemma StreamOpens(restored: EngineKey -> seq<string>, msg: Message, agent: string)
    requires msg.channel != "system" && !msg.content.OtherContent?
    ensures Enabled(INITIAL, Receive(msg, Accept(agent)))
    ensures Step(restored, INITIAL, Receive(msg, Accept(agent)))
         == LoneTask(restored, Task(msg, true, EngineKey(agent, msg.session), Spawned, [], 0))
  {
    hide OriginChannel, OriginSession, RestoredEntries;
  }

  /** From there the turn can stream a text: it is asked, its text passed on, and its stream ended. */
  lemma StreamRuns(restored: EngineKey -> seq<string>, task: Task, text: string, streamId: string)
    requires task.phase == Spawned && task.emitted == [] && task.sent == 0 && task.msg.streamId == Some(streamId)
    ensures var labels := [Enter(0), Acquire(0), Ask(0), Emit(0, text), PassOn(0), Succeed(0), Release(0), Reply(0)];
            var s := LoneTask(restored, task);
            && ValidRun(restored, s, labels)
            && Run(restored, s, labels).outputs == [StreamDelta(0, streamId, text), StreamEnd(0, streamId, true)]
            && task.engine in Run(restored, s, labels).engines
            && Run(restored, s, labels).engines[task.engine].history
               == RestoredEntries(restored(task.engine)) + [User(0), Assistant(0)]
  {
    hide OriginChannel, OriginSession, RestoredEntries, ValidRun, Run;
    var k, h := task.engine, RestoredEntries(restored(task.engine));
    var s0 := LoneTask(restored, task);
    var s1 := Step(restored, s0, Enter(0));
    assert s1 == State([task.(phase := Waiting)], map[k := Engine(h, None)], []);
    var s2 := Step(restored, s1, Acquire(0));
    assert s2 == State([task.(phase := Locked)], map[k := Engine(h, Some(0))], []);
    var s3 := Step(restored, s2, Ask(0));
    assert s3 == State([task.(phase := Asked)], map[k := Engine(h + [User(0)], Some(0))], []);
    var s4 := Step(restored, s3, Emit(0, text));
    assert task.emitted + [text] == [text];
    assert s4 == State([task.(phase := Asked, emitted := [text])], map[k := Engine(h + [User(0)], Some(0))], []);
    StreamEnds(restored, task, text, streamId, s4, h);
    var rest := [PassOn(0), Succeed(0), Release(0), Reply(0)];
    OneStepMore(restored, s3, Emit(0, text), rest);
    OneStepMore(restored, s2, Ask(0), [Emit(0, text)] + rest);
    OneStepMore(restored, s1, Acquire(0), [Ask(0)] + ([Emit(0, text)] + rest));
    OneStepMore(restored, s0, Enter(0), [Acquire(0)] + ([Ask(0)] + ([Emit(0, text)] + rest)));
    assert [Enter(0)] + ([Acquire(0)] + ([Ask(0)] + ([Emit(0, text)] + rest)))
        == [Enter(0), Acquire(0), Ask(0), Emit(0, text), PassOn(0), Succeed(0), Release(0), Reply(0)];
  }

  lemma StreamEnds(restored: EngineKey -> seq<string>, task: Task, text: string, streamId: string, s4: State, h: seq<Entry>)
    requires task.emitted == [] && task.sent == 0 && task.msg.streamId == Some(streamId)
    requires s4 == State([task.(phase := Asked, emitted := [text])], map[task.engine := Engine(h + [User(0)], Some(0))], [])
    ensures var rest := [PassOn(0), Succeed(0), Release(0), Reply(0)];
            && ValidRun(restored, s4, rest)
            && Run(restored, s4, rest).outputs == [StreamDelta(0, streamId, text), StreamEnd(0, streamId, true)]
            && task.engine in Run(restored, s4, rest).engines
            && Run(restored, s4, rest).engines[task.engine].history == h + [User(0), Assistant(0)]
  {
    hide OriginChannel, OriginSession, RestoredEntries, ValidRun, Run;
    var k, said := task.engine, StreamDelta(0, streamId, text);
    var s5 := Step(restored, s4, PassOn(0));
    var t5 := task.(phase := Asked, emitted := [text], sent := 1);
    assert s5 == State([t5], map[k := Engine(h + [User(0)], Some(0))], [said]);
    var s6 := Step(restored, s5, Succeed(0));
    assert s6 == State([t5.(phase := Resulted(true))], map[k := Engine(h + [User(0)] + [Assistant(0)], Some(0))], [said]);
    var s7 := Step(restored, s6, Release(0));
    assert s7 == State([t5.(phase := Released(true))], map[k := Engine(h + [User(0)] + [Assistant(0)], None)], [said]);
    var s8 := Step(restored, s7, Reply(0));
    assert s8.outputs == [said, StreamEnd(0, streamId, true)] && s8.engines == s7.engines;
    EmptyRun(restored, s8);
    OneStepMore(restored, s7, Reply(0), []);
    OneStepMore(restored, s6, Release(0), [Reply(0)] + []);
    OneStepMore(restored, s5, Succeed(0), [Release(0)] + ([Reply(0)] + []));
    OneStepMore(restored, s4, PassOn(0), [Succeed(0)] + ([Release(0)] + ([Reply(0)] + [])));
    assert [PassOn(0)] + ([Succeed(0)] + ([Release(0)] + ([Reply(0)] + []))) == [PassOn(0), Succeed(0), Release(0), Reply(0)];
    assert h + [User(0)] + [Assistant(0)] == h + [User(0), Assistant(0)];
  }

  lemma EmptyRun(restored: EngineKey -> seq<string>, s: State)
    ensures ValidRun(restored, s, []) && Run(restored, s, []) == s
  {
  }

  // ---- progress ----

  /** Steps a task has still to take, its turn ending as soon as it has started. */
  function Remaining(task: Task): nat {
    (match task.phase
     case Spawned => 6
     case Waiting => 5
     case Locked => 4
     case Asked => 3
     case Resulted(_) => 2
     case Released(_) => 1
     case _ => 0)
    + (if task.sent <= |task.emitted| then |task.emitted| - task.sent else 0)
  }

  function Work(tasks: seq<Task>): nat {
    if tasks == [] then 0 else Work(tasks[..|tasks| - 1]) + Remaining(tasks[|tasks| - 1])
  }

  lemma {:induction false} WorkUpdated(tasks: seq<Task>, u: nat, task: Task)
    requires u < |tasks|
    ensures Work(tasks[u := task]) == Work(tasks) - Remaining(tasks[u]) + Remaining(task)
  {
    hide Remaining;
    var n := |tasks| - 1;
    if u == n {
      assert tasks[u := task][..n] == tasks[..n];
    } else {
      assert tasks[u := task][..n] == tasks[..n][u := task];
      WorkUpdated(tasks[..n], u, task);
    }
  }

  /** The next step of task `u`, which waits for no lock that is held. */
  function NextStep(s: State, u: nat, ok: bool): Label
    requires u < |s.tasks|
  {
    var task := s.tasks[u];
    match task.phase
    case Spawned => Enter(u)
    case Waiting => Acquire(u)
    case Locked => Ask(u)
    case Asked => if ok then Succeed(u) else Fail(u)
    case Resulted(_) => Release(u)
    case _ => if task.sent < |task.emitted| then PassOn(u) else Reply(u)
  }

  /** An unfinished task, or the one that holds the lock it waits for, can go on. */
  lemma SomeStep(s: State, t: nat, outcome: nat -> bool) returns (u: nat)
    requires LockInv(s) && t < |s.tasks| && HasEngine(s.tasks[t].phase)
    requires forall v | 0 <= v < |s.tasks| && s.tasks[v].msg.streamId.None? :: s.tasks[v].emitted == []
    ensures u < |s.tasks| && HasEngine(s.tasks[u].phase) && Enabled(s, NextStep(s, u, outcome(u)))
  {
    var k := s.tasks[t].engine;
    u := if s.tasks[t].phase.Waiting? && s.engines[k].holder.Some? then s.engines[k].holder.value else t;
  }

  /** Such a step is work done. */
  lemma StepIsWork(restored: EngineKey -> seq<string>, s: State, u: nat, ok: bool)
    requires u < |s.tasks| && HasEngine(s.tasks[u].phase) && Enabled(s, NextStep(s, u, ok))
    ensures Work(Step(restored, s, NextStep(s, u, ok)).tasks) < Work(s.tasks)
    ensures |Step(restored, s, NextStep(s, u, ok)).tasks| == |s.tasks|
  {
    hide OriginChannel, OriginSession, TerminalOf, Work;
    var s' := Step(restored, s, NextStep(s, u, ok));
    assert s'.tasks == s.tasks[u := s'.tasks[u]] && Remaining(s'.tasks[u]) < Remaining(s.tasks[u]);
    WorkUpdated(s.tasks, u, s'.tasks[u]);
  }

  predicate AllDone(s: State) {
    forall t | 0 <= t < |s.tasks| :: !HasEngine(s.tasks[t].phase)
  }

  /** Only steps of existing tasks, none of them frozen, and turns end as `outcome` says. */
  predicate Draining(labels: seq<Label>, outcome: nat -> bool) {
    forall l | l in labels :: !l.Receive? && !l.Freeze? && (l.Succeed? ==> outcome(l.t)) && (l.Fail? ==> !outcome(l.t))
  }

  lemma {:induction false} Drained(restored: EngineKey -> seq<string>, s: State, outcome: nat -> bool)
    returns (labels: seq<Label>)
    requires Sound(restored, s)
    ensures ValidRun(restored, s, labels) && AllDone(Run(restored, s, labels))
    ensures Draining(labels, outcome) && |labels| <= Work(s.tasks)
    decreases Work(s.tasks)
  {
    labels := [];
    if !AllDone(s) {
      var t :| 0 <= t < |s.tasks| && HasEngine(s.tasks[t].phase);
      EmittedOnlyStreamed(s);
      hide *;
      var u := SomeStep(s, t, outcome);
      var l := NextStep(s, u, outcome(u));
      StepIsWork(restored, s, u, outcome(u));
      SoundKept(restored, s, l);
      var rest := Drained(restored, Step(restored, s, l), outcome);
      labels := [l] + rest;
      OneStepMore(restored, s, l, rest);
      DrainsOn(s, u, outcome, rest);
    }
  }

  lemma DrainsOn(s: State, u: nat, outcome: nat -> bool, rest: seq<Label>)
    requires u < |s.tasks| && Draining(rest, outcome)
    ensures Draining([NextStep(s, u, outcome(u))] + rest, outcome)
  {
  }

  /**
   No interleaving gets stuck: whatever has happened, and however the open turns will end, there is
   a bounded way to finish every task without another receipt.
   */
  lemma NeverStuck(restored: EngineKey -> seq<string>, labels: seq<Label>, outcome: nat -> bool)
    requires ValidRun(restored, INITIAL, labels)
    ensures var s := Run(restored, INITIAL, labels);
            exists rest :: ValidRun(restored, s, rest) && Draining(rest, outcome) && |rest| <= Work(s.tasks)
                           && AllDone(Run(restored, s, rest))
  {
    InitialSound(restored);
    SoundOverRuns(restored, INITIAL, labels);
    hide Sound, ValidRun, Run, Draining, AllDone, Work;
    var rest := Drained(restored, Run(restored, INITIAL, labels), outcome);
  }

  lemma EmittedOnlyStreamed(s: State)
    requires OutputInv(s)
    ensures forall u | 0 <= u < |s.tasks| && s.tasks[u].msg.streamId.None? :: s.tasks[u].emitted == []
  {
    hide Terminals, Streamed;
    forall u | 0 <= u < |s.tasks| && s.tasks[u].msg.streamId.None? ensures s.tasks[u].emitted == [] {
      assert TaskReplied(s, u);
    }
  }
}
