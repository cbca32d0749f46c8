/**
 Topic detection by keyword overlap, and the visibility of history entries across turns.
 */
module Topics {
  import opened Wrappers
  import opened MemoryTypes

  datatype MessageEntry = MessageEntry(role: string, content: string, topicId: string, hidden: bool)

  datatype SwitchResult = SameTopic | PartialDrift | Switched(newTopicId: string)

  function ToRecallScope(r: SwitchResult): RecallScope {
    match r
    case SameTopic => Full
    case PartialDrift => FactsOnly
    case Switched(t) => CurrentTopic(t)
  }

  lemma RecallScopes(t: string)
    ensures ToRecallScope(SameTopic) == Full && ToRecallScope(PartialDrift) == FactsOnly
    ensures ToRecallScope(Switched(t)) == CurrentTopic(t)
  {
  }

  // ---- visibility as a function of the turns ----

  function Pruned(history: seq<MessageEntry>, topic: string): (r: seq<MessageEntry>)
    ensures |r| == |history|
    ensures forall i | 0 <= i < |r| ::
              r[i] == if history[i].topicId != topic then history[i].(hidden := true) else history[i]
  {
    seq(|history|, i requires 0 <= i < |history| =>
      if history[i].topicId != topic then history[i].(hidden := true) else history[i])
  }

  /** What a turn decided about its topic; a clean switch is one the model judged to be a clean intent. */
  datatype Decision = Stay | Switch(topic: string) | CleanSwitch(topic: string)

  datatype EngineState = EngineState(history: seq<MessageEntry>, current: string)

  datatype Turn = Turn(decision: Decision, input: string, reply: Option<string>)

  function AfterTurn(s: EngineState, t: Turn): EngineState {
    var current := if t.decision.Stay? then s.current else t.decision.topic;
    var kept := if t.decision.Switch? then Pruned(s.history, current) else s.history;
    var asked := kept + [MessageEntry("user", t.input, current, false)];
    EngineState(
      match t.reply
      case Some(text) => asked + [MessageEntry("assistant", text, current, false)]
      case None => asked,
      current)
  }

  function AfterTurns(s: EngineState, turns: seq<Turn>): EngineState
    decreases |turns|
  {
    if turns == [] then s else AfterTurns(AfterTurn(s, turns[0]), turns[1..])
  }

  /** `later` extends `earlier`: entries are kept in place and at most hidden. */
  predicate Extends(earlier: seq<MessageEntry>, later: seq<MessageEntry>) {
    && |earlier| <= |later|
    && forall i | 0 <= i < |earlier| ::
         later[i] == earlier[i] || later[i] == earlier[i].(hidden := true)
  }

  lemma ExtendsTransitive(a: seq<MessageEntry>, b: seq<MessageEntry>, c: seq<MessageEntry>)
    requires Extends(a, b) && Extends(b, c)
    ensures Extends(a, c)
  {
    forall i | 0 <= i < |a| ensures c[i] == a[i] || c[i] == a[i].(hidden := true) {
      assert b[i] == a[i] || b[i] == a[i].(hidden := true);
    }
  }

  /** Over any run entries are only appended and flags only go from visible to hidden. */
  lemma {:induction false} HistoryOnlyGrows(s: EngineState, turns: seq<Turn>)
    ensures Extends(s.history, AfterTurns(s, turns).history)
    decreases |turns|
  {
    if turns != [] {
      var next := AfterTurn(s, turns[0]);
      HistoryOnlyGrows(next, turns[1..]);
      ExtendsTransitive(s.history, next.history, AfterTurns(s, turns).history);
    }
  }

  /** A hidden entry stays hidden, also when its topic becomes current again. */
  lemma HiddenForever(s: EngineState, turns: seq<Turn>, i: nat)
    requires i < |s.history| && s.history[i].hidden
    ensures i < |AfterTurns(s, turns).history| && AfterTurns(s, turns).history[i] == s.history[i]
  {
    HistoryOnlyGrows(s, turns);
  }

  /** Only entries of the current topic are visible. */
  predicate OnlyCurrentVisible(s: EngineState) {
    forall i | 0 <= i < |s.history| && !s.history[i].hidden :: s.history[i].topicId == s.current
  }

  predicate AnyVisible(s: EngineState) {
    exists i | 0 <= i < |s.history| :: !s.history[i].hidden
  }

  /** After a topic switch the new topic is current and everything visible belongs to it. */
  lemma SwitchIsolates(s: EngineState, t: Turn)
    requires t.decision.Switch?
    ensures AfterTurn(s, t).current == t.decision.topic && OnlyCurrentVisible(AfterTurn(s, t))
  {
  }

  /** A turn breaks the isolation exactly when it is a clean switch that leaves old entries visible. */
  lemma IsolationKeptExactly(s: EngineState, t: Turn)
    requires OnlyCurrentVisible(s)
    ensures OnlyCurrentVisible(AfterTurn(s, t))
       <==> !(t.decision.CleanSwitch? && t.decision.topic != s.current && AnyVisible(s))
  {
    var s' := AfterTurn(s, t);
    if t.decision.CleanSwitch? && t.decision.topic != s.current && AnyVisible(s) {
      var i :| 0 <= i < |s.history| && !s.history[i].hidden;
      assert s'.history[i] == s.history[i];
    }
  }

  /** Runs without a clean switch to another topic keep the isolation throughout. */
  lemma {:induction false} IsolationOverRuns(s: EngineState, turns: seq<Turn>)
    requires OnlyCurrentVisible(s)
    requires forall t | t in turns :: !t.decision.CleanSwitch?
    ensures OnlyCurrentVisible(AfterTurns(s, turns))
    decreases |turns|
  {
    if turns != [] {
      assert turns[0] in turns;
      IsolationKeptExactly(s, turns[0]);
      IsolationOverRuns(AfterTurn(s, turns[0]), turns[1..]);
    }
  }

  /** The first real switch after any run restores the isolation. */
  lemma {:induction false} SwitchRestoresIsolation(s: EngineState, turns: seq<Turn>, k: nat)
    requires k < |turns| && turns[k].decision.Switch?
    requires forall i | k < i < |turns| :: !turns[i].decision.CleanSwitch?
    ensures OnlyCurrentVisible(AfterTurns(s, turns))
    decreases |turns|
  {
    var next := AfterTurn(s, turns[0]);
    if k == 0 {
      SwitchIsolates(s, turns[0]);
      IsolationOverRuns(next, turns[1..]);
    } else {
      SwitchRestoresIsolation(next, turns[1..], k - 1);
    }
  }

  // ---- the topic manager ----

  const SAME_TOPIC_THRESHOLD: real := 0.60
  const RELATED_TOPIC_THRESHOLD: real := 0.30
  const TOPIC_REUSE_THRESHOLD: real := 0.70
  const ROLLING_WINDOW: nat := 5

  /** Share of `a` that also lies in `b`. */
  function IntersectionRatio(a: set<string>, b: set<string>): (r: real)
    ensures 0.0 <= r <= 1.0
    ensures a <= b && a != {} ==> r == 1.0
    ensures a !! b ==> r == 0.0
  {
    if a == {} then 0.0
    else
      assert a * b <= a;
      Cardinality(a * b, a);
      assert a <= b ==> a * b == a;
      |a * b| as real / |a| as real
  }

  /** Each shared word counts the same share. */
  lemma OneWordMore(a: set<string>, b: set<string>, w: string)
    requires w in a && w !in b
    ensures IntersectionRatio(a, b + {w}) == IntersectionRatio(a, b) + 1.0 / |a| as real
  {
    assert a * (b + {w}) == a * b + {w};
    var shared, all := |a * b| as real, |a| as real;
    assert |a * (b + {w})| as real == shared + 1.0;
    assert (shared + 1.0) / all == shared / all + 1.0 / all;
  }

  /** Words that do not occur in `a` do not count. */
  lemma OtherWordsDoNotCount(a: set<string>, b: set<string>, w: string)
    requires w !in a
    ensures IntersectionRatio(a, b + {w}) == IntersectionRatio(a, b)
  {
    assert a * (b + {w}) == a * b;
  }

  lemma QuotientBelow(shared: nat, all: nat, tenths: nat)
    requires all > 0
    ensures shared as real / all as real < tenths as real / 10.0 <==> 10 * shared < tenths * all
  {
    var q, n, t := shared as real / all as real, all as real, tenths as real;
    assert q * n == shared as real;
    assert q < t / 10.0 ==> q * n < (t / 10.0) * n;
    assert q >= t / 10.0 ==> q * n >= (t / 10.0) * n;
    assert (t / 10.0) * n * 10.0 == t * n;
    assert t * n == (tenths * all) as real;
  }

  /** The ratio is below a number of tenths exactly if ten times the shared words are fewer than so many times all. */
  lemma RatioByCounts(a: set<string>, b: set<string>, tenths: nat)
    requires a != {}
    ensures IntersectionRatio(a, b) < tenths as real / 10.0 <==> 10 * |a * b| < tenths * |a|
  {
    assert |a| > 0;
    QuotientBelow(|a * b|, |a|, tenths);
  }

  lemma {:induction false} Cardinality(a: set<string>, b: set<string>)
    requires a <= b
    ensures |a| <= |b|
  {
    assert b == a + (b - a);
  }

  function WordsOf(words: string -> set<string>, messages: seq<string>): set<string> {
    set i, w | 0 <= i < |messages| && w in words(messages[i]) :: w
  }

  /** A window has the words of its messages. */
  lemma WordsOfWindow(words: string -> set<string>, messages: seq<string>, w: string)
    ensures w in WordsOf(words, messages) <==> exists m | m in messages :: w in words(m)
  {
  }

  datatype KnownTopic = KnownTopic(id: string, text: string)

  class TopicManager {
    /** The tokeniser: lower-cased words without stop words. */
    const words: string -> set<string>
    var currentTopicId: string
    var recentMessages: seq<string>
    var knownTopics: seq<KnownTopic>

    constructor (words: string -> set<string>, topicId: string)
      ensures this.words == words && currentTopicId == topicId && recentMessages == [] && knownTopics == []
    {
      this.words := words;
      currentTopicId, recentMessages, knownTopics := topicId, [], [];
    }

    method PushRecentMessage(msg: string)
      requires |recentMessages| <= ROLLING_WINDOW
      modifies this`recentMessages
      ensures |recentMessages| <= ROLLING_WINDOW
      ensures var all := old(recentMessages) + [msg];
              recentMessages == all[if |all| > ROLLING_WINDOW then |all| - ROLLING_WINDOW else 0..]
      ensures recentMessages != [] && recentMessages[|recentMessages| - 1] == msg
      ensures |recentMessages| == if |old(recentMessages)| < 5 then |old(recentMessages)| + 1 else 5
    {
      recentMessages := recentMessages + [msg];
      if |recentMessages| > ROLLING_WINDOW {
        recentMessages := recentMessages[1..];
      }
    }

    ghost function Score(k: nat, newWords: set<string>): real
      requires k < |knownTopics|
      reads this`knownTopics
    {
      IntersectionRatio(words(knownTopics[k].text), newWords)
    }

    /** A known topic can be reused if the current words have at least seven tenths of the words of its label. */
    lemma ReuseByCounts(k: nat, newWords: set<string>)
      requires k < |knownTopics|
      ensures var known := words(knownTopics[k].text);
              Score(k, newWords) >= TOPIC_REUSE_THRESHOLD <==> known != {} && 10 * |known * newWords| >= 7 * |known|
    {
      var known := words(knownTopics[k].text);
      if known != {} { RatioByCounts(known, newWords, 7); }
    }

    /** `id` is the last of the best known topics above the reuse threshold, or a fresh one if there is none. */
    ghost predicate IsReuse(id: string, newWords: set<string>, freshId: string)
      reads this`knownTopics
    {
      if exists k | 0 <= k < |knownTopics| :: Score(k, newWords) >= TOPIC_REUSE_THRESHOLD then
        exists k | 0 <= k < |knownTopics| ::
          && id == knownTopics[k].id && Score(k, newWords) >= TOPIC_REUSE_THRESHOLD
          && (forall j | 0 <= j < k :: Score(j, newWords) <= Score(k, newWords))
          && (forall j | k < j < |knownTopics| :: Score(j, newWords) < Score(k, newWords))
      else id == freshId
    }

    method FindOrCreateTopic(freshId: string) returns (id: string)
      ensures IsReuse(id, WordsOf(words, recentMessages), freshId)
    {
      hide IntersectionRatio, WordsOf;
      var newWords := WordsOf(words, recentMessages);
      var best: Option<nat> := None;
      for i := 0 to |knownTopics|
        invariant best.None? ==> forall j | 0 <= j < i :: Score(j, newWords) < TOPIC_REUSE_THRESHOLD
        invariant best.Some? ==> best.value < i && Score(best.value, newWords) >= TOPIC_REUSE_THRESHOLD
        invariant best.Some? ==> forall j | 0 <= j <= best.value :: Score(j, newWords) <= Score(best.value, newWords)
        invariant best.Some? ==> forall j | best.value < j < i :: Score(j, newWords) < Score(best.value, newWords)
      {
        var score := IntersectionRatio(words(knownTopics[i].text), newWords);
        if score >= TOPIC_REUSE_THRESHOLD {
          if best.None? || score >= IntersectionRatio(words(knownTopics[best.value].text), newWords) {
            best := Some(i);
          }
        }
      }
      id := if best.Some? then knownTopics[best.value].id else freshId;
    }

    /** Overlap of the message with the words of the earlier messages of the window. */
    ghost function Overlap(newMessage: string): real
      requires |recentMessages| >= 1
      reads this`recentMessages
    {
      IntersectionRatio(WordsOf(words, recentMessages[..|recentMessages| - 1]), words(newMessage))
    }

    /** There is something to compare with. */
    ghost predicate HasBaseline()
      reads this`recentMessages
    {
      |recentMessages| >= 2 && WordsOf(words, recentMessages[..|recentMessages| - 1]) != {}
    }

    /** The message overlaps with the window before it by less than `threshold`. */
    ghost predicate Drifts(newMessage: string, threshold: real)
      reads this`recentMessages
    {
      HasBaseline() && Overlap(newMessage) < threshold
    }

    lemma ByCounts(newMessage: string)
      requires recentMessages != []
      ensures var earlier := WordsOf(words, recentMessages[..|recentMessages| - 1]);
              var shared := earlier * words(newMessage);
              && (|recentMessages| < 2 ==> earlier == {})
              && (earlier == {} ==> shared == {})
              && (earlier != {} ==>
                    && (Overlap(newMessage) < RELATED_TOPIC_THRESHOLD <==> 10 * |shared| < 3 * |earlier|)
                    && (Overlap(newMessage) < SAME_TOPIC_THRESHOLD <==> 10 * |shared| < 6 * |earlier|))
    {
      var earlier := WordsOf(words, recentMessages[..|recentMessages| - 1]);
      if earlier != {} {
        RatioByCounts(earlier, words(newMessage), 3);
        RatioByCounts(earlier, words(newMessage), 6);
      }
    }

    /** Keyword comparison of one message with the window before it. */
    method CheckAndSwitch(newMessage: string, freshId: string) returns (result: SwitchResult)
      requires |recentMessages| <= 5
      modifies this
      ensures |recentMessages| <= 5 && knownTopics == old(knownTopics)
      // the window now ends with the message, and has at most five
      ensures var all := old(recentMessages) + [newMessage];
              recentMessages == if |all| <= 5 then all else all[|all| - 5..]
      ensures recentMessages != [] && recentMessages[|recentMessages| - 1] == newMessage
      ensures result.SameTopic? <==> !HasBaseline() || Overlap(newMessage) >= SAME_TOPIC_THRESHOLD
      ensures result.PartialDrift? <==>
                HasBaseline() && RELATED_TOPIC_THRESHOLD <= Overlap(newMessage) < SAME_TOPIC_THRESHOLD
      ensures (result.SameTopic? <==> !Drifts(newMessage, SAME_TOPIC_THRESHOLD))
              && (result.Switched? <==> Drifts(newMessage, RELATED_TOPIC_THRESHOLD))
      // in numbers of words: those of the earlier window, and those of them that the message shares
      ensures var earlier := WordsOf(words, recentMessages[..|recentMessages| - 1]);
              var shared := earlier * words(newMessage);
              && (result.Switched? <==> 10 * |shared| < 3 * |earlier|)
              && (result.PartialDrift? <==> 3 * |earlier| <= 10 * |shared| < 6 * |earlier|)
              && (result.SameTopic? <==> 10 * |shared| >= 6 * |earlier|)
      ensures !result.Switched? ==> currentTopicId == old(currentTopicId)
      ensures result.Switched? ==>
                currentTopicId == result.newTopicId && IsReuse(result.newTopicId, WordsOf(words, recentMessages), freshId)
    {
      hide WordsOf, IntersectionRatio, IsReuse;
      PushRecentMessage(newMessage);
      var recent := recentMessages;
      ByCounts(newMessage);
      if |recent| < 2 {
        return SameTopic;
      }
      var historyWords := WordsOf(words, recent[..|recent| - 1]);
      if historyWords == {} {
        return SameTopic;
      }
      var overlap := IntersectionRatio(historyWords, words(newMessage));
      if overlap >= SAME_TOPIC_THRESHOLD {
        return SameTopic;
      } else if overlap >= RELATED_TOPIC_THRESHOLD {
        return PartialDrift;
      }
      var newTopic := FindOrCreateTopic(freshId);
      currentTopicId := newTopic;
      return Switched(newTopic);
    }

    /** Labels a topic: the first known one with this id is relabelled, or one is added; nothing else changes. */
    method RegisterTopic(id: string, text: string)
      modifies this`knownTopics
      ensures exists k | 0 <= k < |knownTopics| :: knownTopics[k] == KnownTopic(id, text)
      ensures (forall j | 0 <= j < |old(knownTopics)| :: old(knownTopics)[j].id != id) ==>
                knownTopics == old(knownTopics) + [KnownTopic(id, text)]
      ensures forall j | 0 <= j < |old(knownTopics)| && old(knownTopics)[j].id == id
                         && (forall i | 0 <= i < j :: old(knownTopics)[i].id != id) ::
                knownTopics == old(knownTopics)[j := KnownTopic(id, text)]
      ensures (forall i, j | 0 <= i < j < |old(knownTopics)| :: old(knownTopics)[i].id != old(knownTopics)[j].id) ==>
                forall i, j | 0 <= i < j < |knownTopics| :: knownTopics[i].id != knownTopics[j].id
    {
      for i := 0 to |knownTopics|
        invariant knownTopics == old(knownTopics)
        invariant forall j | 0 <= j < i :: knownTopics[j].id != id
      {
        if knownTopics[i].id == id {
          knownTopics := knownTopics[i := KnownTopic(id, text)];
          assert knownTopics[i] == KnownTopic(id, text);
          return;
        }
      }
      knownTopics := knownTopics + [KnownTopic(id, text)];
      assert knownTopics[|knownTopics| - 1] == KnownTopic(id, text);
    }
  }
}
