/**
 Rule-based routing.  A glob is compiled to regular-expression text; the text is parsed back
 in the fragment the compiler emits, and the anchored expression is compared with the glob.
 */
module Router {
  import opened Wrappers
  import opened Text
  import opened Glob

  /** The routing dialect: `*` is any run and `?` is any one character. */
  function RouteToken(c: char): Token {
    if c == '*' then AnySeq else if c == '?' then AnyChar else Lit(c)
  }

  function RouteTokens(glob: string): (toks: seq<Token>)
    ensures |toks| == |glob|
    ensures forall i | 0 <= i < |glob| :: toks[i] == RouteToken(glob[i])
  {
    seq(|glob|, i requires 0 <= i < |glob| => RouteToken(glob[i]))
  }

  /** Characters the compiler escapes. */
  predicate Escaped(c: char) {
    c in ".+^${}[]()|\\"
  }

  /** Characters with a meaning of their own in regular-expression text. */
  predicate Special(c: char) {
    c in "\\.+*?()|[]{}^$"
  }

  function CompileChar(c: char): string {
    if c == '*' then ".*" else if c == '?' then "." else if Escaped(c) then ['\\', c] else [c]
  }

  function Compiled(glob: string): string {
    if glob == "" then "" else CompileChar(glob[0]) + Compiled(glob[1..])
  }

  lemma {:induction false} CompiledSnoc(s: string, c: char)
    ensures Compiled(s + [c]) == Compiled(s) + CompileChar(c)
  {
    hide CompileChar;
    if s == "" {
      assert (s + [c])[1..] == "" && Compiled("") == "";
    } else {
      assert (s + [c])[1..] == s[1..] + [c];
      CompiledSnoc(s[1..], c);
    }
  }

  method GlobToRegex(glob: string) returns (regex: string)
    ensures regex == Compiled(glob)
    ensures ParseRegex(regex) == Some(RouteTokens(glob))
  {
    regex := "";
    for i := 0 to |glob|
      invariant regex == Compiled(glob[..i])
    {
      var ch := glob[i];
      CompiledSnoc(glob[..i], ch);
      assert glob[..i + 1] == glob[..i] + [ch];
      if ch == '*' {
        regex := regex + ".*";
      } else if ch == '?' {
        regex := regex + ['.'];
      } else if Escaped(ch) {
        regex := regex + ['\\'];
        regex := regex + [ch];
      } else {
        regex := regex + [ch];
      }
    }
    assert glob[..|glob|] == glob;
    CompiledParses(glob);
  }

  // ---- the regular-expression fragment ----

  /** `.*`, `.`, an escaped special character, or a plain character; anything else is rejected. */
  function ParseRegex(text: string): Option<seq<Token>>
    decreases |text|
  {
    if text == "" then Some([])
    else if text[0] == '.' then
      if |text| > 1 && text[1] == '*' then Prepend(AnySeq, ParseRegex(text[2..]))
      else Prepend(AnyChar, ParseRegex(text[1..]))
    else if text[0] == '\\' then
      if |text| > 1 && Special(text[1]) then Prepend(Lit(text[1]), ParseRegex(text[2..])) else None
    else if Special(text[0]) then None
    else Prepend(Lit(text[0]), ParseRegex(text[1..]))
  }

  function Prepend(tok: Token, toks: Option<seq<Token>>): Option<seq<Token>> {
    match toks
    case Some(ts) => Some([tok] + ts)
    case None => None
  }

  /** Compiled text never starts with a bare quantifier. */
  lemma CompiledHead(glob: string)
    ensures Compiled(glob) != "" ==> Compiled(glob)[0] != '*'
  {
    if glob != "" {
      assert Compiled(glob)[0] == CompileChar(glob[0])[0];
    }
  }

  /** The text of one character is read as its token. */
  lemma ParsesChar(c: char, rest: string)
    requires rest != "" ==> rest[0] != '*'
    ensures ParseRegex(CompileChar(c) + rest) == Prepend(RouteToken(c), ParseRegex(rest))
  {
    var text := CompileChar(c) + rest;
    assert text[|CompileChar(c)|..] == rest;
  }

  /** Compilation is inverted by parsing. */
  lemma {:induction false} CompiledParses(glob: string)
    ensures ParseRegex(Compiled(glob)) == Some(RouteTokens(glob))
  {
    if glob != "" {
      var rest := Compiled(glob[1..]);
      CompiledParses(glob[1..]);
      CompiledHead(glob[1..]);
      assert RouteTokens(glob) == [RouteToken(glob[0])] + RouteTokens(glob[1..]);
      hide Compiled, RouteTokens;
      ParsesChar(glob[0], rest);
    }
  }

  /** Match of an anchored expression: neither `.` nor `.*` consumes a line feed. */
  predicate RegexMatches(toks: seq<Token>, text: string)
    decreases |toks|
  {
    if toks == [] then text == ""
    else match toks[0]
      case Lit(c) => text != "" && text[0] == c && RegexMatches(toks[1..], text[1..])
      case AnyChar => text != "" && text[0] != '\n' && RegexMatches(toks[1..], text[1..])
      case AnySeq => exists k | 0 <= k <= |text| :: '\n' !in text[..k] && RegexMatches(toks[1..], text[k..])
  }

  /** The regular expression never accepts more than the glob denotes. */
  lemma {:induction false} RegexSound(toks: seq<Token>, text: string)
    requires RegexMatches(toks, text)
    ensures Denotes(toks, text)
    decreases |toks|
  {
    if toks != [] {
      if toks[0].AnySeq? {
        var k :| 0 <= k <= |text| && '\n' !in text[..k] && RegexMatches(toks[1..], text[k..]);
        RegexSound(toks[1..], text[k..]);
      } else {
        RegexSound(toks[1..], text[1..]);
      }
    }
  }

  /** On text without line feeds the two agree. */
  lemma {:induction false} RegexComplete(toks: seq<Token>, text: string)
    requires '\n' !in text
    ensures RegexMatches(toks, text) <==> Denotes(toks, text)
    decreases |toks|
  {
    if RegexMatches(toks, text) {
      RegexSound(toks, text);
    }
    if toks != [] && Denotes(toks, text) {
      if toks[0].AnySeq? {
        var k :| 0 <= k <= |text| && Denotes(toks[1..], text[k..]);
        RegexComplete(toks[1..], text[k..]);
      } else {
        RegexComplete(toks[1..], text[1..]);
      }
    }
  }

  function LineFeeds(s: string): nat {
    if s == "" then 0 else (if s[0] == '\n' then 1 else 0) + LineFeeds(s[1..])
  }

  lemma {:induction false} LineFeedsConcat(a: string, b: string)
    ensures LineFeeds(a + b) == LineFeeds(a) + LineFeeds(b)
  {
    if a == "" {
      assert a + b == b;
    } else {
      assert (a + b)[1..] == a[1..] + b;
      LineFeedsConcat(a[1..], b);
    }
  }

  lemma LineFeedsSplit(s: string, k: nat)
    requires k <= |s|
    ensures LineFeeds(s) == LineFeeds(s[..k]) + LineFeeds(s[k..])
  {
    LineFeedsConcat(s[..k], s[k..]);
    assert s == s[..k] + s[k..];
  }

  lemma {:induction false} NoLineFeeds(s: string)
    requires '\n' !in s
    ensures LineFeeds(s) == 0
  {
    if s != "" {
      NoLineFeeds(s[1..]);
    }
  }

  /** An accepted text has exactly the glob's own line feeds. */
  lemma {:induction false} RegexCountsLineFeeds(glob: string, text: string)
    requires RegexMatches(RouteTokens(glob), text)
    ensures LineFeeds(text) == LineFeeds(glob)
  {
    if glob != "" {
      assert RouteTokens(glob)[1..] == RouteTokens(glob[1..]);
      if glob[0] == '*' {
        var k :| 0 <= k <= |text| && '\n' !in text[..k] && RegexMatches(RouteTokens(glob)[1..], text[k..]);
        RegexCountsLineFeeds(glob[1..], text[k..]);
        NoLineFeeds(text[..k]);
        LineFeedsSplit(text, k);
      } else {
        RegexCountsLineFeeds(glob[1..], text[1..]);
      }
    }
  }

  predicate HasWildcard(glob: string) {
    '*' in glob || '?' in glob
  }

  /** The text in which every wildcard of the glob is played by a line feed. */
  function WildcardsAsLineFeeds(glob: string): (text: string)
    ensures |text| == |glob|
  {
    if glob == "" then ""
    else [if glob[0] in "*?" then '\n' else glob[0]] + WildcardsAsLineFeeds(glob[1..])
  }

  lemma {:induction false} LineFeedWitness(glob: string)
    ensures Denotes(RouteTokens(glob), WildcardsAsLineFeeds(glob))
    ensures LineFeeds(WildcardsAsLineFeeds(glob)) >= LineFeeds(glob)
    ensures HasWildcard(glob) ==> LineFeeds(WildcardsAsLineFeeds(glob)) > LineFeeds(glob)
  {
    if glob != "" {
      LineFeedWitness(glob[1..]);
      assert RouteTokens(glob)[1..] == RouteTokens(glob[1..]);
      var text := WildcardsAsLineFeeds(glob);
      assert text[1..] == WildcardsAsLineFeeds(glob[1..]);
    }
  }

  lemma {:induction false} PlainRegex(glob: string, text: string)
    requires !HasWildcard(glob)
    ensures RegexMatches(RouteTokens(glob), text) <==> Denotes(RouteTokens(glob), text)
  {
    if glob != "" {
      assert RouteTokens(glob)[1..] == RouteTokens(glob[1..]);
      if text != "" {
        PlainRegex(glob[1..], text[1..]);
      }
    }
  }

  /**
   Compiling a glob keeps its meaning on every text exactly when the glob has no wildcard:
   a wildcard never stands for a line feed after compilation.
   */
  lemma CompilationExactOnAllTexts(glob: string)
    ensures (forall text :: RegexMatches(RouteTokens(glob), text) <==> Denotes(RouteTokens(glob), text))
        <==> !HasWildcard(glob)
  {
    if HasWildcard(glob) {
      var text := WildcardsAsLineFeeds(glob);
      LineFeedWitness(glob);
      assert !RegexMatches(RouteTokens(glob), text) by {
        if RegexMatches(RouteTokens(glob), text) {
          RegexCountsLineFeeds(glob, text);
        }
      }
    } else {
      forall text { PlainRegex(glob, text); }
    }
  }

  /** What the router decides for one glob and one text. */
  predicate RouteMatches(glob: string, text: string) {
    match ParseRegex(Compiled(glob))
    case Some(toks) => RegexMatches(toks, text)
    case None => false
  }

  /** Compilation followed by matching is the glob's meaning on line-feed-free text. */
  lemma CompilationPreservesMeaning(glob: string, text: string)
    requires '\n' !in text
    ensures RouteMatches(glob, text) <==> Denotes(RouteTokens(glob), text)
  {
    CompiledParses(glob);
    RegexComplete(RouteTokens(glob), text);
  }

  /** For `?`-free globs the allowlist matcher accepts only what the router accepts. */
  lemma AllowlistWithinRouter(glob: string, text: string)
    requires '?' !in glob && '\n' !in text && Accepts(glob, text)
    ensures RouteMatches(glob, text)
  {
    assert RouteTokens(glob) == StarTokens(glob);
    CompilationPreservesMeaning(glob, text);
  }

  // ---- rules ----

  datatype RoutingRule = RoutingRule(
    channelPattern: Option<string>, senderId: Option<string>, senderName: Option<string>,
    isDefault: bool, agent: string)

  datatype Inbound = Inbound(channel: string, senderId: string, senderName: string)

  /** A rule for a channel, for a sender's id, for a sender's name, or for everything. */
  lemma RuleExactly(rule: RoutingRule, msg: Inbound, glob: string, id: string)
    ensures rule.channelPattern == Some(glob) && '\n' !in msg.channel ==>
              (RuleMatches(rule, msg) <==> Denotes(RouteTokens(glob), msg.channel))
    ensures rule.channelPattern.None? && rule.senderId == Some(id) ==> (RuleMatches(rule, msg) <==> msg.senderId == id)
    ensures rule.channelPattern.None? && rule.senderId.None? && rule.senderName == Some(glob) && '\n' !in msg.senderName ==>
              (RuleMatches(rule, msg) <==> Denotes(RouteTokens(glob), msg.senderName))
    ensures rule.channelPattern.None? && rule.senderId.None? && rule.senderName.None? ==>
              (RuleMatches(rule, msg) <==> rule.isDefault)
  {
    if '\n' !in msg.channel { CompilationPreservesMeaning(glob, msg.channel); }
    if '\n' !in msg.senderName { CompilationPreservesMeaning(glob, msg.senderName); }
  }

  /** A rule is judged by its first filled field only. */
  predicate RuleMatches(rule: RoutingRule, msg: Inbound) {
    if rule.channelPattern.Some? then RouteMatches(rule.channelPattern.value, msg.channel)
    else if rule.senderId.Some? then rule.senderId.value == msg.senderId
    else if rule.senderName.Some? then RouteMatches(rule.senderName.value, msg.senderName)
    else rule.isDefault
  }

  class AgentRouter {
    const rules: seq<RoutingRule>

    constructor (rules: seq<RoutingRule>)
      ensures this.rules == rules
    {
      this.rules := rules;
    }

    /** The agent of the first matching rule, in list order. */
    method Route(msg: Inbound) returns (agent: Option<string>)
      ensures agent.None? <==> forall i | 0 <= i < |rules| :: !RuleMatches(rules[i], msg)
      ensures agent.Some? ==> exists i | 0 <= i < |rules| ::
                RuleMatches(rules[i], msg) && agent.value == rules[i].agent
                && forall j | 0 <= j < i :: !RuleMatches(rules[j], msg)
    {
      for i := 0 to |rules|
        invariant forall j | 0 <= j < i :: !RuleMatches(rules[j], msg)
      {
        var rule := rules[i];
        if rule.channelPattern.Some? {
          var hit := Matched(rule.channelPattern.value, msg.channel);
          if hit { return Some(rule.agent); }
        } else if rule.senderId.Some? {
          if rule.senderId.value == msg.senderId { return Some(rule.agent); }
        } else if rule.senderName.Some? {
          var hit := Matched(rule.senderName.value, msg.senderName);
          if hit { return Some(rule.agent); }
        } else if rule.isDefault {
          return Some(rule.agent);
        }
      }
      return None;
    }

    /** Compile, then match the anchored expression. */
    static method Matched(glob: string, text: string) returns (hit: bool)
      ensures hit == RouteMatches(glob, text)
      ensures '\n' !in text ==> (hit <==> Denotes(RouteTokens(glob), text))
    {
      var regex := GlobToRegex(glob);
      match ParseRegex(regex) {
        case Some(toks) => hit := RegexMatches(toks, text);
        case None => hit := false;
      }
      if '\n' !in text {
        CompilationPreservesMeaning(glob, text);
      }
    }
  }
}
