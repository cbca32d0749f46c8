/**
 Tool calls in reply text: fenced blocks first, then tagged blocks, then the shortened line
 format.  The JSON codec is a parameter.
 */
module ToolCalls {
  import opened Wrappers
  import opened Text
  import Utf8

  /** A decoded call object with a string `name`; `canonical` is its printed JSON. */
  datatype Call = Call(canonical: string, name: string, arguments: string)

  /**
   `call` trims and decodes one valid call object, `json` decodes any JSON text, and `build` is
   the call object made of a name and decoded arguments.
   */
  datatype Codec = Codec(call: string -> Option<Call>, json: string -> Option<string>, build: (string, string) -> Call)

  /** The calls of a list of JSON texts, those that do not decode being skipped. */
  function Decoded(codec: Codec, texts: seq<string>): seq<Call> {
    if texts == [] then [] else Decode(codec, texts[0]) + Decoded(codec, texts[1..])
  }

  lemma {:induction false} DecodedConcat(codec: Codec, a: seq<string>, b: seq<string>)
    ensures Decoded(codec, a + b) == Decoded(codec, a) + Decoded(codec, b)
  {
    if a == [] {
      assert a + b == b;
    } else {
      assert (a + b)[1..] == a[1..] + b;
      DecodedConcat(codec, a[1..], b);
    }
  }

  /** The calls are those that the texts decode to; a text that decodes to none is skipped. */
  lemma {:induction false} DecodedMembers(codec: Codec, texts: seq<string>)
    ensures forall c :: c in Decoded(codec, texts) <==> exists t | t in texts :: codec.call(t) == Some(c)
  {
    if texts != [] {
      DecodedMembers(codec, texts[1..]);
      assert texts == [texts[0]] + texts[1..];
      hide Decoded;
      forall c ensures c in Decoded(codec, texts) <==> exists t | t in texts :: codec.call(t) == Some(c) {
        assert Decoded(codec, texts) == Decode(codec, texts[0]) + Decoded(codec, texts[1..]) by { DecodedFirst(codec, texts[0], texts[1..]); }
        assert c in Decode(codec, texts[0]) <==> codec.call(texts[0]) == Some(c);
      }
    }
  }

  /** If every text decodes, the calls are the decoded texts in order. */
  lemma {:induction false} DecodedInOrder(codec: Codec, texts: seq<string>)
    requires forall t | t in texts :: codec.call(t).Some?
    ensures |Decoded(codec, texts)| == |texts|
    ensures forall i | 0 <= i < |texts| :: codec.call(texts[i]) == Some(Decoded(codec, texts)[i])
  {
    if texts != [] {
      assert texts[0] in texts && forall t | t in texts[1..] :: t in texts;
      DecodedInOrder(codec, texts[1..]);
    }
  }

  // ---- tagged blocks ----

  /** Bodies between an opening tag and the next closing tag, scanning on behind it. */
  function TaggedBodies(content: string, open: string, close: string, from: nat): seq<string>
    requires open != "" && from <= |content|
    decreases |content| - from
  {
    match Find(content, open, from)
    case None => []
    case Some(start) =>
      match Find(content, close, start + |open|)
      case None => []
      case Some(end) =>
        [content[start + |open|..end]] + TaggedBodies(content, open, close, end + |close|)
  }

  function Decode(codec: Codec, text: string): seq<Call> {
    match codec.call(text) case Some(c) => [c] case None => []
  }

  lemma TagStep(content: string, open: string, close: string, from: nat, start: nat, end: nat)
    requires open != "" && from <= |content| && Find(content, open, from) == Some(start)
    requires Find(content, close, start + |open|) == Some(end)
    ensures TaggedBodies(content, open, close, from)
         == [content[start + |open|..end]] + TaggedBodies(content, open, close, end + |close|)
  {
  }

  lemma DecodedFirst(codec: Codec, text: string, texts: seq<string>)
    ensures Decoded(codec, [text] + texts) == Decode(codec, text) + Decoded(codec, texts)
  {
    assert ([text] + texts)[1..] == texts;
  }

  /** The calls found by one scan. */
  function TaggedCalls(codec: Codec, content: string, open: string, close: string, from: nat): seq<Call>
    requires open != "" && from <= |content|
    decreases |content| - from
  {
    match Find(content, open, from)
    case None => []
    case Some(start) =>
      match Find(content, close, start + |open|)
      case None => []
      case Some(end) =>
        Decode(codec, content[start + |open|..end]) + TaggedCalls(codec, content, open, close, end + |close|)
  }

  lemma OneMoreTag(codec: Codec, content: string, open: string, close: string, from: nat, start: nat, end: nat)
    requires open != "" && from <= |content|
    requires Find(content, open, from) == Some(start) && Find(content, close, start + |open|) == Some(end)
    requires TaggedCalls(codec, content, open, close, end + |close|) == Decoded(codec, TaggedBodies(content, open, close, end + |close|))
    ensures TaggedCalls(codec, content, open, close, from) == Decoded(codec, TaggedBodies(content, open, close, from))
  {
    hide Find, Decode, Decoded;
    DecodedFirst(codec, content[start + |open|..end], TaggedBodies(content, open, close, end + |close|));
  }

  lemma {:induction false} TaggedCallsAreDecoded(codec: Codec, content: string, open: string, close: string, from: nat)
    requires open != "" && from <= |content|
    ensures TaggedCalls(codec, content, open, close, from) == Decoded(codec, TaggedBodies(content, open, close, from))
    decreases |content| - from
  {
    hide Find, Decode;
    match Find(content, open, from)
    case None =>
    case Some(start) =>
      match Find(content, close, start + |open|)
      case None =>
      case Some(end) =>
        TaggedCallsAreDecoded(codec, content, open, close, end + |close|);
        OneMoreTag(codec, content, open, close, from, start, end);
  }

  const XML_TAG_NAMES: seq<string> := ["tool_call", "function_call", "invoke"]

  function OpenTag(tag: string): string { "<" + tag + ">" }

  function CloseTag(tag: string): string { "</" + tag + ">" }

  function XmlBodies(content: string, tags: seq<string>): seq<string> {
    if tags == [] then []
    else TaggedBodies(content, OpenTag(tags[0]), CloseTag(tags[0]), 0) + XmlBodies(content, tags[1..])
  }

  /** The calls found so far, with those still to come, are all calls of the scan. */
  ghost predicate ScannedTo(codec: Codec, content: string, open: string, close: string, calls: seq<Call>, from: nat)
    requires open != "" && from <= |content|
  {
    calls + TaggedCalls(codec, content, open, close, from) == TaggedCalls(codec, content, open, close, 0)
  }

  lemma ScanStep(codec: Codec, content: string, open: string, close: string, calls: seq<Call>, from: nat, start: nat,
      end: nat)
    requires open != "" && from <= |content| && ScannedTo(codec, content, open, close, calls, from)
    requires Find(content, open, from) == Some(start) && Find(content, close, start + |open|) == Some(end)
    ensures ScannedTo(codec, content, open, close, calls + Decode(codec, content[start + |open|..end]), end + |close|)
  {
    hide Find, Decode;
    Associative(calls, Decode(codec, content[start + |open|..end]), TaggedCalls(codec, content, open, close, end + |close|));
  }

  lemma ScanEnd(codec: Codec, content: string, open: string, close: string, calls: seq<Call>, from: nat)
    requires open != "" && from <= |content| && ScannedTo(codec, content, open, close, calls, from)
    requires Find(content, open, from).None? || Find(content, close, Find(content, open, from).value + |open|).None?
    ensures calls == Decoded(codec, TaggedBodies(content, open, close, 0))
  {
    hide Find;
    TaggedCallsAreDecoded(codec, content, open, close, 0);
  }

  lemma ScanStart(codec: Codec, content: string, open: string, close: string)
    requires open != ""
    ensures ScannedTo(codec, content, open, close, [], 0)
  {
    hide TaggedCalls;
  }

  /** The scan for one tag. */
  method ParseTag(codec: Codec, content: string, open: string, close: string) returns (calls: seq<Call>)
    requires open != ""
    ensures calls == Decoded(codec, TaggedBodies(content, open, close, 0))
  {
    hide *;
    calls := [];
    var search: nat := 0;
    ScanStart(codec, content, open, close);
    while true
      invariant search <= |content| && ScannedTo(codec, content, open, close, calls, search)
      decreases |content| - search
    {
      var start := Find(content, open, search);
      if start.None? {
        ScanEnd(codec, content, open, close, calls, search);
        return;
      }
      var afterOpen := start.value + |open|;
      var end := Find(content, close, afterOpen);
      if end.None? {
        ScanEnd(codec, content, open, close, calls, search);
        return;
      }
      ScanStep(codec, content, open, close, calls, search, start.value, end.value);
      var inner := content[afterOpen..end.value];
      calls := calls + Decode(codec, inner);
      search := end.value + |close|;
    }
  }

  method ParseXmlTags(codec: Codec, content: string, tags: seq<string>) returns (calls: seq<Call>)
    ensures calls == Decoded(codec, XmlBodies(content, tags))
  {
    calls := [];
    ghost var bodies: seq<string> := [];
    for t := 0 to |tags|
      invariant bodies + XmlBodies(content, tags[t..]) == XmlBodies(content, tags)
      invariant calls == Decoded(codec, bodies)
    {
      assert tags[t..][1..] == tags[t + 1..];
      var found := ParseTag(codec, content, OpenTag(tags[t]), CloseTag(tags[t]));
      ghost var more := TaggedBodies(content, OpenTag(tags[t]), CloseTag(tags[t]), 0);
      calls := calls + found;
      DecodedConcat(codec, bodies, more);
      Associative(bodies, more, XmlBodies(content, tags[t + 1..]));
      bodies := bodies + more;
    }
    assert bodies + [] == bodies;
  }

  /** Prose and a call, as the tool protocol asks the model to write them. */
  datatype Block = Block(prose: string, body: string)

  function RenderTagged(open: string, close: string, blocks: seq<Block>, tail: string): string {
    if blocks == [] then tail
    else blocks[0].prose + (open + (blocks[0].body + (close + RenderTagged(open, close, blocks[1..], tail))))
  }

  function Bodies(blocks: seq<Block>): seq<string> {
    if blocks == [] then [] else [blocks[0].body] + Bodies(blocks[1..])
  }

  /** Prose does not open a block and a body does not close one. */
  predicate FollowsProtocol(open: string, close: string, blocks: seq<Block>, tail: string) {
    && (forall b | b in blocks :: !Contains(b.prose, open) && !Contains(b.body, close))
    && !Contains(tail, open)
  }

  /** Text in front of a suffix's rest, by position. */
  lemma SuffixPieces(content: string, from: nat, a: string, b: string)
    requires from <= |content| && content[from..] == a + b
    ensures from + |a| <= |content| && OccursAt(content, a, from) && content[from + |a|..] == b
  {
    forall k | 0 <= k < |a| ensures content[from + k] == a[k] {
      assert content[from + k] == content[from..][k];
    }
    assert content[from + |a|..] == content[from..][|a|..];
  }

  /** The first marker behind a marker-free text is the one that follows it. */
  lemma MarkerBehind(content: string, mark: string, from: nat, mid: string, rest: string)
    requires IsMarker(mark) && !Contains(mid, mark)
    requires from <= |content| && content[from..] == mid + (mark + rest)
    ensures from + |mid| + |mark| <= |content| && content[from + |mid| + |mark|..] == rest
    ensures Find(content, mark, from) == Some(from + |mid|)
    ensures content[from..from + |mid|] == mid
  {
    SuffixPieces(content, from, mid, mark + rest);
    SuffixPieces(content, from + |mid|, mark, rest);
    FindMarker(content, mark, from, mid);
  }

  /** Scanning a rendered reply finds exactly the bodies, in order. */
  lemma {:induction false} TaggedBodiesOfRendered(open: string, close: string, content: string, from: nat,
      blocks: seq<Block>, tail: string)
    requires IsMarker(open) && IsMarker(close) && FollowsProtocol(open, close, blocks, tail)
    requires from <= |content| && content[from..] == RenderTagged(open, close, blocks, tail)
    ensures TaggedBodies(content, open, close, from) == Bodies(blocks)
    decreases |blocks|
  {
    hide Find;
    if blocks == [] {
      FindNothing(content, open, from);
    } else {
      assert blocks[0] in blocks;
      var b, rest := blocks[0], RenderTagged(open, close, blocks[1..], tail);
      var start := from + |b.prose|;
      var end := start + |open| + |b.body|;
      MarkerBehind(content, open, from, b.prose, b.body + (close + rest));
      MarkerBehind(content, close, start + |open|, b.body, rest);
      TagStep(content, open, close, from, start, end);
      TaggedBodiesOfRendered(open, close, content, end + |close|, blocks[1..], tail);
    }
  }

  // ---- fenced blocks ----

  predicate OpensFence(line: string) {
    Trim(line) == "```tool_call" || Trim(line) == "```function_call"
  }

  predicate ClosesFence(line: string) {
    Trim(line) == "```"
  }

  datatype Fencing = Fencing(opens: string -> bool, closes: string -> bool)

  const TOOL_FENCES := Fencing(line => OpensFence(line), line => ClosesFence(line))

  /** Bodies of the fenced blocks; `buf` holds the lines of an open block. */
  function FencedBodies(fencing: Fencing, lines: seq<string>, inBlock: bool, buf: string): seq<string>
    decreases |lines|
  {
    if lines == [] then []
    else if !inBlock then FencedBodies(fencing, lines[1..], fencing.opens(lines[0]), "")
    else if fencing.closes(lines[0]) then [buf] + FencedBodies(fencing, lines[1..], false, "")
    else FencedBodies(fencing, lines[1..], true, buf + lines[0] + ['\n'])
  }

  method ParseMarkdownFence(codec: Codec, content: string, fencing: Fencing) returns (calls: seq<Call>)
    ensures calls == Decoded(codec, FencedBodies(fencing, Lines(content), false, ""))
  {
    calls := [];
    var inBlock := false;
    var buf := "";
    var lines := Lines(content);
    for i := 0 to |lines|
      invariant calls + Decoded(codec, FencedBodies(fencing, lines[i..], inBlock, buf))
             == Decoded(codec, FencedBodies(fencing, lines, false, ""))
      invariant !inBlock ==> buf == ""
    {
      var line := lines[i];
      assert lines[i..][1..] == lines[i + 1..];
      if !inBlock {
        if fencing.opens(line) {
          inBlock := true;
          buf := "";
        }
      } else if fencing.closes(line) {
        inBlock := false;
        var rest := FencedBodies(fencing, lines[i + 1..], false, "");
        DecodedFirst(codec, buf, rest);
        Associative(calls, Decode(codec, buf), Decoded(codec, rest));
        calls := calls + Decode(codec, buf);
        buf := "";
      } else {
        buf := buf + line + ['\n'];
      }
    }
  }

  datatype Fence = Fence(prose: seq<string>, body: seq<string>)

  function RenderFenced(open: string, close: string, fences: seq<Fence>, tail: seq<string>): seq<string> {
    if fences == [] then tail
    else fences[0].prose + ([open] + (fences[0].body + ([close] + RenderFenced(open, close, fences[1..], tail))))
  }

  predicate FencesFollowProtocol(fencing: Fencing, fences: seq<Fence>, tail: seq<string>) {
    && (forall f | f in fences ::
          (forall l | l in f.prose :: !fencing.opens(l)) && (forall l | l in f.body :: !fencing.closes(l)))
    && (forall l | l in tail :: !fencing.opens(l))
  }

  function FenceTexts(fences: seq<Fence>): seq<string> {
    if fences == [] then [] else [Unlines(fences[0].body)] + FenceTexts(fences[1..])
  }

  lemma {:induction false} SkipProse(fencing: Fencing, prose: seq<string>, rest: seq<string>)
    requires forall l | l in prose :: !fencing.opens(l)
    ensures FencedBodies(fencing, prose + rest, false, "") == FencedBodies(fencing, rest, false, "")
  {
    if prose == [] {
      assert prose + rest == rest;
    } else {
      assert (prose + rest)[1..] == prose[1..] + rest;
      SkipProse(fencing, prose[1..], rest);
    }
  }

  lemma {:induction false} CollectBody(fencing: Fencing, body: seq<string>, rest: seq<string>, buf: string)
    requires forall l | l in body :: !fencing.closes(l)
    ensures FencedBodies(fencing, body + rest, true, buf) == FencedBodies(fencing, rest, true, buf + Unlines(body))
    decreases |body|
  {
    if body == [] {
      assert body + rest == rest && buf + Unlines(body) == buf;
    } else {
      assert (body + rest)[1..] == body[1..] + rest;
      CollectBody(fencing, body[1..], rest, buf + body[0] + ['\n']);
      assert buf + body[0] + ['\n'] + Unlines(body[1..]) == buf + Unlines(body);
    }
  }

  /** One fenced block behind its prose. */
  lemma OneFence(fencing: Fencing, prose: seq<string>, open: string, body: seq<string>, close: string, rest: seq<string>)
    requires forall l | l in prose :: !fencing.opens(l)
    requires forall l | l in body :: !fencing.closes(l)
    requires fencing.opens(open) && fencing.closes(close)
    ensures FencedBodies(fencing, prose + ([open] + (body + ([close] + rest))), false, "")
         == [Unlines(body)] + FencedBodies(fencing, rest, false, "")
  {
    var inner := body + ([close] + rest);
    SkipProse(fencing, prose, [open] + inner);
    assert ([open] + inner)[1..] == inner;
    CollectBody(fencing, body, [close] + rest, "");
    assert "" + Unlines(body) == Unlines(body) && ([close] + rest)[1..] == rest;
  }

  lemma {:induction false} FencedBodiesOfRendered(fencing: Fencing, open: string, close: string, fences: seq<Fence>,
      tail: seq<string>)
    requires FencesFollowProtocol(fencing, fences, tail) && fencing.opens(open) && fencing.closes(close)
    ensures FencedBodies(fencing, RenderFenced(open, close, fences, tail), false, "") == FenceTexts(fences)
  {
    if fences == [] {
      SkipProse(fencing, tail, []);
      assert tail + [] == tail;
    } else {
      assert fences[0] in fences;
      OneFence(fencing, fences[0].prose, open, fences[0].body, close, RenderFenced(open, close, fences[1..], tail));
      FencedBodiesOfRendered(fencing, open, close, fences[1..], tail);
    }
  }

  /** Only these lines open and close a fence. */
  lemma FenceLines(line: string)
    ensures TOOL_FENCES.opens(line) <==> Trim(line) == "```tool_call" || Trim(line) == "```function_call"
    ensures TOOL_FENCES.closes(line) <==> Trim(line) == "```"
  {
  }

  // ---- shortened calls ----

  function Utf8Length(s: string): nat {
    if s == "" then 0
    else
      var c := s[0] as int;
      (if c < 0x80 then 1 else if c < 0x800 then 2 else if c < 0x10000 then 3 else 4) + Utf8Length(s[1..])
  }

  function Scalars(s: string): (c: seq<int>)
    ensures |c| == |s| && forall i | 0 <= i < |s| :: c[i] == s[i] as int
    ensures Utf8.AllScalars(c)
  {
    seq(|s|, i requires 0 <= i < |s| => s[i] as int)
  }

  /** The length is that of the UTF-8 text. */
  lemma {:induction false} Utf8LengthIsEncoded(s: string)
    ensures Utf8Length(s) == |Utf8.Encode(Scalars(s))|
  {
    if s != "" {
      Utf8LengthIsEncoded(s[1..]);
      assert Scalars(s)[1..] == Scalars(s[1..]);
      Utf8.EncodingSpells(Scalars(s)[0]);
    }
  }

  predicate NotInNames(c: char) {
    c == ' ' || c == '<' || c == '>' || c == '{' || c == '[' || c == '"' || c == '\'' || c == '=' || c == '/' || c == '\\'
  }

  predicate PlainName(name: string) {
    name != "" && Utf8Length(name) <= 64 && forall c | c in name :: !NotInNames(c)
  }

  /** A plain name has 1 to 64 bytes and none of these characters. */
  lemma PlainNameExactly(name: string)
    ensures PlainName(name) <==>
              1 <= |name| && Utf8Length(name) <= 64 && forall c | c in " <>{[\"'=/\\" :: c !in name
  {
    var refused := " <>{[\"'=/\\";
    assert refused == [' ', '<', '>', '{', '[', '"', '\'', '=', '/', '\\'];
    assert forall c :: NotInNames(c) <==> c in refused;
  }

  /** `line` reads as a plain name, `>` and JSON arguments. */
  predicate IsShortened(codec: Codec, line: string) {
    ShortenedCall(codec, line).Some?
  }

  function ShortenedCall(codec: Codec, line: string): Option<Call> {
    var trimmed := Trim(line);
    match IndexOf(trimmed, '>')
    case None => None
    case Some(i) =>
      if !PlainName(trimmed[..i]) then None
      else match codec.json(Trim(trimmed[i + 1..]))
        case None => None
        case Some(arguments) => Some(codec.build(trimmed[..i], arguments))
  }

  function ShortenedCalls(codec: Codec, lines: seq<string>): seq<Call> {
    if lines == [] then []
    else
      var n := |lines| - 1;
      ShortenedCalls(codec, lines[..n]) + (match ShortenedCall(codec, lines[n]) case Some(c) => [c] case None => [])
  }

  method ParseShortened(codec: Codec, content: string) returns (calls: seq<Call>)
    ensures calls == ShortenedCalls(codec, Lines(content))
  {
    hide Trim, PlainName, Lines;
    calls := [];
    var lines := Lines(content);
    for i := 0 to |lines|
      invariant calls == ShortenedCalls(codec, lines[..i])
    {
      assert lines[..i + 1][..i] == lines[..i];
      var trimmed := Trim(lines[i]);
      var at := IndexOf(trimmed, '>');
      if at.Some? {
        var name, text := trimmed[..at.value], trimmed[at.value + 1..];
        if PlainName(name) {
          var arguments := codec.json(Trim(text));
          if arguments.Some? {
            calls := calls + [codec.build(name, arguments.value)];
          }
        }
      }
    }
    assert lines[..|lines|] == lines;
  }

  lemma {:induction false} NoShortenedCalls(codec: Codec, lines: seq<string>)
    ensures ShortenedCalls(codec, lines) == [] <==> forall l | l in lines :: !IsShortened(codec, l)
  {
    hide ShortenedCall;
    if lines != [] {
      var n := |lines| - 1;
      NoShortenedCalls(codec, lines[..n]);
      assert lines == lines[..n] + [lines[n]] && lines[n] in lines;
      var before := ShortenedCalls(codec, lines[..n]);
      if IsShortened(codec, lines[n]) {
        assert ShortenedCalls(codec, lines)[|before|] == ShortenedCall(codec, lines[n]).value;
      }
    }
  }

  // ---- the whole parser ----

  /** Fenced calls, else tagged calls, else the shortened format. */
  function Parsed(codec: Codec, content: string): seq<Call> {
    var fenced := Decoded(codec, FencedBodies(TOOL_FENCES, Lines(content), false, ""));
    var tagged := Decoded(codec, XmlBodies(content, XML_TAG_NAMES));
    if fenced != [] then fenced else if tagged != [] then tagged else ShortenedCalls(codec, Lines(content))
  }

  method Parse(codec: Codec, content: string) returns (calls: seq<Call>)
    ensures calls == Parsed(codec, content)
  {
    calls := ParseMarkdownFence(codec, content, TOOL_FENCES);
    if calls != [] {
      return;
    }
    calls := ParseXmlTags(codec, content, XML_TAG_NAMES);
    if calls != [] {
      return;
    }
    calls := ParseShortened(codec, content);
  }

  predicate NoFences(content: string) {
    forall l | l in Lines(content) :: !TOOL_FENCES.opens(l)
  }

  lemma NoFencedBodies(content: string)
    requires NoFences(content)
    ensures FencedBodies(TOOL_FENCES, Lines(content), false, "") == []
  {
    SkipProse(TOOL_FENCES, Lines(content), []);
    assert Lines(content) + [] == Lines(content);
  }

  lemma NoTaggedBodies(content: string, tag: string)
    requires !Contains(content, OpenTag(tag))
    ensures TaggedBodies(content, OpenTag(tag), CloseTag(tag), 0) == []
  {
    assert content[0..] == content;
    FindNothing(content, OpenTag(tag), 0);
  }

  /** The tags as they stand in the text. */
  lemma TagTexts()
    ensures XML_TAG_NAMES == ["tool_call", "function_call", "invoke"]
    ensures OpenTag("tool_call") == "<tool_call>" && CloseTag("tool_call") == "</tool_call>"
    ensures OpenTag("function_call") == "<function_call>" && CloseTag("function_call") == "</function_call>"
    ensures OpenTag("invoke") == "<invoke>" && CloseTag("invoke") == "</invoke>"
  {
  }

  lemma TagsAreMarkers()
    ensures IsMarker(OpenTag("tool_call")) && IsMarker(CloseTag("tool_call"))
  {
  }

  /** Calls that the other two formats find in a tagged reply. */
  function FencedCalls(codec: Codec, content: string): seq<Call> {
    Decoded(codec, FencedBodies(TOOL_FENCES, Lines(content), false, ""))
  }

  function OtherTagCalls(codec: Codec, content: string): seq<Call> {
    Decoded(codec, XmlBodies(content, ["function_call", "invoke"]))
  }

  lemma TagsInOrder(codec: Codec, content: string)
    ensures Decoded(codec, XmlBodies(content, XML_TAG_NAMES))
         == Decoded(codec, TaggedBodies(content, OpenTag("tool_call"), CloseTag("tool_call"), 0)) + OtherTagCalls(codec, content)
  {
    hide TaggedBodies, Decoded;
    var tags := XML_TAG_NAMES;
    assert tags[0] == "tool_call" && tags[1..] == ["function_call", "invoke"];
    DecodedConcat(codec, TaggedBodies(content, OpenTag("tool_call"), CloseTag("tool_call"), 0), XmlBodies(content, tags[1..]));
  }

  /**
   A tagged reply that follows the protocol parses to exactly its calls, in order, unless its text
   decodes to further calls in fences, which take precedence, or in the other two tags, which follow.
   */
  lemma TaggedReplyParses(codec: Codec, blocks: seq<Block>, tail: string)
    requires FollowsProtocol("<tool_call>", "</tool_call>", blocks, tail)
    requires Decoded(codec, Bodies(blocks)) != []
    ensures var content := RenderTagged("<tool_call>", "</tool_call>", blocks, tail);
            Parsed(codec, content) == if FencedCalls(codec, content) != [] then FencedCalls(codec, content)
                                      else Decoded(codec, Bodies(blocks)) + OtherTagCalls(codec, content)
    ensures var content := RenderTagged("<tool_call>", "</tool_call>", blocks, tail);
            FencedCalls(codec, content) == [] && OtherTagCalls(codec, content) == [] ==>
              Parsed(codec, content) == Decoded(codec, Bodies(blocks))
  {
    var content := RenderTagged(OpenTag("tool_call"), CloseTag("tool_call"), blocks, tail);
    TagsAreMarkers();
    TagTexts();
    assert content[0..] == content;
    TaggedBodiesOfRendered(OpenTag("tool_call"), CloseTag("tool_call"), content, 0, blocks, tail);
    TagsInOrder(codec, content);
    hide RenderTagged, TaggedBodies, XmlBodies, FencedBodies, Lines, Bodies, Decoded, OtherTagCalls, OpenTag, CloseTag;
    assert Parsed(codec, content) == if FencedCalls(codec, content) != [] then FencedCalls(codec, content)
                                     else Decoded(codec, Bodies(blocks)) + OtherTagCalls(codec, content);
  }

  /** Prose without fences and other tags, for one, has no such further calls. */
  lemma PlainProseHasNoCalls(codec: Codec, content: string)
    ensures NoFences(content) ==> FencedCalls(codec, content) == []
    ensures !Contains(content, "<function_call>") && !Contains(content, "<invoke>") ==> OtherTagCalls(codec, content) == []
  {
    TagTexts();
    if NoFences(content) { NoFencedBodies(content); }
    if !Contains(content, OpenTag("function_call")) && !Contains(content, OpenTag("invoke")) {
      NoTaggedBodies(content, "function_call");
      NoTaggedBodies(content, "invoke");
      var tags := ["function_call", "invoke"];
      assert tags[1..] == ["invoke"] && tags[1..][1..] == [];
      assert XmlBodies(content, tags[1..]) == [];
    }
  }

  /**
   A fenced reply that follows the protocol parses to exactly its calls, in order, whatever its line
   ends are and whether or not the last line has one.
   */
  lemma FencedReplyParses(codec: Codec, content: string, open: string, close: string, fences: seq<Fence>, tail: seq<string>)
    requires Trim(open) == "```tool_call" || Trim(open) == "```function_call"
    requires Trim(close) == "```"
    requires FencesFollowProtocol(TOOL_FENCES, fences, tail)
    requires Lines(content) == RenderFenced(open, close, fences, tail)
    requires Decoded(codec, FenceTexts(fences)) != []
    ensures Parsed(codec, content) == Decoded(codec, FenceTexts(fences))
  {
    FencedBodiesOfRendered(TOOL_FENCES, open, close, fences, tail);
  }

  /** Without an explicit marker only the shortened format can yield a call. */
  lemma NoMarkersNoBlockCalls(codec: Codec, content: string)
    requires NoFences(content) && forall tag | tag in XML_TAG_NAMES :: !Contains(content, OpenTag(tag))
    ensures Parsed(codec, content) == ShortenedCalls(codec, Lines(content))
  {
    NoFencedBodies(content);
    var tags := XML_TAG_NAMES;
    forall tag | tag in tags { NoTaggedBodies(content, tag); }
    assert tags[0] in tags && tags[1] in tags && tags[2] in tags;
    assert tags[1..][0] == tags[1] && tags[1..][1..][0] == tags[2] && tags[1..][1..][1..] == [];
    hide TaggedBodies, OpenTag, CloseTag, Lines, ShortenedCalls;
    assert XmlBodies(content, tags[1..][1..]) == [];
    assert XmlBodies(content, tags[1..]) == [];
  }

  /** A reply without markers asks for no tool exactly when no line of it has the shortened form. */
  lemma MarkerFreeReplies(codec: Codec, content: string)
    requires NoFences(content) && forall tag | tag in XML_TAG_NAMES :: !Contains(content, OpenTag(tag))
    ensures Parsed(codec, content) == [] <==> forall l | l in Lines(content) :: !IsShortened(codec, l)
  {
    NoMarkersNoBlockCalls(codec, content);
    NoShortenedCalls(codec, Lines(content));
  }

  lemma NoTagWithoutAngle(line: string, tag: string)
    requires '<' !in line
    ensures !Contains(line, OpenTag(tag))
  {
    assert OpenTag(tag)[0] == '<';
    forall i: nat | i < |line| ensures !OccursAt(line, OpenTag(tag), i) {
      assert line[i + 0] in line;
    }
  }

  lemma PlainReading(line: string)
    requires IsTrimmed(line) && line != "" && '\n' !in line
    ensures Lines(line) == [line] && Trim(line) == line
  {
    TrimOfTrimmed(line);
    IndexOfMeaning(line, '\n');
  }

  lemma ShortenedLine(codec: Codec, name: string, text: string, arguments: string)
    requires PlainName(name) && IsTrimmed(text) && codec.json(text) == Some(arguments) && IsTrimmed(name + ['>'] + text)
    ensures ShortenedCall(codec, name + ['>'] + text) == Some(codec.build(name, arguments))
  {
    assert '>' !in name;
    hide *;
    TrimOfTrimmed(name + ['>'] + text);
    TrimOfTrimmed(text);
    ReadTrimmed(codec, name, text, arguments);
  }

  lemma ReadTrimmed(codec: Codec, name: string, text: string, arguments: string)
    requires PlainName(name) && '>' !in name && codec.json(text) == Some(arguments)
    requires Trim(text) == text && Trim(name + ['>'] + text) == name + ['>'] + text
    ensures ShortenedCall(codec, name + ['>'] + text) == Some(codec.build(name, arguments))
  {
    hide PlainName, Trim, IndexOf;
    IndexOfFirst(name, '>', text);
    CutInTwo(name, '>', text);
  }

  lemma CutInTwo(a: string, c: char, b: string)
    ensures (a + [c] + b)[..|a|] == a && (a + [c] + b)[|a| + 1..] == b
  {
  }

  /** A single bare line of that form does ask for a tool, though there is no marker around it. */
  lemma BareLineIsACall(codec: Codec, name: string, text: string, arguments: string)
    requires PlainName(name) && IsTrimmed(text) && codec.json(text) == Some(arguments)
    requires var line := name + ['>'] + text; IsTrimmed(line) && '\n' !in line && '<' !in line
    ensures var line := name + ['>'] + text;
            NoFences(line) && (forall tag | tag in XML_TAG_NAMES :: !Contains(line, OpenTag(tag)))
            && Parsed(codec, line) == [codec.build(name, arguments)]
  {
    var line := name + ['>'] + text;
    assert line[|name|] == '>';
    PlainReading(line);
    assert '>' !in "```tool_call" && '>' !in "```function_call";
    assert NoFences(line);
    forall tag | tag in XML_TAG_NAMES { NoTagWithoutAngle(line, tag); }
    ShortenedLine(codec, name, text, arguments);
    hide *;
    NoMarkersNoBlockCalls(codec, line);
    OneShortened(codec, line);
  }

  lemma OneShortened(codec: Codec, line: string)
    requires IsShortened(codec, line)
    ensures ShortenedCalls(codec, [line]) == [ShortenedCall(codec, line).value]
  {
    hide ShortenedCall;
    assert [line][..0] == [] && ShortenedCalls(codec, []) == [];
  }

  // ---- pending calls ----

  /** First occurrences only, in order. */
  function Deduplicated(calls: seq<Call>): seq<Call> {
    if calls == [] then []
    else
      var n := |calls| - 1;
      Deduplicated(calls[..n]) + (if Seen(calls[..n], calls[n]) then [] else [calls[n]])
  }

  predicate Seen(calls: seq<Call>, c: Call) {
    exists i | 0 <= i < |calls| :: calls[i].canonical == c.canonical
  }

  /** Nothing is invented, nothing is lost but repetitions, and no repetition is left. */
  lemma {:induction false} DeduplicatedMeaning(calls: seq<Call>)
    ensures forall c | c in Deduplicated(calls) :: c in calls
    ensures forall c | c in calls :: Seen(Deduplicated(calls), c)
    ensures forall i, j | 0 <= i < j < |Deduplicated(calls)| ::
              Deduplicated(calls)[i].canonical != Deduplicated(calls)[j].canonical
  {
    if calls != [] {
      var n := |calls| - 1;
      var init, r := Deduplicated(calls[..n]), Deduplicated(calls);
      DeduplicatedMeaning(calls[..n]);
      assert calls == calls[..n] + [calls[n]];
      forall c | c in calls ensures Seen(r, c) {
        if Seen(calls[..n], c) {
          var i :| 0 <= i < n && calls[..n][i].canonical == c.canonical;
          assert calls[..n][i] in calls[..n];
          var k :| 0 <= k < |init| && init[k].canonical == c.canonical;
          assert r[k] == init[k];
        } else {
          assert c == calls[n] && r[|init|] == c;
        }
      }
      forall i, j | 0 <= i < j < |r| ensures r[i].canonical != r[j].canonical {
        if j == |init| {
          assert init[i] in calls[..n];
        }
      }
    }
  }

  /** `kept` are the calls at these positions, in order, none of them asked for before. */
  predicate AreFirsts(calls: seq<Call>, kept: seq<Call>, at: seq<nat>) {
    && |at| == |kept| && (forall k | 0 <= k < |at| :: at[k] < |calls| && calls[at[k]] == kept[k])
    && (forall k, l | 0 <= k < l < |at| :: at[k] < at[l])
    && (forall k, j | 0 <= k < |at| && 0 <= j < at[k] :: calls[j].canonical != calls[at[k]].canonical)
  }

  /** The calls stay in order, each where it was first asked for. */
  lemma {:induction false} DeduplicatedOrder(calls: seq<Call>) returns (at: seq<nat>)
    ensures AreFirsts(calls, Deduplicated(calls), at)
  {
    hide *;
    at := [];
    if calls == [] {
      NoFirsts();
    } else {
      var n := |calls| - 1;
      var init := DeduplicatedOrder(calls[..n]);
      at := if Seen(calls[..n], calls[n]) then init else init + [n];
      OneMoreCall(calls[..n], calls[n]);
      assert calls == calls[..n] + [calls[n]];
      PositionsOfMore(calls[..n], calls[n], Deduplicated(calls[..n]), init);
    }
  }

  lemma NoFirsts()
    ensures AreFirsts([], Deduplicated([]), [])
  {
  }

  lemma PositionsOfMore(calls: seq<Call>, d: Call, kept: seq<Call>, at: seq<nat>)
    requires AreFirsts(calls, kept, at)
    ensures AreFirsts(calls + [d], kept + [], at)
    ensures !Seen(calls, d) ==> AreFirsts(calls + [d], kept + [d], at + [|calls|])
  {
    assert kept + [] == kept;
  }

  lemma OneMoreCall(calls: seq<Call>, d: Call)
    ensures Deduplicated(calls + [d]) == Deduplicated(calls) + (if Seen(calls, d) then [] else [d])
    ensures forall c: Call :: Seen(calls + [d], c) <==> Seen(calls, c) || d.canonical == c.canonical
  {
    var all := calls + [d];
    assert all[..|calls|] == calls;
    forall c: Call ensures Seen(all, c) <==> Seen(calls, c) || d.canonical == c.canonical {
      if Seen(calls, c) {
        var i :| 0 <= i < |calls| && calls[i].canonical == c.canonical;
        assert all[i].canonical == c.canonical;
      }
      assert all[|calls|] == d;
    }
  }

  method CollectTextToolCalls(codec: Codec, content: string) returns (pending: seq<Call>)
    ensures pending == Deduplicated(Parsed(codec, content))
  {
    hide Parsed, Seen, Deduplicated;
    var parsed := Parse(codec, content);
    var dedup: set<string> := {};
    pending := [];
    NothingSeen();
    for i := 0 to |parsed|
      invariant forall c: Call :: c.canonical in dedup <==> Seen(parsed[..i], c)
      invariant pending == Deduplicated(parsed[..i])
    {
      var call := parsed[i];
      OneMoreCall(parsed[..i], call);
      assert parsed[..i + 1] == parsed[..i] + [call];
      if call.canonical !in dedup {
        dedup := dedup + {call.canonical};
        pending := pending + [call];
      }
    }
    assert parsed[..|parsed|] == parsed;
  }

  lemma NothingSeen()
    ensures Deduplicated([]) == [] && forall c: Call :: !Seen([], c)
  {
  }
}
