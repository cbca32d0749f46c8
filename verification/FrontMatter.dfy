/**
 The text of a memory entry: a header between `---` lines, a blank line, and the content.
 */
module FrontMatter {
  import opened Wrappers
  import opened Text
  import opened MemoryTypes

  function CategoryToString(c: Category): string {
    match c
    case Core => "Core"
    case Daily => "Daily"
    case Conversation => "Conversation"
    case Global => "Global"
    case Custom(name) => name
  }

  function StringToCategory(s: string): Category {
    if s == "Core" then Core
    else if s == "Daily" then Daily
    else if s == "Conversation" then Conversation
    else if s == "Global" then Global
    else Custom(s)
  }

  predicate Reserved(s: string) {
    s == "Core" || s == "Daily" || s == "Conversation" || s == "Global"
  }

  /** The category codec loses exactly the custom names that spell a fixed category. */
  lemma CategoryRoundTrip(c: Category)
    ensures StringToCategory(CategoryToString(c)) == c <==> !(c.Custom? && Reserved(c.name))
  {
  }

  const FENCE := "---"

  const KEY_FIELD := "key: "
  const CATEGORY_FIELD := "category: "
  const SESSION_FIELD := "session: "
  const TOPIC_FIELD := "topic: "

  function OptionalLine(field: string, value: Option<string>): seq<string> {
    match value case Some(v) => [field + v] case None => []
  }

  /** The header lines of an entry; `stamp` is the printed time. */
  function HeaderLines(e: MemoryEntry, stamp: string): seq<string> {
    [KEY_FIELD + e.key, CATEGORY_FIELD + CategoryToString(e.category)]
    + OptionalLine(SESSION_FIELD, e.session) + OptionalLine(TOPIC_FIELD, e.topic)
    + ["created_at: " + stamp, "updated_at: " + stamp]
  }

  /** The text written for an entry. */
  function Written(e: MemoryEntry, stamp: string): string {
    (FENCE + ['\n']) + (Unlines(HeaderLines(e, stamp)) + ((FENCE + ['\n']) + (['\n'] + e.content + ['\n'])))
  }

  /** One line of text, with its line feed. */
  function Line(name: string, value: string): string {
    name + value + "\n"
  }

  function OptionalText(name: string, value: Option<string>): string {
    match value case Some(v) => Line(name, v) case None => ""
  }

  /** The text of the file, field by field. */
  lemma WrittenText(e: MemoryEntry, stamp: string)
    ensures Written(e, stamp)
         == "---\n"
            + (Line("key: ", e.key) + Line("category: ", CategoryToString(e.category))
               + OptionalText("session: ", e.session) + OptionalText("topic: ", e.topic)
               + Line("created_at: ", stamp) + Line("updated_at: ", stamp))
            + "---\n\n" + e.content + "\n"
  {
    HeaderUnlines(e, stamp);
    hide CategoryToString, HeaderLines, Unlines, Line, OptionalText;
    assert (FENCE + ['\n']) == "---\n" && "---\n\n" == (FENCE + ['\n']) + ['\n'];
    assert Written(e, stamp) == "---\n" + Unlines(HeaderLines(e, stamp)) + "---\n" + ['\n'] + e.content + ['\n'];
  }

  lemma HeaderUnlines(e: MemoryEntry, stamp: string)
    ensures Unlines(HeaderLines(e, stamp))
         == Line("key: ", e.key) + Line("category: ", CategoryToString(e.category))
            + OptionalText("session: ", e.session) + OptionalText("topic: ", e.topic)
            + Line("created_at: ", stamp) + Line("updated_at: ", stamp)
  {
    var s, t := OptionalLine(SESSION_FIELD, e.session), OptionalLine(TOPIC_FIELD, e.topic);
    var a, b, c, d := KEY_FIELD + e.key, CATEGORY_FIELD + CategoryToString(e.category), "created_at: " + stamp, "updated_at: " + stamp;
    OneByOne(a, b, s, t, c, d);
    UnlinesOneByOne(a, b, s, t, c, d);
    OptionalUnlines(SESSION_FIELD, e.session);
    OptionalUnlines(TOPIC_FIELD, e.topic);
    hide Unlines, CategoryToString;
  }

  lemma OptionalUnlines(field: string, value: Option<string>)
    ensures Unlines(OptionalLine(field, value)) == OptionalText(field, value)
  {
    if value.Some? { OneLineText(field + value.value); }
  }

  lemma UnlinesOneByOne(a: string, b: string, s: seq<string>, t: seq<string>, c: string, d: string)
    ensures Unlines([a] + [b] + s + t + [c] + [d])
         == (a + "\n") + (b + "\n") + Unlines(s) + Unlines(t) + (c + "\n") + (d + "\n")
  {
    hide Unlines;
    UnlinesConcat([a], [b]);
    UnlinesConcat([a] + [b], s);
    UnlinesConcat([a] + [b] + s, t);
    UnlinesConcat([a] + [b] + s + t, [c]);
    UnlinesConcat([a] + [b] + s + t + [c], [d]);
    OneLineText(a);
    OneLineText(b);
    OneLineText(c);
    OneLineText(d);
  }

  lemma OneLineText(line: string)
    ensures Unlines([line]) == line + ['\n'] && Unlines([]) == ""
  {
    assert [line][1..] == [];
  }

  // ---- reading ----

  datatype Header = Header(key: string, category: string, session: Option<string>, topic: Option<string>)

  const EMPTY_HEADER := Header("", "Daily", None, None)

  function NonEmpty(s: string, previous: Option<string>): Option<string> {
    if s == "" then previous else Some(s)
  }

  /** The effect of one header line. */
  function ReadLine(h: Header, line: string): Header {
    if KEY_FIELD <= line then h.(key := Trim(line[|KEY_FIELD|..]))
    else if CATEGORY_FIELD <= line then h.(category := Trim(line[|CATEGORY_FIELD|..]))
    else if SESSION_FIELD <= line then h.(session := NonEmpty(Trim(line[|SESSION_FIELD|..]), h.session))
    else if TOPIC_FIELD <= line then h.(topic := NonEmpty(Trim(line[|TOPIC_FIELD|..]), h.topic))
    else h
  }

  function ReadLines(h: Header, lines: seq<string>): Header {
    if lines == [] then h else ReadLine(ReadLines(h, lines[..|lines| - 1]), lines[|lines| - 1])
  }

  function TrimLineFeedsStart(s: string): (r: string)
    ensures |r| <= |s| && (r == "" || r[0] != '\n')
  {
    if s == "" || s[0] != '\n' then s else TrimLineFeedsStart(s[1..])
  }

  function TrimLineFeedsEnd(s: string): (r: string)
    ensures |r| <= |s| && r <= s && (r == "" || r[|r| - 1] != '\n')
  {
    if s == "" || s[|s| - 1] != '\n' then s else TrimLineFeedsEnd(s[..|s| - 1])
  }

  function TrimLineFeeds(s: string): string {
    TrimLineFeedsEnd(TrimLineFeedsStart(s))
  }

  predicate NoOuterLineFeeds(s: string) {
    s == "" || (s[0] != '\n' && s[|s| - 1] != '\n')
  }

  lemma TrimLineFeedsMeaning(s: string)
    ensures NoOuterLineFeeds(TrimLineFeeds(s))
    ensures NoOuterLineFeeds(s) ==> TrimLineFeeds(s) == s
  {
  }

  const CLOSING: string := ['\n'] + (FENCE + ['\n'])

  function Parsed(raw: string): Option<MemoryEntry> {
    if !(FENCE + ['\n'] <= raw) then None
    else
      var stripped := raw[|FENCE| + 1..];
      match Find(stripped, CLOSING, 0)
      case None => None
      case Some(i) => EntryOf(ReadLines(EMPTY_HEADER, Lines(stripped[..i])), stripped[i + |CLOSING|..])
  }

  function EntryOf(h: Header, rest: string): Option<MemoryEntry> {
    if h.key == "" then None
    else Some(MemoryEntry(h.key, TrimLineFeeds(rest), StringToCategory(h.category), h.session, h.topic))
  }

  lemma ReadOneMore(lines: seq<string>, i: nat)
    requires i <= |lines|
    ensures i == 0 ==> ReadLines(EMPTY_HEADER, lines[..i]) == EMPTY_HEADER
    ensures i < |lines| ==> ReadLines(EMPTY_HEADER, lines[..i + 1]) == ReadLine(ReadLines(EMPTY_HEADER, lines[..i]), lines[i])
  {
    hide ReadLine;
    if i < |lines| {
      assert lines[..i + 1][..i] == lines[..i];
    }
  }

  /** The header fields, line by line: a later line wins, and an empty optional value is skipped. */
  method ParseHeader(lines: seq<string>)
    returns (key: string, category: string, session: Option<string>, topic: Option<string>)
    ensures Header(key, category, session, topic) == ReadLines(EMPTY_HEADER, lines)
  {
    hide Trim, ReadLines;
    key, category, session, topic := "", "Daily", None, None;
    ReadOneMore(lines, 0);
    for i := 0 to |lines|
      invariant Header(key, category, session, topic) == ReadLines(EMPTY_HEADER, lines[..i])
    {
      ReadOneMore(lines, i);
      var line := lines[i];
      if KEY_FIELD <= line {
        key := Trim(line[|KEY_FIELD|..]);
      } else if CATEGORY_FIELD <= line {
        category := Trim(line[|CATEGORY_FIELD|..]);
      } else if SESSION_FIELD <= line {
        var s := Trim(line[|SESSION_FIELD|..]);
        if s != "" { session := Some(s); }
      } else if TOPIC_FIELD <= line {
        var t := Trim(line[|TOPIC_FIELD|..]);
        if t != "" { topic := Some(t); }
      }
    }
    assert lines[..|lines|] == lines;
  }

  method ParseMarkdownEntry(raw: string) returns (r: Option<MemoryEntry>)
    ensures r == Parsed(raw)
  {
    hide Lines, Find, Trim, TrimLineFeeds, ReadLines, StringToCategory;
    if !(FENCE + ['\n'] <= raw) {
      return None;
    }
    var stripped := raw[|FENCE| + 1..];
    var closing := Find(stripped, CLOSING, 0);
    if closing.None? {
      return None;
    }
    var front, rest := stripped[..closing.value], stripped[closing.value + |CLOSING|..];
    var key, category, session, topic := ParseHeader(Lines(front));
    if key == "" {
      return None;
    }
    return Some(MemoryEntry(key, TrimLineFeeds(rest), StringToCategory(category), session, topic));
  }

  // ---- which entries can come out of the reader ----

  predicate HeaderValue(s: string) {
    IsTrimmed(s) && '\n' !in s
  }

  predicate OptionalValue(v: Option<string>) {
    v.Some? ==> v.value != "" && HeaderValue(v.value)
  }

  /** Entries in the form in which files represent them. */
  predicate WellFormed(e: MemoryEntry) {
    && e.key != "" && HeaderValue(e.key)
    && (e.category.Custom? ==> HeaderValue(e.category.name) && !Reserved(e.category.name))
    && OptionalValue(e.session) && OptionalValue(e.topic) && NoOuterLineFeeds(e.content)
  }

  predicate HeaderOk(h: Header) {
    HeaderValue(h.key) && HeaderValue(h.category) && OptionalValue(h.session) && OptionalValue(h.topic)
  }

  lemma ValueIsClean(line: string, from: nat)
    requires '\n' !in line && from <= |line|
    ensures HeaderValue(Trim(line[from..]))
  {
    TrimWithin(line[from..], '\n');
  }

  lemma ReadLineKeepsOk(h: Header, line: string)
    requires HeaderOk(h) && '\n' !in line
    ensures HeaderOk(ReadLine(h, line))
  {
    hide Trim, HeaderValue;
    forall from: nat | from <= |line| { ValueIsClean(line, from); }
  }

  lemma {:induction false} ReadLinesOk(lines: seq<string>)
    requires forall l | l in lines :: '\n' !in l
    ensures HeaderOk(ReadLines(EMPTY_HEADER, lines))
  {
    if lines != [] {
      var n := |lines| - 1;
      ReadLinesOk(lines[..n]);
      assert lines[n] in lines;
      hide ReadLine, HeaderOk;
      ReadLineKeepsOk(ReadLines(EMPTY_HEADER, lines[..n]), lines[n]);
    }
  }

  /** Whatever the text, an entry read from it is well formed. */
  lemma ReadEntriesAreWellFormed(raw: string)
    ensures Parsed(raw).Some? ==> WellFormed(Parsed(raw).value)
  {
    hide ReadLines, ReadLine, Lines, Find, TrimLineFeeds;
    if FENCE + ['\n'] <= raw {
      var stripped := raw[|FENCE| + 1..];
      match Find(stripped, CLOSING, 0)
      case None =>
      case Some(i) =>
        LinesHaveNoLineFeed(stripped[..i]);
        ReadLinesOk(Lines(stripped[..i]));
        TrimLineFeedsMeaning(stripped[i + |CLOSING|..]);
    }
  }

  // ---- reading back what was written ----

  /** Neither a line feed nor a fence: what a header line must not be. */
  predicate HeaderLine(line: string) {
    '\n' !in line && line != FENCE
  }

  /** A line and its line feed do not read as a fence. */
  lemma FenceNotHere(line: string, behind: string)
    requires HeaderLine(line)
    ensures !OccursAt((line + ['\n']) + behind, FENCE + ['\n'], 0)
  {
    var s, p := (line + ['\n']) + behind, FENCE + ['\n'];
    assert s[|line|] == '\n' && p[3] == '\n';
    if |line| < 3 {
      assert s[0 + |line|] != p[|line|];
    } else if |line| > 3 {
      assert s[0 + 3] == line[3] && line[3] in line;
    } else {
      var k :| 0 <= k < 3 && line[k] != FENCE[k];
      assert s[0 + k] == line[k] && p[k] == FENCE[k];
    }
  }

  /** The closing fence is not found inside the header. */
  lemma {:induction false} NoFenceInside(lines: seq<string>, tail: string, j: nat)
    requires forall l | l in lines :: HeaderLine(l)
    requires j + 1 < |Unlines(lines)|
    ensures !OccursAt(Unlines(lines) + tail, CLOSING, j)
    decreases |lines|
  {
    var first, rest := lines[0], lines[1..];
    assert first in lines && forall l | l in rest :: l in lines;
    var head, behind := first + ['\n'], Unlines(rest) + tail;
    var text := Unlines(lines) + tail;
    assert text == head + behind;
    OccursHeadTail(text, '\n', FENCE + ['\n'], j);
    if j < |first| {
      assert text[j] == first[j] && first[j] in first;
    } else if j == |first| {
      assert rest[0] in rest;
      OccursBehind(head, behind, FENCE + ['\n'], 0);
      FenceNotHere(rest[0], Unlines(rest[1..]) + tail);
      assert behind == (rest[0] + ['\n']) + (Unlines(rest[1..]) + tail);
    } else {
      OccursBehind(head, behind, CLOSING, j - |head|);
      NoFenceInside(rest, tail, j - |head|);
    }
  }

  lemma ClosingOccurs(lines: seq<string>, rest: string)
    requires lines != []
    ensures Unlines(lines) != ""
    ensures OccursAt(Unlines(lines) + ((FENCE + ['\n']) + rest), CLOSING, |Unlines(lines)| - 1)
  {
    var head, tail := Unlines(lines), (FENCE + ['\n']) + rest;
    LastIsLineFeed(lines);
    OccursBehind(head, tail, FENCE + ['\n'], 0);
    OccursHeadTail(head + tail, '\n', FENCE + ['\n'], |head| - 1);
  }

  lemma ClosingFound(lines: seq<string>, rest: string)
    requires lines != [] && forall l | l in lines :: HeaderLine(l)
    ensures Find(Unlines(lines) + ((FENCE + ['\n']) + rest), CLOSING, 0) == Some(|Unlines(lines)| - 1)
  {
    hide OccursAt, Find, Unlines;
    var head, tail := Unlines(lines), (FENCE + ['\n']) + rest;
    ClosingOccurs(lines, rest);
    forall j: nat | j + 1 < |head| ensures !OccursAt(head + tail, CLOSING, j) { NoFenceInside(lines, tail, j); }
    FindFirst(head + tail, CLOSING, |head| - 1);
  }

  lemma {:induction false} LastIsLineFeed(lines: seq<string>)
    requires lines != []
    ensures Unlines(lines) != "" && Unlines(lines)[|Unlines(lines)| - 1] == '\n'
  {
    if |lines| > 1 {
      LastIsLineFeed(lines[1..]);
    } else {
      assert Unlines(lines[1..]) == "";
    }
  }

  function Stripped(lines: seq<string>): seq<string> {
    if lines == [] then [] else [StripCarriageReturn(lines[0])] + Stripped(lines[1..])
  }

  /** The header text between the fences: its last line feed belongs to the closing fence. */
  function Front(lines: seq<string>): string
    requires Unlines(lines) != ""
  {
    Unlines(lines)[..|Unlines(lines)| - 1]
  }

  lemma WithoutLast(a: string, b: string)
    requires b != ""
    ensures (a + b)[..|a + b| - 1] == a + b[..|b| - 1]
  {
  }

  lemma FrontStep(lines: seq<string>)
    requires |lines| > 1
    ensures Unlines(lines) != "" && Unlines(lines[1..]) != ""
    ensures Front(lines) == lines[0] + ['\n'] + Front(lines[1..])
  {
    LastIsLineFeed(lines[1..]);
    WithoutLast(lines[0] + ['\n'], Unlines(lines[1..]));
  }

  lemma StrippedFirst(lines: seq<string>)
    requires lines != []
    ensures Stripped(lines) == [StripCarriageReturn(lines[0])] + Stripped(lines[1..])
  {
  }

  lemma FrontOfOne(lines: seq<string>)
    requires |lines| == 1
    ensures Unlines(lines) != "" && Front(lines) == lines[0] && Stripped(lines[..0]) == []
  {
    assert lines[1..] == [] && Unlines([]) == "";
    assert Unlines(lines) == lines[0] + ['\n'];
  }

  /** The front part has the header lines, without the carriage returns in front of line feeds. */
  lemma {:induction false} LinesOfFront(lines: seq<string>)
    requires lines != [] && (forall i | 0 <= i < |lines| :: '\n' !in lines[i])
    ensures Unlines(lines) != ""
    ensures Lines(Front(lines)) == Stripped(lines[..|lines| - 1]) + Lines(lines[|lines| - 1])
  {
    hide *;
    var n := |lines| - 1;
    if n == 0 {
      FrontOfOne(lines);
    } else {
      LinesOfFront(lines[1..]);
      FrontStep(lines);
      StrippedFirst(lines[..n]);
      assert lines[..n][1..] == lines[1..][..n - 1] && lines[1..][n - 1] == lines[n];
      FirstLine(lines[0], Front(lines[1..]));
    }
  }

  lemma {:induction false} StrippedConcat(a: seq<string>, b: seq<string>)
    ensures Stripped(a + b) == Stripped(a) + Stripped(b)
  {
    if a == [] {
      assert a + b == b;
    } else {
      assert (a + b)[1..] == a[1..] + b;
      StrippedConcat(a[1..], b);
    }
  }

  // ---- reading the lines between the fences ----

  lemma TrimEndLast(a: string, c: char)
    requires IsWhitespace(c)
    ensures TrimEnd(a + [c]) == TrimEnd(a)
  {
    assert (a + [c])[..|a|] == a;
  }

  lemma {:induction false} TrimStartConcat(a: string, c: char)
    requires IsWhitespace(c)
    ensures TrimStart(a + [c]) == TrimStart(a) + [c] || (TrimStart(a) == "" && TrimStart(a + [c]) == "")
  {
    if a == "" {
      assert a + [c] == [c] && [c][1..] == "" && TrimStart("") == "";
    } else if IsWhitespace(a[0]) {
      assert (a + [c])[1..] == a[1..] + [c];
      TrimStartConcat(a[1..], c);
    }
  }

  /** A trailing white-space character does not matter to trimming. */
  lemma TrimDropsLast(a: string, c: char)
    requires IsWhitespace(c)
    ensures Trim(a + [c]) == Trim(a)
  {
    hide TrimStart, TrimEnd;
    TrimStartConcat(a, c);
    TrimEndLast(TrimStart(a), c);
  }

  /** A carriage return at the end of a line is stripped with the line, or trimmed with the value. */
  lemma StrippedField(field: string, line: string)
    requires field != "" && !EndsInCarriageReturn(field)
    ensures field <= StripCarriageReturn(line) <==> field <= line
    ensures field <= line ==> Trim(StripCarriageReturn(line)[|field|..]) == Trim(line[|field|..])
  {
    hide Trim;
    if EndsInCarriageReturn(line) && field <= line {
      var s := line[..|line| - 1];
      assert field[|field| - 1] != line[|line| - 1];
      assert field <= s;
      assert line[|field|..] == s[|field|..] + ['\r'];
      TrimDropsLast(s[|field|..], '\r');
    }
  }

  lemma ReadStripped(h: Header, line: string)
    ensures ReadLine(h, StripCarriageReturn(line)) == ReadLine(h, line)
  {
    hide Trim, StripCarriageReturn;
    StrippedField(KEY_FIELD, line);
    StrippedField(CATEGORY_FIELD, line);
    StrippedField(SESSION_FIELD, line);
    StrippedField(TOPIC_FIELD, line);
  }

  /** Reading one more line. */
  lemma ReadSnoc(lines: seq<string>, line: string)
    ensures ReadLines(EMPTY_HEADER, lines + [line]) == ReadLine(ReadLines(EMPTY_HEADER, lines), line)
  {
    assert (lines + [line])[..|lines|] == lines;
  }

  lemma StrippedSnoc(lines: seq<string>, line: string)
    ensures Stripped(lines + [line]) == Stripped(lines) + [StripCarriageReturn(line)]
  {
    StrippedConcat(lines, [line]);
    assert [line][1..] == [];
  }

  lemma NothingStripped()
    ensures Stripped([]) == []
  {
  }

  lemma {:induction false} ReadLinesStripped(lines: seq<string>)
    ensures ReadLines(EMPTY_HEADER, Stripped(lines)) == ReadLines(EMPTY_HEADER, lines)
  {
    hide *;
    if lines == [] {
      NothingStripped();
    } else {
      var front, last := lines[..|lines| - 1], lines[|lines| - 1];
      ReadLinesStripped(front);
      assert lines == front + [last];
      StrippedSnoc(front, last);
      ReadSnoc(front, last);
      ReadSnoc(Stripped(front), StripCarriageReturn(last));
      ReadStripped(ReadLines(EMPTY_HEADER, front), last);
    }
  }

  lemma ReadEmptyLine(h: Header)
    ensures ReadLine(h, "") == h
  {
  }

  lemma LinesOfOne(line: string)
    requires '\n' !in line
    ensures Lines(line) == if line == "" then [] else [line]
  {
    IndexOfMeaning(line, '\n');
  }

  /** Carriage returns and a blank last line make no difference to what is read. */
  lemma FrontReads(lines: seq<string>)
    requires lines != [] && (forall i | 0 <= i < |lines| :: '\n' !in lines[i])
    ensures Unlines(lines) != "" && ReadLines(EMPTY_HEADER, Lines(Front(lines))) == ReadLines(EMPTY_HEADER, lines)
  {
    hide *;
    var front, last := lines[..|lines| - 1], lines[|lines| - 1];
    assert lines == front + [last];
    LinesOfFront(lines);
    LinesOfOne(last);
    ReadLinesStripped(front);
    ReadSnoc(front, last);
    ReadSnoc(Stripped(front), last);
    ReadEmptyLine(ReadLines(EMPTY_HEADER, front));
    assert Stripped(front) + [] == Stripped(front);
  }

  // ---- normal form and round trip ----

  function TrimOption(v: Option<string>): Option<string> {
    match v case Some(s) => NonEmpty(Trim(s), None) case None => None
  }

  /** What reading makes of an entry. */
  function Normal(e: MemoryEntry): Option<MemoryEntry> {
    if Trim(e.key) == "" then None
    else Some(MemoryEntry(Trim(e.key), TrimLineFeeds(e.content), StringToCategory(Trim(CategoryToString(e.category))),
                          TrimOption(e.session), TrimOption(e.topic)))
  }

  predicate OneLine(v: Option<string>) {
    v.Some? ==> '\n' !in v.value
  }

  /** No header value spreads over several lines. */
  predicate OneLineHeader(e: MemoryEntry) {
    '\n' !in e.key && '\n' !in CategoryToString(e.category) && OneLine(e.session) && OneLine(e.topic)
  }

  lemma NotPrefix(p: string, line: string)
    requires p != "" && line != "" && p[0] != line[0]
    ensures !(p <= line)
  {
  }

  /** What a line of a given field does to the header. */
  lemma ReadFieldLine(h: Header, line: string)
    ensures KEY_FIELD <= line ==> ReadLine(h, line) == h.(key := Trim(line[|KEY_FIELD|..]))
    ensures CATEGORY_FIELD <= line ==> ReadLine(h, line) == h.(category := Trim(line[|CATEGORY_FIELD|..]))
    ensures SESSION_FIELD <= line ==> ReadLine(h, line) == h.(session := NonEmpty(Trim(line[|SESSION_FIELD|..]), h.session))
    ensures TOPIC_FIELD <= line ==> ReadLine(h, line) == h.(topic := NonEmpty(Trim(line[|TOPIC_FIELD|..]), h.topic))
  {
    hide Trim;
    if line != "" {
      if line[0] != 'k' { NotPrefix(KEY_FIELD, line); }
      if line[0] != 'c' { NotPrefix(CATEGORY_FIELD, line); }
      if line[0] != 's' { NotPrefix(SESSION_FIELD, line); }
      if line[0] != 't' { NotPrefix(TOPIC_FIELD, line); }
    }
  }

  lemma ReadKey(h: Header, v: string)
    ensures ReadLine(h, KEY_FIELD + v) == h.(key := Trim(v))
  {
    hide Trim, ReadLine;
    ReadFieldLine(h, KEY_FIELD + v);
    assert (KEY_FIELD + v)[|KEY_FIELD|..] == v;
  }

  lemma ReadCategory(h: Header, v: string)
    ensures ReadLine(h, CATEGORY_FIELD + v) == h.(category := Trim(v))
  {
    hide Trim, ReadLine;
    ReadFieldLine(h, CATEGORY_FIELD + v);
    assert (CATEGORY_FIELD + v)[|CATEGORY_FIELD|..] == v;
  }

  lemma ReadSession(h: Header, v: string)
    ensures ReadLine(h, SESSION_FIELD + v) == h.(session := NonEmpty(Trim(v), h.session))
  {
    hide Trim, ReadLine;
    ReadFieldLine(h, SESSION_FIELD + v);
    assert (SESSION_FIELD + v)[|SESSION_FIELD|..] == v;
  }

  lemma ReadTopic(h: Header, v: string)
    ensures ReadLine(h, TOPIC_FIELD + v) == h.(topic := NonEmpty(Trim(v), h.topic))
  {
    hide Trim, ReadLine;
    ReadFieldLine(h, TOPIC_FIELD + v);
    assert (TOPIC_FIELD + v)[|TOPIC_FIELD|..] == v;
  }

  lemma ReadStamps(h: Header, stamp: string)
    ensures ReadLine(h, "created_at: " + stamp) == h
    ensures ReadLine(h, "updated_at: " + stamp) == h
  {
    var a, b := "created_at: " + stamp, "updated_at: " + stamp;
    assert a[0] == 'c' && a[1] == 'r' && b[0] == 'u';
    assert CATEGORY_FIELD[1] == 'a';
    hide Trim;
  }

  /** The header lines, read in order, give back the trimmed fields. */
  lemma HeaderReadBack(e: MemoryEntry, stamp: string)
    ensures ReadLines(EMPTY_HEADER, HeaderLines(e, stamp))
         == Header(Trim(e.key), Trim(CategoryToString(e.category)), TrimOption(e.session), TrimOption(e.topic))
  {
    hide ReadLine, Trim;
    var key, category := KEY_FIELD + e.key, CATEGORY_FIELD + CategoryToString(e.category);
    var l2 := [key] + [category];
    assert ReadLines(EMPTY_HEADER, []) == EMPTY_HEADER;
    ReadSnoc([], key);
    assert [] + [key] == [key];
    ReadKey(EMPTY_HEADER, e.key);
    ReadSnoc([key], category);
    ReadCategory(EMPTY_HEADER.(key := Trim(e.key)), CategoryToString(e.category));
    var h2 := ReadLines(EMPTY_HEADER, l2);
    var l3 := l2 + OptionalLine(SESSION_FIELD, e.session);
    if e.session.Some? {
      ReadSnoc(l2, SESSION_FIELD + e.session.value);
      ReadSession(h2, e.session.value);
    } else {
      assert l3 == l2;
    }
    var h3 := ReadLines(EMPTY_HEADER, l3);
    var l4 := l3 + OptionalLine(TOPIC_FIELD, e.topic);
    if e.topic.Some? {
      ReadSnoc(l3, TOPIC_FIELD + e.topic.value);
      ReadTopic(h3, e.topic.value);
    } else {
      assert l4 == l3;
    }
    ReadStamps(ReadLines(EMPTY_HEADER, l4), stamp);
    ReadSnoc(l4, "created_at: " + stamp);
    ReadSnoc(l4 + ["created_at: " + stamp], "updated_at: " + stamp);
    OneByOne(key, category, OptionalLine(SESSION_FIELD, e.session), OptionalLine(TOPIC_FIELD, e.topic),
             "created_at: " + stamp, "updated_at: " + stamp);
  }

  lemma OneByOne<T>(a: T, b: T, s: seq<T>, t: seq<T>, c: T, d: T)
    ensures [a, b] + s + t + [c, d] == [a] + [b] + s + t + [c] + [d]
  {
    assert [a, b] == [a] + [b] && [c, d] == [c] + [d];
  }

  lemma {:induction false} TrimLineFeedsEndLast(s: string)
    ensures TrimLineFeedsEnd(s + ['\n']) == TrimLineFeedsEnd(s)
  {
    assert (s + ['\n'])[..|s|] == s;
  }

  lemma {:induction false} TrimLineFeedsStartLast(s: string)
    ensures TrimLineFeedsStart(s + ['\n']) == TrimLineFeedsStart(s) + ['\n']
         || (TrimLineFeedsStart(s) == "" && TrimLineFeedsStart(s + ['\n']) == "")
  {
    if s == "" {
      assert s + ['\n'] == ['\n'] && ['\n'][1..] == "" && TrimLineFeedsStart("") == "";
    } else if s[0] == '\n' {
      assert (s + ['\n'])[1..] == s[1..] + ['\n'];
      TrimLineFeedsStartLast(s[1..]);
    }
  }

  /** The blank line in front and the line feed behind the content are trimmed away again. */
  lemma ContentReadBack(content: string)
    ensures TrimLineFeeds(['\n'] + content + ['\n']) == TrimLineFeeds(content)
  {
    var s := content + ['\n'];
    assert ['\n'] + content + ['\n'] == ['\n'] + s;
    assert (['\n'] + s)[1..] == s;
    TrimLineFeedsStartLast(content);
    TrimLineFeedsEndLast(TrimLineFeedsStart(content));
  }

  // ---- the lines of the file ----

  /** The lines that header lines take up in the file: a value with line feeds spreads over several. */
  function Physical(lines: seq<string>): seq<string> {
    if lines == [] then [] else Split(lines[0], '\n') + Physical(lines[1..])
  }

  lemma {:induction false} UnlinesOfParts(parts: seq<string>)
    requires parts != []
    ensures Unlines(parts) == Join(parts, '\n') + ['\n']
  {
    if |parts| == 1 {
      assert parts[1..] == [] && Unlines([]) == "";
    } else {
      UnlinesOfParts(parts[1..]);
    }
  }

  lemma {:induction false} PhysicalText(lines: seq<string>)
    ensures Unlines(Physical(lines)) == Unlines(lines) && forall l | l in Physical(lines) :: '\n' !in l
  {
    if lines != [] {
      PhysicalText(lines[1..]);
      UnlinesOfParts(Split(lines[0], '\n'));
      UnlinesConcat(Split(lines[0], '\n'), Physical(lines[1..]));
    }
  }

  lemma {:induction false} SplitOneLine(s: string)
    requires '\n' !in s
    ensures Split(s, '\n') == [s]
  {
    if s != "" {
      assert s[0] in s && forall c | c in s[1..] :: c in s;
      SplitOneLine(s[1..]);
      assert [s[0]] + s[1..] == s;
    }
  }

  lemma {:induction false} PhysicalOfPlain(lines: seq<string>)
    requires forall l | l in lines :: '\n' !in l
    ensures Physical(lines) == lines
  {
    if lines != [] {
      SplitOneLine(lines[0]);
      PhysicalOfPlain(lines[1..]);
    }
  }

  /** Where the header ends: at the first line that is a fence. */
  function HeaderEnd(lines: seq<string>): (n: nat)
    ensures n <= |lines| && FENCE !in lines[..n] && (n < |lines| ==> lines[n] == FENCE)
    ensures FENCE !in lines ==> n == |lines|
  {
    if lines == [] || lines[0] == FENCE then 0
    else
      var n := HeaderEnd(lines[1..]);
      assert lines[..n + 1] == [lines[0]] + lines[1..][..n];
      n + 1
  }

  /** What follows the header: the lines behind an early fence move in front of the content. */
  function Behind(lines: seq<string>, rest: string): string {
    var n := HeaderEnd(lines);
    if n == |lines| then rest else Unlines(lines[n + 1..]) + ((FENCE + ['\n']) + rest)
  }

  lemma UnlinesSplit(lines: seq<string>, n: nat)
    requires n < |lines|
    ensures Unlines(lines) == Unlines(lines[..n]) + (lines[n] + ['\n'] + Unlines(lines[n + 1..]))
  {
    assert lines == lines[..n] + lines[n..];
    UnlinesConcat(lines[..n], lines[n..]);
    assert lines[n..][1..] == lines[n + 1..];
  }

  lemma Regroup(a: string, fence: string, b: string, rest: string)
    ensures (a + (fence + b)) + rest == a + (fence + (b + rest))
  {
  }

  /** The first fence, whether a header line or the one behind the header, closes the header. */
  lemma ClosedThere(lines: seq<string>, rest: string)
    ensures Unlines(lines) + ((FENCE + ['\n']) + rest)
         == Unlines(lines[..HeaderEnd(lines)]) + ((FENCE + ['\n']) + Behind(lines, rest))
  {
    hide Unlines, HeaderEnd;
    var n := HeaderEnd(lines);
    if n < |lines| {
      UnlinesSplit(lines, n);
      Regroup(Unlines(lines[..n]), FENCE + ['\n'], Unlines(lines[n + 1..]), (FENCE + ['\n']) + rest);
    } else {
      assert lines[..n] == lines;
    }
  }

  /** The first header line is the key, whatever it spreads over. */
  lemma KeyComesFirst(e: MemoryEntry, stamp: string)
    ensures var p := Physical(HeaderLines(e, stamp)); p != [] && HeaderEnd(p) > 0
  {
    var lines, line := HeaderLines(e, stamp), KEY_FIELD + e.key;
    var parts := Split(line, '\n');
    assert lines[0] == line;
    assert Join(parts, '\n') == line && line[0] == 'k' && FENCE[0] == '-';
    assert parts[0] != FENCE;
    assert Physical(lines)[0] == parts[0];
  }

  lemma BehindFence(stripped: string)
    ensures FENCE + ['\n'] <= (FENCE + ['\n']) + stripped
    ensures ((FENCE + ['\n']) + stripped)[|FENCE| + 1..] == stripped
  {
  }

  lemma SplitBehind(front: string, rest: string)
    requires front != ""
    ensures var stripped := front + ((FENCE + ['\n']) + rest);
            var at := |front| - 1;
            stripped[..at] == front[..at] && stripped[at + |CLOSING|..] == rest
  {
  }

  /** Text of the written form: header lines between fences, then the rest, is split there. */
  lemma ParsedOfParts(lines: seq<string>, rest: string)
    requires lines != [] && (forall l | l in lines :: HeaderLine(l))
    ensures Parsed((FENCE + ['\n']) + (Unlines(lines) + ((FENCE + ['\n']) + rest)))
         == EntryOf(ReadLines(EMPTY_HEADER, lines), rest)
  {
    hide ReadLines, Find, Lines, Unlines, TrimLineFeeds, EntryOf;
    var front := Unlines(lines);
    var stripped := front + ((FENCE + ['\n']) + rest);
    ClosingFound(lines, rest);
    forall i | 0 <= i < |lines| ensures '\n' !in lines[i] {
      assert HeaderLine(lines[i]);
    }
    FrontReads(lines);
    BehindFence(stripped);
    SplitBehind(front, rest);
  }

  lemma WrittenParts(e: MemoryEntry, stamp: string)
    ensures Written(e, stamp)
         == (FENCE + ['\n']) + (Unlines(HeaderLines(e, stamp)) + ((FENCE + ['\n']) + (['\n'] + e.content + ['\n'])))
  {
  }

  lemma LinesBeforeEnd(lines: seq<string>)
    requires forall l | l in lines :: '\n' !in l
    ensures forall l | l in lines[..HeaderEnd(lines)] :: HeaderLine(l)
  {
  }

  /**
   Reading what was written, for every entry: the lines of the file up to the first fence are read as
   the header, whichever value they come from, and everything behind that fence is the content.
   */
  lemma WrittenReadsBack(e: MemoryEntry, stamp: string)
    ensures var lines := Physical(HeaderLines(e, stamp));
            Parsed(Written(e, stamp)) == EntryOf(ReadLines(EMPTY_HEADER, lines[..HeaderEnd(lines)]),
                                                 Behind(lines, ['\n'] + e.content + ['\n']))
  {
    hide *;
    var lines, rest := Physical(HeaderLines(e, stamp)), ['\n'] + e.content + ['\n'];
    PhysicalText(HeaderLines(e, stamp));
    KeyComesFirst(e, stamp);
    LinesBeforeEnd(lines);
    ClosedThere(lines, rest);
    ParsedOfParts(lines[..HeaderEnd(lines)], Behind(lines, rest));
    WrittenParts(e, stamp);
  }

  lemma EntryOfReadBack(e: MemoryEntry, h: Header)
    requires h == Header(Trim(e.key), Trim(CategoryToString(e.category)), TrimOption(e.session), TrimOption(e.topic))
    ensures EntryOf(h, ['\n'] + e.content + ['\n']) == Normal(e)
  {
    ContentReadBack(e.content);
    hide Trim, TrimLineFeeds, CategoryToString, StringToCategory, TrimOption;
  }

  lemma HeaderLinesAreLines(e: MemoryEntry, stamp: string)
    requires OneLineHeader(e) && '\n' !in stamp
    ensures forall l | l in HeaderLines(e, stamp) :: HeaderLine(l)
  {
    forall l | l in HeaderLines(e, stamp) ensures HeaderLine(l) {
      assert l != "" && l[0] != '-';
    }
  }

  lemma OneLineHeaderStands(lines: seq<string>, rest: string)
    requires forall l | l in lines :: HeaderLine(l)
    ensures Physical(lines) == lines && lines[..HeaderEnd(lines)] == lines && Behind(lines, rest) == rest
  {
    PhysicalOfPlain(lines);
    assert FENCE !in lines;
    assert lines[..|lines|] == lines;
  }

  /** With one-line header values this is the normal form. */
  lemma WrittenReadsAsNormal(e: MemoryEntry, stamp: string)
    requires OneLineHeader(e) && '\n' !in stamp
    ensures Parsed(Written(e, stamp)) == Normal(e)
  {
    hide *;
    HeaderLinesAreLines(e, stamp);
    HeaderReadBack(e, stamp);
    OneLineHeaderStands(HeaderLines(e, stamp), ['\n'] + e.content + ['\n']);
    WrittenReadsBack(e, stamp);
    EntryOfReadBack(e, ReadLines(EMPTY_HEADER, HeaderLines(e, stamp)));
  }

  /** The round trip gives back the entry exactly if the entry is well formed. */
  lemma RoundTripExactly(e: MemoryEntry, stamp: string)
    requires '\n' !in stamp
    ensures Parsed(Written(e, stamp)) == Some(e) <==> WellFormed(e)
  {
    ReadEntriesAreWellFormed(Written(e, stamp));
    if WellFormed(e) {
      WellFormedIsNormal(e);
      WrittenReadsAsNormal(e, stamp);
    }
  }

  lemma OptionIsNormal(v: Option<string>)
    requires OptionalValue(v)
    ensures TrimOption(v) == v && OneLine(v)
  {
    if v.Some? { TrimOfTrimmed(v.value); }
  }

  lemma WellFormedIsNormal(e: MemoryEntry)
    requires WellFormed(e)
    ensures OneLineHeader(e) && Normal(e) == Some(e)
  {
    OptionIsNormal(e.session);
    OptionIsNormal(e.topic);
    hide TrimOption, OneLine, OptionalValue;
    assert HeaderValue(CategoryToString(e.category));
    TrimOfTrimmed(e.key);
    TrimOfTrimmed(CategoryToString(e.category));
    TrimLineFeedsMeaning(e.content);
    CategoryRoundTrip(e.category);
    hide Trim, TrimLineFeeds;
  }
}
