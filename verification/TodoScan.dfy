/** The two scanners for active TODO items, and the text they show. */
module TodoScan {
  import opened Options
  import opened Text

  /** A line as both scanners see it; an item's text comes stripped. */
  datatype Line =
    | Item(state: string, active: bool, text: string)
    | Indented(text: string)
    | Blank
    | OtherLine

  // ---------- reading a line ----------

  const BULLET := "- ["

  predicate IsLetter(c: char) {
    'a' <= c <= 'z'
  }

  /** The run of small letters at the front. */
  function Letters(s: string): (r: string)
    ensures r <= s && (forall i :: 0 <= i < |r| ==> IsLetter(r[i])) && (|r| < |s| ==> !IsLetter(s[|r|]))
  {
    if s == "" || !IsLetter(s[0]) then "" else [s[0]] + Letters(s[1..])
  }

  predicate IsActive(state: string) {
    state == "doing" || state == "next" || state == "blocked"
  }

  /** The two patterns `^- \[[a-z]+\]\s+` and `^- \[(doing|next|blocked)\]\s+(.*)`, then the tests that follow them. */
  function ReadLine(line: string): Line {
    var state := if StartsWith(line, BULLET) then Letters(line[|BULLET|..]) else "";
    var rest := if StartsWith(line, BULLET) then line[|BULLET| + |state|..] else "";
    if state != "" && |rest| >= 2 && rest[0] == ']' && IsSpace(rest[1]) then
      Item(state, IsActive(state), Strip(rest[1..]))
    else if Strip(line) == "" then Blank
    else if StartsWith(line, "  ") then Indented(Strip(line))
    else OtherLine
  }

  function ReadLines(lines: seq<string>): (r: seq<Line>)
    ensures |r| == |lines| && forall i :: 0 <= i < |lines| ==> r[i] == ReadLine(lines[i])
  {
    seq(|lines|, i requires 0 <= i < |lines| => ReadLine(lines[i]))
  }

  // ---------- scanning ----------

  /** An item and the lines it was written on. */
  datatype Entry = Entry(state: string, parts: seq<string>)

  /** What a scanner carries from line to line. */
  datatype Scan = Scan(items: seq<Entry>, state: string, current: seq<string>)

  const START := Scan([], "", [])

  /** The open item, if there is one, is finished. */
  function Close(s: Scan): Scan {
    if s.current == [] then s else Scan(s.items + [Entry(s.state, s.current)], "", [])
  }

  function Step(s: Scan, line: Line): Scan {
    match line
    case Item(state, active, text) => if active then Scan(Close(s).items, state, [text]) else Close(s)
    case Indented(text) => if s.current == [] then s else s.(current := s.current + [text])
    case Blank => Close(s)
    case OtherLine => s
  }

  function After(lines: seq<Line>): Scan {
    if lines == [] then START else Step(After(lines[..|lines| - 1]), lines[|lines| - 1])
  }

  /** Every active item of the text: the finished ones and the one still open at its end. */
  function Items(lines: seq<Line>): seq<Entry> {
    Close(After(lines)).items
  }

  /** A scanner never takes back an item it has finished. */
  lemma {:induction false} ItemsGrow(lines: seq<Line>, i: nat)
    requires i <= |lines|
    ensures After(lines[..i]).items <= After(lines).items <= Items(lines)
    decreases |lines|
  {
    if i < |lines| {
      var k := |lines| - 1;
      assert lines[..k][..i] == lines[..i];
      ItemsGrow(lines[..k], i);
      assert After(lines[..k]).items <= Step(After(lines[..k]), lines[k]).items;
    } else {
      assert lines[..i] == lines;
    }
  }

  function FirstOf<T>(s: seq<T>, limit: nat): seq<T> {
    if |s| <= limit then s else s[..limit]
  }

  // ---------- the documentation checker's scanner ----------

  /** What a limit makes of the full list: a limit of zero still lets the first finished item through. */
  function Limited(lines: seq<Line>, limit: Option<nat>): seq<Entry> {
    match limit
    case None => Items(lines)
    case Some(n) => if n == 0 then FirstOf(After(lines).items, 1) else FirstOf(Items(lines), n)
  }

  predicate Full(count: nat, limit: Option<nat>) {
    limit.Some? && count >= limit.value
  }

  /** `active_todo_items` */
  method ActiveTodoItems(lines: seq<Line>, limit: Option<nat>) returns (items: seq<Entry>)
    ensures items == Limited(lines, limit)
  {
    items := [];
    var state, current := "", [];
    for i := 0 to |lines|
      invariant Scan(items, state, current) == After(lines[..i])
      invariant Full(|items|, limit) ==> items == []
    {
      assert lines[..i + 1][..i] == lines[..i];
      ItemsGrow(lines, i + 1);
      var line := lines[i];
      if line.Item? && current != [] {
        items := items + [Entry(state, current)];
        if Full(|items|, limit) {
          return;
        }
        current, state := [], "";
      }
      if line.Item? && line.active {
        state := line.state;
        current := [line.text];
      } else if current != [] && line.Indented? {
        current := current + [line.text];
      } else if current != [] && line.Blank? {
        items := items + [Entry(state, current)];
        if Full(|items|, limit) {
          return;
        }
        current, state := [], "";
      }
    }
    assert lines[..|lines|] == lines;
    if current != [] && !Full(|items|, limit) {
      items := items + [Entry(state, current)];
    }
  }

  // ---------- the showcase's scanner ----------

  const MAX_LEN: nat := 190

  /** Every run of whitespace becomes one blank. */
  function Collapse(s: string): (r: string)
    ensures |r| <= |s|
    ensures forall i :: 0 <= i < |r| && IsSpace(r[i]) ==> r[i] == ' '
    ensures forall i :: 0 < i < |r| && r[i] == ' ' ==> r[i - 1] != ' '
    ensures s != "" && !IsSpace(s[0]) ==> r != "" && r[0] == s[0]
  {
    if s == "" then ""
    else if !IsSpace(s[0]) then [s[0]] + Collapse(s[1..])
    else
      var rest := Collapse(s[1..]);
      if rest != "" && rest[0] == ' ' then rest else [' '] + rest
  }

  function Normalized(text: string): string {
    Strip(Collapse(text))
  }

  /** The part before the last blank, or all of it. */
  function BeforeLastBlank(s: string): (r: string)
    ensures r <= s
    ensures |r| < |s| ==> s[|r|] == ' '
  {
    if ' ' !in s then s
    else if s[|s| - 1] == ' ' then s[..|s| - 1]
    else BeforeLastBlank(s[..|s| - 1])
  }

  predicate IsStop(c: char) {
    c == '.' || c == ',' || c == ';' || c == ':'
  }

  /** `rstrip(".,;:")` */
  function TrimStops(s: string): (r: string)
    ensures r <= s
    ensures r != "" ==> !IsStop(r[|r| - 1])
    ensures forall i :: |r| <= i < |s| ==> IsStop(s[i])
  {
    if s != "" && IsStop(s[|s| - 1]) then TrimStops(s[..|s| - 1]) else s
  }

  /** `clean_item` */
  function CleanItem(text: string): string {
    var t := Normalized(text);
    if |t| <= MAX_LEN then t else TrimStops(BeforeLastBlank(t[..MAX_LEN])) + "..."
  }

  function ShownEntry(e: Entry): (string, string) {
    (e.state, CleanItem(Join(" ", e.parts)))
  }

  function Shown(items: seq<Entry>): (r: seq<(string, string)>)
    ensures |r| == |items|
  {
    seq(|items|, i requires 0 <= i < |items| => ShownEntry(items[i]))
  }

  lemma ShownOneMore(items: seq<Entry>, e: Entry)
    ensures Shown(items + [e]) == Shown(items) + [ShownEntry(e)]
  {
  }

  lemma ShownFirst(items: seq<Entry>, all: seq<Entry>, limit: nat)
    requires items <= all && (|items| >= limit || items == all)
    ensures FirstOf(Shown(items), limit) == Shown(FirstOf(all, limit))
  {
  }

  lemma StepOf(lines: seq<Line>, i: nat)
    requires i < |lines|
    ensures After(lines[..i + 1]) == Step(After(lines[..i]), lines[i])
  {
    assert lines[..i + 1][..i] == lines[..i];
  }

  /** `active_items` */
  method ActiveItems(lines: seq<Line>, limit: nat) returns (items: seq<(string, string)>)
    ensures items == Shown(FirstOf(Items(lines), limit))
  {
    items := [];
    var state, current := "", [];
    ghost var s := START;
    hide ShownEntry, After, Shown;
    ShownNothing();
    AfterNothing(lines);
    var i := 0;
    while i < |lines|
      invariant i <= |lines|
      invariant s == After(lines[..i]) && s.items <= Items(lines)
      invariant items == Shown(s.items) && state == s.state && current == s.current
      invariant |items| < limit || items == []
    {
      StepOf(lines, i);
      ItemsGrow(lines, i + 1);
      ShownOneMore(s.items, Entry(state, current));
      s := Step(s, lines[i]);
      var line := lines[i];
      if line.Item? && current != [] {
        items := items + [ShownEntry(Entry(state, current))];
        current, state := [], "";
        if |items| >= limit {
          ShownFirst(s.items, Items(lines), limit);
          return FirstOf(items, limit);
        }
      }
      if line.Item? && line.active {
        state := line.state;
        current := [line.text];
        i := i + 1;
        continue;
      }
      if current != [] && line.Indented? {
        current := current + [line.text];
        i := i + 1;
        continue;
      }
      if current != [] && line.Blank? {
        items := items + [ShownEntry(Entry(state, current))];
        current, state := [], "";
      }
      if |items| >= limit {
        ShownFirst(s.items, Items(lines), limit);
        return FirstOf(items, limit);
      }
      i := i + 1;
    }
    assert lines[..|lines|] == lines;
    ShownOneMore(s.items, Entry(state, current));
    if current != [] && |items| < limit {
      items := items + [ShownEntry(Entry(state, current))];
      s := Close(s);
    }
    ShownFirst(s.items, Items(lines), limit);
    items := FirstOf(items, limit);
  }

  lemma ShownNothing()
    ensures Shown([]) == []
  {
  }

  lemma AfterNothing(lines: seq<Line>)
    ensures After(lines[..0]) == START
  {
  }

  // ---------- how the two compare ----------

  /** With any limit the showcase shows the first items of the checker's unlimited list. */
  lemma ScannersAgree(lines: seq<Line>, limit: nat)
    ensures Shown(FirstOf(Items(lines), limit)) == FirstOf(Shown(Limited(lines, None)), limit)
    ensures limit > 0 ==> Shown(Limited(lines, Some(limit))) == Shown(FirstOf(Items(lines), limit))
  {
    hide ShownEntry;
  }

  /** A line that finishes the item open before it. */
  predicate Ends(line: Line) {
    line.Item? || line.Blank?
  }

  predicate Opens(line: Line) {
    line.Item? && line.active
  }

  /** An active item is followed by another item, active or not, or by a blank line. */
  predicate FinishesOne(lines: seq<Line>) {
    exists i, j | 0 <= i < j < |lines| :: Opens(lines[i]) && Ends(lines[j])
  }

  predicate OpensOne(lines: seq<Line>) {
    exists i | 0 <= i < |lines| :: Opens(lines[i])
  }

  /** While nothing is finished, an item is open exactly when one has been opened. */
  lemma {:induction false} FinishedExact(lines: seq<Line>)
    ensures After(lines).items != [] <==> FinishesOne(lines)
    ensures After(lines).items == [] ==> (After(lines).current != [] <==> OpensOne(lines))
  {
    if lines != [] {
      var k := |lines| - 1;
      FinishedExact(lines[..k]);
      FinishesPrefix(lines);
      OpensPrefix(lines);
    }
  }

  lemma FinishesPrefix(lines: seq<Line>)
    requires lines != []
    ensures var rest := lines[..|lines| - 1];
            FinishesOne(lines) <==> FinishesOne(rest) || (OpensOne(rest) && Ends(lines[|lines| - 1]))
  {
    hide Opens, Ends;
    var k := |lines| - 1;
    var rest := lines[..k];
    if FinishesOne(lines) {
      var i, j :| 0 <= i < j < |lines| && Opens(lines[i]) && Ends(lines[j]);
      assert Opens(rest[i]);
      if j < k {
        assert Ends(rest[j]);
      }
    }
    if FinishesOne(rest) {
      var i, j :| 0 <= i < j < |rest| && Opens(rest[i]) && Ends(rest[j]);
      assert Opens(lines[i]) && Ends(lines[j]);
    }
    if OpensOne(rest) && Ends(lines[k]) {
      var i :| 0 <= i < |rest| && Opens(rest[i]);
      assert Opens(lines[i]);
    }
  }

  lemma OpensPrefix(lines: seq<Line>)
    requires lines != []
    ensures OpensOne(lines) <==> OpensOne(lines[..|lines| - 1]) || Opens(lines[|lines| - 1])
  {
    hide Opens;
    var rest := lines[..|lines| - 1];
    if i :| 0 <= i < |lines| && Opens(lines[i]) {
      if i < |rest| {
        assert Opens(rest[i]);
      }
    }
    if i :| 0 <= i < |rest| && Opens(rest[i]) {
      assert Opens(lines[i]);
    }
  }

  /**
   * A limit of zero returns nothing exactly when no active item is followed by another item or by a
   * blank line; otherwise it returns one item.
   */
  lemma LimitZeroExact(lines: seq<Line>)
    ensures Limited(lines, Some(0)) == [] <==> !FinishesOne(lines)
    ensures FinishesOne(lines) ==> |Limited(lines, Some(0))| == 1
  {
    FinishedExact(lines);
    hide FinishesOne;
  }

  /** A text of two lines from which a limit of zero returns an item. */
  lemma LimitZeroExample()
    ensures Limited(ReadLines(["- [next] ship", ""]), Some(0)) == [Entry("next", ["ship"])]
  {
    var lines := ReadLines(["- [next] ship", ""]);
    ReadShip();
    ReadEmpty();
    hide ReadLine, ReadLines;
    assert lines[..1] == [Item("next", true, "ship")];
    assert lines[..1][..0] == [];
    assert After(lines[..1]) == Scan([], "next", ["ship"]);
  }

  lemma ReadEmpty()
    ensures ReadLine("") == Blank
  {
  }

  /** A bullet with small letters in its brackets and a blank after them is an item. */
  lemma ReadsItem(state: string, text: string)
    requires state != "" && forall i :: 0 <= i < |state| ==> IsLetter(state[i])
    ensures ReadLine(BULLET + state + "] " + text) ==
            Item(state, IsActive(state), Strip(" " + text))
  {
    hide Strip, Letters, IsActive;
    var line := BULLET + state + "] " + text;
    assert line[..|BULLET|] == BULLET;
    assert line[|BULLET|..] == state + ("] " + text);
    LettersAre(state, "] " + text);
    assert line[|BULLET| + |state|..] == "] " + text;
    assert ("] " + text)[1..] == " " + text;
  }

  lemma ReadShip()
    ensures ReadLine("- [next] ship") == Item("next", true, "ship")
  {
    hide ReadLine, Strip;
    ReadsItem("next", "ship");
    assert BULLET + "next" + "] " + "ship" == "- [next] ship";
    StripIndented(" ", "ship");
  }

  lemma {:induction false} LettersAre(word: string, rest: string)
    requires (forall i :: 0 <= i < |word| ==> IsLetter(word[i])) && (rest != "" ==> !IsLetter(rest[0]))
    ensures Letters(word + rest) == word
  {
    if word != "" {
      assert (word + rest)[1..] == word[1..] + rest;
      LettersAre(word[1..], rest);
      assert word == [word[0]] + word[1..];
    } else {
      assert word + rest == rest;
    }
  }

  // ---------- printing and reading back ----------

  /** A line below an item: more of its text, indented, or prose that belongs to nothing. */
  datatype Body = More(text: string) | Prose(line: string)

  /** An item as it is written: its bullet, the lines below it, and blank lines after them. */
  datatype Block = Block(state: string, text: string, body: seq<Body>, gaps: nat)

  predicate Stripped(t: string) {
    t != "" ==> !IsSpace(t[0]) && !IsSpace(t[|t| - 1])
  }

  predicate CleanBody(b: Body) {
    match b
    case More(text) => text != "" && Stripped(text)
    case Prose(line) => line != "" && !IsSpace(line[0]) && line[0] != '-'
  }

  predicate CleanBlock(b: Block) {
    && b.state != "" && (forall i :: 0 <= i < |b.state| ==> IsLetter(b.state[i]))
    && Stripped(b.text)
    && forall i :: 0 <= i < |b.body| ==> CleanBody(b.body[i])
  }

  function PrintLine(b: Body): string {
    match b
    case More(text) => "  " + text
    case Prose(line) => line
  }

  function PrintBody(body: seq<Body>): (r: seq<string>)
    ensures |r| == |body|
  {
    seq(|body|, i requires 0 <= i < |body| => PrintLine(body[i]))
  }

  function Gaps(n: nat): (r: seq<string>)
    ensures |r| == n
  {
    seq(n, i => "")
  }

  function PrintBlock(b: Block): seq<string> {
    [BULLET + b.state + "] " + b.text] + PrintBody(b.body) + Gaps(b.gaps)
  }

  function PrintAll(blocks: seq<Block>): seq<string> {
    if blocks == [] then [] else PrintAll(blocks[..|blocks| - 1]) + PrintBlock(blocks[|blocks| - 1])
  }

  /** The texts of the indented lines. */
  function Texts(body: seq<Body>): seq<string> {
    if body == [] then []
    else
      var k := |body| - 1;
      Texts(body[..k]) + (if body[k].More? then [body[k].text] else [])
  }

  /** The active blocks, each with its text and those of its indented lines. */
  function Entries(blocks: seq<Block>): seq<Entry> {
    if blocks == [] then []
    else
      var b := blocks[|blocks| - 1];
      Entries(blocks[..|blocks| - 1]) + (if IsActive(b.state) then [Entry(b.state, [b.text] + Texts(b.body))] else [])
  }

  function Feed(s: Scan, lines: seq<Line>): Scan {
    if lines == [] then s else Step(Feed(s, lines[..|lines| - 1]), lines[|lines| - 1])
  }

  lemma {:induction false} AfterFeeds(a: seq<Line>, b: seq<Line>)
    ensures After(a + b) == Feed(After(a), b)
  {
    hide Step;
    if b == [] {
      assert a + b == a;
    } else {
      var k := |b| - 1;
      assert (a + b)[..|a + b| - 1] == a + b[..k];
      AfterFeeds(a, b[..k]);
    }
  }

  lemma {:induction false} FeedFeeds(s: Scan, a: seq<Line>, b: seq<Line>)
    ensures Feed(s, a + b) == Feed(Feed(s, a), b)
  {
    hide Step;
    if b == [] {
      assert a + b == a;
    } else {
      var k := |b| - 1;
      assert (a + b)[..|a + b| - 1] == a + b[..k];
      FeedFeeds(s, a, b[..k]);
    }
  }

  lemma ReadJoined(a: seq<string>, b: seq<string>)
    ensures ReadLines(a + b) == ReadLines(a) + ReadLines(b)
  {
    hide ReadLine;
  }

  lemma StripIndented(indent: string, text: string)
    requires Stripped(text) && forall i :: 0 <= i < |indent| ==> IsSpace(indent[i])
    ensures Strip(indent + text) == text
  {
    var line := indent + text;
    if text == "" {
      assert TrimRight(line) == "";
    } else {
      assert line[|line| - 1] == text[|text| - 1];
      assert TrimRight(line) == line;
      assert line[|indent|] == text[0];
      assert |TrimLeft(line)| == |text|;
    }
  }

  lemma PrefixFirst(line: string, prefix: string)
    requires prefix != ""
    ensures StartsWith(line, prefix) ==> line != "" && line[0] == prefix[0]
  {
  }

  lemma PlainLine(line: string)
    requires line != "" && line[0] != '-' && Strip(line) != ""
    ensures ReadLine(line) == if StartsWith(line, "  ") then Indented(Strip(line)) else OtherLine
  {
    hide Strip, Letters;
    PrefixFirst(line, BULLET);
  }

  lemma BodyReads(b: Body)
    requires CleanBody(b)
    ensures ReadLine(PrintLine(b)) == match b case More(text) => Indented(text) case Prose(_) => OtherLine
  {
    match b
    case More(text) =>
      MoreReads(text);
    case Prose(line) =>
      ProseReads(line);
  }

  lemma MoreReads(text: string)
    requires text != "" && Stripped(text)
    ensures ReadLine("  " + text) == Indented(text)
  {
    StripIndented("  ", text);
    hide Strip, ReadLine;
    var line := "  " + text;
    assert line[..2] == "  " && line[0] == ' ';
    PlainLine(line);
  }

  lemma ProseReads(line: string)
    requires line != "" && !IsSpace(line[0]) && line[0] != '-'
    ensures ReadLine(line) == OtherLine
  {
    NotBlank(line);
    hide Strip, ReadLine;
    PlainLine(line);
    PrefixFirst(line, "  ");
  }

  lemma NotBlank(line: string)
    requires line != "" && !IsSpace(line[0])
    ensures Strip(line) != ""
  {
    assert TrimRight(line) != "";
  }

  /** The lines below an item add their texts to it while it is open. */
  lemma {:induction false} BodyFeeds(s: Scan, body: seq<Body>)
    requires forall i :: 0 <= i < |body| ==> CleanBody(body[i])
    ensures Feed(s, ReadLines(PrintBody(body))) == if s.current == [] then s else s.(current := s.current + Texts(body))
  {
    hide ReadLine, CleanBody;
    if body != [] {
      var k := |body| - 1;
      BodyFeeds(s, body[..k]);
      BodyReads(body[k]);
      var lines := ReadLines(PrintBody(body));
      assert lines[..k] == ReadLines(PrintBody(body[..k]));
      assert s.current + Texts(body[..k]) + [] == s.current + Texts(body[..k]);
    } else {
      assert s.current + [] == s.current;
    }
  }

  lemma {:induction false} GapsFeed(s: Scan, n: nat)
    ensures Feed(s, ReadLines(Gaps(n))) == if n == 0 then s else Close(s)
  {
    hide ReadLine;
    if n > 0 {
      GapsFeed(s, n - 1);
      ReadEmpty();
      var lines := ReadLines(Gaps(n));
      assert lines[..n - 1] == ReadLines(Gaps(n - 1));
    }
  }

  lemma HeadReads(b: Block)
    requires CleanBlock(b)
    ensures ReadLine(BULLET + b.state + "] " + b.text) == Item(b.state, IsActive(b.state), b.text)
  {
    hide ReadLine, Strip, IsActive;
    ReadsItem(b.state, b.text);
    StripIndented(" ", b.text);
  }

  lemma BlockFeeds(s: Scan, b: Block)
    requires CleanBlock(b)
    ensures Close(Feed(s, ReadLines(PrintBlock(b)))).items ==
            Close(s).items + (if IsActive(b.state) then [Entry(b.state, [b.text] + Texts(b.body))] else [])
  {
    var head := BULLET + b.state + "] " + b.text;
    HeadReads(b);
    hide ReadLine, IsActive;
    ReadJoined([head] + PrintBody(b.body), Gaps(b.gaps));
    ReadJoined([head], PrintBody(b.body));
    FeedFeeds(s, ReadLines([head]) + ReadLines(PrintBody(b.body)), ReadLines(Gaps(b.gaps)));
    FeedFeeds(s, ReadLines([head]), ReadLines(PrintBody(b.body)));
    OneLine(s, head);
    var begun := Step(s, ReadLine(head));
    BodyFeeds(begun, b.body);
    GapsFeed(Feed(begun, ReadLines(PrintBody(b.body))), b.gaps);
  }

  lemma OneLine(s: Scan, line: string)
    ensures Feed(s, ReadLines([line])) == Step(s, ReadLine(line))
  {
    hide Step, ReadLine;
    assert ReadLines([line])[..0] == [];
  }

  /**
   * Items written out, active or not, with or without blank lines between them, read back as exactly the
   * active ones, each with its text and the texts of the indented lines below it, in order.
   */
  lemma {:induction false} PrintParse(blocks: seq<Block>)
    requires forall i :: 0 <= i < |blocks| ==> CleanBlock(blocks[i])
    ensures Items(ReadLines(PrintAll(blocks))) == Entries(blocks)
  {
    hide CleanBlock, PrintBlock, IsActive, Step;
    if blocks == [] {
      assert ReadLines(PrintAll(blocks)) == [];
    } else {
      var k := |blocks| - 1;
      PrintParse(blocks[..k]);
      var before := ReadLines(PrintAll(blocks[..k]));
      ReadJoined(PrintAll(blocks[..k]), PrintBlock(blocks[k]));
      AfterFeeds(before, ReadLines(PrintBlock(blocks[k])));
      BlockFeeds(After(before), blocks[k]);
    }
  }

  // ---------- the text shown ----------

  predicate SingleBlanks(s: string) {
    && (forall i :: 0 <= i < |s| && IsSpace(s[i]) ==> s[i] == ' ')
    && (forall i :: 0 < i < |s| && s[i] == ' ' ==> s[i - 1] != ' ')
  }

  lemma SlicedBlanks(s: string, i: nat, j: nat)
    requires SingleBlanks(s) && i <= j <= |s|
    ensures SingleBlanks(s[i..j])
  {
  }

  lemma NormalizedBlanks(text: string)
    ensures SingleBlanks(Normalized(text))
  {
    var c := Collapse(text);
    var right := TrimRight(c);
    var t := TrimLeft(right);
    hide SingleBlanks;
    CollapsedBlanks(text);
    SlicedBlanks(c, 0, |right|);
    assert c[0..|right|] == right;
    SlicedBlanks(right, |right| - |t|, |right|);
    assert right[|right| - |t|..|right|] == t;
  }

  lemma CollapsedBlanks(text: string)
    ensures SingleBlanks(Collapse(text))
  {
  }

  lemma DottedBlanks(cut: string)
    requires SingleBlanks(cut)
    ensures SingleBlanks(cut + "...")
  {
  }

  /** A shown text is short and holds no whitespace but single blanks. */
  lemma CleanIsShort(text: string)
    ensures |CleanItem(text)| <= MAX_LEN + 3
    ensures SingleBlanks(CleanItem(text))
  {
    hide SingleBlanks, Normalized;
    NormalizedBlanks(text);
    var t := Normalized(text);
    if |t| > MAX_LEN {
      var cut := TrimStops(BeforeLastBlank(t[..MAX_LEN]));
      assert cut == t[0..|cut|];
      SlicedBlanks(t, 0, |cut|);
      DottedBlanks(cut);
    }
  }

  lemma {:induction false} CollapseWord(s: string)
    ensures Word(Collapse(s)) == Word(s)
    ensures |Word(s)| <= |Collapse(s)| && Collapse(s)[|Word(s)|..] == Collapse(s[|Word(s)|..])
    decreases |s|
  {
    if s != "" && !IsSpace(s[0]) {
      CollapseWord(s[1..]);
      assert Collapse(s)[1..] == Collapse(s[1..]);
      assert s[|Word(s)|..] == s[1..][|Word(s[1..])|..];
      assert Collapse(s)[|Word(s)|..] == Collapse(s[1..])[|Word(s[1..])|..];
    } else {
      assert s[0..] == s;
      assert Collapse(s)[0..] == Collapse(s);
    }
  }

  /** Collapsing whitespace keeps the words. */
  lemma {:induction false} CollapseKeepsWords(s: string)
    ensures Split(Collapse(s)) == Split(s)
    decreases |s|
  {
    if s != "" && IsSpace(s[0]) {
      CollapseKeepsWords(s[1..]);
      var rest := Collapse(s[1..]);
      assert ([' '] + rest)[1..] == rest;
    } else if s != "" {
      CollapseWord(s);
      CollapseKeepsWords(s[|Word(s)|..]);
    }
  }

  lemma {:induction false} TrailingSpace(s: string, c: char)
    requires IsSpace(c)
    ensures Split(s + [c]) == Split(s)
    decreases |s|
  {
    var t := s + [c];
    if s == "" {
      assert t[1..] == "";
    } else if IsSpace(s[0]) {
      assert t[1..] == s[1..] + [c];
      TrailingSpace(s[1..], c);
    } else {
      WordBeforeSpace(s, c);
      assert t[|Word(s)|..] == s[|Word(s)|..] + [c];
      TrailingSpace(s[|Word(s)|..], c);
    }
  }

  lemma {:induction false} WordBeforeSpace(s: string, c: char)
    requires IsSpace(c)
    ensures Word(s + [c]) == Word(s)
  {
    if s != "" && !IsSpace(s[0]) {
      assert (s + [c])[1..] == s[1..] + [c];
      WordBeforeSpace(s[1..], c);
    }
  }

  lemma {:induction false} TrimRightKeepsWords(s: string)
    ensures Split(TrimRight(s)) == Split(s)
    decreases |s|
  {
    if s != "" && IsSpace(s[|s| - 1]) {
      var k := |s| - 1;
      TrimRightKeepsWords(s[..k]);
      TrailingSpace(s[..k], s[k]);
      assert s[..k] + [s[k]] == s;
    }
  }

  lemma {:induction false} TrimLeftKeepsWords(s: string)
    ensures Split(TrimLeft(s)) == Split(s)
  {
    if s != "" && IsSpace(s[0]) {
      TrimLeftKeepsWords(s[1..]);
    }
  }

  /** Cleaning keeps the words of a text that fits, and the beginning of one that does not. */
  lemma CleanKeepsWords(text: string)
    ensures Split(Normalized(text)) == Split(text)
    ensures |Normalized(text)| <= MAX_LEN ==> CleanItem(text) == Normalized(text)
    ensures |Normalized(text)| > MAX_LEN ==>
              exists cut :: CleanItem(text) == TrimStops(cut) + "..." && cut <= Normalized(text) && |cut| <= MAX_LEN
                            && (Normalized(text)[|cut|] == ' ' || ' ' !in Normalized(text)[..MAX_LEN])
  {
    CollapseKeepsWords(text);
    TrimRightKeepsWords(Collapse(text));
    TrimLeftKeepsWords(TrimRight(Collapse(text)));
    hide Split, Collapse, TrimLeft, TrimRight, TrimStops;
    var t := Normalized(text);
    if |t| > MAX_LEN {
      var cut := BeforeLastBlank(t[..MAX_LEN]);
      CutAtBlank(t[..MAX_LEN]);
      assert CleanItem(text) == TrimStops(cut) + "...";
    }
  }

  lemma CutAtBlank(s: string)
    ensures ' ' in s ==> |BeforeLastBlank(s)| < |s|
    ensures ' ' !in s ==> BeforeLastBlank(s) == s
  {
  }
}
