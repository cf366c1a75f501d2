/** The logical lines of a Dockerfile: continuations joined, blank and comment lines dropped. */
module DockerfileLines {
  import opened Options
  import opened Text

  /** A logical line and the number of the physical line it starts on. */
  datatype Logical = Logical(start: nat, text: string)

  /** What the scan carries: the finished lines, the open text, and where that started. */
  datatype State = State(out: seq<Logical>, current: string, start: nat)

  /** Blank lines and comments are skipped, even inside a continuation. */
  predicate Skipped(raw: string) {
    var stripped := Strip(raw);
    stripped == "" || stripped[0] == '#'
  }

  predicate Continues(raw: string) {
    var r := TrimRight(raw);
    r != "" && r[|r| - 1] == '\\'
  }

  /** What a continued line contributes. */
  function Piece(raw: string): string
    requires Continues(raw)
  {
    var r := TrimRight(raw);
    r[..|r| - 1] + " "
  }

  function Step(s: State, raw: string, lineno: nat): State {
    if Skipped(raw) then s
    else
      var start := if s.current == "" then lineno else s.start;
      if Continues(raw) then State(s.out, s.current + Piece(raw), start)
      else State(s.out + [Logical(start, Strip(s.current + raw))], "", start)
  }

  /** The state after the first lines; line numbers count from 1. */
  function After(lines: seq<string>): State {
    if lines == [] then State([], "", 0)
    else Step(After(lines[..|lines| - 1]), lines[|lines| - 1], |lines|)
  }

  function Finish(s: State): seq<Logical> {
    if s.current == "" then s.out else s.out + [Logical(s.start, Strip(s.current))]
  }

  function LogicalLines(lines: seq<string>): seq<Logical> {
    Finish(After(lines))
  }

  /** `logical_lines` */
  method ScanLines(lines: seq<string>) returns (out: seq<Logical>)
    ensures out == LogicalLines(lines)
  {
    hide Skipped, Continues;
    out := [];
    var current, start := "", 0;
    for i := 0 to |lines|
      invariant State(out, current, start) == After(lines[..i])
    {
      assert lines[..i + 1][..i] == lines[..i];
      var raw := lines[i];
      if Skipped(raw) {
        continue;
      }
      if current == "" {
        start := i + 1;
      }
      if Continues(raw) {
        current := current + Piece(raw);
        continue;
      }
      current := current + raw;
      out := out + [Logical(start, Strip(current))];
      current := "";
    }
    assert lines[..|lines|] == lines;
    if current != "" {
      out := out + [Logical(start, Strip(current))];
    }
  }

  // ---------- which physical lines make up a logical one ----------

  /**
   * The physical lines grouped: each group is a run of continued lines ended by one that is not,
   * skipped lines left out; numbers count from 1.
   */
  datatype Groups = Groups(done: seq<seq<nat>>, open: seq<nat>)

  function GroupStep(g: Groups, raw: string, lineno: nat): Groups {
    if Skipped(raw) then g
    else if Continues(raw) then g.(open := g.open + [lineno])
    else Groups(g.done + [g.open + [lineno]], [])
  }

  function Grouped(lines: seq<string>): Groups {
    if lines == [] then Groups([], [])
    else GroupStep(Grouped(lines[..|lines| - 1]), lines[|lines| - 1], |lines|)
  }

  function Flatten(groups: seq<seq<nat>>): seq<nat> {
    if groups == [] then [] else Flatten(groups[..|groups| - 1]) + groups[|groups| - 1]
  }

  /** The numbers of the lines that are not skipped. */
  function Kept(lines: seq<string>): seq<nat> {
    if lines == [] then []
    else
      var k := |lines| - 1;
      Kept(lines[..k]) + (if Skipped(lines[k]) then [] else [k + 1])
  }

  lemma FlattenOneMore(groups: seq<seq<nat>>, group: seq<nat>)
    ensures Flatten(groups + [group]) == Flatten(groups) + group
  {
    var more := groups + [group];
    assert more[..|more| - 1] == groups;
  }

  /** One line goes to the end of the grouped lines, or nowhere. */
  lemma GroupStepKeeps(g: Groups, raw: string, lineno: nat)
    ensures var h := GroupStep(g, raw, lineno);
            Flatten(h.done) + h.open == Flatten(g.done) + g.open + (if Skipped(raw) then [] else [lineno])
  {
    hide Skipped, Continues, Flatten;
    if !Skipped(raw) && !Continues(raw) {
      FlattenOneMore(g.done, g.open + [lineno]);
    }
  }

  /** Every line that is not skipped is in exactly one group, in order. */
  lemma {:induction false} GroupsPartition(lines: seq<string>)
    ensures Flatten(Grouped(lines).done) + Grouped(lines).open == Kept(lines)
  {
    hide Skipped, GroupStep, Flatten;
    if lines == [] {
      NothingGrouped();
    } else {
      var k := |lines| - 1;
      GroupsPartition(lines[..k]);
      GroupStepKeeps(Grouped(lines[..k]), lines[k], |lines|);
    }
  }

  lemma NothingGrouped()
    ensures Flatten([]) == []
  {
  }

  lemma {:induction false} KeptIncreases(lines: seq<string>)
    ensures forall i :: 0 <= i < |Kept(lines)| ==> 1 <= Kept(lines)[i] <= |lines|
    ensures forall i, j :: 0 <= i < j < |Kept(lines)| ==> Kept(lines)[i] < Kept(lines)[j]
  {
    hide Skipped;
    if lines != [] {
      KeptIncreases(lines[..|lines| - 1]);
    }
  }

  /** What one physical line adds to its logical line. */
  function Part(raw: string): string {
    if Continues(raw) then Piece(raw) else raw
  }

  function LineAt(lines: seq<string>, lineno: nat): string {
    if 1 <= lineno <= |lines| then lines[lineno - 1] else ""
  }

  /** The text a group of physical lines stands for, before stripping. */
  function Joined(lines: seq<string>, group: seq<nat>): string {
    if group == [] then "" else Joined(lines, group[..|group| - 1]) + Part(LineAt(lines, group[|group| - 1]))
  }

  ghost predicate GroupReads(line: Logical, group: seq<nat>, lines: seq<string>) {
    && InRange(group, lines) && group != []
    && line == Logical(group[0], Strip(Joined(lines, group)))
  }

  ghost predicate DoneReads(out: seq<Logical>, done: seq<seq<nat>>, lines: seq<string>) {
    |out| == |done| && forall j :: 0 <= j < |done| ==> GroupReads(out[j], done[j], lines)
  }

  ghost predicate OpenReads(current: string, start: nat, open: seq<nat>, lines: seq<string>) {
    && InRange(open, lines)
    && current == Joined(lines, open)
    && (current == "" <==> open == [])
    && (open != [] ==> start == open[0])
  }

  /** The scan's state is its groups: each finished line starts and reads as its group says. */
  ghost predicate Reads(s: State, g: Groups, lines: seq<string>) {
    DoneReads(s.out, g.done, lines) && OpenReads(s.current, s.start, g.open, lines)
  }

  predicate InRange(group: seq<nat>, lines: seq<string>) {
    forall i :: 0 <= i < |group| ==> 1 <= group[i] <= |lines|
  }

  lemma {:induction false} JoinedLonger(lines: seq<string>, raw: string, group: seq<nat>)
    requires InRange(group, lines)
    ensures InRange(group, lines + [raw]) && Joined(lines + [raw], group) == Joined(lines, group)
  {
    hide Part;
    if group != [] {
      var k := |group| - 1;
      JoinedLonger(lines, raw, group[..k]);
      assert LineAt(lines + [raw], group[k]) == LineAt(lines, group[k]);
    }
  }

  lemma JoinedOneMore(lines: seq<string>, group: seq<nat>, lineno: nat)
    ensures Joined(lines, group + [lineno]) == Joined(lines, group) + Part(LineAt(lines, lineno))
  {
    hide Part;
    var longer := group + [lineno];
    assert longer[..|longer| - 1] == group;
  }

  lemma ReadsLonger(s: State, g: Groups, lines: seq<string>, raw: string)
    requires Reads(s, g, lines)
    ensures Reads(s, g, lines + [raw])
  {
    hide Strip, Joined;
    forall j | 0 <= j < |g.done|
      ensures GroupReads(s.out[j], g.done[j], lines + [raw])
    {
      JoinedLonger(lines, raw, g.done[j]);
    }
    JoinedLonger(lines, raw, g.open);
  }

  lemma OneMoreDone(out: seq<Logical>, done: seq<seq<nat>>, lines: seq<string>, line: Logical, group: seq<nat>)
    requires DoneReads(out, done, lines) && GroupReads(line, group, lines)
    ensures DoneReads(out + [line], done + [group], lines)
  {
    hide GroupReads;
  }

  lemma NothingOpen(start: nat, lines: seq<string>)
    ensures OpenReads("", start, [], lines)
  {
  }

  lemma InRangeOneMore(group: seq<nat>, lineno: nat, lines: seq<string>)
    requires InRange(group, lines) && 1 <= lineno <= |lines|
    ensures InRange(group + [lineno], lines)
  {
  }

  lemma EndReads(s: State, g: Groups, lines: seq<string>, raw: string, lineno: nat)
    requires Reads(s, g, lines) && 1 <= lineno <= |lines| && raw == LineAt(lines, lineno) && !Continues(raw)
    ensures var start := if s.current == "" then lineno else s.start;
            Reads(State(s.out + [Logical(start, Strip(s.current + raw))], "", start),
                  Groups(g.done + [g.open + [lineno]], []), lines)
  {
    JoinedOneMore(lines, g.open, lineno);
    InRangeOneMore(g.open, lineno, lines);
    hide Strip, Joined, Continues, Piece, GroupReads, LineAt, InRange, DoneReads;
    assert Part(raw) == raw;
    hide Part;
    var start := if s.current == "" then lineno else s.start;
    var group := g.open + [lineno];
    assert group[0] == start;
    assert Joined(lines, group) == s.current + raw;
    EndedGroup(lines, group, s.current + raw, start);
    OneMoreDone(s.out, g.done, lines, Logical(start, Strip(s.current + raw)), group);
    NothingOpen(start, lines);
  }

  lemma EndedGroup(lines: seq<string>, group: seq<nat>, text: string, start: nat)
    requires InRange(group, lines) && group != [] && group[0] == start && Joined(lines, group) == text
    ensures GroupReads(Logical(start, Strip(text)), group, lines)
  {
    hide Joined, Strip;
  }

  lemma ContinuedReads(s: State, g: Groups, lines: seq<string>, raw: string, lineno: nat)
    requires Reads(s, g, lines) && 1 <= lineno <= |lines| && raw == LineAt(lines, lineno) && Continues(raw)
    ensures var start := if s.current == "" then lineno else s.start;
            Reads(State(s.out, s.current + Piece(raw), start), g.(open := g.open + [lineno]), lines)
  {
    JoinedOneMore(lines, g.open, lineno);
    InRangeOneMore(g.open, lineno, lines);
    PieceNotEmpty(raw);
    hide GroupReads, Joined, Continues, Piece, LineAt, InRange, DoneReads;
    assert Part(raw) == Piece(raw);
    hide Part;
    assert |s.current + Piece(raw)| > 0;
  }

  lemma StepReads(s: State, g: Groups, lines: seq<string>, raw: string)
    requires Reads(s, g, lines)
    ensures Reads(Step(s, raw, |lines| + 1), GroupStep(g, raw, |lines| + 1), lines + [raw])
  {
    hide Reads, Strip, Skipped, Joined, Piece, Continues;
    ReadsLonger(s, g, lines, raw);
    assert LineAt(lines + [raw], |lines| + 1) == raw;
    if Continues(raw) {
      ContinuedReads(s, g, lines + [raw], raw, |lines| + 1);
    } else {
      EndReads(s, g, lines + [raw], raw, |lines| + 1);
    }
  }

  lemma PieceNotEmpty(raw: string)
    requires Continues(raw)
    ensures Piece(raw) != ""
  {
  }

  lemma {:induction false} ScanReads(lines: seq<string>)
    ensures Reads(After(lines), Grouped(lines), lines)
  {
    hide Step, GroupStep;
    if lines == [] {
      assert Joined(lines, []) == "";
    } else {
      var k := |lines| - 1;
      ScanReads(lines[..k]);
      assert lines[..k] + [lines[k]] == lines;
      StepReads(After(lines[..k]), Grouped(lines[..k]), lines[..k], lines[k]);
    }
  }

  // ---------- starts ----------

  ghost predicate Increasing(s: seq<nat>) {
    forall i, j :: 0 <= i < j < |s| ==> s[i] < s[j]
  }

  /** The first number of every group, the open one last. */
  function Heads(groups: seq<seq<nat>>): seq<nat>
    requires forall j :: 0 <= j < |groups| ==> groups[j] != []
  {
    seq(|groups|, j requires 0 <= j < |groups| => groups[j][0])
  }

  lemma {:induction false} HeadsAmong(groups: seq<seq<nat>>)
    requires forall j :: 0 <= j < |groups| ==> groups[j] != []
    requires Increasing(Flatten(groups))
    ensures Increasing(Heads(groups))
    ensures forall j :: 0 <= j < |groups| ==> groups[j][0] in Flatten(groups)
  {
    if groups != [] {
      var k := |groups| - 1;
      var front, last := groups[..k], groups[k];
      var f := Flatten(front);
      assert Flatten(groups) == f + last;
      IncreasingParts(f, last);
      HeadsAmong(front);
      assert Flatten(groups)[|f|] == last[0];
      forall j | 0 <= j < k
        ensures groups[j][0] < last[0] && groups[j][0] in Flatten(groups)
      {
        assert front[j][0] in f;
        var i :| 0 <= i < |f| && f[i] == front[j][0];
        assert Flatten(groups)[i] == f[i];
      }
      assert forall j :: 0 <= j < k ==> Heads(groups)[j] == Heads(front)[j];
    }
  }

  lemma IncreasingParts(a: seq<nat>, b: seq<nat>)
    requires Increasing(a + b)
    ensures Increasing(a)
  {
    assert forall i :: 0 <= i < |a| ==> a[i] == (a + b)[i];
  }

  function Starts(lines: seq<Logical>): seq<nat> {
    seq(|lines|, j requires 0 <= j < |lines| => lines[j].start)
  }

  /** All groups, the open one included when there is one. */
  function AllGroups(g: Groups): seq<seq<nat>> {
    if g.open == [] then g.done else g.done + [g.open]
  }

  /** The logical lines are the groups, one for one; together the groups are exactly the kept lines. */
  lemma LinesAreGroups(lines: seq<string>)
    ensures var groups := AllGroups(Grouped(lines));
            && Flatten(groups) == Kept(lines)
            && |LogicalLines(lines)| == |groups|
            && forall j :: 0 <= j < |groups| ==>
                 && groups[j] != [] && InRange(groups[j], lines)
                 && LogicalLines(lines)[j] == Logical(groups[j][0], Strip(Joined(lines, groups[j])))
  {
    ScanReads(lines);
    GroupsPartition(lines);
    var g := Grouped(lines);
    var groups := AllGroups(g);
    hide Strip, Joined, Kept, After, Grouped;
    if g.open != [] {
      assert groups[..|groups| - 1] == g.done;
    }
  }

  /** Logical lines start on strictly increasing physical lines. */
  lemma StartsIncrease(lines: seq<string>)
    ensures Increasing(Starts(LogicalLines(lines)))
  {
    LinesAreGroups(lines);
    KeptIncreases(lines);
    hide LogicalLines, Kept, Joined, Strip, Grouped;
    var groups := AllGroups(Grouped(lines));
    HeadsAmong(groups);
    assert Starts(LogicalLines(lines)) == Heads(groups);
  }

  // ---------- texts ----------

  function Texts(lines: seq<Logical>): seq<string> {
    seq(|lines|, j requires 0 <= j < |lines| => lines[j].text)
  }

  function NotSkipped(lines: seq<string>): seq<string> {
    if lines == [] then []
    else
      var k := |lines| - 1;
      NotSkipped(lines[..k]) + (if Skipped(lines[k]) then [] else [lines[k]])
  }

  ghost predicate SameTexts(a: State, b: State) {
    Texts(a.out) == Texts(b.out) && a.current == b.current
  }

  lemma StepSameTexts(a: State, b: State, raw: string, m: nat, n: nat)
    requires SameTexts(a, b)
    ensures SameTexts(Step(a, raw, m), Step(b, raw, n))
  {
    hide Skipped, Continues, Strip;
    if !Skipped(raw) && !Continues(raw) {
      var x, y := Step(a, raw, m).out, Step(b, raw, n).out;
      assert Texts(x) == Texts(a.out) + [Strip(a.current + raw)];
      assert Texts(y) == Texts(b.out) + [Strip(b.current + raw)];
    }
  }

  lemma {:induction false} SkippingChangesNothing(lines: seq<string>)
    ensures SameTexts(After(lines), After(NotSkipped(lines)))
  {
    hide Step, Skipped, SameTexts;
    if lines == [] {
      Reflexive(After(lines));
    } else {
      var k := |lines| - 1;
      var rest := NotSkipped(lines[..k]);
      SkippingChangesNothing(lines[..k]);
      if Skipped(lines[k]) {
        SkippedStep(After(lines[..k]), lines[k], |lines|);
        assert rest + [] == rest;
      } else {
        assert (rest + [lines[k]])[..|rest|] == rest;
        StepSameTexts(After(lines[..k]), After(rest), lines[k], |lines|, |rest| + 1);
      }
    }
  }

  lemma Reflexive(s: State)
    ensures SameTexts(s, s)
  {
  }

  lemma SkippedStep(s: State, raw: string, lineno: nat)
    requires Skipped(raw)
    ensures Step(s, raw, lineno) == s
  {
  }

  /**
   * Blank and comment lines can be inserted or dropped anywhere, even inside a continuation: texts
   * depend only on the lines that are not skipped.
   */
  lemma TextsIgnoreSkipped(a: seq<string>, b: seq<string>)
    requires NotSkipped(a) == NotSkipped(b)
    ensures Texts(LogicalLines(a)) == Texts(LogicalLines(b))
  {
    SkippingChangesNothing(a);
    SkippingChangesNothing(b);
    hide After, Strip, NotSkipped;
    FinishSameTexts(After(a), After(b));
  }

  lemma FinishSameTexts(a: State, b: State)
    requires SameTexts(a, b)
    ensures Texts(Finish(a)) == Texts(Finish(b))
  {
    hide Strip;
    if a.current != "" {
      assert Texts(Finish(a)) == Texts(a.out) + [Strip(a.current)];
      assert Texts(Finish(b)) == Texts(b.out) + [Strip(b.current)];
    }
  }

  lemma {:induction false} NotSkippedJoin(a: seq<string>, b: seq<string>)
    ensures NotSkipped(a + b) == NotSkipped(a) + NotSkipped(b)
  {
    hide Skipped;
    if b == [] {
      assert a + b == a;
    } else {
      var k := |b| - 1;
      assert (a + b)[..|a + b| - 1] == a + b[..k];
      NotSkippedJoin(a, b[..k]);
    }
  }

  /** One inserted line, at any place. */
  lemma InsertSkipped(a: seq<string>, raw: string, b: seq<string>)
    requires Skipped(raw)
    ensures Texts(LogicalLines(a + [raw] + b)) == Texts(LogicalLines(a + b))
  {
    hide Skipped, LogicalLines;
    NotSkippedJoin(a + [raw], b);
    NotSkippedJoin(a, [raw]);
    NotSkippedJoin(a, b);
    assert NotSkipped([raw]) == [] by {
      assert [raw][..0] == [];
    }
    TextsIgnoreSkipped(a + [raw] + b, a + b);
  }

  // ---------- printing and parsing ----------

  predicate Blank(s: string) {
    forall i :: 0 <= i < |s| ==> IsSpace(s[i])
  }

  /** A text that is a whole logical line by itself. */
  predicate CleanText(t: string) {
    t != "" && !IsSpace(t[0]) && !IsSpace(t[|t| - 1]) && t[0] != '#' && t[|t| - 1] != '\\'
  }

  /** The text with any blanks before and after it. */
  ghost predicate Around(row: string, text: string) {
    exists left, right :: Padded(row, left, text, right)
  }

  predicate Padded(row: string, left: string, text: string, right: string) {
    Blank(left) && Blank(right) && row == left + text + right
  }

  lemma PaddedIsTrimmed(left: string, text: string, right: string)
    requires CleanText(text) && Blank(left) && Blank(right)
    ensures var row := left + text + right; TrimRight(row) == left + text && Strip(row) == text
  {
    var row := left + text + right;
    assert row[|left| + |text| - 1] == text[|text| - 1];
    assert forall i :: |left| + |text| <= i < |row| ==> row[i] == right[i - |left| - |text|];
    assert |TrimRight(row)| == |left| + |text|;
    assert TrimRight(row) == left + text;
    assert (left + text)[|left|] == text[0];
    assert forall i :: 0 <= i < |left| ==> (left + text)[i] == left[i];
    assert |TrimLeft(left + text)| == |text|;
  }

  function Rows(texts: seq<string>): (r: seq<Logical>)
    ensures |r| == |texts|
  {
    seq(|texts|, i requires 0 <= i < |texts| => Logical(i + 1, texts[i]))
  }

  lemma RowsOneMore(texts: seq<string>, t: string)
    ensures Rows(texts + [t]) == Rows(texts) + [Logical(|texts| + 1, t)]
  {
  }

  /** Clean lines printed one per row, with any blanks around them, parse back, each on its own row. */
  lemma {:induction false} PrintParse(texts: seq<string>, rows: seq<string>)
    requires |rows| == |texts| && forall i :: 0 <= i < |texts| ==> CleanText(texts[i]) && Around(rows[i], texts[i])
    ensures After(rows).current == "" && LogicalLines(rows) == Rows(texts)
  {
    hide Step, CleanText, Around, Rows;
    if texts == [] {
      assert Rows(texts) == [];
    } else {
      var k := |texts| - 1;
      PrintParse(texts[..k], rows[..k]);
      CleanStep(After(rows[..k]), texts[k], rows[k], |texts|);
      RowsOneMore(texts[..k], texts[k]);
      assert texts[..k] + [texts[k]] == texts;
    }
  }

  lemma CleanIsWhole(text: string, row: string)
    requires CleanText(text) && Around(row, text)
    ensures !Skipped(row) && !Continues(row) && Strip("" + row) == text
  {
    hide Strip, TrimRight, Blank;
    var left, right :| Padded(row, left, text, right);
    PaddedIsTrimmed(left, text, right);
    assert (left + text)[|left| + |text| - 1] == text[|text| - 1];
    assert "" + row == row;
  }

  lemma CleanStep(s: State, text: string, row: string, lineno: nat)
    requires s.current == "" && CleanText(text) && Around(row, text)
    ensures Step(s, row, lineno) == State(s.out + [Logical(lineno, text)], "", lineno)
  {
    CleanIsWhole(text, row);
    hide Skipped, Continues, Strip, CleanText, Around;
  }

  // ---------- continued lines ----------

  /** The first character that is no space is this one. */
  ghost predicate OpensWith(s: string, c: char) {
    exists i: nat :: i < |s| && s[i] == c && Blank(s[..i])
  }

  /** What is skipped, character by character. */
  lemma SkippedExact(raw: string)
    ensures Skipped(raw) <==> Blank(raw) || OpensWith(raw, '#')
  {
    var r := TrimRight(raw);
    var t := TrimLeft(r);
    var k := |r| - |t|;
    assert Blank(raw[..k]);
    if t == "" {
      assert Blank(raw);
    } else {
      assert raw[k] == t[0] && !IsSpace(raw[k]);
      if OpensWith(raw, '#') {
        FirstIsUnique(raw, '#', k);
      }
    }
  }

  lemma FirstIsUnique(s: string, c: char, k: nat)
    requires OpensWith(s, c) && !IsSpace(c) && k < |s| && !IsSpace(s[k]) && Blank(s[..k])
    ensures s[k] == c
  {
    var i: nat :| i < |s| && s[i] == c && Blank(s[..i]);
    assert forall j :: 0 <= j < k ==> s[j] == s[..k][j];
    assert forall j :: 0 <= j < i ==> s[j] == s[..i][j];
  }

  /** A backslash with only blanks behind it continues a line, and gives way to one blank. */
  lemma ContinuedLine(text: string, pad: string)
    requires Blank(pad)
    ensures Continues(text + "\\" + pad) && Piece(text + "\\" + pad) == text + " "
  {
    var raw := text + "\\" + pad;
    var r := TrimRight(raw);
    assert raw[|text|] == '\\';
    assert forall i :: |text| < i < |raw| ==> raw[i] == pad[i - |text| - 1];
    assert |r| == |text| + 1;
    assert r[..|text|] == text;
  }

  ghost predicate Backslashed(raw: string, text: string, pad: string) {
    Blank(pad) && raw == text + "\\" + pad
  }

  /** Exactly the lines with such a backslash are continued. */
  lemma ContinuesExact(raw: string)
    ensures Continues(raw) <==> exists text, pad :: Backslashed(raw, text, pad)
  {
    if Continues(raw) {
      var r := TrimRight(raw);
      assert Backslashed(raw, r[..|r| - 1], raw[|r|..]);
    }
    if text, pad :| Backslashed(raw, text, pad) {
      ContinuedLine(text, pad);
    }
  }

  // ---------- broken lines ----------

  /** A piece of a logical line on a row of its own, and the blanks behind its backslash. */
  datatype Fragment = Fragment(text: string, pad: string)

  /** A logical line over several rows, all but the last ending in a backslash. */
  datatype Broken = Broken(fragments: seq<Fragment>, last: string)

  function PrintFragment(f: Fragment): string {
    f.text + "\\" + f.pad
  }

  function PrintFragments(fragments: seq<Fragment>): (rows: seq<string>)
    ensures |rows| == |fragments|
  {
    seq(|fragments|, i requires 0 <= i < |fragments| => PrintFragment(fragments[i]))
  }

  function PrintBroken(b: Broken): seq<string> {
    PrintFragments(b.fragments) + [b.last]
  }

  function PrintAll(broken: seq<Broken>): seq<string> {
    if broken == [] then [] else PrintAll(broken[..|broken| - 1]) + PrintBroken(broken[|broken| - 1])
  }

  /** The texts of the rows, joined by single blanks. */
  function BrokenText(b: Broken): string {
    Join(" ", FragmentTexts(b.fragments) + [b.last])
  }

  function FragmentTexts(fragments: seq<Fragment>): (texts: seq<string>)
    ensures |texts| == |fragments|
  {
    seq(|fragments|, i requires 0 <= i < |fragments| => fragments[i].text)
  }

  /** Rows are no comments, and the last one is not blank and ends in no backslash. */
  ghost predicate CleanFragment(f: Fragment) {
    Blank(f.pad) && !OpensWith(f.text, '#')
  }

  ghost predicate CleanBroken(b: Broken) {
    && (forall i :: 0 <= i < |b.fragments| ==> CleanFragment(b.fragments[i]))
    && !Blank(b.last) && !OpensWith(b.last, '#')
    && !exists text, pad :: Backslashed(b.last, text, pad)
  }

  /** Each broken line as one logical line that starts on its first row. */
  function BrokenRows(broken: seq<Broken>): seq<Logical> {
    if broken == [] then []
    else
      var k := |broken| - 1;
      BrokenRows(broken[..k]) + [Logical(|PrintAll(broken[..k])| + 1, Strip(BrokenText(broken[k])))]
  }

  /** The texts of some fragments with a blank behind each. */
  function Glued(fragments: seq<Fragment>): string {
    if fragments == [] then ""
    else Glued(fragments[..|fragments| - 1]) + (fragments[|fragments| - 1].text + " ")
  }

  lemma {:induction false} JoinOneMore(texts: seq<string>, last: string)
    requires texts != []
    ensures Join(" ", texts + [last]) == Join(" ", texts) + " " + last
  {
    if |texts| == 1 {
      assert (texts + [last])[1..] == [last];
    } else {
      assert (texts + [last])[1..] == texts[1..] + [last];
      JoinOneMore(texts[1..], last);
    }
  }

  lemma {:induction false} GluedJoins(fragments: seq<Fragment>, last: string)
    ensures Glued(fragments) + last == Join(" ", FragmentTexts(fragments) + [last])
  {
    if fragments == [] {
      assert FragmentTexts(fragments) + [last] == [last];
    } else {
      var k := |fragments| - 1;
      var front, text := fragments[..k], fragments[k].text;
      GluedJoins(front, text);
      assert FragmentTexts(fragments) == FragmentTexts(front) + [text];
      JoinOneMore(FragmentTexts(fragments), last);
      hide Join;
      assert Glued(fragments) + last == Glued(front) + text + " " + last;
    }
  }

  lemma FragmentContinues(f: Fragment)
    requires CleanFragment(f)
    ensures var raw := PrintFragment(f); !Skipped(raw) && Continues(raw) && Piece(raw) == f.text + " "
  {
    var raw := PrintFragment(f);
    ContinuedLine(f.text, f.pad);
    SkippedExact(raw);
    hide Skipped, Continues, Piece;
    assert raw[|f.text|] == '\\';
    if OpensWith(raw, '#') {
      FragmentOpens(f.text, f.pad);
    }
  }

  lemma FragmentOpens(text: string, pad: string)
    requires OpensWith(text + "\\" + pad, '#')
    ensures OpensWith(text, '#')
  {
    var raw := text + "\\" + pad;
    var i: nat :| i < |raw| && raw[i] == '#' && Blank(raw[..i]);
    assert forall j :: 0 <= j < i ==> raw[j] == raw[..i][j];
    assert raw[|text|] == '\\';
    assert text[..i] == raw[..i] && text[i] == '#';
  }

  lemma LastEnds(raw: string)
    requires !Blank(raw) && !OpensWith(raw, '#') && !exists text, pad :: Backslashed(raw, text, pad)
    ensures !Skipped(raw) && !Continues(raw)
  {
    SkippedExact(raw);
    ContinuesExact(raw);
  }

  lemma AfterOneMore(lines: seq<string>, raw: string)
    ensures After(lines + [raw]) == Step(After(lines), raw, |lines| + 1)
  {
    hide Step;
    assert (lines + [raw])[..|lines|] == lines;
  }

  /** Fragments after finished lines leave their glued text open. */
  lemma {:induction false} FragmentsGlue(lines: seq<string>, fragments: seq<Fragment>)
    requires After(lines).current == "" && forall i :: 0 <= i < |fragments| ==> CleanFragment(fragments[i])
    ensures var s := After(lines + PrintFragments(fragments));
            && s.out == After(lines).out && s.current == Glued(fragments)
            && (fragments != [] ==> s.current != "" && s.start == |lines| + 1)
  {
    hide Skipped, Continues, Piece, CleanFragment, After;
    if fragments == [] {
      assert lines + PrintFragments(fragments) == lines;
    } else {
      var k := |fragments| - 1;
      var front, f := fragments[..k], fragments[k];
      FragmentsGlue(lines, front);
      var rows := lines + PrintFragments(front);
      assert lines + PrintFragments(fragments) == rows + [PrintFragment(f)];
      AfterOneMore(rows, PrintFragment(f));
      FragmentContinues(f);
      assert |Glued(front) + (f.text + " ")| > 0;
    }
  }

  /** One broken line after finished lines. */
  lemma BrokenStep(lines: seq<string>, b: Broken)
    requires After(lines).current == "" && CleanBroken(b)
    ensures var s := After(lines + PrintBroken(b));
            s.current == "" && s.out == After(lines).out + [Logical(|lines| + 1, Strip(BrokenText(b)))]
  {
    hide Skipped, Continues, CleanFragment, After, Strip, Join, Glued;
    FragmentsGlue(lines, b.fragments);
    var rows := lines + PrintFragments(b.fragments);
    assert lines + PrintBroken(b) == rows + [b.last];
    AfterOneMore(rows, b.last);
    LastEnds(b.last);
    GluedJoins(b.fragments, b.last);
    if b.fragments == [] {
      assert rows == lines;
    }
  }

  /**
   * Logical lines broken over any number of rows parse back: each is one line that starts on its first
   * row and reads as the texts of its rows joined by blanks.
   */
  lemma {:induction false} PrintParseBroken(broken: seq<Broken>)
    requires forall i :: 0 <= i < |broken| ==> CleanBroken(broken[i])
    ensures After(PrintAll(broken)).current == "" && LogicalLines(PrintAll(broken)) == BrokenRows(broken)
  {
    hide CleanBroken, BrokenText, PrintBroken, Strip, Step;
    if broken != [] {
      var k := |broken| - 1;
      PrintParseBroken(broken[..k]);
      BrokenStep(PrintAll(broken[..k]), broken[k]);
    }
  }

  /** When the file ends in fragments, these are one more line. */
  lemma PrintParseOpen(broken: seq<Broken>, rest: seq<Fragment>)
    requires forall i :: 0 <= i < |broken| ==> CleanBroken(broken[i])
    requires rest != [] && forall i :: 0 <= i < |rest| ==> CleanFragment(rest[i])
    ensures LogicalLines(PrintAll(broken) + PrintFragments(rest)) ==
            BrokenRows(broken) + [Logical(|PrintAll(broken)| + 1, Strip(Join(" ", FragmentTexts(rest) + [""])))]
  {
    hide CleanBroken, CleanFragment, PrintAll, BrokenRows, Strip, Join, After, Glued, PrintFragments;
    PrintParseBroken(broken);
    FragmentsGlue(PrintAll(broken), rest);
    GluedJoins(rest, "");
    assert Glued(rest) + "" == Glued(rest);
  }

  // ---------- empty texts ----------

  lemma {:induction false} AllSpaces(s: string)
    ensures TrimRight(s) == "" <==> forall i :: 0 <= i < |s| ==> IsSpace(s[i])
  {
    if s != "" && IsSpace(s[|s| - 1]) {
      AllSpaces(s[..|s| - 1]);
    }
  }

  lemma LastKept(t: string)
    requires t != "" && !IsSpace(t[|t| - 1])
    ensures TrimLeft(t) != ""
  {
  }

  lemma StripEmpty(s: string)
    ensures Strip(s) == "" <==> forall i :: 0 <= i < |s| ==> IsSpace(s[i])
  {
    AllSpaces(s);
    var t := TrimRight(s);
    if t != "" {
      LastKept(t);
    }
  }

  lemma JoinedNotEmpty(current: string, raw: string)
    requires !Skipped(raw)
    ensures Strip(current + raw) != ""
  {
    StripEmpty(raw);
    StripEmpty(current + raw);
    hide Strip;
    var i :| 0 <= i < |raw| && !IsSpace(raw[i]);
    assert (current + raw)[|current| + i] == raw[i];
  }

  lemma {:induction false} FinishedNotEmpty(lines: seq<string>)
    ensures forall j :: 0 <= j < |After(lines).out| ==> After(lines).out[j].text != ""
  {
    hide Skipped, Continues, Strip;
    if lines != [] {
      var k := |lines| - 1;
      FinishedNotEmpty(lines[..k]);
      if !Skipped(lines[k]) {
        JoinedNotEmpty(After(lines[..k]).current, lines[k]);
      }
    }
  }

  /** A line that ends the logical line it belongs to. */
  predicate Ends(raw: string) {
    !Skipped(raw) && !Continues(raw)
  }

  /** A continued line that is blank but for its backslash. */
  predicate BlankContinuation(raw: string) {
    !Skipped(raw) && Continues(raw) && Blank(Piece(raw))
  }

  /** From line k on nothing ends a logical line, and the line before ends one. */
  ghost predicate TailFrom(lines: seq<string>, k: nat) {
    && k <= |lines| && (k > 0 ==> Ends(lines[k - 1]))
    && forall i :: k <= i < |lines| ==> !Ends(lines[i])
  }

  ghost predicate AllSkipped(lines: seq<string>, k: nat) {
    forall i :: k <= i < |lines| ==> Skipped(lines[i])
  }

  ghost predicate AllBlank(lines: seq<string>, k: nat) {
    forall i :: k <= i < |lines| ==> Skipped(lines[i]) || BlankContinuation(lines[i])
  }

  lemma BlankJoin(a: string, b: string)
    ensures Blank(a + b) <==> Blank(a) && Blank(b)
  {
    if Blank(a + b) {
      assert forall i :: 0 <= i < |a| ==> a[i] == (a + b)[i];
      assert forall i :: 0 <= i < |b| ==> b[i] == (a + b)[|a| + i];
    }
  }

  /** The line after the last one that ended something, and the text open since. */
  lemma {:induction false} OpenText(lines: seq<string>) returns (k: nat)
    ensures TailFrom(lines, k)
    ensures After(lines).current == "" <==> AllSkipped(lines, k)
    ensures Blank(After(lines).current) <==> AllBlank(lines, k)
  {
    hide Skipped, Continues, Piece, Blank, Strip;
    if lines == [] {
      k := 0;
      assert Blank("") by {
        NothingIsBlank();
      }
    } else {
      var n := |lines| - 1;
      k := OpenText(lines[..n]);
      var current := After(lines[..n]).current;
      if Ends(lines[n]) {
        k := n + 1;
        NothingIsBlank();
      } else if Continues(lines[n]) && !Skipped(lines[n]) {
        PieceNotEmpty(lines[n]);
        BlankJoin(current, Piece(lines[n]));
        assert |current + Piece(lines[n])| > 0;
        TailLonger(lines, k);
      } else {
        TailLonger(lines, k);
      }
    }
  }

  lemma NothingIsBlank()
    ensures Blank("")
  {
  }

  lemma TailLonger(lines: seq<string>, k: nat)
    requires lines != [] && !Ends(lines[|lines| - 1]) && TailFrom(lines[..|lines| - 1], k)
    ensures TailFrom(lines, k)
    ensures AllSkipped(lines, k) <==> AllSkipped(lines[..|lines| - 1], k) && Skipped(lines[|lines| - 1])
    ensures AllBlank(lines, k) <==>
            AllBlank(lines[..|lines| - 1], k) && (Skipped(lines[|lines| - 1]) || BlankContinuation(lines[|lines| - 1]))
  {
    hide Ends, Skipped, BlankContinuation;
    assert forall i :: 0 <= i < |lines| - 1 ==> lines[..|lines| - 1][i] == lines[i];
  }

  lemma TailIsUnique(lines: seq<string>, k: nat, l: nat)
    requires TailFrom(lines, k) && TailFrom(lines, l)
    ensures k == l
  {
    hide Ends;
  }

  /** After the last line that ends a logical line, only blank continued lines are left, and at least one. */
  ghost predicate EndsInBlankContinuation(lines: seq<string>) {
    exists k: nat :: TailFrom(lines, k) && AllBlank(lines, k) && !AllSkipped(lines, k)
  }

  /**
   * A logical line is empty exactly when it is the last one and, after the last physical line that ends
   * a logical line, every line not skipped is blank but for its backslash, and there is one.
   */
  lemma EmptyExact(lines: seq<string>, j: nat)
    requires j < |LogicalLines(lines)|
    ensures LogicalLines(lines)[j].text == "" <==> j == |LogicalLines(lines)| - 1 && EndsInBlankContinuation(lines)
  {
    FinishedNotEmpty(lines);
    StripEmpty(After(lines).current);
    var k := OpenText(lines);
    hide After, Strip, AllBlank, AllSkipped, TailFrom;
    if EndsInBlankContinuation(lines) {
      var l: nat :| TailFrom(lines, l) && AllBlank(lines, l) && !AllSkipped(lines, l);
      TailIsUnique(lines, k, l);
    }
  }

  lemma BackslashLine()
    ensures !Skipped("\\") && Continues("\\") && Piece("\\") == " "
  {
    assert TrimRight("\\") == "\\" && TrimLeft("\\") == "\\";
  }

  lemma OneBlank()
    ensures Strip(" ") == ""
  {
    StripEmpty(" ");
  }

  /** A file of one backslash is one empty logical line. */
  lemma EmptyExample()
    ensures LogicalLines(["\\"]) == [Logical(1, "")]
  {
    BackslashLine();
    OneBlank();
    hide Skipped, Continues, Piece, Strip;
    var lines := ["\\"];
    assert lines[..0] == [];
    assert "" + " " == " ";
    assert After(lines) == Step(After(lines[..0]), "\\", 1);
  }
}
