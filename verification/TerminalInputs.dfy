/** The checks on the input bytes of an `exec -it` log, and the safety of an accepted log. */
module TerminalInputs {
  import opened Options
  import opened Text
  import opened TerminalTrace

  // ---------- bytes ----------

  function Hex(e: Event): string {
    Strip(Lower(e.hex))
  }

  function Tokens(e: Event): seq<string> {
    Split(Hex(e))
  }

  predicate IsHexDigit(c: char) {
    '0' <= c <= '9' || 'a' <= c <= 'f'
  }

  function DigitValue(c: char): nat
    requires IsHexDigit(c)
  {
    if c <= '9' then c as int - '0' as int else c as int - 'a' as int + 10
  }

  predicate IsHexByte(token: string) {
    |token| == 2 && IsHexDigit(token[0]) && IsHexDigit(token[1])
  }

  function ByteOf(token: string): (b: nat)
    requires IsHexByte(token)
    ensures b < 256
  {
    16 * DigitValue(token[0]) + DigitValue(token[1])
  }

  predicate AllHex(tokens: seq<string>) {
    forall i :: 0 <= i < |tokens| ==> IsHexByte(tokens[i])
  }

  function BytesIn(tokens: seq<string>): (bytes: seq<nat>)
    requires AllHex(tokens)
    ensures |bytes| == |tokens| && forall i :: 0 <= i < |tokens| ==> bytes[i] == ByteOf(tokens[i])
  {
    seq(|tokens|, i requires 0 <= i < |tokens| => ByteOf(tokens[i]))
  }

  /** `_validate_input_hex` */
  predicate InputOk(e: Event) {
    Tokens(e) != [] && AllHex(Tokens(e)) && e.bytes == Some(|Tokens(e)|)
  }

  /** The bytes a valid input entry stands for. */
  function BytesOf(e: Event): (bytes: seq<nat>)
    requires InputOk(e)
  {
    BytesIn(Tokens(e))
  }

  /** Two hexadecimal digits and a byte determine each other. */
  lemma SameByteSameToken(a: string, b: string)
    requires IsHexByte(a) && IsHexByte(b)
    ensures ByteOf(a) == ByteOf(b) <==> a == b
  {
    if ByteOf(a) == ByteOf(b) {
      assert a == [a[0], a[1]] && b == [b[0], b[1]];
    }
  }

  /** Looking for a token among the tokens is looking for its byte among the bytes. */
  lemma TokenIsByte(e: Event, token: string)
    requires InputOk(e) && IsHexByte(token)
    ensures token in Tokens(e) <==> ByteOf(token) in BytesOf(e)
    ensures Tokens(e) == [token] <==> BytesOf(e) == [ByteOf(token)]
  {
    var tokens, bytes := Tokens(e), BytesOf(e);
    hide InputOk, ByteOf, Tokens, BytesOf, BytesIn, IsHexByte;
    forall i | 0 <= i < |tokens|
      ensures bytes[i] == ByteOf(token) <==> tokens[i] == token
    {
      SameByteSameToken(tokens[i], token);
    }
    if |tokens| == 1 {
      assert tokens == [tokens[0]];
      assert bytes == [bytes[0]];
    }
  }

  lemma {:induction false} OnlySpacesLeft(s: string)
    requires Split(s) == []
    ensures forall i :: 0 <= i < |s| ==> IsSpace(s[i])
    decreases |s|
  {
    if s != "" {
      OnlySpacesLeft(s[1..]);
      assert forall i :: 1 <= i < |s| ==> s[i] == s[1..][i - 1];
    }
  }

  predicate NoSpaceAtEnds(s: string) {
    s != "" ==> !IsSpace(s[0]) && !IsSpace(s[|s| - 1])
  }

  lemma StrippedEnds(s: string)
    ensures NoSpaceAtEnds(Strip(s))
  {
    var t := TrimRight(s);
    var r := TrimLeft(t);
    if r != "" {
      assert r[|r| - 1] == t[|t| - 1];
    }
  }

  lemma OnlyWord(s: string, token: string)
    requires Split(s) == [token] && NoSpaceAtEnds(s)
    ensures s == token
  {
    var rest := s[|Word(s)|..];
    assert s != "" && !IsSpace(s[0]);
    var split := [Word(s)] + Split(rest);
    assert Split(s) == split;
    assert split[0] == Word(s) && |split| == 1 + |Split(rest)|;
    assert rest != "" ==> rest[|rest| - 1] == s[|s| - 1];
    OnlySpacesLeft(rest);
  }

  /** A stripped text that is a single token is that token. */
  lemma SingleToken(e: Event, token: string)
    requires Tokens(e) == [token]
    ensures Hex(e) == token
  {
    hide Split, Strip, Lower;
    StrippedEnds(Lower(e.hex));
    OnlyWord(Hex(e), token);
  }

  // ---------- joined texts ----------

  predicate OneLine(needle: string) {
    needle != "" && '\n' !in needle
  }

  lemma Straddle(a: string, b: string, needle: string, i: nat)
    requires OccursAt(a + "\n" + b, needle, i) && i <= |a| < i + |needle|
    ensures '\n' in needle
  {
    var s := a + "\n" + b;
    assert s[|a|] == '\n' && needle[|a| - i] == s[i..i + |needle|][|a| - i];
  }

  lemma LeftPart(a: string, rest: string, needle: string, i: nat)
    requires OccursAt(a + rest, needle, i) && i + |needle| <= |a|
    ensures Contains(a, needle)
  {
    assert (a + rest)[i..i + |needle|] == a[i..i + |needle|];
    assert OccursAt(a, needle, i);
  }

  lemma RightPart(front: string, b: string, needle: string, i: nat)
    requires OccursAt(front + b, needle, i) && |front| <= i
    ensures Contains(b, needle)
  {
    var s, j, n := front + b, i - |front|, |needle|;
    assert s[|front|..] == b;
    assert b[j..j + n] == s[i..i + n];
    assert OccursAt(b, needle, j);
  }

  /** A needle without a newline never straddles the joint. */
  lemma JointNeedle(a: string, b: string, needle: string)
    requires OneLine(needle)
    ensures Contains(a + "\n" + b, needle) <==> Contains(a, needle) || Contains(b, needle)
  {
    var s := a + "\n" + b;
    if Contains(s, needle) {
      var i: nat :| i <= |s| && OccursAt(s, needle, i);
      if i <= |a| < i + |needle| {
        Straddle(a, b, needle, i);
      } else if i + |needle| <= |a| {
        assert a + ("\n" + b) == s;
        LeftPart(a, "\n" + b, needle, i);
      } else {
        RightPart(a + "\n", b, needle, i);
      }
    }
    if Contains(a, needle) {
      var i: nat :| i <= |a| && OccursAt(a, needle, i);
      OccursInMiddle("", a, "\n" + b, needle, i);
      assert "" + a + ("\n" + b) == s;
    }
    if Contains(b, needle) {
      var i: nat :| i <= |b| && OccursAt(b, needle, i);
      OccursInMiddle(a + "\n", b, "", needle, i);
      assert a + "\n" + b + "" == s;
    }
  }

  /** Searching the joined texts is searching the texts one by one. */
  lemma {:induction false} JoinedNeedle(texts: seq<string>, needle: string)
    requires OneLine(needle)
    ensures Contains(Join("\n", texts), needle) <==> exists k :: 0 <= k < |texts| && Contains(texts[k], needle)
  {
    hide Contains;
    if texts == [] {
      EmptyContainsNothing(needle);
    } else if |texts| > 1 {
      JointNeedle(texts[0], Join("\n", texts[1..]), needle);
      JoinedNeedle(texts[1..], needle);
      assert forall k :: 1 <= k < |texts| ==> texts[k] == texts[1..][k - 1];
      if exists k :: 0 <= k < |texts[1..]| && Contains(texts[1..][k], needle) {
        var k :| 0 <= k < |texts[1..]| && Contains(texts[1..][k], needle);
        assert Contains(texts[k + 1], needle);
      }
    }
  }

  lemma EmptyContainsNothing(needle: string)
    requires needle != ""
    ensures !Contains("", needle)
  {
  }

  // ---------- the input entries ----------

  function Inputs(events: seq<Event>): (r: seq<Event>)
    ensures forall e :: e in r <==> e in events && e.kind == Input
  {
    if events == [] then []
    else if events[0].kind == Input then [events[0]] + Inputs(events[1..])
    else Inputs(events[1..])
  }

  function Texts(inputs: seq<Event>): seq<string> {
    seq(|inputs|, i requires 0 <= i < |inputs| => inputs[i].text)
  }

  function Hexes(inputs: seq<Event>): seq<string> {
    seq(|inputs|, i requires 0 <= i < |inputs| => Hex(inputs[i]))
  }

  /** What an input entry is looked for by. */
  datatype Mark = HasText(needle: string) | IsText(text: string) | IsByte(token: string) | HasHex(needle: string)

  predicate Marked(e: Event, m: Mark) {
    match m
    case HasText(needle) => Contains(e.text, needle)
    case IsText(text) => e.text == text
    case IsByte(token) => Tokens(e) == [token]
    case HasHex(needle) => Contains(Hex(e), needle)
  }

  function FirstTrue(flags: seq<bool>): (r: int)
    ensures -1 <= r < |flags|
    ensures r == -1 <==> forall i :: 0 <= i < |flags| ==> !flags[i]
    ensures r >= 0 ==> flags[r] && forall i :: 0 <= i < r ==> !flags[i]
  {
    if flags == [] then -1
    else if flags[0] then 0
    else
      var r := FirstTrue(flags[1..]);
      assert forall i :: 1 <= i < |flags| ==> flags[i] == flags[1..][i - 1];
      if r == -1 then -1 else r + 1
  }

  function CountTrue(flags: seq<bool>): nat {
    if flags == [] then 0 else (if flags[0] then 1 else 0) + CountTrue(flags[1..])
  }

  function Flags(inputs: seq<Event>, m: Mark): (r: seq<bool>)
    ensures |r| == |inputs| && forall i :: 0 <= i < |inputs| ==> r[i] == Marked(inputs[i], m)
  {
    seq(|inputs|, i requires 0 <= i < |inputs| => Marked(inputs[i], m))
  }

  /** The position of the first marked input, or -1. */
  function FirstMark(inputs: seq<Event>, m: Mark): (r: int)
    ensures -1 <= r < |inputs|
  {
    FirstTrue(Flags(inputs, m))
  }

  lemma FirstMarked(inputs: seq<Event>, m: Mark)
    ensures var r := FirstMark(inputs, m);
            && (r == -1 <==> forall i :: 0 <= i < |inputs| ==> !Marked(inputs[i], m))
            && (r >= 0 ==> Marked(inputs[r], m) && forall i :: 0 <= i < r ==> !Marked(inputs[i], m))
  {
    hide Marked;
  }

  const ETX := "03"
  const LETTER_C := "63"
  const ENTER := "0d"

  const NEEDLES := [
    "p=pdocker-ui-it", "echo ${p}-ok", "arrow-seed", "top -b -n 1", "top", "printf '%s", "ime-enter-ok", "sleep 15",
    "ctrlc-ok", "exit"
  ]

  const SPOILED_SLEEP := "sleep 15c"

  const SCRIPT := HasText("p=pdocker-ui-it")
  const ECHO := HasText("echo ${p}-ok")
  const IME := HasText("ime-enter-ok")
  const SLEEP := HasText("sleep 15")
  const RECOVERY := HasText("ctrlc-ok")
  const TOP := IsText("top\r")
  const QUIT := IsByte("71")
  const ARROW := HasHex("1b 5b 41 0d")
  const TOP_RECOVERY := HasText("topq-ok")

  /** The joined texts and hex columns hold what they have to hold. */
  predicate TextsOk(inputs: seq<Event>) {
    var texts := Join("\n", Texts(inputs));
    && (forall needle | needle in NEEDLES :: Contains(texts, needle))
    && !Contains(texts, SPOILED_SLEEP)
    && Contains(Join("\n", Hexes(inputs)), ETX)
  }

  predicate IsAnEtx(hex: string) {
    hex == ETX || Contains(" " + hex + " ", " " + ETX + " ")
  }

  /** The `any` checks over the hex columns. */
  predicate HexesOk(inputs: seq<Event>) {
    && (exists i | 0 <= i < |inputs| :: Marked(inputs[i], ARROW))
    && (exists i | 0 <= i < |inputs| :: IsAnEtx(Hex(inputs[i])))
    && (exists i | 0 <= i < |inputs| :: Marked(inputs[i], QUIT))
  }

  /** The Enter after the input-method command: once, and not twice. */
  predicate ImeOk(inputs: seq<Event>) {
    var ime := FirstMark(inputs, IME);
    && ime >= 0 && ime + 1 < |inputs|
    && Tokens(inputs[ime + 1]) == [ENTER]
    && (ime + 2 >= |inputs| || Tokens(inputs[ime + 2]) != [ENTER])
    && CountTrue(Flags(inputs, ECHO)) == 1
  }

  predicate TopOk(inputs: seq<Event>) {
    var top, quit := FirstMark(inputs, TOP), FirstMark(inputs, QUIT);
    && 0 <= FirstMark(inputs, SCRIPT) < FirstMark(inputs, ARROW)
    && 0 <= top < quit < FirstMark(inputs, TOP_RECOVERY)
  }

  /** An interrupt of its own between the sleep and the recovery, and no letter c there. */
  predicate InterruptOk(inputs: seq<Event>) {
    var sleep, recovery := FirstMark(inputs, SLEEP), FirstMark(inputs, RECOVERY);
    && 0 <= sleep < recovery
    && (exists i | 0 <= i < |inputs| :: ETX in Tokens(inputs[i]))
    && (exists i | sleep < i < recovery :: ETX in Tokens(inputs[i]) && Tokens(inputs[i]) == [ETX])
    && !exists i | sleep < i < recovery :: LETTER_C in Tokens(inputs[i]) || Tokens(inputs[i]) == [ETX, LETTER_C]
  }

  predicate InputsOk(inputs: seq<Event>) {
    && inputs != []
    && (forall e | e in inputs :: InputOk(e))
    && TextsOk(inputs) && HexesOk(inputs) && ImeOk(inputs) && TopOk(inputs) && InterruptOk(inputs)
  }

  function StartEvent(events: seq<Event>): Option<Event> {
    match FirstIndex(events, Start)
    case Some(i) => Some(events[i])
    case None => None
  }

  /** `_verify_jsonl` does not raise. */
  predicate Accepts(s: Session, events: seq<Event>) {
    && TimesOk(s, events)
    && StartEvent(events).Some? && Strip(StartEvent(events).value.container) == s.container
    && HandshakeOk(s, events)
    && ResizeFound(events, events[FirstIndex(events, Created).value].execId) == Some(true)
    && InputsOk(Inputs(events))
  }

  // ---------- what an accepted log shows ----------

  predicate BytesAre(e: Event, bytes: seq<nat>) {
    InputOk(e) && BytesOf(e) == bytes
  }

  /** Between the sleep and the recovery exactly what an interrupt should look like, byte by byte. */
  ghost predicate Interrupted(inputs: seq<Event>) {
    var sleep, recovery := FirstMark(inputs, SLEEP), FirstMark(inputs, RECOVERY);
    && 0 <= sleep < recovery
    && (exists i :: sleep < i < recovery && BytesAre(inputs[i], [3]))
    && forall i :: sleep < i < recovery ==> InputOk(inputs[i]) && 'c' as int !in BytesOf(inputs[i])
  }

  lemma EtxBytes(e: Event)
    requires InputOk(e)
    ensures Tokens(e) == [ETX] <==> BytesOf(e) == [3]
    ensures LETTER_C in Tokens(e) <==> 'c' as int in BytesOf(e)
  {
    EtxValues();
    hide Tokens, BytesOf, InputOk, ByteOf, IsHexByte;
    TokenIsByte(e, ETX);
    TokenIsByte(e, LETTER_C);
  }

  lemma EtxValues()
    ensures IsHexByte(ETX) && ByteOf(ETX) == 3
    ensures IsHexByte(LETTER_C) && ByteOf(LETTER_C) == 'c' as int
  {
  }

  lemma EtxTokens(e: Event)
    requires InputOk(e)
    ensures Tokens(e) == [ETX] <==> BytesAre(e, [3])
    ensures Tokens(e) == [ETX] ==> ETX in Tokens(e)
    ensures LETTER_C in Tokens(e) <==> 'c' as int in BytesOf(e)
    ensures Tokens(e) == [ETX, LETTER_C] ==> LETTER_C in Tokens(e)
  {
    EtxBytes(e);
    hide Tokens, BytesOf, InputOk;
    if Tokens(e) == [ETX, LETTER_C] {
      assert Tokens(e)[1] == LETTER_C;
    }
    if Tokens(e) == [ETX] {
      assert Tokens(e)[0] == ETX;
    }
  }

  lemma InterruptExact(inputs: seq<Event>)
    requires forall e :: e in inputs ==> InputOk(e)
    ensures InterruptOk(inputs) <==> Interrupted(inputs)
  {
    hide InputOk, Tokens, FirstMark, BytesOf, BytesAre;
    var sleep, recovery := FirstMark(inputs, SLEEP), FirstMark(inputs, RECOVERY);
    forall i | 0 <= i < |inputs|
      ensures InputOk(inputs[i])
      ensures Tokens(inputs[i]) == [ETX] <==> BytesAre(inputs[i], [3])
      ensures Tokens(inputs[i]) == [ETX] ==> ETX in Tokens(inputs[i])
      ensures LETTER_C in Tokens(inputs[i]) <==> 'c' as int in BytesOf(inputs[i])
      ensures Tokens(inputs[i]) == [ETX, LETTER_C] ==> LETTER_C in Tokens(inputs[i])
    {
      assert inputs[i] in inputs;
      EtxTokens(inputs[i]);
    }
    if Interrupted(inputs) {
      var i :| sleep < i < recovery && BytesAre(inputs[i], [3]);
      assert Tokens(inputs[i]) == [ETX];
    }
  }

  /**
   * The safety of the session over the whole log: time never runs backwards; every input comes after
   * a 2xx create-response, a created entry, a 101 start-response and a stream-started entry, all for
   * one identifier; every input states its bytes truthfully; and the sleep is ended by an interrupt of
   * its own with no letter c before the recovery.
   */
  ghost predicate Safe(s: Session, events: seq<Event>) {
    && InTime(s, events)
    && (exists c: nat, d: nat, r: nat, t: nat ::
         d < |events| && Opened(s, events, c, d, r, t) && ResizeVisible(events, events[d].execId)
         && forall i :: 0 <= i < |events| && events[i].kind == Input ==> t < i && InputOk(events[i]))
    && Interrupted(Inputs(events))
  }

  lemma AcceptedIsSafe(s: Session, events: seq<Event>)
    requires Accepts(s, events)
    ensures Safe(s, events)
  {
    hide TimesOk, InTime, HandshakeOk, Opened, ResizeFound, ResizeVisible, InputOk, TextsOk, HexesOk, ImeOk, TopOk, InterruptOk,
         Interrupted, StartEvent, Strip, FirstIndex;
    TimesExact(s, events);
    HandshakeExact(s, events);
    InterruptExact(Inputs(events));
    var c: nat, d: nat, r: nat, t: nat :| Opened(s, events, c, d, r, t)
      && forall i :: 0 <= i < |events| && events[i].kind == Input ==> t < i;
    CreatedIsFirst(s, events, c, d, r, t);
    ResizeExact(events, events[d].execId);
    forall i | 0 <= i < |events| && events[i].kind == Input
      ensures InputOk(events[i])
    {
      assert events[i] in Inputs(events);
    }
  }

  lemma CreatedIsFirst(s: Session, events: seq<Event>, c: nat, d: nat, r: nat, t: nat)
    requires Opened(s, events, c, d, r, t)
    ensures FirstIndex(events, Created) == Some(d)
  {
    FirstIsUnique(events, Created, d);
  }

  // ---------- the exact meaning of acceptance ----------

  /** Every script marker was typed in some input, and none spoiled the sleep. */
  ghost predicate Typed(inputs: seq<Event>) {
    && (forall needle :: needle in NEEDLES ==> exists k :: 0 <= k < |inputs| && Contains(inputs[k].text, needle))
    && (forall k :: 0 <= k < |inputs| ==> !Contains(inputs[k].text, SPOILED_SLEEP))
  }

  /** The first input with this mark. */
  ghost predicate FirstIs(inputs: seq<Event>, m: Mark, i: int) {
    0 <= i < |inputs| && Marked(inputs[i], m) && forall j :: 0 <= j < i ==> !Marked(inputs[j], m)
  }

  ghost predicate OnlyIs(inputs: seq<Event>, m: Mark, i: int) {
    0 <= i < |inputs| && Marked(inputs[i], m) && forall j :: 0 <= j < |inputs| && j != i ==> !Marked(inputs[j], m)
  }

  /** The input-method command is followed by one carriage return and no second, and the script is submitted once. */
  ghost predicate EnteredOnce(inputs: seq<Event>) {
    && (exists i :: FirstIs(inputs, HasText("ime-enter-ok"), i) && i + 1 < |inputs| && BytesAre(inputs[i + 1], [13])
                    && (i + 2 < |inputs| ==> !BytesAre(inputs[i + 2], [13])))
    && (exists i :: OnlyIs(inputs, HasText("echo ${p}-ok"), i))
  }

  /** The recalled command comes after the script; top is started, left with a single q, and the shell is back after that. */
  ghost predicate TopQuit(inputs: seq<Event>) {
    && (exists i, j :: FirstIs(inputs, HasText("p=pdocker-ui-it"), i) && FirstIs(inputs, HasHex("1b 5b 41 0d"), j) && i < j)
    && (exists i, j, k :: FirstIs(inputs, IsText("top\r"), i) && FirstQ(inputs, j)
                          && FirstIs(inputs, HasText("topq-ok"), k) && i < j < k)
  }

  /** The first input that is a q by itself. */
  ghost predicate FirstQ(inputs: seq<Event>, i: int) {
    0 <= i < |inputs| && BytesAre(inputs[i], ['q' as int]) && forall j :: 0 <= j < i ==> !BytesAre(inputs[j], ['q' as int])
  }

  lemma FirstMarkIs(inputs: seq<Event>, m: Mark, i: int)
    ensures FirstIs(inputs, m, i) <==> i >= 0 && FirstMark(inputs, m) == i
  {
    FirstMarked(inputs, m);
    hide Marked, FirstMark;
  }

  lemma ByteToken(e: Event, token: string, b: nat)
    requires InputOk(e) && IsHexByte(token) && ByteOf(token) == b
    ensures Tokens(e) == [token] <==> BytesAre(e, [b])
  {
    TokenIsByte(e, token);
    hide Tokens, BytesOf, InputOk, IsHexByte, ByteOf;
  }

  lemma KeyTokens()
    ensures IsHexByte("0d") && ByteOf("0d") == 13
    ensures IsHexByte("71") && ByteOf("71") == 'q' as int
  {
  }

  lemma {:induction false} NoneCounted(flags: seq<bool>)
    ensures CountTrue(flags) == 0 <==> forall i :: 0 <= i < |flags| ==> !flags[i]
  {
    if flags != [] {
      NoneCounted(flags[1..]);
      assert forall i :: 1 <= i < |flags| ==> flags[i] == flags[1..][i - 1];
    }
  }

  ghost predicate OnlyTrue(flags: seq<bool>, i: int) {
    0 <= i < |flags| && flags[i] && forall j :: 0 <= j < |flags| && j != i ==> !flags[j]
  }

  lemma {:induction false} OneCounted(flags: seq<bool>)
    ensures CountTrue(flags) == 1 <==> exists i :: OnlyTrue(flags, i)
  {
    if flags != [] {
      var rest := flags[1..];
      OneCounted(rest);
      NoneCounted(rest);
      assert forall i :: 1 <= i < |flags| ==> flags[i] == rest[i - 1];
      if flags[0] {
        if CountTrue(flags) == 1 {
          assert OnlyTrue(flags, 0);
        }
        if i :| OnlyTrue(flags, i) {
          assert i == 0;
          assert forall j :: 0 <= j < |rest| ==> rest[j] == flags[j + 1];
        }
      } else {
        if i :| OnlyTrue(rest, i) {
          assert OnlyTrue(flags, i + 1);
        }
        if i :| OnlyTrue(flags, i) {
          assert forall j :: 0 <= j < |rest| ==> rest[j] == flags[j + 1];
          assert OnlyTrue(rest, i - 1);
        }
      }
    }
  }

  lemma OnlyMarked(inputs: seq<Event>, m: Mark)
    ensures CountTrue(Flags(inputs, m)) == 1 <==> exists i :: OnlyIs(inputs, m, i)
  {
    OneCounted(Flags(inputs, m));
    hide Marked, CountTrue;
    forall i
      ensures OnlyTrue(Flags(inputs, m), i) <==> OnlyIs(inputs, m, i)
    {
    }
  }

  lemma ImeExact(inputs: seq<Event>)
    requires forall e :: e in inputs ==> InputOk(e)
    ensures ImeOk(inputs) <==> EnteredOnce(inputs)
  {
    KeyTokens();
    hide Marked, FirstMark, InputOk, IsHexByte, ByteOf, Tokens, BytesAre, CountTrue, FirstIs, OnlyIs;
    OnlyMarked(inputs, HasText("echo ${p}-ok"));
    forall i
      ensures FirstIs(inputs, HasText("ime-enter-ok"), i) <==> i >= 0 && FirstMark(inputs, HasText("ime-enter-ok")) == i
    {
      FirstMarkIs(inputs, HasText("ime-enter-ok"), i);
    }
    forall i | 0 <= i < |inputs|
      ensures Tokens(inputs[i]) == [ENTER] <==> BytesAre(inputs[i], [13])
    {
      ByteToken(inputs[i], ENTER, 13);
    }
    var i := FirstMark(inputs, IME);
    assert i >= 0 ==> FirstIs(inputs, HasText("ime-enter-ok"), i);
  }

  lemma QuitIs(inputs: seq<Event>, i: int)
    requires forall e :: e in inputs ==> InputOk(e)
    ensures FirstQ(inputs, i) <==> i >= 0 && FirstMark(inputs, QUIT) == i
  {
    KeyTokens();
    FirstMarkIs(inputs, QUIT, i);
    hide InputOk, IsHexByte, ByteOf, Tokens, BytesAre, FirstMark;
    forall j | 0 <= j < |inputs|
      ensures Marked(inputs[j], QUIT) <==> BytesAre(inputs[j], ['q' as int])
    {
      ByteToken(inputs[j], "71", 'q' as int);
    }
    hide Marked;
  }

  lemma TopExact(inputs: seq<Event>)
    requires forall e :: e in inputs ==> InputOk(e)
    ensures TopOk(inputs) <==> TopQuit(inputs)
  {
    hide Marked, FirstMark, InputOk, FirstIs, FirstQ;
    FirstMarkIs(inputs, HasText("p=pdocker-ui-it"), FirstMark(inputs, SCRIPT));
    FirstMarkIs(inputs, HasHex("1b 5b 41 0d"), FirstMark(inputs, ARROW));
    FirstMarkIs(inputs, IsText("top\r"), FirstMark(inputs, TOP));
    FirstMarkIs(inputs, HasText("topq-ok"), FirstMark(inputs, TOP_RECOVERY));
    QuitIs(inputs, FirstMark(inputs, QUIT));
    forall m, i
      ensures FirstIs(inputs, m, i) <==> i >= 0 && FirstMark(inputs, m) == i
    {
      FirstMarkIs(inputs, m, i);
    }
    forall i
      ensures FirstQ(inputs, i) <==> i >= 0 && FirstMark(inputs, QUIT) == i
    {
      QuitIs(inputs, i);
    }
  }

  lemma NeedlesAreOneLine()
    ensures forall needle :: needle in NEEDLES ==> OneLine(needle)
    ensures OneLine(SPOILED_SLEEP) && OneLine(ETX)
  {
  }

  lemma SomeText(inputs: seq<Event>, needle: string)
    requires OneLine(needle)
    ensures Contains(Join("\n", Texts(inputs)), needle) <==> exists k :: 0 <= k < |inputs| && Contains(inputs[k].text, needle)
  {
    JoinedNeedle(Texts(inputs), needle);
    hide Contains, Join, OneLine;
    assert forall k :: 0 <= k < |inputs| ==> Texts(inputs)[k] == inputs[k].text;
  }

  lemma SomeHex(inputs: seq<Event>, k: nat, needle: string)
    requires OneLine(needle) && k < |inputs| && Hex(inputs[k]) == needle
    ensures Contains(Join("\n", Hexes(inputs)), needle)
  {
    JoinedNeedle(Hexes(inputs), needle);
    hide Join, OneLine, Hex;
    assert Hexes(inputs)[k] == needle;
    assert needle[0..0 + |needle|] == needle;
    assert OccursAt(needle, needle, 0);
  }

  /** The checks over joined columns and the `any` checks ask for nothing that the others do not. */
  lemma InputsExact(inputs: seq<Event>)
    ensures InputsOk(inputs) <==>
            && (forall e :: e in inputs ==> InputOk(e))
            && Typed(inputs) && EnteredOnce(inputs) && TopQuit(inputs) && Interrupted(inputs)
  {
    if forall e :: e in inputs ==> InputOk(e) {
      InterruptExact(inputs);
      TextsExact(inputs);
      ImeExact(inputs);
      TopExact(inputs);
      if TopOk(inputs) && Interrupted(inputs) {
        ImpliedHexes(inputs);
      }
    }
    hide InputOk, TextsOk, HexesOk, ImeOk, TopOk, InterruptOk, Interrupted, Typed, EnteredOnce, TopQuit;
    if ImeOk(inputs) {
      ImeHasInputs(inputs);
    }
  }

  lemma ImeHasInputs(inputs: seq<Event>)
    requires ImeOk(inputs)
    ensures inputs != []
  {
    hide FirstMark, Tokens, CountTrue;
  }

  lemma TextsExact(inputs: seq<Event>)
    requires forall e :: e in inputs ==> InputOk(e)
    ensures TextsOk(inputs) <==> Typed(inputs) && Contains(Join("\n", Hexes(inputs)), ETX)
  {
    NeedlesAreOneLine();
    forall needle | OneLine(needle)
      ensures Contains(Join("\n", Texts(inputs)), needle)
              <==> exists k :: 0 <= k < |inputs| && Contains(inputs[k].text, needle)
    {
      SomeText(inputs, needle);
    }
    hide Contains, Join, OneLine, Texts, Hexes;
  }

  lemma ImpliedHexes(inputs: seq<Event>)
    requires forall e :: e in inputs ==> InputOk(e)
    requires TopOk(inputs) && Interrupted(inputs)
    ensures HexesOk(inputs) && Contains(Join("\n", Hexes(inputs)), ETX)
  {
    hide Marked, FirstMark, InputOk, OneLine, BytesOf, Tokens, Hex, BytesAre, Hexes, IsAnEtx, Join, Contains;
    FirstMarked(inputs, ARROW);
    FirstMarked(inputs, QUIT);
    var k :| FirstMark(inputs, SLEEP) < k < FirstMark(inputs, RECOVERY) && BytesAre(inputs[k], [3]);
    EtxTokens(inputs[k]);
    NeedlesAreOneLine();
    SingleToken(inputs[k], ETX);
    SomeHex(inputs, k, ETX);
    EtxIsEtx(inputs, k);
  }

  lemma EtxIsEtx(inputs: seq<Event>, k: nat)
    requires k < |inputs| && Hex(inputs[k]) == ETX
    ensures IsAnEtx(Hex(inputs[k]))
  {
    hide Hex, Contains;
  }

  /** A log is accepted exactly when it is safe and shows the scripted session. */
  lemma AcceptsExact(s: Session, events: seq<Event>)
    ensures Accepts(s, events) <==>
            && Safe(s, events)
            && StartEvent(events).Some? && Strip(StartEvent(events).value.container) == s.container
            && Inputs(events) != []
            && Typed(Inputs(events)) && EnteredOnce(Inputs(events)) && TopQuit(Inputs(events))
  {
    TimesExact(s, events);
    HandshakeExact(s, events);
    InputsExact(Inputs(events));
    if Accepts(s, events) {
      AcceptedIsSafe(s, events);
    }
    if Safe(s, events) && Inputs(events) != [] {
      SafeIsHandshake(s, events);
    }
    hide TimesOk, InTime, HandshakeOk, Opened, ResizeFound, ResizeVisible, InputOk, TextsOk, HexesOk, ImeOk, TopOk, InterruptOk,
         Interrupted, Typed, EnteredOnce, TopQuit, StartEvent, Strip;
    if Safe(s, events) && Inputs(events) != [] {
      forall e | e in Inputs(events)
        ensures InputOk(e)
      {
        assert e in events && e.kind == Input;
      }
    }
  }

  lemma SafeIsHandshake(s: Session, events: seq<Event>)
    requires Safe(s, events) && Inputs(events) != []
    ensures HandshakeOk(s, events)
    ensures ResizeFound(events, events[FirstIndex(events, Created).value].execId) == Some(true)
  {
    hide ResizeFound, ResizeVisible, InputOk, InTime, Interrupted, HandshakeOk, FirstIndex, IsFirst;
    var c: nat, d: nat, r: nat, t: nat :| d < |events| && Opened(s, events, c, d, r, t) && ResizeVisible(events, events[d].execId)
      && forall i :: 0 <= i < |events| && events[i].kind == Input ==> t < i && InputOk(events[i]);
    hide Opened;
    CreatedIsFirst(s, events, c, d, r, t);
    ResizeExact(events, events[d].execId);
    var e := Inputs(events)[0];
    assert e in Inputs(events);
    var i :| 0 <= i < |events| && events[i] == e;
    assert OpensBeforeInput(s, events);
    HandshakeExact(s, events);
  }
}
