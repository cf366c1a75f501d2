/** Reading one reply line from a socket, byte by byte. */
module ResponseLines {
  import opened Options

  const EINVAL := 22
  const EIO := 5

  /** The size of every caller's line buffer; the terminating zero takes one byte of it. */
  const LINE_SIZE: nat := 4096

  /** The bytes one reading takes: up to a newline, up to the limit, or up to the end of the stream. */
  function TakeLine(stream: string, limit: nat): (line: string)
    ensures |line| <= |stream| && |line| <= limit && line == stream[..|line|]
  {
    if stream == "" || limit == 0 then ""
    else if stream[0] == '\n' then "\n"
    else [stream[0]] + TakeLine(stream[1..], limit - 1)
  }

  /** Only the last byte of a line can be a newline; a shorter line without one ends the stream. */
  lemma {:induction false} TakenLine(stream: string, limit: nat)
    ensures var line := TakeLine(stream, limit);
            && (forall i :: 0 <= i < |line| - 1 ==> line[i] != '\n')
            && (stream != "" && limit > 0 ==> line != "")
            && ((line == "" || line[|line| - 1] != '\n') && |line| < limit ==> line == stream)
    decreases limit
  {
    if stream != "" && limit > 0 && stream[0] != '\n' {
      TakenLine(stream[1..], limit - 1);
    }
  }

  /** What the peer will ever send, and what of it has been read. */
  class Socket {
    var incoming: string
    ghost var taken: string

    /** `read(fd, &ch, 1)`: an error, the end of the stream, or one byte. */
    method ReadByte() returns (n: int, ch: char)
      modifies this
      ensures n <= 1
      ensures n < 0 ==> incoming == old(incoming) && taken == old(taken)
      ensures n == 0 ==> old(incoming) == "" && incoming == "" && taken == old(taken)
      ensures n == 1 ==>
                old(incoming) != "" && ch == old(incoming)[0] && incoming == old(incoming)[1..] && taken == old(taken) + [ch]
    {
      var works: bool := *;
      if !works {
        n :| n < 0;
        ch := '\0';
      } else if incoming == "" {
        n, ch := 0, '\0';
      } else {
        n, ch := 1, incoming[0];
        incoming := incoming[1..];
        taken := taken + [ch];
      }
    }

    /** `read_response_line` into a buffer of the given size. */
    method ReadResponseLine(size: nat) returns (rc: int, line: string)
      modifies this
      ensures taken == old(taken) + line && old(incoming) == line + incoming
      ensures size > 0 ==> line <= TakeLine(old(incoming), size - 1)
      ensures rc == 0 ==> size > 0 && line == TakeLine(old(incoming), size - 1) && line != ""
      ensures old(incoming) == "" ==> rc != 0
    {
      line := "";
      assert incoming == line + incoming && taken == taken + line;
      if size == 0 {
        return -EINVAL, line;
      }
      var stopped := false;
      ghost var stream, limit := incoming, size - 1;
      hide TakeLine, Midway;
      StartMidway(stream, limit);
      while !stopped && |line| + 1 < size
        invariant |line| <= limit && taken == old(taken) + line
        invariant Midway(stream, limit, line, incoming, stopped)
        decreases !stopped, size - |line|
      {
        ghost var before := incoming;
        PrefixMidway(stream, limit, line, incoming, stopped);
        var n, ch := ReadByte();
        if n < 0 {
          return n, line;
        } else if n == 0 {
          EndMidway(stream, limit, line, incoming);
          stopped := true;
        } else {
          StepMidway(stream, limit, line, before);
          assert old(taken) + (line + [ch]) == (old(taken) + line) + [ch];
          line := line + [ch];
          if ch == '\n' {
            stopped := true;
          }
        }
      }
      if !stopped {
        EndMidway(stream, limit, line, incoming);
      }
      PrefixMidway(stream, limit, line, incoming, true);
      rc := if |line| > 0 then 0 else -EIO;
    }
  }

  /** Part of a line has been read, or, when stopped, all of it. */
  ghost predicate Midway(stream: string, limit: nat, line: string, rest: string, stopped: bool) {
    && stream == line + rest && |line| <= limit
    && TakeLine(stream, limit) == if stopped then line else line + TakeLine(rest, limit - |line|)
  }

  lemma StartMidway(stream: string, limit: nat)
    ensures Midway(stream, limit, "", stream, false)
  {
    assert "" + stream == stream;
    assert "" + TakeLine(stream, limit) == TakeLine(stream, limit);
  }

  lemma StepMidway(stream: string, limit: nat, line: string, rest: string)
    requires Midway(stream, limit, line, rest, false) && |line| < limit && rest != ""
    ensures Midway(stream, limit, line + [rest[0]], rest[1..], rest[0] == '\n')
  {
    var ch := rest[0];
    assert line + rest == (line + [ch]) + rest[1..];
    assert line + ([ch] + TakeLine(rest[1..], limit - |line| - 1)) == (line + [ch]) + TakeLine(rest[1..], limit - |line| - 1);
    TakeStep(rest, limit - |line|);
  }

  /** At the end of the stream or of the room the line is complete. */
  lemma EndMidway(stream: string, limit: nat, line: string, rest: string)
    requires Midway(stream, limit, line, rest, false) && (rest == "" || |line| == limit)
    ensures Midway(stream, limit, line, rest, true)
  {
    TakeStep(rest, limit - |line|);
    assert line + "" == line;
  }

  lemma PrefixMidway(stream: string, limit: nat, line: string, rest: string, stopped: bool)
    requires Midway(stream, limit, line, rest, stopped)
    ensures stream == line + rest && line <= TakeLine(stream, limit)
    ensures stopped ==> line == TakeLine(stream, limit)
  {
    hide TakeLine;
  }

  lemma TakeStep(stream: string, limit: nat)
    ensures stream == "" || limit == 0 ==> TakeLine(stream, limit) == ""
    ensures stream != "" && limit > 0 ==>
              TakeLine(stream, limit) == if stream[0] == '\n' then [stream[0]] else [stream[0]] + TakeLine(stream[1..], limit - 1)
  {
  }

  // ---------- which lines a stream falls into ----------

  function Concat(parts: seq<string>): string {
    if parts == [] then "" else parts[0] + Concat(parts[1..])
  }

  /** The lines repeated reading delivers, until the stream ends. */
  function Lines(stream: string, limit: nat): seq<string>
    requires limit > 0
    decreases |stream|
  {
    if stream == "" then []
    else
      TakenLine(stream, limit);
      var line := TakeLine(stream, limit);
      [line] + Lines(stream[|line|..], limit)
  }

  /** Reading loses and invents nothing. */
  lemma {:induction false} LinesConserve(stream: string, limit: nat)
    requires limit > 0
    ensures Concat(Lines(stream, limit)) == stream
    decreases |stream|
  {
    if stream != "" {
      FirstLine(stream, limit);
      hide Lines, TakeLine, Concat;
      var line := TakeLine(stream, limit);
      LinesConserve(stream[|line|..], limit);
      ConcatCons(line, Lines(stream[|line|..], limit));
      assert line + stream[|line|..] == stream;
    }
  }

  lemma FirstLine(stream: string, limit: nat)
    requires stream != "" && limit > 0
    ensures TakeLine(stream, limit) != ""
    ensures var line := TakeLine(stream, limit); Lines(stream, limit) == [line] + Lines(stream[|line|..], limit)
  {
    TakenLine(stream, limit);
    hide TakeLine;
  }

  lemma ConcatCons(first: string, rest: seq<string>)
    ensures Concat([first] + rest) == first + Concat(rest)
  {
    assert ([first] + rest)[1..] == rest;
  }

  /** A reply that one reading takes as a whole, whatever follows it. */
  predicate Framed(reply: string, limit: nat) {
    && reply != "" && |reply| <= limit
    && (forall i :: 0 <= i < |reply| - 1 ==> reply[i] != '\n')
    && (reply[|reply| - 1] == '\n' || |reply| == limit)
  }

  /** The last reply of a stream may also end without a newline. */
  predicate FramedLast(reply: string, limit: nat) {
    && reply != "" && |reply| <= limit
    && forall i :: 0 <= i < |reply| - 1 ==> reply[i] != '\n'
  }

  lemma {:induction false} TakesFramed(reply: string, rest: string, limit: nat)
    requires Framed(reply, limit) || (FramedLast(reply, limit) && rest == "")
    ensures TakeLine(reply + rest, limit) == reply
    decreases |reply|
  {
    var stream := reply + rest;
    if reply[0] == '\n' {
      assert reply == "\n";
    } else {
      assert stream[1..] == reply[1..] + rest;
      if |reply| > 1 {
        TakesFramed(reply[1..], rest, limit - 1);
      } else if rest == "" {
        assert stream[1..] == "";
      } else {
        assert limit == 1;
      }
    }
  }

  /** What a reading takes is framed, unless it is everything there was. */
  lemma TakenIsFramed(stream: string, limit: nat)
    requires stream != "" && limit > 0
    ensures var line := TakeLine(stream, limit);
            FramedLast(line, limit) && (Framed(line, limit) || line == stream)
  {
    TakenLine(stream, limit);
  }

  ghost predicate AllFramed(replies: seq<string>, limit: nat) {
    forall k :: 0 <= k < |replies| ==>
      if k == |replies| - 1 then FramedLast(replies[k], limit) else Framed(replies[k], limit)
  }

  /**
   * The k-th reading delivers the k-th reply, for every k, exactly when every reply is framed: not
   * empty, within the limit, no newline inside, and, except for the last one, a newline at the end
   * or as long as the limit.
   */
  lemma {:induction false} FramingExact(replies: seq<string>, limit: nat)
    requires limit > 0
    ensures Lines(Concat(replies), limit) == replies <==> AllFramed(replies, limit)
    decreases |replies|
  {
    if replies != [] {
      var reply, rest := replies[0], Concat(replies[1..]);
      var stream := Concat(replies);
      FramingExact(replies[1..], limit);
      if stream == "" {
        assert reply == "";
      } else {
        TakenIsFramed(stream, limit);
        hide TakeLine, Framed, FramedLast;
        var line := TakeLine(stream, limit);
        if AllFramed(replies, limit) {
          TakesFramed(reply, rest, limit);
          assert AllFramed(replies[1..], limit);
          assert stream[|line|..] == rest;
        }
        if Lines(stream, limit) == replies {
          assert line == reply;
          assert stream[|line|..] == rest;
          assert Lines(stream, limit)[1..] == Lines(rest, limit);
          FramedTogether(replies, limit);
        }
      }
    }
  }

  lemma FramedTogether(replies: seq<string>, limit: nat)
    requires replies != [] && AllFramed(replies[1..], limit)
    requires FramedLast(replies[0], limit) && (Framed(replies[0], limit) || Concat(replies) == replies[0])
    ensures AllFramed(replies, limit)
  {
    if |replies| > 1 {
      assert replies[1..][0] == replies[1] != "";
      assert Concat(replies[1..]) == replies[1] + Concat(replies[2..]);
    }
    forall k | 1 <= k < |replies|
      ensures if k == |replies| - 1 then FramedLast(replies[k], limit) else Framed(replies[k], limit)
    {
      assert replies[k] == replies[1..][k - 1];
    }
  }
}
