/** The monitor over the event log of one `exec -it` session, and what an accepted log shows. */
module TerminalTrace {
  import opened Options
  import opened Text

  datatype Kind =
    | Start
    | CreateResponse
    | Created
    | StartResponse
    | StreamStarted
    | Input
    | Resize
    | ResizeFailed
    | OtherKind

  /**
   * One log entry. A field of the wrong type reads as absent; `status` is None when converting it
   * to an integer raises.
   */
  datatype Event = Event(
    kind: Kind, timestamp: Option<real>, container: string, status: Option<int>, body: string, execId: string,
    hex: string, bytes: Option<int>, text: string)

  /** The artifact the log belongs to, and the identifier a response body names, if it is JSON. */
  datatype Session = Session(container: string, startedAt: real, duration: real, idIn: string -> Option<string>)

  const SLACK: real := 30000.0

  // ---------- time ----------

  function Timestamps(events: seq<Event>): Option<seq<real>> {
    if events == [] then Some([])
    else match (events[0].timestamp, Timestamps(events[1..]))
      case (Some(t), Some(rest)) => if t >= 0.0 then Some([t] + rest) else None
      case _ => None
  }

  function Insert(t: real, sorted: seq<real>): (r: seq<real>)
    ensures |r| == |sorted| + 1
  {
    if sorted == [] || t <= sorted[0] then [t] + sorted else [sorted[0]] + Insert(t, sorted[1..])
  }

  /** `sorted(times)` */
  function Sorted(times: seq<real>): (r: seq<real>)
    ensures |r| == |times|
  {
    if times == [] then [] else Insert(times[0], Sorted(times[1..]))
  }

  ghost predicate NeverBackwards(times: seq<real>) {
    forall i, j :: 0 <= i < j < |times| ==> times[i] <= times[j]
  }

  lemma {:induction false} InsertSorted(t: real, sorted: seq<real>)
    requires NeverBackwards(sorted)
    ensures NeverBackwards(Insert(t, sorted))
    ensures forall x :: x in Insert(t, sorted) <==> x == t || x in sorted
  {
    if sorted != [] && t > sorted[0] {
      InsertSorted(t, sorted[1..]);
      var rest := Insert(t, sorted[1..]);
      assert forall x :: x in rest ==> sorted[0] <= x;
      assert forall i :: 0 <= i < |rest| ==> rest[i] in rest;
    }
  }

  lemma {:induction false} SortedIsOrdered(times: seq<real>)
    ensures NeverBackwards(Sorted(times))
  {
    if times != [] {
      SortedIsOrdered(times[1..]);
      InsertSorted(times[0], Sorted(times[1..]));
    }
  }

  lemma {:induction false} OrderedIsSorted(times: seq<real>)
    requires NeverBackwards(times)
    ensures Sorted(times) == times
  {
    if times != [] {
      OrderedIsSorted(times[1..]);
      if |times| > 1 {
        assert times[0] <= times[1] == times[1..][0];
      }
      assert [times[0]] + times[1..] == times;
    }
  }

  /** Comparing with the sorted list asks exactly whether time ever runs backwards. */
  lemma SortedMeansOrdered(times: seq<real>)
    ensures times == Sorted(times) <==> NeverBackwards(times)
  {
    SortedIsOrdered(times);
    if NeverBackwards(times) {
      OrderedIsSorted(times);
    }
  }

  predicate InWindow(s: Session, t: real) {
    s.startedAt - SLACK <= t <= s.startedAt + s.duration + SLACK
  }

  /** The checks on the timestamps. */
  predicate TimesOk(s: Session, events: seq<Event>) {
    var times := Timestamps(events);
    times.Some? && times.value == Sorted(times.value) && forall t | t in times.value :: InWindow(s, t)
  }

  /** Every time is there, at most half a minute outside the recorded window, and none is before an earlier one. */
  ghost predicate InTime(s: Session, events: seq<Event>) {
    && (forall i :: 0 <= i < |events| ==>
          && events[i].timestamp.Some? && events[i].timestamp.value >= 0.0
          && s.startedAt - 30000.0 <= events[i].timestamp.value <= s.startedAt + s.duration + 30000.0)
    && (forall i, j :: 0 <= i < j < |events| ==> events[i].timestamp.value <= events[j].timestamp.value)
  }

  lemma {:induction false} TimestampsOf(events: seq<Event>)
    ensures Timestamps(events).Some? <==>
            forall i :: 0 <= i < |events| ==> events[i].timestamp.Some? && events[i].timestamp.value >= 0.0
    ensures Timestamps(events).Some? ==>
              && |Timestamps(events).value| == |events|
              && forall i :: 0 <= i < |events| ==> Timestamps(events).value[i] == events[i].timestamp.value
  {
    if events != [] {
      TimestampsOf(events[1..]);
      assert forall i :: 1 <= i < |events| ==> events[i] == events[1..][i - 1];
    }
  }

  lemma WindowByIndex(s: Session, times: seq<real>)
    ensures (forall t | t in times :: InWindow(s, t)) <==> forall i :: 0 <= i < |times| ==> InWindow(s, times[i])
  {
    hide InWindow;
  }

  lemma TimesExact(s: Session, events: seq<Event>)
    ensures TimesOk(s, events) <==> InTime(s, events)
  {
    TimestampsOf(events);
    if Timestamps(events).Some? {
      var times := Timestamps(events).value;
      SortedMeansOrdered(times);
      WindowByIndex(s, times);
      hide Sorted, Timestamps, InWindow;
      if TimesOk(s, events) {
        assert forall i :: 0 <= i < |events| ==> InWindow(s, times[i]) && events[i].timestamp.value == times[i];
        assert forall i, j :: 0 <= i < j < |events| ==> times[i] <= times[j];
      }
      if InTime(s, events) {
        assert forall i :: 0 <= i < |times| ==> times[i] == events[i].timestamp.value;
        assert forall i, j :: 0 <= i < j < |times| ==> times[i] <= times[j];
        assert forall i :: 0 <= i < |times| ==> InWindow(s, times[i]);
      }
    }
  }

  // ---------- the handshake ----------

  /** `_first_index`; None is the missing-event error. */
  function FirstIndex(events: seq<Event>, kind: Kind): (r: Option<nat>)
    ensures r.Some? ==> IsFirst(events, kind, r.value)
    ensures r.None? ==> forall i :: 0 <= i < |events| ==> events[i].kind != kind
  {
    if events == [] then None
    else if events[0].kind == kind then Some(0)
    else
      match FirstIndex(events[1..], kind)
      case Some(i) =>
        assert events[1..][i] == events[i + 1];
        assert forall j :: 1 <= j < i + 1 ==> events[j] == events[1..][j - 1];
        Some(i + 1)
      case None =>
        assert forall j :: 1 <= j < |events| ==> events[j] == events[1..][j - 1];
        None
  }

  ghost predicate IsFirst(events: seq<Event>, kind: Kind, i: nat) {
    i < |events| && events[i].kind == kind && forall j :: 0 <= j < i ==> events[j].kind != kind
  }

  predicate Is2xx(status: Option<int>) {
    status.Some? && 200 <= status.value < 300
  }

  predicate IsUpgrade(body: string) {
    Contains(body, "HTTP/1.1 101") || Contains(body, "HTTP/1.0 101")
  }

  /** The checks on the first entry of each kind up to the first input. */
  predicate HandshakeOk(s: Session, events: seq<Event>) {
    match (FirstIndex(events, CreateResponse), FirstIndex(events, Created), FirstIndex(events, StartResponse),
           FirstIndex(events, StreamStarted), FirstIndex(events, Input))
    case (Some(c), Some(d), Some(r), Some(t), Some(i)) =>
      && c < d < r < t < i
      && Is2xx(events[c].status)
      && events[d].execId != ""
      && s.idIn(events[c].body) == Some(events[d].execId)
      && events[r].execId == events[d].execId && IsUpgrade(events[r].body)
      && events[t].execId == events[d].execId
    case _ => false
  }

  /** The opened session: created, upgraded and streaming under one identifier, in this order. */
  ghost predicate Opened(s: Session, events: seq<Event>, c: nat, d: nat, r: nat, t: nat) {
    && c < d < r < t
    && IsFirst(events, CreateResponse, c) && IsFirst(events, Created, d)
    && IsFirst(events, StartResponse, r) && IsFirst(events, StreamStarted, t)
    && events[c].status.Some? && 200 <= events[c].status.value <= 299
    && events[d].execId != ""
    && s.idIn(events[c].body) == Some(events[d].execId)
    && events[r].execId == events[d].execId 
    && (Contains(events[r].body, "HTTP/1.1 101") || Contains(events[r].body, "HTTP/1.0 101"))
    && events[t].execId == events[d].execId
  }

  ghost predicate OpensBeforeInput(s: Session, events: seq<Event>) {
    && (exists i :: 0 <= i < |events| && events[i].kind == Input)
    && exists c: nat, d: nat, r: nat, t: nat :: Opened(s, events, c, d, r, t)
         && forall i :: 0 <= i < |events| && events[i].kind == Input ==> t < i
  }

  lemma FirstIsUnique(events: seq<Event>, kind: Kind, i: nat)
    requires IsFirst(events, kind, i)
    ensures FirstIndex(events, kind) == Some(i)
  {
    var f := FirstIndex(events, kind);
    assert f.Some?;
  }

  lemma HandshakeOpens(s: Session, events: seq<Event>)
    requires HandshakeOk(s, events)
    ensures OpensBeforeInput(s, events)
  {
    hide Contains, FirstIndex;
    var c, d := FirstIndex(events, CreateResponse).value, FirstIndex(events, Created).value;
    var r, t := FirstIndex(events, StartResponse).value, FirstIndex(events, StreamStarted).value;
    assert Opened(s, events, c, d, r, t);
  }

  lemma OpensHandshake(s: Session, events: seq<Event>)
    requires OpensBeforeInput(s, events)
    ensures HandshakeOk(s, events)
  {
    hide Contains, FirstIndex;
    var c: nat, d: nat, r: nat, t: nat :| Opened(s, events, c, d, r, t)
                      && forall i :: 0 <= i < |events| && events[i].kind == Input ==> t < i;
    FirstIsUnique(events, CreateResponse, c);
    FirstIsUnique(events, Created, d);
    FirstIsUnique(events, StartResponse, r);
    FirstIsUnique(events, StreamStarted, t);
  }

  lemma HandshakeExact(s: Session, events: seq<Event>)
    ensures HandshakeOk(s, events) <==> OpensBeforeInput(s, events)
  {
    hide *;
    if OpensBeforeInput(s, events) {
      OpensHandshake(s, events);
    }
    if HandshakeOk(s, events) {
      HandshakeOpens(s, events);
    }
  }

  // ---------- the resize route ----------

  predicate IsResize(e: Event) {
    e.kind == Resize || e.kind == ResizeFailed
  }

  const RESIZE_ROUTE := "/resize?h="

  predicate OnRoute(e: Event, id: string) {
    IsResize(e) && e.execId == id && Contains(e.body, RESIZE_ROUTE)
  }

  /** `any` over the resize entries; None when converting a status raises before one is found. */
  function ResizeFound(events: seq<Event>, id: string): Option<bool> {
    if events == [] then Some(false)
    else if !OnRoute(events[0], id) then ResizeFound(events[1..], id)
    else if events[0].kind == ResizeFailed then Some(true)
    else if events[0].status.None? then None
    else if Is2xx(events[0].status) then Some(true)
    else ResizeFound(events[1..], id)
  }

  /** A resize of the session over its route that failed to arrive or was answered with 2xx. */
  predicate ShowsResize(e: Event, id: string) {
    && e.execId == id && Contains(e.body, "/resize?h=")
    && (e.kind == ResizeFailed || (e.kind == Resize && e.status.Some? && 200 <= e.status.value <= 299))
  }

  /** Some resize of this session is visible, and no unreadable status comes before it. */
  ghost predicate ResizeVisible(events: seq<Event>, id: string) {
    exists k :: 0 <= k < |events| && ShowsResize(events[k], id) && ReadableUpTo(events, id, k)
  }

  /** No unreadable status of this session's resizes comes before position k. */
  ghost predicate ReadableUpTo(events: seq<Event>, id: string, k: nat)
    requires k <= |events|
  {
    forall j :: 0 <= j < k ==> OnRoute(events[j], id) && events[j].kind == Resize ==> events[j].status.Some?
  }

  lemma VisibleLater(events: seq<Event>, id: string)
    requires events != [] && !ShowsResize(events[0], id)
    requires OnRoute(events[0], id) && events[0].kind == Resize ==> events[0].status.Some?
    ensures ResizeVisible(events, id) <==> ResizeVisible(events[1..], id)
  {
    hide OnRoute, ShowsResize;
    var rest := events[1..];
    assert forall k :: 0 <= k < |rest| ==> rest[k] == events[k + 1];
    if ResizeVisible(rest, id) {
      var k :| 0 <= k < |rest| && ShowsResize(rest[k], id) && ReadableUpTo(rest, id, k);
      assert ShowsResize(events[k + 1], id);
      assert forall j :: 0 < j < k + 1 ==> events[j] == rest[j - 1];
      assert ReadableUpTo(events, id, k + 1);
    }
    if ResizeVisible(events, id) {
      var k :| 0 <= k < |events| && ShowsResize(events[k], id) && ReadableUpTo(events, id, k);
      assert ShowsResize(rest[k - 1], id);
      assert ReadableUpTo(rest, id, k - 1);
    }
  }

  lemma {:induction false} ResizeExact(events: seq<Event>, id: string)
    ensures ResizeFound(events, id) == Some(true) <==> ResizeVisible(events, id)
  {
    hide Contains;
    if events != [] {
      if ShowsResize(events[0], id) {
        assert ReadableUpTo(events, id, 0);
      } else if OnRoute(events[0], id) && events[0].kind == Resize && events[0].status.None? {
        assert forall k :: 0 < k <= |events| ==> !ReadableUpTo(events, id, k);
      } else {
        VisibleLater(events, id);
        hide ResizeVisible;
        ResizeExact(events[1..], id);
      }
    }
  }
}
