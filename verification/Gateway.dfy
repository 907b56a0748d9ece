/**
 * The request window of one connection: 300 requests, restarted by the first request a minute or more after its start.
 */
module RateWindow {
  const WINDOW_MS := 60_000
  const MAX_REQUESTS := 300

  datatype Window = Window(startedAt: int, count: nat)

  function Opened(w: Window, now: int): Window {
    if now - w.startedAt >= WINDOW_MS then Window(now, 1) else w.(count := w.count + 1)
  }

  predicate Admits(w: Window, now: int) {
    Opened(w, now).count <= MAX_REQUESTS
  }

  // How many of the requests at these times are admitted within the minute that begins at lo.
  function AdmittedWithin(w: Window, times: seq<int>, lo: int): nat
    decreases |times|
  {
    if times == [] then 0 else
    (if Admits(w, times[0]) && lo <= times[0] < lo + WINDOW_MS then 1 else 0)
    + AdmittedWithin(Opened(w, times[0]), times[1..], lo)
  }

  ghost predicate Ordered(from: int, times: seq<int>) {
    && (times != [] ==> from <= times[0])
    && (forall i :: 0 < i < |times| ==> times[i - 1] <= times[i])
  }

  function Left(w: Window): nat {
    if w.count < MAX_REQUESTS then MAX_REQUESTS - w.count else 0
  }

  lemma {:induction false} WithinBound(w: Window, times: seq<int>, lo: int, from: int)
    requires w.startedAt <= from && Ordered(from, times)
    ensures AdmittedWithin(w, times, lo) <=
            if w.startedAt >= lo then Left(w)
            else if from >= lo then Left(w) + MAX_REQUESTS
            else 2 * MAX_REQUESTS
    ensures from >= lo + WINDOW_MS ==> AdmittedWithin(w, times, lo) == 0
    decreases |times|
  {
    if times != [] {
      WithinBound(Opened(w, times[0]), times[1..], lo, times[0]);
    }
  }

  // Whatever minute one looks at, at most two windows overlap it.
  lemma AnyMinuteBounded(w: Window, times: seq<int>, lo: int)
    requires Ordered(w.startedAt, times)
    ensures AdmittedWithin(w, times, lo) <= 2 * MAX_REQUESTS
  {
    WithinBound(w, times, lo, w.startedAt);
  }

  function Burst(n: nat, at: int): seq<int> {
    seq(n, _ => at)
  }

  // Requests at one moment of a window that has room for them are all admitted.
  lemma {:induction false} BurstAdmitted(w: Window, n: nat, at: int, rest: seq<int>, lo: int)
    requires at < w.startedAt + WINDOW_MS && w.count + n <= MAX_REQUESTS && lo <= at < lo + WINDOW_MS
    ensures AdmittedWithin(w, Burst(n, at) + rest, lo) == n + AdmittedWithin(w.(count := w.count + n), rest, lo)
    decreases n
  {
    var times := Burst(n, at) + rest;
    if n == 0 {
      assert times == rest;
    } else {
      assert times[0] == at && times[1..] == Burst(n - 1, at) + rest;
      BurstAdmitted(w.(count := w.count + 1), n - 1, at, rest, lo);
    }
  }

  // The bound is reached: one window is used up in its last millisecond and the next one in its first.
  lemma TwoWindowsInAMinute(start: int)
    ensures var late, next := start + WINDOW_MS - 1, start + WINDOW_MS;
            var times := Burst(MAX_REQUESTS, late) + Burst(MAX_REQUESTS, next);
            Ordered(start, times) && AdmittedWithin(Window(start, 0), times, late) == 2 * MAX_REQUESTS
  {
    var late, next := start + WINDOW_MS - 1, start + WINDOW_MS;
    var more := Burst(MAX_REQUESTS - 1, next);
    BurstAdmitted(Window(start, 0), MAX_REQUESTS, late, Burst(MAX_REQUESTS, next), late);
    assert Burst(MAX_REQUESTS, next)[1..] == more;
    BurstAdmitted(Window(next, 1), MAX_REQUESTS - 1, next, [], late);
    assert more + [] == more;
  }
}

/** One client connection of the cBot WebSocket gateway. */
module Gateway {
  import opened Octets
  import opened Decoder
  import opened Encoder
  import opened ChunkInvariance
  import opened RateWindow
  import opened Rfc6455
  import opened FramingRoundTrip

  // What a connection has shown to the outside: texts handed to the request handler, bytes written to the socket. After
  // end() the socket takes no more bytes; a further write is an error of the socket.
  datatype Session = Session(
    window: Window, delivered: seq<bytes>, written: bytes, destroyed: bool, ended: bool, registered: bool)

  function Ascii(s: string): bytes {
    seq(|s|, i requires 0 <= i < |s| => (s[i] as int) % 256)
  }

  function ClosePayload(code: nat, reason: string): bytes {
    ToBigEndian(code, 2) + Ascii(if |reason| > 100 then reason[..100] else reason)
  }

  function Sent(s: Session, opcode: byte, payload: bytes): Session
    requires opcode < 16
  {
    if s.destroyed || s.ended then s else s.(written := s.written + SendFrame(opcode, payload))
  }

  function Closed(s: Session, code: nat, reason: string): Session {
    Sent(s, 8, ClosePayload(code, reason)).(ended := true, registered := false)
  }

  function Handled(s: Session, text: bytes, now: int): Session {
    var counted := s.(window := Opened(s.window, now));
    if Admits(s.window, now) then counted.(delivered := counted.delivered + [text])
    else Closed(counted, 1008, "Rate limit exceeded")
  }

  function Performed(s: Session, e: Event, now: int): Session {
    match e
    case Text(text) => Handled(s, text, now)
    case Pong(payload) => Sent(s, 10, payload)
    case Close(code, reason) => Closed(s, code, reason)
  }

  function PerformedAll(s: Session, events: seq<Event>, now: int): Session {
    if events == [] then s
    else Performed(PerformedAll(s, events[..|events| - 1], now), events[|events| - 1], now)
  }

  class WsConnection {
    var buffer: bytes
    var fragments: seq<bytes>
    var fragmentOpcode: byte  // 0 stands for undefined
    var windowStartedAt: int
    var requestCount: nat
    var delivered: seq<bytes>
    var written: bytes
    var destroyed: bool
    var ended: bool
    var registered: bool

    function State(): Conn
      reads this
    {
      Conn(buffer, fragments, fragmentOpcode != 0)
    }

    function Seen(): Session
      reads this
    {
      Session(Window(windowStartedAt, requestCount), delivered, written, destroyed, ended, registered)
    }

    constructor (head: bytes, now: int)
      ensures State() == Conn(head, [], false)
      ensures Seen() == Session(Window(now, 0), [], [], false, false, true)
    {
      buffer, fragments, fragmentOpcode := head, [], 0;
      windowStartedAt, requestCount := now, 0;
      delivered, written, destroyed, ended, registered := [], [], false, false, true;
    }

    method Send(opcode: byte, payload: bytes)
      requires opcode < 16
      modifies this`written
      ensures Seen() == Sent(old(Seen()), opcode, payload)
    {
      if destroyed { return; }
      var header: bytes;
      if |payload| < 126 {
        header := [128 + opcode, |payload|];
      } else if |payload| <= 65_535 {
        header := [128 + opcode, 126] + ToBigEndian(|payload|, 2);
      } else {
        header := [128 + opcode, 127] + ToBigEndian(|payload|, 8);
      }
      assert header + payload == SendFrame(opcode, payload) by {
        hide ToBigEndian;
        if |payload| >= 126 {
          var field := ToBigEndian(|payload|, if |payload| <= 65_535 then 2 else 8);
          assert header == [128 + opcode] + ([header[1]] + field);
        } else {
          assert header == [128 + opcode] + [|payload|];
        }
      }
      if ended { return; }
      written := written + (header + payload);
    }

    method Close(code: nat, reason: string)
      modifies this`written, this`ended, this`registered
      ensures Seen() == Closed(old(Seen()), code, reason)
    {
      Send(8, ClosePayload(code, reason));
      ended, registered := true, false;
    }

    // The part of the request handler that runs before its first await.
    method Handle(text: bytes, now: int)
      modifies this`windowStartedAt, this`requestCount, this`delivered, this`written, this`ended, this`registered
      ensures Seen() == Handled(old(Seen()), text, now)
    {
      if now - windowStartedAt >= WINDOW_MS {
        windowStartedAt, requestCount := now, 0;
      }
      requestCount := requestCount + 1;
      if requestCount > MAX_REQUESTS {
        Close(1008, "Rate limit exceeded");
        return;
      }
      delivered := delivered + [text];
    }

    // The complete frame whose payload starts after the mask at offset.
    method CutPayload(offset: nat, length: nat) returns (payload: bytes)
      requires 2 <= offset && offset + 4 + length <= |buffer|
      modifies this`buffer
      ensures CutFrame(old(buffer), offset, offset + 4 + length) ==
              Got(old(buffer)[0] >= 128, old(buffer)[0] % 16, payload, buffer)
    {
      var mask := buffer[offset..offset + 4];
      var start := offset + 4;
      var raw := buffer[start..start + length];
      var copy := new byte[length](i requires 0 <= i < length => raw[i]);
      buffer := buffer[start + length..];
      assert copy[..] == raw;
      UnmaskInPlace(copy, mask);
      payload := copy[..];
    }

    // Reads a header and, when the whole frame is there, takes it off the buffer.
    method TakeFrame() returns (f: FrameResult)
      modifies this`buffer
      ensures f == ParseFrame(old(buffer))
      ensures buffer == if f.Got? then f.rest else old(buffer)
    {
      hide CutFrame, BigEndian;
      if |buffer| < 2 { return Wait; }
      var first, second := buffer[0], buffer[1];
      var length: nat := second % 128;
      var offset := 2;
      if length == 126 {
        if |buffer| < 4 { return Wait; }
        length, offset := BigEndian(buffer[2..4]), 4;
      } else if length == 127 {
        if |buffer| < 10 { return Wait; }
        length, offset := BigEndian(buffer[2..10]), 10;
        if length > LIMIT { return Bad(1009, "Message too large"); }
      }
      assert HeaderSize(buffer) == offset && PayloadLength(buffer) == length;
      if second < 128 { return Bad(1002, "Client frames must be masked"); }
      if |buffer| < offset + 4 + length { return Wait; }
      var payload := CutPayload(offset, length);
      return Got(first >= 128, first % 16, payload, buffer);
    }

    // The effect of one frame. True when the connection was closed.
    method Dispatch(fin: bool, opcode: byte, payload: bytes, now: int) returns (closed: bool)
      modifies this
      ensures var r := React(old(fragments), old(fragmentOpcode) != 0, fin, opcode, payload);
              && closed == r.Closes()
              && State() == Conn(old(buffer), r.fragments, r.continuing)
              && Seen() == PerformedAll(old(Seen()), r.events, now)
    {
      hide Sent, Closed, Handled, Total, Join;
      ghost var before := Seen();
      if opcode == 8 { Close(1000, "Closing"); One(before, Event.Close(1000, "Closing"), now); return true; }
      if opcode == 9 { Send(10, payload); One(before, Pong(payload), now); return false; }
      if opcode == 10 { return false; }
      if opcode != 0 && opcode != 1 {
        Close(1003, "Text messages only"); One(before, Event.Close(1003, "Text messages only"), now); return true;
      }
      if opcode == 1 {
        fragments, fragmentOpcode := [payload], opcode;
      } else if fragmentOpcode == 0 {
        Close(1002, "Unexpected continuation"); One(before, Event.Close(1002, "Unexpected continuation"), now);
        return true;
      } else {
        fragments := fragments + [payload];
      }
      if Total(fragments) > LIMIT {
        Close(1009, "Message too large"); One(before, Event.Close(1009, "Message too large"), now); return true;
      }
      if !fin { return false; }
      var text := Join(fragments);
      fragments, fragmentOpcode := [], 0;
      Handle(text, now);
      One(before, Text(text), now);
      return false;
    }

    // One turn of the loop: what it did, and whether to go on.
    method Step(now: int) returns (open: bool, ghost events: seq<Event>)
      modifies this
      ensures open ==> |buffer| < |old(buffer)|
      ensures open ==> Decoder.Consume(old(State())) == Prefixed(events, Decoder.Consume(State()))
      ensures !open ==> Decoder.Consume(old(State())).conn == State() && Decoder.Consume(old(State())).events == events
      ensures Seen() == PerformedAll(old(Seen()), events, now)
    {
      hide React, ParseFrame, Handled, Sent, Decoder.Consume;
      ConsumeUnfold(State());
      ghost var before := Seen();
      var f := TakeFrame();
      match f
      case Wait =>
        return false, [];
      case Bad(code, reason) =>
        Close(code, reason);
        One(before, Event.Close(code, reason), now);
        return false, [Event.Close(code, reason)];
      case Got(fin, opcode, payload, _) =>
        events := React(fragments, fragmentOpcode != 0, fin, opcode, payload).events;
        var closed := Dispatch(fin, opcode, payload, now);
        open := !closed;
    }

    method Consume(now: int)
      modifies this
      ensures var o := Decoder.Consume(old(State()));
              State() == o.conn && Seen() == PerformedAll(old(Seen()), o.events, now)
    {
      hide Performed, Decoder.Consume, React, ParseFrame;
      ghost var outcome := Decoder.Consume(State());
      ghost var done: seq<Event> := [];
      PrefixedTwice([], [], outcome);
      var open := true;
      while open
        invariant open ==> outcome == Prefixed(done, Decoder.Consume(State()))
        invariant !open ==> State() == outcome.conn && done == outcome.events
        invariant Seen() == PerformedAll(old(Seen()), done, now)
        decreases open, |buffer|
      {
        ghost var events;
        open, events := Step(now);
        PerformedSplit(old(Seen()), done, events, now);
        PrefixedTwice(done, events, Decoder.Consume(State()));
        done := done + events;
      }
    }

    // The socket's data callback.
    method Receive(chunk: bytes, now: int)
      modifies this
      ensures var o := Feed(old(State()), chunk);
              State() == o.conn && Seen() == PerformedAll(old(Seen()), o.events, now)
    {
      buffer := buffer + chunk;
      Consume(now);
    }
  }

  method UnmaskInPlace(payload: array<byte>, mask: bytes)
    requires |mask| == 4
    modifies payload
    ensures payload[..] == Masked(old(payload[..]), mask)
  {
    for index := 0 to payload.Length
      invariant forall k :: 0 <= k < index ==> payload[k] == Xor(old(payload[k]), mask[k % 4])
      invariant forall k :: index <= k < payload.Length ==> payload[k] == old(payload[k])
    {
      payload[index] := Xor(payload[index], mask[index % 4]);
    }
  }

  lemma PrefixedTwice(xs: seq<Event>, ys: seq<Event>, o: Outcome)
    ensures Prefixed(xs, Prefixed(ys, o)) == Prefixed(xs + ys, o)
    ensures Prefixed([], o) == o
  {
    assert xs + (ys + o.events) == (xs + ys) + o.events;
    assert [] + o.events == o.events;
  }

  // After a close nothing more goes out, whatever comes in.
  lemma {:induction false} SilentAfterClose(s: Session, events: seq<Event>, now: int)
    requires s.ended
    ensures PerformedAll(s, events, now).ended && PerformedAll(s, events, now).written == s.written
  {
    if events != [] { SilentAfterClose(s, events[..|events| - 1], now); }
  }

  // How many requests the window still admits at a moment.
  function Room(w: Window, now: int): int {
    MAX_REQUESTS - Opened(w, now).count + 1
  }

  // The texts that come in after a close are still handed to the request handler, in order, while the window has room.
  lemma {:induction false} StillHandledAfterClose(s: Session, events: seq<Event>, now: int)
    requires s.ended && |Texts(events)| <= Room(s.window, now)
    ensures PerformedAll(s, events, now).delivered == s.delivered + Texts(events)
    decreases |events|
  {
    if events != [] {
      hide Performed, PerformedAll, Room;
      var e, later := events[0], events[1..];
      FirstPerformed(s, events, now);
      HandledAfterClose(s, e, now);
      StillHandledAfterClose(Performed(s, e, now), later, now);
    }
  }

  lemma HandledAfterClose(s: Session, e: Event, now: int)
    requires s.ended
    ensures var t := Performed(s, e, now);
            && t.ended
            && (e.Text? ==> Room(t.window, now) == Room(s.window, now) - 1)
            && (e.Text? && Room(s.window, now) > 0 ==> t.delivered == s.delivered + [e.text])
            && (!e.Text? ==> t.window == s.window && t.delivered == s.delivered)
  {
  }

  lemma FirstPerformed(s: Session, events: seq<Event>, now: int)
    requires events != []
    ensures PerformedAll(s, events, now) == PerformedAll(Performed(s, events[0], now), events[1..], now)
    ensures Texts(events) == (if events[0].Text? then [events[0].text] else []) + Texts(events[1..])
  {
    hide Performed, PerformedAll;
    assert events == [events[0]] + events[1..];
    PerformedSplit(s, [events[0]], events[1..], now);
    One(s, events[0], now);
  }

  // A closing frame, and after it any conversation: its messages reach the request handler and nothing is answered.
  lemma ServedAfterClose(s: Session, f: ClientFrame, head: bytes, chunks: seq<bytes>, fs: seq<ClientFrame>,
                         messages: seq<seq<bytes>>, now: int)
    requires ValidClient(f) && |f.payload| <= LIMIT && f.opcode !in {1, 9, 10} && chunks != []
    requires Deliverable(fs) && Sendable(messages) && DataOf(fs) == AllPieces(messages)
    requires head + Concat(chunks) == EncodeAll(fs) && |messages| <= Room(s.window, now)
    ensures var events := Run(Conn([], [], false), [EncodeClient(f) + head] + chunks).1;
            && events != [] && events[0].Close?
            && var t := PerformedAll(s, events, now);
               t.ended && t.delivered == s.delivered + Joined(messages)
               && t.written == Closed(s, events[0].code, events[0].reason).written
  {
    assert |Joined(messages)| == |messages|;
    hide Run, Joined, EncodeAll, EncodeClient, ValidClient, DataOf, AllPieces, Deliverable, Sendable, PingsOf, Concat,
      PerformedAll, Room;
    DeliveredAfterClose(f, head, chunks, fs, messages);
    CloseThenServed(s, Run(Conn([], [], false), [EncodeClient(f) + head] + chunks).1, now);
  }

  lemma CloseThenServed(s: Session, events: seq<Event>, now: int)
    requires events != [] && events[0].Close? && |Texts(events)| <= Room(s.window, now)
    ensures var t := PerformedAll(s, events, now);
            t.ended && t.delivered == s.delivered + Texts(events)
            && t.written == Closed(s, events[0].code, events[0].reason).written
  {
    hide SendFrame, ClosePayload, PerformedAll, Room, Texts;
    FirstPerformed(s, events, now);
    assert Texts(events) == Texts(events[1..]);
    var closed := Closed(s, events[0].code, events[0].reason);
    SilentAfterClose(closed, events[1..], now);
    StillHandledAfterClose(closed, events[1..], now);
  }

  lemma One(s: Session, e: Event, now: int)
    ensures PerformedAll(s, [e], now) == Performed(s, e, now)
  {
    hide Performed;
    assert PerformedAll(s, [e][..0], now) == s;
  }

  lemma {:induction false} PerformedSplit(s: Session, xs: seq<Event>, ys: seq<Event>, now: int)
    ensures PerformedAll(s, xs + ys, now) == PerformedAll(PerformedAll(s, xs, now), ys, now)
  {
    hide Performed;
    if ys == [] {
      assert xs + ys == xs;
    } else {
      var most := ys[..|ys| - 1];
      PerformedSplit(s, xs, most, now);
      assert (xs + ys)[..|xs + ys| - 1] == xs + most;
    }
  }
}
