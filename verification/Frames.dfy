/** Bytes, big-endian integers and masking: what both directions of the WebSocket codec share. */
module Octets {
  type byte = x: int | 0 <= x < 256
  type bytes = seq<byte>

  // Largest message the gateway accepts, 1 MiB.
  const LIMIT: nat := 1_048_576

  function Pow256(k: nat): (p: nat)
    ensures p > 0
  {
    if k == 0 then 1 else 256 * Pow256(k - 1)
  }

  function BigEndian(b: bytes): (n: nat) {
    if b == [] then 0 else 256 * BigEndian(b[..|b| - 1]) + b[|b| - 1]
  }

  function ToBigEndian(n: nat, k: nat): (b: bytes)
    ensures |b| == k
  {
    if k == 0 then [] else ToBigEndian(n / 256, k - 1) + [n % 256]
  }

  lemma BigEndianPush(b: bytes, last: byte)
    ensures BigEndian(b + [last]) == 256 * BigEndian(b) + last
  {
    assert (b + [last])[..|b|] == b;
  }

  lemma {:induction false} BigEndianInverse(n: nat, k: nat)
    requires n < Pow256(k)
    ensures BigEndian(ToBigEndian(n, k)) == n
  {
    hide BigEndian;
    if k == 0 {
      EmptyBigEndian();
    } else {
      BigEndianInverse(n / 256, k - 1);
      BigEndianPush(ToBigEndian(n / 256, k - 1), n % 256);
    }
  }

  lemma EmptyBigEndian()
    ensures BigEndian([]) == 0
  {
  }

  // The middle and the end of three joined parts.
  lemma Slices(pre: bytes, mid: bytes, post: bytes)
    ensures (pre + mid + post)[|pre|..|pre| + |mid|] == mid
    ensures (pre + mid + post)[|pre| + |mid|..] == post
    ensures forall i :: 0 <= i < |pre| ==> (pre + mid + post)[i] == pre[i]
  {
  }

  lemma Pow256Values()
    ensures Pow256(2) == 65_536
    ensures Pow256(8) == 18_446_744_073_709_551_616
  {
    assert Pow256(1) == 256;
    assert Pow256(4) == 256 * Pow256(3) && Pow256(3) == 256 * Pow256(2);
    assert Pow256(8) == 256 * Pow256(7) && Pow256(7) == 256 * Pow256(6) && Pow256(6) == 256 * Pow256(5);
    assert Pow256(5) == 256 * Pow256(4);
  }

  function Pow2(k: nat): (p: nat)
    ensures p > 0
  {
    if k == 0 then 1 else 2 * Pow2(k - 1)
  }

  // Exclusive or of the lowest k bits.
  function XorBits(a: nat, b: nat, k: nat): (x: nat)
    ensures x < Pow2(k)
  {
    if k == 0 then 0 else (if a % 2 == b % 2 then 0 else 1) + 2 * XorBits(a / 2, b / 2, k - 1)
  }

  lemma {:induction false} XorBitsTwice(a: nat, b: nat, k: nat)
    requires a < Pow2(k)
    ensures XorBits(XorBits(a, b, k), b, k) == a
  {
    if k > 0 {
      XorBitsTwice(a / 2, b / 2, k - 1);
    }
  }

  lemma Pow2Byte()
    ensures Pow2(8) == 256
  {
    assert Pow2(4) == 16;
  }

  function Xor(a: byte, b: byte): byte {
    Pow2Byte();
    XorBits(a, b, 8)
  }

  // The masking of section 5.3 of RFC 6455; it is its own inverse.
  function Masked(payload: bytes, mask: bytes): (r: bytes)
    requires |mask| == 4
    ensures |r| == |payload|
  {
    seq(|payload|, i requires 0 <= i < |payload| => Xor(payload[i], mask[i % 4]))
  }

  lemma MaskTwice(payload: bytes, mask: bytes)
    requires |mask| == 4
    ensures Masked(Masked(payload, mask), mask) == payload
  {
    forall i | 0 <= i < |payload|
      ensures Masked(Masked(payload, mask), mask)[i] == payload[i]
    {
      Pow2Byte();
      XorBitsTwice(payload[i], mask[i % 4], 8);
    }
  }

  function Join(parts: seq<bytes>): (b: bytes) {
    if parts == [] then [] else Join(parts[..|parts| - 1]) + parts[|parts| - 1]
  }

  function Total(parts: seq<bytes>): (n: nat) {
    if parts == [] then 0 else Total(parts[..|parts| - 1]) + |parts[|parts| - 1]|
  }

  lemma TotalMonotone(parts: seq<bytes>, k: nat)
    requires k <= |parts|
    ensures Total(parts[..k]) <= Total(parts)
  {
    if k < |parts| {
      TotalMonotone(parts[..|parts| - 1], k);
      assert parts[..|parts| - 1][..k] == parts[..k];
    } else {
      assert parts[..k] == parts;
    }
  }

  lemma {:induction false} JoinPrepend(head: bytes, tail: seq<bytes>)
    ensures Join([head] + tail) == head + Join(tail)
  {
    if tail == [] {
      assert Join([head]) == Join([]) + head;
    } else {
      JoinPrepend(head, tail[..|tail| - 1]);
      assert ([head] + tail)[..|tail|] == [head] + tail[..|tail| - 1];
    }
  }
}

/** The decoder of the cBot gateway, as functions on values: one frame, one frame's effect, one call of consume. */
module Decoder {
  import opened Octets

  // What one decoded frame makes the gateway do.
  datatype Event = Text(text: bytes) | Pong(payload: bytes) | Close(code: nat, reason: string)

  datatype Conn = Conn(buffer: bytes, fragments: seq<bytes>, continuing: bool)

  datatype FrameResult =
    | Wait
    | Bad(code: nat, reason: string)
    | Got(fin: bool, opcode: byte, payload: bytes, rest: bytes)

  // Bytes before the mask: two, or two and an extended length.
  function HeaderSize(b: bytes): (n: nat)
    requires |b| >= 2
    ensures 2 <= n <= 10
  {
    var short := b[1] % 128;
    if short == 126 then 4 else if short == 127 then 10 else 2
  }

  function PayloadLength(b: bytes): (n: nat)
    requires |b| >= 2 && |b| >= HeaderSize(b)
  {
    if HeaderSize(b) == 2 then b[1] % 128 else BigEndian(b[2..HeaderSize(b)])
  }

  // A frame whose bytes are all there.
  function CutFrame(b: bytes, offset: nat, end: nat): (r: FrameResult)
    requires 2 <= offset && offset + 4 <= end <= |b|
    ensures r.Got? && |r.rest| < |b|
  {
    Got(b[0] >= 128, b[0] % 16, Masked(b[offset + 4..end], b[offset..offset + 4]), b[end..])
  }

  function ParseFrame(b: bytes): (r: FrameResult)
    ensures r.Got? ==> |r.rest| < |b|
  {
    if |b| < 2 || |b| < HeaderSize(b) then Wait
    else if HeaderSize(b) == 10 && PayloadLength(b) > LIMIT then Bad(1009, "Message too large")
    else if b[1] < 128 then Bad(1002, "Client frames must be masked")
    else if |b| < HeaderSize(b) + 4 + PayloadLength(b) then Wait
    else CutFrame(b, HeaderSize(b), HeaderSize(b) + 4 + PayloadLength(b))
  }

  datatype Reaction = Reaction(fragments: seq<bytes>, continuing: bool, events: seq<Event>)
  {
    predicate Closes() { |events| == 1 && events[0].Close? }
  }

  function React(fragments: seq<bytes>, continuing: bool, fin: bool, opcode: byte, payload: bytes): (r: Reaction)
    ensures |r.events| <= 1
  {
    if opcode == 8 then Reaction(fragments, continuing, [Close(1000, "Closing")])
    else if opcode == 9 then Reaction(fragments, continuing, [Pong(payload)])
    else if opcode == 10 then Reaction(fragments, continuing, [])
    else if opcode != 0 && opcode != 1 then Reaction(fragments, continuing, [Close(1003, "Text messages only")])
    else if opcode == 0 && !continuing then Reaction(fragments, continuing, [Close(1002, "Unexpected continuation")])
    else
      var parts := if opcode == 1 then [payload] else fragments + [payload];
      if Total(parts) > LIMIT then Reaction(parts, true, [Close(1009, "Message too large")])
      else if !fin then Reaction(parts, true, [])
      else Reaction([], false, [Text(Join(parts))])
  }

  datatype Outcome = Outcome(conn: Conn, events: seq<Event>, closed: bool)

  // One call of consume: it takes frames off the buffer until one is incomplete or the connection closes.
  function Consume(c: Conn): (o: Outcome)
    decreases |c.buffer|
  {
    match ParseFrame(c.buffer)
    case Wait => Outcome(c, [], false)
    case Bad(code, reason) => Outcome(c, [Close(code, reason)], true)
    case Got(fin, opcode, payload, rest) =>
      var r := React(c.fragments, c.continuing, fin, opcode, payload);
      var next := Conn(rest, r.fragments, r.continuing);
      if r.Closes() then Outcome(next, r.events, true)
      else var o := Consume(next); Outcome(o.conn, r.events + o.events, o.closed)
  }

  function Feed(c: Conn, chunk: bytes): Outcome {
    Consume(c.(buffer := c.buffer + chunk))
  }

  // All chunks of a socket, one data callback each. Nothing stops the callbacks after a close.
  function Run(c: Conn, chunks: seq<bytes>): (r: (Conn, seq<Event>))
    decreases |chunks|
  {
    if chunks == [] then (c, []) else
    var o := Feed(c, chunks[0]);
    var r := Run(o.conn, chunks[1..]);
    (r.0, o.events + r.1)
  }

  function Concat(chunks: seq<bytes>): bytes {
    if chunks == [] then [] else chunks[0] + Concat(chunks[1..])
  }

  function UpToClose(events: seq<Event>): seq<Event> {
    if events == [] then []
    else if events[0].Close? then [events[0]]
    else [events[0]] + UpToClose(events[1..])
  }

  ghost predicate HasClose(events: seq<Event>) {
    exists i :: 0 <= i < |events| && events[i].Close?
  }
}

/** However the bytes are cut into chunks, the gateway does the same until it closes. */
module ChunkInvariance {
  import opened Octets
  import opened Decoder

  predicate SameHeader(b: bytes, c: bytes) {
    |b| >= 2 && |c| >= 2 && c[0] == b[0] && c[1] == b[1] && HeaderSize(c) == HeaderSize(b)
  }

  lemma HeaderAppend(b: bytes, more: bytes)
    requires |b| >= 2 && |b| >= HeaderSize(b)
    ensures SameHeader(b, b + more) && PayloadLength(b + more) == PayloadLength(b)
  {
    var c := b + more;
    assert c[1] == b[1];
    assert c[2..HeaderSize(b)] == b[2..HeaderSize(b)];
  }

  function Longer(f: FrameResult, more: bytes): FrameResult {
    match f
    case Got(fin, opcode, payload, rest) => Got(fin, opcode, payload, rest + more)
    case _ => f
  }

  lemma CutFrameAppend(b: bytes, more: bytes, offset: nat, end: nat)
    requires 2 <= offset && offset + 4 <= end <= |b|
    ensures CutFrame(b + more, offset, end) == Longer(CutFrame(b, offset, end), more)
  {
    var c := b + more;
    assert c[0] == b[0];
    assert c[offset + 4..end] == b[offset + 4..end];
    assert c[offset..offset + 4] == b[offset..offset + 4];
    assert c[end..] == b[end..] + more;
  }

  // The lemma everything turns on: a decision that did not ask for more bytes is not changed by more bytes.
  lemma ParseFrameAppend(b: bytes, more: bytes)
    requires !ParseFrame(b).Wait?
    ensures ParseFrame(b + more) == Longer(ParseFrame(b), more)
  {
    hide HeaderSize, PayloadLength, CutFrame;
    HeaderAppend(b, more);
    if ParseFrame(b).Got? {
      CutFrameAppend(b, more, HeaderSize(b), HeaderSize(b) + 4 + PayloadLength(b));
    }
  }

  function Extended(c: Conn, more: bytes): Conn {
    c.(buffer := c.buffer + more)
  }

  function Prefixed(events: seq<Event>, o: Outcome): Outcome {
    Outcome(o.conn, events + o.events, o.closed)
  }

  // What a call of consume becomes when bytes arrive after it.
  function Resumed(o: Outcome, more: bytes): Outcome {
    if o.closed then o.(conn := Extended(o.conn, more))
    else Prefixed(o.events, Consume(Extended(o.conn, more)))
  }

  function AfterFrame(c: Conn, f: FrameResult): Outcome
    requires f.Got? && |f.rest| < |c.buffer|
  {
    var r := React(c.fragments, c.continuing, f.fin, f.opcode, f.payload);
    var next := Conn(f.rest, r.fragments, r.continuing);
    if r.Closes() then Outcome(next, r.events, true) else Prefixed(r.events, Consume(next))
  }

  lemma ConsumeUnfold(c: Conn)
    ensures ParseFrame(c.buffer).Wait? ==> Consume(c) == Outcome(c, [], false)
    ensures var f := ParseFrame(c.buffer); f.Bad? ==> Consume(c) == Outcome(c, [Close(f.code, f.reason)], true)
    ensures var f := ParseFrame(c.buffer); f.Got? ==> Consume(c) == AfterFrame(c, f)
  {
    hide ParseFrame, React;
  }

  lemma PrefixedResumed(events: seq<Event>, o: Outcome, more: bytes)
    ensures Resumed(Prefixed(events, o), more) == Prefixed(events, Resumed(o, more))
  {
    hide Consume;
    if !o.closed {
      var tail := Consume(Extended(o.conn, more));
      assert (events + o.events) + tail.events == events + (o.events + tail.events);
    }
  }

  lemma {:induction false} ConsumeAppend(c: Conn, more: bytes)
    ensures Consume(Extended(c, more)) == Resumed(Consume(c), more)
    decreases |c.buffer|
  {
    hide ParseFrame, React, Consume;
    ConsumeUnfold(c);
    ConsumeUnfold(Extended(c, more));
    var f := ParseFrame(c.buffer);
    if f.Wait? {
      assert [] + Consume(Extended(c, more)).events == Consume(Extended(c, more)).events;
    } else {
      ParseFrameAppend(c.buffer, more);
      if f.Got? {
        var r := React(c.fragments, c.continuing, f.fin, f.opcode, f.payload);
        var next := Conn(f.rest, r.fragments, r.continuing);
        assert ParseFrame(c.buffer + more).rest == f.rest + more;
        if !r.Closes() {
          ConsumeAppend(next, more);
          PrefixedResumed(r.events, Consume(next), more);
        }
      }
    }
  }

  lemma {:induction false} ConsumeEvents(c: Conn)
    ensures var o := Consume(c);
            && (o.closed ==> |o.events| > 0 && o.events[|o.events| - 1].Close? && !HasClose(o.events[..|o.events| - 1]))
            && (!o.closed ==> !HasClose(o.events) && ParseFrame(o.conn.buffer).Wait?)
    decreases |c.buffer|
  {
    hide ParseFrame, React;
    var f := ParseFrame(c.buffer);
    if f.Got? {
      var r := React(c.fragments, c.continuing, f.fin, f.opcode, f.payload);
      var next := Conn(f.rest, r.fragments, r.continuing);
      if !r.Closes() {
        ConsumeEvents(next);
        var o := Consume(next);
        var all := r.events + o.events;
        assert !HasClose(r.events);
        if o.closed {
          assert all[..|all| - 1] == r.events + o.events[..|o.events| - 1];
        }
      }
    }
  }

  lemma {:induction false} UpToCloseSplit(quiet: seq<Event>, rest: seq<Event>)
    requires !HasClose(quiet)
    ensures UpToClose(quiet + rest) == quiet + UpToClose(rest)
  {
    if quiet == [] {
      assert quiet + rest == rest;
    } else {
      assert !quiet[0].Close?;
      forall i | 0 <= i < |quiet| - 1 ensures !quiet[1..][i].Close? { assert !quiet[i + 1].Close?; }
      UpToCloseSplit(quiet[1..], rest);
      assert (quiet + rest)[1..] == quiet[1..] + rest;
    }
  }

  // Feeding chunk by chunk against one call on everything.
  lemma {:induction false} RunIsConsume(c: Conn, chunks: seq<bytes>)
    requires ParseFrame(c.buffer).Wait?
    ensures var o := Consume(c.(buffer := c.buffer + Concat(chunks)));
            && UpToClose(Run(c, chunks).1) == o.events
            && (!o.closed ==> Run(c, chunks) == (o.conn, o.events))
            && (o.closed <==> HasClose(Run(c, chunks).1))
    decreases |chunks|
  {
    hide ParseFrame, React, Consume;
    if chunks == [] {
      assert c.buffer + [] == c.buffer;
      ConsumeUnfold(c);
    } else {
      var first := Feed(c, chunks[0]);
      var fed := c.(buffer := c.buffer + chunks[0]);
      assert (c.buffer + chunks[0]) + Concat(chunks[1..]) == c.buffer + Concat(chunks);
      ConsumeAppend(fed, Concat(chunks[1..]));
      ConsumeEvents(fed);
      var later := Run(first.conn, chunks[1..]).1;
      if first.closed {
        var quiet := first.events[..|first.events| - 1];
        var last := first.events[|first.events| - 1];
        UpToCloseSplit(quiet, [last] + later);
        assert first.events + later == quiet + ([last] + later);
        assert (first.events + later)[|quiet|].Close?;
        assert first.events == quiet + [last];
      } else {
        RunIsConsume(first.conn, chunks[1..]);
        UpToCloseSplit(first.events, later);
        var tail := Consume(first.conn.(buffer := first.conn.buffer + Concat(chunks[1..])));
        var all := first.events + later;
        if HasClose(later) {
          var i :| 0 <= i < |later| && later[i].Close?;
          assert all[|first.events| + i].Close?;
        } else {
          assert !HasClose(all);
        }
      }
    }
  }

  // Any two ways of cutting one byte stream agree on every message, pong and close up to the first close,
  // and on the whole connection state when nothing closes.
  lemma CutsAgree(c: Conn, xs: seq<bytes>, ys: seq<bytes>)
    requires ParseFrame(c.buffer).Wait?
    requires Concat(xs) == Concat(ys)
    ensures UpToClose(Run(c, xs).1) == UpToClose(Run(c, ys).1)
    ensures HasClose(Run(c, xs).1) <==> HasClose(Run(c, ys).1)
    ensures !HasClose(Run(c, xs).1) ==> Run(c, xs) == Run(c, ys)
  {
    RunIsConsume(c, xs);
    RunIsConsume(c, ys);
  }

  // Closing is not absorbing: a rejected header stays in the buffer, so every later chunk closes again.
  lemma RejectionRepeats(c: Conn, chunk: bytes)
    requires ParseFrame(c.buffer).Bad?
    ensures var f := ParseFrame(c.buffer);
            Feed(c, chunk) == Outcome(Extended(c, chunk), [Close(f.code, f.reason)], true)
  {
    hide ParseFrame, React;
    ParseFrameAppend(c.buffer, chunk);
  }

  // The decoding step that ends a call of consume.
  function Ending(c: Conn): FrameResult
    decreases |c.buffer|
  {
    var f := ParseFrame(c.buffer);
    if !f.Got? then f
    else
      var r := React(c.fragments, c.continuing, f.fin, f.opcode, f.payload);
      if r.Closes() then f else Ending(Conn(f.rest, r.fragments, r.continuing))
  }

  predicate EndOf(b: bytes, rest: bytes) {
    |rest| < |b| && b[|b| - |rest|..] == rest
  }

  lemma RestEnds(b: bytes)
    ensures var f := ParseFrame(b); f.Got? ==> EndOf(b, f.rest)
  {
    hide PayloadLength, Masked;
  }

  // A rejected header stays in the buffer. A frame that closes is taken off it, and what stays is what came after it.
  lemma {:induction false} CloseLeavesRest(c: Conn)
    ensures var o, f := Consume(c), Ending(c);
            && (o.closed <==> !f.Wait?) && (f.Bad? ==> ParseFrame(o.conn.buffer) == f)
            && (f.Got? ==> o.conn.buffer == f.rest && EndOf(c.buffer, f.rest))
    decreases |c.buffer|
  {
    hide ParseFrame, React;
    ConsumeUnfold(c);
    RestEnds(c.buffer);
    var f := ParseFrame(c.buffer);
    if f.Got? {
      var r := React(c.fragments, c.continuing, f.fin, f.opcode, f.payload);
      if !r.Closes() { CloseLeavesRest(Conn(f.rest, r.fragments, r.continuing)); }
    }
  }

  // A buffer that still waits holds less than one largest frame.
  lemma WaitBounded(b: bytes)
    requires ParseFrame(b).Wait?
    ensures |b| < LIMIT + 14
  {
    hide BigEndian, CutFrame;
    if |b| >= 10 && HeaderSize(b) == 4 {
      BigEndianBound(b[2..4]);
      Pow256Values();
    }
  }

  lemma {:induction false} ConsumeBounded(c: Conn)
    requires Total(c.fragments) <= LIMIT
    ensures var o := Consume(c);
            !o.closed ==> |o.conn.buffer| < LIMIT + 14 && Total(o.conn.fragments) <= LIMIT
    decreases |c.buffer|
  {
    hide ParseFrame, Join;
    var f := ParseFrame(c.buffer);
    if f.Got? {
      var r := React(c.fragments, c.continuing, f.fin, f.opcode, f.payload);
      if !r.Closes() {
        ConsumeBounded(Conn(f.rest, r.fragments, r.continuing));
      }
    } else if f.Wait? {
      WaitBounded(c.buffer);
    }
  }

  lemma {:induction false} BigEndianBound(b: bytes)
    ensures BigEndian(b) < Pow256(|b|)
  {
    if b != [] {
      BigEndianBound(b[..|b| - 1]);
    }
  }

  // Memory held for one connection while it stays open, whatever the peer sends.
  lemma {:induction false} RunBounded(c: Conn, chunks: seq<bytes>)
    requires ParseFrame(c.buffer).Wait? && |c.buffer| < LIMIT + 14 && Total(c.fragments) <= LIMIT
    requires !HasClose(Run(c, chunks).1)
    ensures |Run(c, chunks).0.buffer| < LIMIT + 14
    ensures Total(Run(c, chunks).0.fragments) <= LIMIT
  {
    RunIsConsume(c, chunks);
    ConsumeBounded(c.(buffer := c.buffer + Concat(chunks)));
  }
}
