/** Frames on the wire as section 5.2 of RFC 6455 lays them out, written independently of the gateway's decoder. */
module Rfc6455 {
  import opened Octets

  // Which of the three length encodings a sender used.
  datatype Form = Short | Medium | Long

  datatype ClientFrame = ClientFrame(fin: bool, opcode: byte, mask: bytes, payload: bytes, form: Form)

  predicate Fits(n: nat, form: Form) {
    match form
    case Short => n < 126
    case Medium => n < 65_536
    case Long => n < 0x8000_0000_0000_0000
  }

  predicate ValidClient(f: ClientFrame) {
    f.opcode < 16 && |f.mask| == 4 && Fits(|f.payload|, f.form)
  }

  function FirstByte(fin: bool, opcode: byte): byte
    requires opcode < 16
  {
    (if fin then 128 else 0) + opcode
  }

  // The length field, with the mask bit already in place.
  function LengthField(n: nat, form: Form, maskBit: byte): (b: bytes)
    requires Fits(n, form) && (maskBit == 0 || maskBit == 128)
    ensures |b| == match form case Short => 1 case Medium => 3 case Long => 9
  {
    match form
    case Short => [maskBit + n]
    case Medium => [maskBit + 126] + ToBigEndian(n, 2)
    case Long => [maskBit + 127] + ToBigEndian(n, 8)
  }

  function EncodeClient(f: ClientFrame): bytes
    requires ValidClient(f)
  {
    [FirstByte(f.fin, f.opcode)] + LengthField(|f.payload|, f.form, 128) + f.mask + Masked(f.payload, f.mask)
  }

  function EncodeAll(fs: seq<ClientFrame>): bytes
    requires forall i :: 0 <= i < |fs| ==> ValidClient(fs[i])
  {
    if fs == [] then [] else EncodeClient(fs[0]) + EncodeAll(fs[1..])
  }

  // What a frame means to its receiver.
  datatype Frame = Frame(fin: bool, opcode: byte, masked: bool, payload: bytes)

  datatype Decoded = Incomplete | Decoded(frame: Frame, rest: bytes)

  // Section 5.2 read by a receiver: the reference for what the gateway writes.
  function HeadSize(second: byte): (n: nat)
    ensures 2 <= n <= 10
  {
    if second % 128 == 126 then 4 else if second % 128 == 127 then 10 else 2
  }

  function DecodeBody(b: bytes, head: nat, length: nat, masked: bool): (d: Decoded)
    requires 2 <= head <= |b|
    ensures d.Decoded? ==> |d.rest| < |b|
  {
    var start := if masked then head + 4 else head;
    if |b| < start + length then Incomplete else
    var raw := b[start..start + length];
    Decoded(Frame(b[0] >= 128, b[0] % 16, masked, if masked then Masked(raw, b[head..start]) else raw),
            b[start + length..])
  }

  function Decode(b: bytes): (d: Decoded)
    ensures d.Decoded? ==> |d.rest| < |b|
  {
    if |b| < 2 || |b| < HeadSize(b[1]) then Incomplete else
    var head := HeadSize(b[1]);
    DecodeBody(b, head, if head == 2 then b[1] % 128 else BigEndian(b[2..head]), b[1] >= 128)
  }

  function DecodeAll(b: bytes): seq<Frame>
    decreases |b|
  {
    match Decode(b)
    case Incomplete => []
    case Decoded(frame, rest) => [frame] + DecodeAll(rest)
  }

  // The header's length field read back.
  lemma LengthFieldRead(n: nat, form: Form, maskBit: byte)
    requires Fits(n, form) && (maskBit == 0 || maskBit == 128)
    ensures var b := LengthField(n, form, maskBit);
            && (b[0] >= 128) == (maskBit == 128)
            && (form.Short? ==> b[0] % 128 == n)
            && (form.Medium? ==> b[0] % 128 == 126 && BigEndian(b[1..]) == n)
            && (form.Long? ==> b[0] % 128 == 127 && BigEndian(b[1..]) == n)
  {
    hide BigEndian, ToBigEndian;
    match form
    case Short => 
    case Medium =>
      Pow256Values();
      BigEndianInverse(n, 2);
      assert LengthField(n, form, maskBit)[1..] == ToBigEndian(n, 2);
    case Long =>
      Pow256Values();
      BigEndianInverse(n, 8);
      assert LengthField(n, form, maskBit)[1..] == ToBigEndian(n, 8);
  }
}

/** The writing half of the gateway. */
module Encoder {
  import opened Octets
  import opened Rfc6455

  // sendFrame: never fragmented, never masked, shortest length encoding.
  function SendFrame(opcode: byte, payload: bytes): bytes
    requires opcode < 16
  {
    var n := |payload|;
    [128 + opcode]
    + (if n < 126 then [n] else if n <= 65_535 then [126] + ToBigEndian(n, 2) else [127] + ToBigEndian(n, 8))
    + payload
  }

  function SendAll(fs: seq<(byte, bytes)>): bytes
    requires forall i :: 0 <= i < |fs| ==> fs[i].0 < 16
  {
    if fs == [] then [] else SendFrame(fs[0].0, fs[0].1) + SendAll(fs[1..])
  }

  function FormFor(n: nat): Form {
    if n < 126 then Short else if n <= 65_535 then Medium else Long
  }

  lemma SendFrameLayout(opcode: byte, payload: bytes)
    requires opcode < 16 && |payload| < 0x8000_0000_0000_0000
    ensures SendFrame(opcode, payload) ==
            [FirstByte(true, opcode)] + LengthField(|payload|, FormFor(|payload|), 0) + payload
  {
  }

  // Every frame the gateway writes is read back by a receiver that follows the standard: same opcode, same payload,
  // final, unmasked, and with nothing taken from the bytes after it.
  lemma SendFrameDecodes(opcode: byte, payload: bytes, rest: bytes)
    requires opcode < 16 && |payload| < 0x8000_0000_0000_0000
    ensures Decode(SendFrame(opcode, payload) + rest) == Decoded(Frame(true, opcode, false, payload), rest)
  {
    hide SendFrame, LengthField, BigEndian, ToBigEndian, Masked, DecodeBody;
    var n := |payload|;
    var field := LengthField(n, FormFor(n), 0);
    var b := SendFrame(opcode, payload) + rest;
    var head := 1 + |field|;
    SendFrameLayout(opcode, payload);
    LengthFieldRead(n, FormFor(n), 0);
    assert b[1] == field[0];
    assert HeadSize(b[1]) == head;
    assert b[2..head] == field[1..];
    assert Decode(b) == DecodeBody(b, head, n, false);
    PlainBody(b, head, true, opcode, payload, rest);
  }

  lemma PlainBody(b: bytes, head: nat, fin: bool, opcode: byte, payload: bytes, rest: bytes)
    requires 2 <= head && |b| == head + |payload| + |rest|
    requires b[head..] == payload + rest
    requires b[0] % 16 == opcode && (b[0] >= 128) == fin
    ensures DecodeBody(b, head, |payload|, false) == Decoded(Frame(fin, opcode, false, payload), rest)
  {
    var end := head + |payload|;
    assert b[head..end] == b[head..][..|payload|];
    assert b[end..] == b[head..][|payload|..];
  }

  lemma {:induction false} SendAllDecodes(fs: seq<(byte, bytes)>)
    requires forall i :: 0 <= i < |fs| ==> fs[i].0 < 16 && |fs[i].1| < 0x8000_0000_0000_0000
    ensures DecodeAll(SendAll(fs)) == seq(|fs|, i requires 0 <= i < |fs| => Frame(true, fs[i].0, false, fs[i].1))
  {
    hide SendFrame, Decode;
    if fs == [] {
      EmptyIncomplete();
    } else {
      SendFrameDecodes(fs[0].0, fs[0].1, SendAll(fs[1..]));
      SendAllDecodes(fs[1..]);
    }
  }

  lemma EmptyIncomplete()
    ensures Decode([]).Incomplete?
  {
  }
}

/** A whole conversation from a conforming client reaches the gateway unchanged. */
module FramingRoundTrip {
  import opened Octets
  import opened Decoder
  import opened Rfc6455
  import opened ChunkInvariance

  lemma ParseClientFrame(f: ClientFrame, rest: bytes)
    requires ValidClient(f) && |f.payload| <= LIMIT
    ensures ParseFrame(EncodeClient(f) + rest) == Got(f.fin, f.opcode, f.payload, rest)
  {
    hide LengthField, BigEndian, ToBigEndian, Masked, FirstByte, CutFrame, PayloadLength, EncodeClient;
    var n := |f.payload|;
    var field := LengthField(n, f.form, 128);
    var offset := 1 + |field|;
    var b := EncodeClient(f) + rest;
    ClientLayout(f, rest);
    LengthFieldRead(n, f.form, 128);
    assert HeaderSize(b) == offset;
    assert PayloadLength(b) == n by { hide *; ClientLength(f, rest); }
    CutClient(f, rest);
  }

  // Where the fields of a client frame lie.
  lemma ClientLayout(f: ClientFrame, rest: bytes)
    requires ValidClient(f)
    ensures var field := LengthField(|f.payload|, f.form, 128);
            var b := EncodeClient(f) + rest;
            var offset := 1 + |field|;
            && |b| == offset + 4 + |f.payload| + |rest|
            && b[0] == FirstByte(f.fin, f.opcode) && b[1] == field[0]
            && b[2..offset] == field[1..]
            && b[offset..offset + 4] == f.mask
            && b[offset + 4..offset + 4 + |f.payload|] == Masked(f.payload, f.mask)
            && b[offset + 4 + |f.payload|..] == rest
  {
    hide LengthField, Masked, FirstByte;
    var field := LengthField(|f.payload|, f.form, 128);
    var first, hidden := [FirstByte(f.fin, f.opcode)], Masked(f.payload, f.mask);
    var b := EncodeClient(f) + rest;
    assert b == first + [field[0]] + (field[1..] + f.mask + hidden + rest);
    Slices(first, [field[0]], field[1..] + f.mask + hidden + rest);
    assert b == (first + [field[0]]) + field[1..] + (f.mask + hidden + rest);
    Slices(first + [field[0]], field[1..], f.mask + hidden + rest);
    assert b == (first + field) + f.mask + (hidden + rest);
    Slices(first + field, f.mask, hidden + rest);
    assert b == (first + field + f.mask) + hidden + rest;
    Slices(first + field + f.mask, hidden, rest);
  }

  lemma ClientLength(f: ClientFrame, rest: bytes)
    requires ValidClient(f) && |f.payload| <= LIMIT
    ensures var b := EncodeClient(f) + rest;
            |b| >= HeaderSize(b) && PayloadLength(b) == |f.payload|
  {
    hide LengthField, BigEndian, ToBigEndian, Masked, FirstByte, EncodeClient;
    ClientLayout(f, rest);
    LengthFieldRead(|f.payload|, f.form, 128);
  }

  lemma CutClient(f: ClientFrame, rest: bytes)
    requires ValidClient(f)
    ensures var b := EncodeClient(f) + rest;
            var offset := 1 + |LengthField(|f.payload|, f.form, 128)|;
            && offset + 4 + |f.payload| <= |b|
            && CutFrame(b, offset, offset + 4 + |f.payload|) == Got(f.fin, f.opcode, f.payload, rest)
  {
    hide LengthField, Masked, EncodeClient;
    ClientLayout(f, rest);
    MaskTwice(f.payload, f.mask);
  }

  // The data frames of a message: opcode 1 first, continuations after, fin on the last.
  datatype Piece = Piece(fin: bool, opcode: byte, payload: bytes)

  function Pieces(message: seq<bytes>): seq<Piece> {
    seq(|message|, i requires 0 <= i < |message| => Piece(i == |message| - 1, if i == 0 then 1 else 0, message[i]))
  }

  function AllPieces(messages: seq<seq<bytes>>): seq<Piece> {
    if messages == [] then [] else Pieces(messages[0]) + AllPieces(messages[1..])
  }

  predicate IsControl(f: ClientFrame) {
    f.opcode == 9 || f.opcode == 10
  }

  function DataOf(fs: seq<ClientFrame>): seq<Piece> {
    if fs == [] then []
    else if IsControl(fs[0]) then DataOf(fs[1..])
    else [Piece(fs[0].fin, fs[0].opcode, fs[0].payload)] + DataOf(fs[1..])
  }

  function PingsOf(fs: seq<ClientFrame>): seq<bytes> {
    if fs == [] then []
    else if fs[0].opcode == 9 then [fs[0].payload] + PingsOf(fs[1..])
    else PingsOf(fs[1..])
  }

  function Texts(events: seq<Event>): seq<bytes> {
    if events == [] then []
    else if events[0].Text? then [events[0].text] + Texts(events[1..])
    else Texts(events[1..])
  }

  function Pongs(events: seq<Event>): seq<bytes> {
    if events == [] then []
    else if events[0].Pong? then [events[0].payload] + Pongs(events[1..])
    else Pongs(events[1..])
  }

  function Joined(messages: seq<seq<bytes>>): seq<bytes> {
    seq(|messages|, i requires 0 <= i < |messages| => Join(messages[i]))
  }

  ghost predicate Sendable(messages: seq<seq<bytes>>) {
    forall i :: 0 <= i < |messages| ==> messages[i] != [] && Total(messages[i]) <= LIMIT
  }

  ghost predicate Deliverable(fs: seq<ClientFrame>) {
    forall i :: 0 <= i < |fs| ==> ValidClient(fs[i]) && |fs[i].payload| <= LIMIT
  }

  // The connection when `skip` fragments of the first message have arrived.
  function Midway(messages: seq<seq<bytes>>, skip: nat, buffer: bytes): Conn
    requires messages == [] || skip < |messages[0]|
  {
    if messages == [] then Conn(buffer, [], false) else Conn(buffer, messages[0][..skip], skip > 0)
  }

  ghost predicate Delivers(o: Outcome, texts: seq<bytes>, pongs: seq<bytes>) {
    o.conn == Conn([], [], false) && !o.closed && Texts(o.events) == texts && Pongs(o.events) == pongs
  }

  lemma AllPiecesFrom(messages: seq<seq<bytes>>, skip: nat)
    requires Sendable(messages) && messages != [] && skip < |messages[0]|
    ensures skip < |AllPieces(messages)|
    ensures AllPieces(messages)[skip] == Pieces(messages[0])[skip]
    ensures skip + 1 == |messages[0]| ==> AllPieces(messages)[skip + 1..] == AllPieces(messages[1..])
  {
    assert AllPieces(messages) == Pieces(messages[0]) + AllPieces(messages[1..]);
  }

  // One data frame that continues the conversation.
  lemma DataStep(messages: seq<seq<bytes>>, skip: nat, f: ClientFrame)
    requires Sendable(messages) && messages != [] && skip < |messages[0]|
    requires Piece(f.fin, f.opcode, f.payload) == Pieces(messages[0])[skip]
    ensures var c := Midway(messages, skip, []);
            var last := skip + 1 == |messages[0]|;
            React(c.fragments, c.continuing, f.fin, f.opcode, f.payload) ==
            if last then Reaction([], false, [Text(Join(messages[0]))])
            else Reaction(messages[0][..skip + 1], true, [])
  {
    var m := messages[0];
    assert m[..skip + 1] == m[..skip] + [m[skip]];
    TotalMonotone(m, skip + 1);
    assert m[..|m|] == m;
    if skip == 0 {
      assert m[..1] == [m[0]];
    }
  }

  // What the gateway does with a conversation that starts with frame fs[0].
  lemma FirstFrame(fs: seq<ClientFrame>, c: Conn)
    requires Deliverable(fs) && fs != [] && c.buffer == EncodeAll(fs)
    ensures var f := fs[0];
            var r := React(c.fragments, c.continuing, f.fin, f.opcode, f.payload);
            Consume(c) == if r.Closes() then Outcome(Conn(EncodeAll(fs[1..]), r.fragments, r.continuing), r.events,
                true)
                          else Prefixed(r.events, Consume(Conn(EncodeAll(fs[1..]), r.fragments, r.continuing)))
  {
    hide ParseFrame, Consume, React, EncodeClient, ValidClient;
    ParseClientFrame(fs[0], EncodeAll(fs[1..]));
    ConsumeUnfold(c);
  }

  lemma {:induction false} Conversation(fs: seq<ClientFrame>, messages: seq<seq<bytes>>, skip: nat)
    requires Deliverable(fs) && Sendable(messages)
    requires if messages == [] then skip == 0 else skip < |messages[0]|
    requires skip <= |AllPieces(messages)| && DataOf(fs) == AllPieces(messages)[skip..]
    ensures Delivers(Consume(Midway(messages, skip, EncodeAll(fs))), Joined(messages), PingsOf(fs))
    decreases |fs|
  {
    hide ParseFrame, Consume, EncodeClient, ValidClient, Pieces, Join, Total;
    var c := Midway(messages, skip, EncodeAll(fs));
    if fs == [] {
      EmptyWaits();
      ConsumeUnfold(c);
      if messages != [] { AllPiecesFrom(messages, skip); }
    } else {
      FirstFrame(fs, c);
      var f, rest := fs[0], EncodeAll(fs[1..]);
      if IsControl(f) {
        Conversation(fs[1..], messages, skip);
        var o := Consume(Midway(messages, skip, rest));
        PrependEvents(React(c.fragments, c.continuing, f.fin, f.opcode, f.payload).events, o.events);
      } else {
        assert DataOf(fs)[0] == Piece(f.fin, f.opcode, f.payload);
        DataFrame(fs, messages, skip);
      }
    }
  }

  lemma {:induction false} DataFrame(fs: seq<ClientFrame>, messages: seq<seq<bytes>>, skip: nat)
    requires Deliverable(fs) && Sendable(messages) && fs != [] && !IsControl(fs[0])
    requires messages != [] && skip < |messages[0]|
    requires skip <= |AllPieces(messages)| && DataOf(fs) == AllPieces(messages)[skip..]
    ensures Delivers(Consume(Midway(messages, skip, EncodeAll(fs))), Joined(messages), PingsOf(fs))
    decreases |fs|, 0
  {
    hide ParseFrame, Consume, EncodeClient, ValidClient, Pieces, React, Join, Total, EncodeAll, AllPieces;
    var rest := EncodeAll(fs[1..]);
    FirstFrame(fs, Midway(messages, skip, EncodeAll(fs)));
    AllPiecesFrom(messages, skip);
    assert DataOf(fs) == [Piece(fs[0].fin, fs[0].opcode, fs[0].payload)] + DataOf(fs[1..]);
    DataStep(messages, skip, fs[0]);
    assert DataOf(fs[1..]) == AllPieces(messages)[skip + 1..];
    if skip + 1 == |messages[0]| {
      assert AllPieces(messages[1..])[0..] == AllPieces(messages[1..]);
      Conversation(fs[1..], messages[1..], 0);
      MidwayStart(messages[1..], rest);
      PrependEvents([Text(Join(messages[0]))], Consume(Conn(rest, [], false)).events);
      JoinedFirst(messages);
    } else {
      Conversation(fs[1..], messages, skip + 1);
      PrependEvents([], Consume(Midway(messages, skip + 1, rest)).events);
    }
  }

  lemma MidwayStart(messages: seq<seq<bytes>>, buffer: bytes)
    requires Sendable(messages)
    ensures Midway(messages, 0, buffer) == Conn(buffer, [], false)
  {
  }

  lemma JoinedFirst(messages: seq<seq<bytes>>)
    requires messages != []
    ensures Joined(messages) == [Join(messages[0])] + Joined(messages[1..])
  {
    hide Join;
  }

  lemma EmptyWaits()
    ensures ParseFrame([]).Wait?
  {
  }

  lemma PrependEvents(head: seq<Event>, tail: seq<Event>)
    requires |head| <= 1
    ensures Texts(head + tail) == Texts(head) + Texts(tail)
    ensures Pongs(head + tail) == Pongs(head) + Pongs(tail)
  {
    if head == [] {
      assert head + tail == tail;
    } else {
      assert (head + tail)[1..] == tail;
      assert head[1..] == [];
    }
  }

  // Any list of messages, cut into any fragments, masked with any keys, in any length encoding, with pings and pongs
  // anywhere between the frames and the bytes arriving in any chunks: every message is delivered whole and in order,
  // every ping is answered in order, and the connection is left empty and open.
  lemma DeliveredInOrder(fs: seq<ClientFrame>, messages: seq<seq<bytes>>, chunks: seq<bytes>)
    requires Deliverable(fs) && Sendable(messages) && DataOf(fs) == AllPieces(messages)
    requires Concat(chunks) == EncodeAll(fs)
    ensures var r := Run(Conn([], [], false), chunks);
            && r.0 == Conn([], [], false)
            && !HasClose(r.1)
            && Texts(r.1) == Joined(messages)
            && Pongs(r.1) == PingsOf(fs)
  {
    hide ParseFrame, Consume, EncodeAll, DataOf, AllPieces, PingsOf, Run, Total;
    assert AllPieces(messages)[0..] == AllPieces(messages);
    Conversation(fs, messages, 0);
    EmptyWaits();
    assert [] + Concat(chunks) == EncodeAll(fs);
    if messages != [] {
      assert messages[0][..0] == [];
    }
    RunIsConsume(Conn([], [], false), chunks);
  }

  lemma ClosingFrame(f: ClientFrame, head: bytes)
    requires ValidClient(f) && |f.payload| <= LIMIT && f.opcode !in {1, 9, 10}
    ensures var o := Feed(Conn([], [], false), EncodeClient(f) + head);
            o.conn == Conn(head, [], false) && |o.events| == 1 && o.events[0].Close?
  {
    hide ParseFrame, Consume, EncodeClient;
    ParseClientFrame(f, head);
    assert [] + (EncodeClient(f) + head) == EncodeClient(f) + head;
    ConsumeUnfold(Conn(EncodeClient(f) + head, [], false));
  }

  // After a frame that closes a connection between two messages, everything is decoded as if it had not been there,
  // as soon as a further chunk arrives.
  lemma DeliveredAfterClose(f: ClientFrame, head: bytes, chunks: seq<bytes>, fs: seq<ClientFrame>,
                            messages: seq<seq<bytes>>)
    requires ValidClient(f) && |f.payload| <= LIMIT && f.opcode !in {1, 9, 10} && chunks != []
    requires Deliverable(fs) && Sendable(messages) && DataOf(fs) == AllPieces(messages)
    requires head + Concat(chunks) == EncodeAll(fs)
    ensures var r := Run(Conn([], [], false), [EncodeClient(f) + head] + chunks);
            && r.0 == Conn([], [], false)
            && r.1 != [] && r.1[0].Close? && !HasClose(r.1[1..])
            && Texts(r.1) == Joined(messages)
            && Pongs(r.1) == PingsOf(fs)
  {
    hide Consume, EncodeAll, EncodeClient, DataOf, AllPieces, PingsOf, Deliverable, Sendable, Joined;
    ClosingFrame(f, head);
    var start := Conn([], [], false);
    var first := EncodeClient(f) + head;
    var all, later := [first] + chunks, [head + chunks[0]] + chunks[1..];
    assert all[0] == first && all[1..] == chunks;
    assert later[0] == head + chunks[0] && later[1..] == chunks[1..];
    assert Concat(later) == head + Concat(chunks);
    DeliveredInOrder(fs, messages, later);
    assert [] + (head + chunks[0]) == head + chunks[0];
    assert Run(Conn(head, [], false), chunks) == Run(start, later);
    PrependEvents(Feed(start, first).events, Run(start, later).1);
  }
}
