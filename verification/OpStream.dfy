// The byte stream in which the pass recorder keeps the state writes of one
// effect pass: a 16-byte header per write (the compiler pads the struct of
// u8, u32, u32 and u16 to 16 bytes) followed by the payload.
module OpStream {
  import opened Words

  const HEADER_SIZE: nat := 16
  const MAX_PAYLOAD: nat := 0xFFFF
  const RUNAWAY_LIMIT: nat := 0x10_0000

  datatype Op = Op(code: byte, a: u32, b: u32, payload: seq<byte>)

  /** The struct's padding bytes, whose contents the source leaves open. */
  datatype Padding = Padding(p1: byte, p2: byte, p3: byte, p14: byte, p15: byte)

  datatype Header = Header(code: byte, a: u32, b: u32, bytes: nat)

  // ---- Writing --------------------------------------------------------------

  function HeaderBytes(op: Op, pad: Padding): (s: seq<byte>)
    requires |op.payload| <= MAX_PAYLOAD
    ensures |s| == HEADER_SIZE
  {
    [op.code, pad.p1, pad.p2, pad.p3] + WordBytes(op.a) + WordBytes(op.b)
    + [|op.payload| % 0x100, |op.payload| / 0x100, pad.p14, pad.p15]
  }

  /** The header on numbers: code, two words and the length, low bytes first. */
  lemma HeaderExample(pad: Padding)
    ensures HeaderBytes(Op(7, 0x01020304, 5, seq(0x0203, _ => 9)), pad)
         == [7, pad.p1, pad.p2, pad.p3, 4, 3, 2, 1, 5, 0, 0, 0, 3, 2, pad.p14, pad.p15]
  {
  }

  /** Whether the recorder keeps an op, given how much it has recorded so far. */
  predicate Keeps(size: nat, op: Op) {
    |op.payload| <= MAX_PAYLOAD && size <= RUNAWAY_LIMIT
  }

  function Append(out: seq<byte>, op: Op, pad: Padding): seq<byte> {
    if !Keeps(|out|, op) then out else out + HeaderBytes(op, pad) + op.payload
  }

  class Recording {
    var data: seq<byte>

    constructor ()
      ensures data == []
    {
      data := [];
    }

    method AppendOp(op: Op, pad: Padding)
      modifies this
      ensures data == Append(old(data), op, pad)
      ensures data == old(data) <==> |op.payload| > 65535 || |old(data)| > 1024 * 1024
      ensures data != old(data) ==> data == old(data) + HeaderBytes(op, pad) + op.payload
    {
      if |op.payload| > MAX_PAYLOAD {
        return;
      }
      if |data| > RUNAWAY_LIMIT {
        return;
      }
      data := data + HeaderBytes(op, pad);
      if op.payload != [] {
        data := data + op.payload;
      }
    }
  }

  // ---- Reading --------------------------------------------------------------

  function HeaderAt(s: seq<byte>, p: nat): (h: Header)
    requires p + HEADER_SIZE <= |s|
    ensures h.bytes <= MAX_PAYLOAD
  {
    var low: int, high: int := s[p + 12], s[p + 13];
    Header(s[p], WordAt(s, p + 4), WordAt(s, p + 8), low + 0x100 * high)
  }

  function PayloadAt(s: seq<byte>, p: nat, n: nat): (payload: seq<byte>)
    requires p + HEADER_SIZE + n <= |s|
    ensures |payload| == n
  {
    s[p + HEADER_SIZE..p + HEADER_SIZE + n]
  }

  /** The op at the front of a stream, if a whole one is there. */
  function FrontOp(s: seq<byte>): (r: Option<Op>)
    ensures r.Some? ==> HEADER_SIZE + |r.value.payload| <= |s|
  {
    if |s| < HEADER_SIZE then None
    else
      var h := HeaderAt(s, 0);
      if |s| < HEADER_SIZE + h.bytes then None
      else Some(Op(h.code, h.a, h.b, PayloadAt(s, 0, h.bytes)))
  }

  function OpSize(op: Op): nat {
    HEADER_SIZE + |op.payload|
  }

  /** The ops of a stream that parses completely; nothing otherwise. */
  function Parse(s: seq<byte>): Option<seq<Op>>
    decreases |s|
  {
    if s == [] then Some([])
    else match FrontOp(s)
      case None => None
      case Some(op) =>
        match Parse(s[OpSize(op)..])
        case None => None
        case Some(rest) => Some([op] + rest)
  }

  /** The ops a parse loop visits before it reaches the end or a broken op. */
  function Visited(s: seq<byte>): (ops: seq<Op>)
    ensures Parse(s).Some? ==> ops == Parse(s).value
    decreases |s|
  {
    match FrontOp(s)
    case None => []
    case Some(op) => [op] + Visited(s[OpSize(op)..])
  }

  // ---- Round trip -----------------------------------------------------------

  lemma FrontOfEncoded(op: Op, pad: Padding, rest: seq<byte>)
    requires |op.payload| <= MAX_PAYLOAD
    ensures FrontOp(HeaderBytes(op, pad) + op.payload + rest) == Some(op)
    ensures (HeaderBytes(op, pad) + op.payload + rest)[OpSize(op)..] == rest
  {
    var h := HeaderBytes(op, pad);
    var s := h + op.payload + rest;
    assert s[..HEADER_SIZE] == h;
    assert h[4..8] == WordBytes(op.a) && h[8..12] == WordBytes(op.b);
    assert WordAt(s, 4) == WordAt(h[4..8], 0);
    assert WordAt(s, 8) == WordAt(h[8..12], 0);
    WordRoundTrip(op.a);
    WordRoundTrip(op.b);
    assert s[HEADER_SIZE..HEADER_SIZE + |op.payload|] == op.payload;
  }

  lemma FrontOfExtended(s: seq<byte>, tail: seq<byte>)
    requires FrontOp(s).Some?
    ensures FrontOp(s + tail) == FrontOp(s)
    ensures (s + tail)[OpSize(FrontOp(s).value)..] == s[OpSize(FrontOp(s).value)..] + tail
  {
    var t := s + tail;
    assert forall i :: 0 <= i < |s| ==> t[i] == s[i];
    assert HeaderAt(t, 0) == HeaderAt(s, 0);
    var end := HEADER_SIZE + HeaderAt(s, 0).bytes;
    assert t[HEADER_SIZE..end] == s[HEADER_SIZE..end];
  }

  /** `ops`, whole and in order, is what the stream holds. */
  predicate Holds(s: seq<byte>, ops: seq<Op>) {
    if ops == [] then s == []
    else FrontOp(s) == Some(ops[0]) && Holds(s[OpSize(ops[0])..], ops[1..])
  }

  lemma {:induction false} ParseIffHolds(s: seq<byte>, ops: seq<Op>)
    ensures Parse(s) == Some(ops) <==> Holds(s, ops)
    decreases |s|
  {
    if s != [] && FrontOp(s).Some? {
      var first := FrontOp(s).value;
      var rest := s[OpSize(first)..];
      if Holds(s, ops) {
        ParseIffHolds(rest, ops[1..]);
        assert ops == [first] + ops[1..];
      }
      if Parse(s) == Some(ops) {
        assert Parse(rest).Some? && ops == [first] + Parse(rest).value;
        assert ops[1..] == Parse(rest).value;
        ParseIffHolds(rest, ops[1..]);
      }
    }
  }

  lemma TailOfConcat<T>(a: seq<T>, b: seq<T>)
    requires a != []
    ensures (a + b)[1..] == a[1..] + b && (a + b)[0] == a[0]
  {
  }

  /** A complete stream followed by another holds their ops one after the other. */
  lemma {:induction false} HoldsConcat(s: seq<byte>, tail: seq<byte>, ops: seq<Op>, more: seq<Op>)
    requires Holds(s, ops) && Holds(tail, more)
    ensures Holds(s + tail, ops + more)
    decreases |ops|
  {
    if ops == [] {
      assert s + tail == tail;
      assert ops + more == more;
    } else {
      FrontOfExtended(s, tail);
      HoldsConcat(s[OpSize(ops[0])..], tail, ops[1..], more);
      TailOfConcat(ops, more);
    }
  }

  /** Appending one op to a complete stream adds exactly that op to its parse. */
  lemma ParseAppended(s: seq<byte>, op: Op, pad: Padding)
    requires Parse(s).Some? && |op.payload| <= MAX_PAYLOAD
    ensures Parse(s + HeaderBytes(op, pad) + op.payload) == Some(Parse(s).value + [op])
  {
    var tail := HeaderBytes(op, pad) + op.payload;
    FrontOfEncoded(op, pad, []);
    assert tail + [] == tail;
    assert Holds(tail, [op]);
    ParseIffHolds(s, Parse(s).value);
    HoldsConcat(s, tail, Parse(s).value, [op]);
    ParseIffHolds(s + tail, Parse(s).value + [op]);
    assert s + HeaderBytes(op, pad) + op.payload == s + tail;
  }

  /** One recording: the recorder's appends, from an empty stream. */
  function Record(ops: seq<Op>, pads: seq<Padding>): seq<byte>
    requires |ops| == |pads|
  {
    if ops == [] then [] else
      Append(Record(ops[..|ops| - 1], pads[..|ops| - 1]), ops[|ops| - 1], pads[|ops| - 1])
  }

  /** The ops a recording keeps: those appended while it is not over the limit. */
  function KeptOps(ops: seq<Op>): seq<Op> {
    if ops == [] then []
    else
      var kept := KeptOps(ops[..|ops| - 1]);
      if Keeps(StreamSize(kept), ops[|ops| - 1]) then kept + [ops[|ops| - 1]] else kept
  }

  function StreamSize(ops: seq<Op>): nat {
    if ops == [] then 0 else StreamSize(ops[..|ops| - 1]) + OpSize(ops[|ops| - 1])
  }

  /** Every stream built from empty by appends parses completely and decodes to
      exactly the ops it kept, in order, within the size bound. */
  lemma {:induction false} RecordingDecodes(ops: seq<Op>, pads: seq<Padding>)
    requires |ops| == |pads|
    ensures Parse(Record(ops, pads)) == Some(KeptOps(ops))
    ensures |Record(ops, pads)| == StreamSize(KeptOps(ops))
    ensures |Record(ops, pads)| <= RUNAWAY_LIMIT + HEADER_SIZE + MAX_PAYLOAD
  {
    if ops != [] {
      var n := |ops| - 1;
      RecordingDecodes(ops[..n], pads[..n]);
      var before := Record(ops[..n], pads[..n]);
      var kept := KeptOps(ops[..n]);
      if Keeps(|before|, ops[n]) {
        ParseAppended(before, ops[n], pads[n]);
        assert (kept + [ops[n]])[..|kept|] == kept;
      }
    }
  }

  lemma {:induction false} KeptLength(ops: seq<Op>)
    ensures |KeptOps(ops)| <= |ops|
    ensures |KeptOps(ops)| == |ops| ==> KeptOps(ops) == ops
  {
    if ops != [] {
      KeptLength(ops[..|ops| - 1]);
    }
  }

  lemma KeptStep(ops: seq<Op>, last: Op)
    ensures KeptOps(ops + [last]) == ops + [last]
       <==> KeptOps(ops) == ops && Keeps(StreamSize(ops), last)
  {
    assert (ops + [last])[..|ops|] == ops;
    KeptLength(ops);
    if KeptOps(ops + [last]) == ops + [last] {
      assert |KeptOps(ops)| == |ops|;
    }
  }

  predicate PayloadsFit(ops: seq<Op>) {
    forall i :: 0 <= i < |ops| ==> |ops[i].payload| <= MAX_PAYLOAD
  }

  lemma FitSplit(init: seq<Op>, last: Op)
    ensures PayloadsFit(init + [last]) <==> PayloadsFit(init) && |last.payload| <= MAX_PAYLOAD
  {
    var ops := init + [last];
    assert ops[|init|] == last && forall i :: 0 <= i < |init| ==> ops[i] == init[i];
  }

  /** Nothing is lost exactly when every payload fits the length field and the
      stream is not over the runaway limit when its last op arrives. */
  lemma {:induction false} KeepsAllIff(ops: seq<Op>)
    ensures KeptOps(ops) == ops
       <==> PayloadsFit(ops) && (ops != [] ==> StreamSize(ops[..|ops| - 1]) <= RUNAWAY_LIMIT)
  {
    if ops != [] {
      var init, last := ops[..|ops| - 1], ops[|ops| - 1];
      assert ops == init + [last];
      KeepsAllIff(init);
      KeptStep(init, last);
      FitSplit(init, last);
      if init != [] {
        assert StreamSize(init[..|init| - 1]) <= StreamSize(init);
      }
    }
  }
}
