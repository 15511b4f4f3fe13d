/** The relay's framing: a length byte, a type byte, a payload; and a parser that is fed
    whatever chunks the network delivers. */
module Framing {
  import opened Bytes

  datatype Message = Msg(ftype: u8, payload: seq<u8>)

  /** A message `frame` accepts: its body, type byte included, fits one length byte. */
  type Msg = m: Message | |m.payload| <= 254 witness Msg(0, [])

  const MAX_BODY := 200          // a longer length byte drops the connection

  /** `frame(ftype, payload)`. */
  function FrameBytes(m: Msg): (r: seq<u8>)
    ensures |r| == |m.payload| + 2
  {
    [1 + |m.payload|, m.ftype] + m.payload
  }

  predicate Sendable(m: Msg) {
    |m.payload| + 1 <= MAX_BODY
  }

  predicate AllSendable(ms: seq<Msg>) {
    forall i :: 0 <= i < |ms| ==> Sendable(ms[i])
  }

  function Encode(ms: seq<Msg>): seq<u8>
    decreases |ms|
  {
    if ms == [] then [] else FrameBytes(ms[0]) + Encode(ms[1..])
  }

  // -------------------------------------------------------------- the parser

  datatype Head = Short | Bad | Whole(m: Msg, rest: seq<u8>)

  /** What the loop of `service` finds at the front of the receive buffer. */
  function Front(rx: seq<u8>): (h: Head)
    ensures h.Whole? ==> |h.rest| < |rx|
  {
    if |rx| < 1 then Short
    else if rx[0] < 1 || rx[0] > MAX_BODY then Bad
    else if |rx| < rx[0] + 1 then Short
    else Whole(Msg(rx[1], rx[2..rx[0] + 1]), rx[rx[0] + 1..])
  }

  datatype Parsed = Parsed(msgs: seq<Msg>, rest: seq<u8>, bad: bool)

  function Parse(rx: seq<u8>): Parsed
    decreases |rx|
  {
    match Front(rx)
    case Short => Parsed([], rx, false)
    case Bad => Parsed([], rx, true)
    case Whole(m, rest) =>
      var p := Parse(rest);
      Parsed([m] + p.msgs, p.rest, p.bad)
  }

  /** A connection between receives: once the length byte is bad it is dropped and
      nothing more is received on it. */
  function Feed(p: Parsed, chunk: seq<u8>): Parsed {
    if p.bad then p
    else
      var q := Parse(p.rest + chunk);
      Parsed(p.msgs + q.msgs, q.rest, q.bad)
  }

  function FeedAll(p: Parsed, chunks: seq<seq<u8>>): Parsed
    decreases |chunks|
  {
    if chunks == [] then p else FeedAll(Feed(p, chunks[0]), chunks[1..])
  }

  function Concat(chunks: seq<seq<u8>>): seq<u8>
    decreases |chunks|
  {
    if chunks == [] then [] else chunks[0] + Concat(chunks[1..])
  }

  // -------------------------------------------------------------- properties

  lemma FrontMore(x: seq<u8>, y: seq<u8>)
    ensures Front(x).Bad? ==> Front(x + y).Bad?
    ensures Front(x).Whole? ==> Front(x + y) == Whole(Front(x).m, Front(x).rest + y)
  {
    if Front(x).Whole? {
      assert (x + y)[2..x[0] + 1] == x[2..x[0] + 1];
      assert (x + y)[x[0] + 1..] == x[x[0] + 1..] + y;
    }
  }

  /** Parsing more bytes is parsing the leftover and the new bytes; a bad length is found
      at the same frame whatever follows it. */
  lemma {:induction false} ParseMore(x: seq<u8>, y: seq<u8>)
    ensures Parse(x).bad ==> Parse(x + y).bad && Parse(x + y).msgs == Parse(x).msgs
    ensures !Parse(x).bad ==>
      var q := Parse(Parse(x).rest + y);
      Parse(x + y) == Parsed(Parse(x).msgs + q.msgs, q.rest, q.bad)
    decreases |x|
  {
    hide Front;
    FrontMore(x, y);
    if Front(x).Whole? {
      var rest := Front(x).rest;
      ParseMore(rest, y);
      var head, later := [Front(x).m], Parse(rest).msgs;
      assert forall tail: seq<Msg> :: head + (later + tail) == (head + later) + tail;
    }
  }

  /** CHUNKING IS INVISIBLE. Every way of cutting a byte stream gives the same frames, the
      same verdict and, while the connection lives, the same leftover. */
  lemma {:induction false} ChunksDoNotMatter(x: seq<u8>, chunks: seq<seq<u8>>)
    ensures var whole := Parse(x + Concat(chunks)); var fed := FeedAll(Parse(x), chunks);
      && fed.msgs == whole.msgs && fed.bad == whole.bad && (!fed.bad ==> fed.rest == whole.rest)
    decreases |chunks|
  {
    if chunks == [] {
      assert x + [] == x;
    } else {
      ParseMore(x, chunks[0]);
      assert x + Concat(chunks) == (x + chunks[0]) + Concat(chunks[1..]);
      if Parse(x).bad {
        ParseMore(x, Concat(chunks));
        StaysBad(Parse(x), chunks);
      } else {
        assert Feed(Parse(x), chunks[0]) == Parse(x + chunks[0]);
        ChunksDoNotMatter(x + chunks[0], chunks[1..]);
      }
    }
  }

  lemma {:induction false} StaysBad(p: Parsed, chunks: seq<seq<u8>>)
    requires p.bad
    ensures FeedAll(p, chunks) == p
    decreases |chunks|
  {
    if chunks != [] {
      StaysBad(p, chunks[1..]);
    }
  }

  lemma FrontOfFrame(m: Msg, y: seq<u8>)
    requires Sendable(m)
    ensures Front(FrameBytes(m) + y) == Whole(m, y)
  {
    var x := FrameBytes(m) + y;
    assert x[2..x[0] + 1] == m.payload;
    assert x[x[0] + 1..] == y;
  }

  lemma ParseOne(m: Msg, y: seq<u8>)
    requires Sendable(m)
    ensures Parse(FrameBytes(m) + y) == Parsed([m] + Parse(y).msgs, Parse(y).rest, Parse(y).bad)
  {
    hide Front, FrameBytes;
    FrontOfFrame(m, y);
  }

  /** ROUND TRIP. Frames with bodies of 1 to 200 bytes parse back to themselves, whatever
      partial frame follows. */
  lemma {:induction false} ParseEncode(ms: seq<Msg>, y: seq<u8>)
    requires AllSendable(ms)
    ensures Parse(Encode(ms) + y) == Parsed(ms + Parse(y).msgs, Parse(y).rest, Parse(y).bad)
    decreases |ms|
  {
    if ms == [] {
      assert Encode(ms) + y == y;
    } else {
      var m, tail := ms[0], ms[1..];
      ParseEncode(tail, y);
      ParseOne(m, Encode(tail) + y);
      EncodeOne(ms);
      hide Parse, FrameBytes, Encode;
      Regroup(FrameBytes(m), Encode(tail), y);
      Regroup([m], tail, Parse(y).msgs);
      assert [m] + tail == ms;
    }
  }

  lemma EncodeOne(ms: seq<Msg>)
    requires ms != []
    ensures Encode(ms) == FrameBytes(ms[0]) + Encode(ms[1..])
  {
  }

  lemma Regroup<T>(a: seq<T>, b: seq<T>, c: seq<T>)
    ensures a + (b + c) == (a + b) + c
  {
  }

  /** Nothing is lost or invented: the frames and the leftover are the bytes. The leftover
      of a live connection is a partial frame, at most 200 bytes, so a receive of 4096
      more always fits the C relay's 4352. */
  lemma {:induction false} EncodeParse(x: seq<u8>)
    ensures AllSendable(Parse(x).msgs)
    ensures Encode(Parse(x).msgs) + Parse(x).rest == x
    ensures !Parse(x).bad ==> |Parse(x).rest| <= MAX_BODY && Front(Parse(x).rest).Short?
    ensures Parse(x).bad <==> Front(Parse(x).rest).Bad?
    decreases |x|
  {
    hide Front, FrameBytes;
    FrontIsFrame(x);
    if Front(x).Whole? {
      var m, rest, p := Front(x).m, Front(x).rest, Parse(Front(x).rest);
      EncodeParse(rest);
      assert ([m] + p.msgs)[1..] == p.msgs;
      assert FrameBytes(m) + (Encode(p.msgs) + p.rest) == FrameBytes(m) + Encode(p.msgs) + p.rest;
    }
  }

  lemma FrontIsFrame(x: seq<u8>)
    ensures Front(x).Whole? ==> Sendable(Front(x).m) && x == FrameBytes(Front(x).m) + Front(x).rest
    ensures Front(x).Short? ==> |x| <= MAX_BODY
  {
  }

  /** WHAT THE PARSER TAKES. A frame is taken exactly when the buffer begins with one of at most
      200 bytes after its length; the connection is given up exactly at a length byte of zero or
      above 200; and everything else waits. */
  lemma FrontDecides(rx: seq<u8>)
    ensures Front(rx).Whole? <==> exists m: Msg, rest :: |m.payload| <= 199 && rx == FrameBytes(m) + rest
    ensures Front(rx).Bad? <==> rx != [] && (rx[0] == 0 || rx[0] > 200)
  {
    if Front(rx).Whole? {
      FrontIsFrame(rx);
      assert rx == FrameBytes(Front(rx).m) + Front(rx).rest;
    }
    if exists m: Msg, rest :: |m.payload| <= 199 && rx == FrameBytes(m) + rest {
      var m: Msg, rest :| |m.payload| <= 199 && rx == FrameBytes(m) + rest;
      FrontOfFrame(m, rest);
    }
  }

  lemma {:induction false} EncodeMore(xs: seq<Msg>, ys: seq<Msg>)
    ensures Encode(xs + ys) == Encode(xs) + Encode(ys)
    decreases |xs|
  {
    if xs == [] {
      assert xs + ys == ys;
    } else {
      assert (xs + ys)[1..] == xs[1..] + ys;
      EncodeMore(xs[1..], ys);
    }
  }
}
