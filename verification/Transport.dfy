/** The reading half of the transport over raw bytes: whole frames only, each once.

    The lockstep model hands a READ whole records. Here the stream is bytes that arrive
    a few at a time and STATUS may report part of a frame; the micro-step machine of
    Console.dfy is shown to stay on frame boundaries and so to be that model's reader. */
module Transport {
  import opened Bytes
  import opened Wire
  import opened Console
  import opened Lockstep

  datatype Reader = Reader(
    c: Cells,
    all: seq<u8>,           // every byte that has arrived so far
    pos: nat,               // how many of them have been READ
    window: seq<u8>,        // the bytes of the last READ, in the reply window
    eaten: set<nat>)        // the frames consumed, numbered along the stream

  function FrameAt(s: seq<u8>, i: nat): Wire.Frame
    requires i + 8 <= |s|
  {
    Wire.Frame(s[i], s[i + 1], s[i + 2], s[i + 3], s[i + 4], s[i + 5], s[i + 6], s[i + 7])
  }

  predicate Completes(r: Reader, m: Mail) {
    r.c.nst.Rack? && Acked(r.c, m) && m.err == 0
  }

  /** The reply window shows the bytes READ, STATUS reports at most the bytes that wait,
      and a READ that succeeds reports the length it was asked for. */
  predicate Plausible(r: Reader, m: Mail) {
    && Readable(m)
    && (forall i :: 0 <= i && 8 * i + 8 <= |r.window| && i < 64 ==> m.reply[i] == FrameAt(r.window, 8 * i))
    && (r.c.nst.Sack? ==> r.pos + m.avhi * 256 + m.avlo <= |r.all|)
    && (Completes(r, m) ==> m.rxlo == r.c.rdn)
  }

  /** The stream number of the first frame in the window. */
  function First(r: Reader): int {
    r.pos / 8 - |r.window| / 8
  }

  function Arrive(r: Reader, more: seq<u8>): Reader {
    r.(all := r.all + more)
  }

  /** One micro-step. A READ that asked for more than has arrived would be undefined
      behaviour in the firmware; the precondition is discharged by `Aligned`. */
  function MicroStep(r: Reader, m: Mail): Reader
    requires Shaped(r.c) && Plausible(r, m)
    requires Completes(r, m) ==> r.pos + r.c.rdn <= |r.all|
  {
    var k := First(r) + r.c.rdn - 1;
    r.(c := NStep(r.c, m),
       pos := if Completes(r, m) then r.pos + r.c.rdn else r.pos,
       window := if Completes(r, m) then r.all[r.pos..r.pos + r.c.rdn] else r.window,
       eaten := if r.c.nst.Cons? && r.c.rdn > 0 && k >= 0 then r.eaten + {k} else r.eaten)
  }

  function Waiting(r: Reader): nat {
    if r.c.nst.Cons? then r.c.rdn else 0
  }

  /** On a frame boundary, inside the window, nothing eaten twice and nothing skipped:
      the frames eaten are those READ, less the ones still waiting in the window. */
  ghost predicate Aligned(r: Reader) {
    && Shaped(r.c)
    && r.pos % 8 == 0 && r.pos <= |r.all|
    && |r.window| % 8 == 0 && |r.window| <= 248 && |r.window| <= r.pos
    && r.window == r.all[r.pos - |r.window|..r.pos]
    && (r.c.nst.Riss? || r.c.nst.Rack? ==>
          r.c.rdn % 8 == 0 && 8 <= r.c.rdn <= 248 && r.pos + r.c.rdn <= |r.all|)
    && 8 * Waiting(r) <= |r.window|
    && (forall k: nat :: k in r.eaten <==> k < First(r) || First(r) + Waiting(r) <= k < r.pos / 8)
  }

  lemma ArriveKeeps(r: Reader, more: seq<u8>)
    requires Aligned(r)
    ensures Aligned(Arrive(r, more))
  {
  }

  predicate Consuming(r: Reader) {
    r.c.nst.Cons? && r.c.rdn > 0
  }

  lemma ReadAligned(r: Reader, m: Mail)
    requires Aligned(r) && Plausible(r, m) && Completes(r, m)
    ensures r.pos + r.c.rdn <= |r.all| && Aligned(MicroStep(r, m))
  {
    var r' := MicroStep(r, m);
    var k := r.c.rdn / 8;
    assert r.c.rdn == 8 * k && r.pos == 8 * (r.pos / 8) && r'.pos == 8 * (r.pos / 8 + k);
    assert First(r') == r.pos / 8;
  }

  /** The frame under the cursor is the one the cursor stands on in the stream. */
  lemma CursorFrame(r: Reader, m: Mail)
    requires Aligned(r) && Plausible(r, m) && Consuming(r)
    ensures var k := First(r) + r.c.rdn - 1;
      k >= 0 && k !in r.eaten && 8 * k + 8 <= |r.all| && m.reply[Cursor(r.c)] == FrameAt(r.all, 8 * k)
  {
    hide FrameAt;
    var i := r.c.rdn - 1;
    assert m.reply[i] == FrameAt(r.window, 8 * i);
    assert 8 * First(r) == r.pos - |r.window|;
    FrameInSlice(r.all, 8 * First(r), r.pos, 8 * i);
    assert 8 * First(r) + 8 * i == 8 * (First(r) + i);
  }

  lemma FrameInSlice(all: seq<u8>, i: nat, j: nat, k: nat)
    requires i <= j <= |all| && i + k + 8 <= j
    ensures FrameAt(all[i..j], k) == FrameAt(all, i + k)
  {
  }

  lemma ConsumeAligned(r: Reader, m: Mail)
    requires Aligned(r) && Plausible(r, m) && Consuming(r)
    ensures Aligned(MicroStep(r, m))
  {
    hide Consume, FrameAt;
    ConsumeLeavesTransport(r.c.(rdn := r.c.rdn - 1), m.reply[Cursor(r.c)]);
    CursorFrame(r, m);
  }

  lemma QuietAligned(r: Reader, m: Mail)
    requires Aligned(r) && Plausible(r, m) && !Consuming(r) && !Completes(r, m)
    ensures Aligned(MicroStep(r, m))
  {
    hide Consume;
    var c' := NStep(r.c, m);
    assert !c'.nst.Cons? || r.c.nst.Cons?;
  }

  /** Every micro-step keeps the boundary, never READs past what STATUS reported, and a
      frame it consumes is the one the cursor stands on and was never consumed before. */
  lemma MicroKeeps(r: Reader, m: Mail)
    requires Aligned(r) && Plausible(r, m)
    ensures Completes(r, m) ==> r.pos + r.c.rdn <= |r.all|
    ensures Aligned(MicroStep(r, m))
    ensures Consuming(r) ==>
      var k := First(r) + r.c.rdn - 1;
      && k >= 0 && k !in r.eaten && MicroStep(r, m).eaten == r.eaten + {k}
      && 8 * k + 8 <= |r.all|
      && MicroStep(r, m).c == Consume(r.c.(rdn := r.c.rdn - 1), FrameAt(r.all, 8 * k))
  {
    hide Aligned, Consume, Plausible;
    if Completes(r, m) {
      ReadAligned(r, m);
    } else if Consuming(r) {
      ConsumeAligned(r, m);
      CursorFrame(r, m);
    } else {
      QuietAligned(r, m);
    }
  }

  lemma ConsumeLeavesTransport(c: Cells, f: Wire.Frame)
    requires Shaped(c)
    ensures Consume(c, f).nst == c.nst && Consume(c, f).rdn == c.rdn
  {
    hide Sound;
  }

  // -------------------------------------------------------------- runs

  datatype Event = Bytes(more: seq<u8>) | Micro(m: Mail)

  ghost predicate Feasible(r: Reader, es: seq<Event>)
    decreases |es|
  {
    es == [] || match es[0]
    case Bytes(more) => Feasible(Arrive(r, more), es[1..])
    case Micro(m) =>
      && Shaped(r.c) && Plausible(r, m) && (Completes(r, m) ==> r.pos + r.c.rdn <= |r.all|)
      && Feasible(MicroStep(r, m), es[1..])
  }

  ghost function Run(r: Reader, es: seq<Event>): Reader
    requires Feasible(r, es)
    decreases |es|
  {
    if es == [] then r else
      match es[0]
      case Bytes(more) => Run(Arrive(r, more), es[1..])
      case Micro(m) => Run(MicroStep(r, m), es[1..])
  }

  /** WHOLE-FRAME READING. However the stream is cut on its way in, the position stays on
      a frame boundary, and whenever the machine has left CONSUME the frames consumed are
      exactly the frames read so far, each of them once. */
  lemma {:induction false} WholeFrames(r: Reader, es: seq<Event>)
    requires Aligned(r) && Feasible(r, es)
    ensures var r' := Run(r, es);
      && Aligned(r') && r'.pos % 8 == 0 && r.pos <= r'.pos
      && (!r'.c.nst.Cons? ==> forall k: nat :: k in r'.eaten <==> 8 * k < r'.pos)
    decreases |es|
  {
    hide Aligned, Plausible, MicroStep;
    if es == [] {
      AlignedMeans(r);
    } else {
      match es[0]
      case Bytes(more) =>
        ArriveKeeps(r, more);
        WholeFrames(Arrive(r, more), es[1..]);
      case Micro(m) =>
        MicroKeeps(r, m);
        PosGrows(r, m);
        WholeFrames(MicroStep(r, m), es[1..]);
    }
  }

  /** A console's reader where the session hands over: nothing arrived, nothing READ. */
  function AtHandover(guest: bool, junk: Cells): Reader {
    Reader(Start(guest, junk), [], 0, [], {})
  }

  /** So every run of a match reads whole frames, each once. */
  lemma WholeFramesFromHandover(guest: bool, junk: Cells, es: seq<Event>)
    requires Feasible(AtHandover(guest, junk), es)
    ensures var r' := Run(AtHandover(guest, junk), es);
      && Aligned(r') && r'.pos % 8 == 0
      && (!r'.c.nst.Cons? ==> forall k: nat :: k in r'.eaten <==> 8 * k < r'.pos)
  {
    hide Feasible, Run;
    assert Aligned(AtHandover(guest, junk));
    WholeFrames(AtHandover(guest, junk), es);
  }

  lemma AlignedMeans(r: Reader)
    requires Aligned(r)
    ensures r.pos % 8 == 0
    ensures !r.c.nst.Cons? ==> forall k: nat :: k in r.eaten <==> 8 * k < r.pos
  {
  }

  lemma PosGrows(r: Reader, m: Mail)
    requires Shaped(r.c) && Plausible(r, m) && (Completes(r, m) ==> r.pos + r.c.rdn <= |r.all|)
    ensures r.pos <= MicroStep(r, m).pos
  {
  }

  // -------------------------------------------------------------- the record view

  /** `q` is the whole frames that have arrived and not been READ. */
  ghost predicate Queued(r: Reader, q: seq<Packet>) {
    && r.pos <= |r.all|
    && |q| == (|r.all| - r.pos) / 8
    && forall i :: 0 <= i < |q| ==> q[i].f == FrameAt(r.all, r.pos + 8 * i)
  }

  /** The byte reader is the record reader of the lockstep model: the same STATUS is
      possible, the same number of records leaves the queue, and they are the window. */
  lemma BytesAreRecords(r: Reader, q: seq<Packet>, m: Mail)
    requires Aligned(r) && Plausible(r, m) && Queued(r, q)
    ensures r.c.nst.Sack? ==> (m.avhi * 256 + m.avlo) / 8 <= |q|
    ensures Completes(r, m) ==>
      var k := r.c.rdn / 8;
      && r.pos + r.c.rdn <= |r.all| && k <= |q|
      && Queued(MicroStep(r, m), q[k..])
      && |MicroStep(r, m).window| == 8 * k
      && (forall i :: 0 <= i < k ==> FrameAt(MicroStep(r, m).window, 8 * i) == q[..k][i].f)
  {
    hide NStep;
    if Completes(r, m) {
      var k := r.c.rdn / 8;
      var r' := MicroStep(r, m);
      assert r'.pos == r.pos + 8 * k;
      forall i | 0 <= i < |q| - k ensures q[k..][i].f == FrameAt(r'.all, r'.pos + 8 * i) {
        assert q[k..][i] == q[k + i];
      }
      forall i | 0 <= i < k ensures FrameAt(r'.window, 8 * i) == q[..k][i].f {
        assert r'.window == r.all[r.pos..r.pos + 8 * k];
      }
    }
  }

  // -------------------------------------------------------------- what STATUS leads to

  /** STATUS IS OBEYED. An answer that reports bytes waiting leads to a READ of every whole frame
      of them, up to the thirty-one the window holds; one that reports none leads back to the
      WRITE, and nothing else changes. */
  lemma StatusIsObeyed(c: Cells, m: Mail)
    requires Shaped(c) && Readable(m) && c.nst.Sack? && Acked(c, m) && m.err == 0 && m.devst == 1
    ensures var whole := (m.avhi * 256 + m.avlo) / 8;
      NStep(c, m) == if whole == 0 then c.(nst := Wiss)
                     else c.(nst := Riss, rdn := if whole <= 31 then 8 * whole else 248)
  {
  }

  /** CORRUPTION IS DROPPED. An input record that comes with one of the bytes that carry anything
      replaced leaves every cell as it was. */
  lemma CorruptionIsDropped(c: Cells, f: Wire.Frame, v: u8)
    requires Shaped(c) && f.typ == WT_INPUT && Sound(f)
    ensures v != f.stamp ==> Consume(c, f.(stamp := v)) == c
    ensures v != f.b1 ==> Consume(c, f.(b1 := v)) == c
    ensures v != f.b2 ==> Consume(c, f.(b2 := v)) == c
    ensures v != f.b3 ==> Consume(c, f.(b3 := v)) == c
    ensures v != f.crc ==> Consume(c, f.(crc := v)) == c
    ensures v != f.chk ==> Consume(c, f.(chk := v)) == c
  {
    hide Sound, StoreWindow, Arms;
    CheckByteDetects(f, v);
  }
}
