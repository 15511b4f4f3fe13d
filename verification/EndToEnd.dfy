/** Consoles and relay together: the relay's stream is the queue the lockstep model reads,
    and the relay's verdict is about the simulations. */
module EndToEnd {
  import opened Bytes
  import W = Wire
  import L = Lockstep
  import opened Agreement
  import opened Console
  import opened Framing
  import opened Verdicts
  import opened Relay
  import Transport
  import RelayRuns
  import Fifo
  import Pipe
  import Handing
  import Ear

  // -------------------------------------------------------------- records and messages

  /** A console's eight bytes as the relay frames them. */
  function MsgOf(f: W.Frame): Msg {
    Msg(f.typ, [f.stamp, f.b1, f.b2, f.b3, f.crc, f.chk])
  }

  function MsgsOf(fs: seq<W.Frame>): seq<Msg> {
    seq(|fs|, i requires 0 <= i < |fs| => MsgOf(fs[i]))
  }

  /** THE STREAM IS THE QUEUE. Records go out as eight bytes each, length byte seven, and
      the reader that takes every eighth byte as a boundary sees the records again. */
  lemma {:induction false} StreamIsQueue(fs: seq<W.Frame>, i: nat)
    requires forall k :: 0 <= k < |fs| ==> fs[k].len == 7
    ensures |Encode(MsgsOf(fs))| == 8 * |fs|
    ensures i < |fs| ==> Transport.FrameAt(Encode(MsgsOf(fs)), 8 * i) == fs[i]
    decreases |fs|
  {
    if fs != [] {
      var tail := fs[1..];
      assert MsgsOf(fs)[1..] == MsgsOf(tail);
      StreamIsQueue(tail, if i == 0 then 0 else i - 1);
      var head := FrameBytes(MsgOf(fs[0]));
      var bytes := head + Encode(MsgsOf(tail));
      assert Encode(MsgsOf(fs)) == bytes;
      if i == 0 {
        assert Transport.FrameAt(bytes, 0) == fs[0];
      } else if i < |fs| {
        assert bytes[8..] == Encode(MsgsOf(tail));
        LaterFrame(bytes, i);
      }
    }
  }

  /** What a reachable console sends is such records, each sound: what the pipe and the reader
      ask of them. */
  lemma RecordsAreFrames<S(!new)>(g: L.Game<S>, s: L.Sys<S>, i: nat)
    requires Reaches(g, s) && i < |s.a.sent|
    ensures var f := s.a.sent[i].f;
      && f.len == 7 && f.typ == 6 && W.Sound(f) && IsRelayed(f.typ)
      && FrameBytes(MsgOf(f)) == [7, 6, f.stamp, f.b1, f.b2, f.b3, f.crc, f.chk]
      && Transport.FrameAt(FrameBytes(MsgOf(f)), 0) == f
  {
    hide Reaches, W.Sound, W.Check, L.Crc, IsRelayed;
    var p := s.a.sent[i];
    SentIsRecord(g, s, i);
    RecordIsFrame(p.f.stamp, p.f.b1, p.f.b2, p.f.b3, p.f.crc);
  }

  lemma SentIsRecord<S(!new)>(g: L.Game<S>, s: L.Sys<S>, i: nat)
    requires Reaches(g, s) && i < |s.a.sent|
    ensures var f := s.a.sent[i].f; f == W.Record(f.stamp, f.b1, f.b2, f.b3, f.crc)
  {
    ReachesInv(g, s);
    hide L.Half, L.Own, L.Hears, L.Ledger, L.RanAgreed, L.AlarmsReal, L.Sized, Reaches, W.Check, L.Crc;
    Parts(g, s.a, s.b, s.toA);
    SentInOrder(g, s.a, i, i);
  }

  lemma RecordIsFrame(stamp: u8, b1: u8, b2: u8, b3: u8, crc: u8)
    ensures var f := W.Record(stamp, b1, b2, b3, crc);
      && f.len == 7 && f.typ == 6 && W.Sound(f) && IsRelayed(f.typ)
      && FrameBytes(MsgOf(f)) == [7, 6, f.stamp, f.b1, f.b2, f.b3, f.crc, f.chk]
      && Transport.FrameAt(FrameBytes(MsgOf(f)), 0) == f
  {
    hide W.Sound, W.Check;
    W.RecordsAreSound(stamp, b1, b2, b3, crc);
  }

  lemma LaterFrame(s: seq<u8>, i: nat)
    requires i >= 1 && 8 * i + 8 <= |s|
    ensures Transport.FrameAt(s, 8 * i) == Transport.FrameAt(s[8..], 8 * (i - 1))
  {
  }

  lemma FarewellIsPacket()
    ensures PEER_LEFT == MsgOf(L.PEER_LEFT.f) && L.PEER_LEFT.f.len == 7
  {
  }

  /** FROM CONSOLE TO CONSOLE. Let `a` and `x` be partners of a conforming run, `a` sending
      nothing since START but the records `fs`. Then every whole frame among the bytes x's
      socket has taken since START is the record of that number, or the one PEER_LEFT after
      the last: what the queues of the lockstep model deliver. */
  lemma ConsoleToConsole(cfg: Config, t: Fifo.Trace, x: Id, fs: seq<W.Frame>, i: nat)
    requires Pipe.Arises(cfg, t) && x in t.r.live && x in t.r.obj && x in t.h && t.h[x].ex.Some?
    requires Fifo.AsksNothing(Fifo.InPlay(t.h[x])) && |t.h[x].pre| <= |t.h[x].out|
    requires t.h[x].ex.value in t.h ==> Fifo.InPlay(t.h[t.h[x].ex.value]) == MsgsOf(fs)
    requires forall k :: 0 <= k < |fs| ==> fs[k].len == 7 && IsRelayed(fs[k].typ)
    requires 8 * i + 8 <= |t.h[x].out| - |t.h[x].pre|
    ensures var all := t.h[x].out[|t.h[x].pre|..];
      && i <= |fs|
      && Transport.FrameAt(all, 8 * i) == (if i < |fs| then fs[i] else L.PEER_LEFT.f)
      && (i == |fs| ==> t.h[x].ex.value !in t.r.live)
  {
    hide Pipe.Arises, Fifo.InPlay, Fifo.AsksNothing, Fifo.Played, Fifo.PaddedAll, MsgOf, FrameBytes;
    Pipe.RelayIsFifo(cfg, t, x);
    Pipe.ReceivedIsPrefix(cfg, t, x);
    var a := t.h[x].ex.value;
    PlayedIsRecords(t.h[a], fs);
    var all := t.h[x].out[|t.h[x].pre|..];
    var whole := if t.r.obj[x].partner.None? then fs + [L.PEER_LEFT.f] else fs;
    WholeStream(fs);
    FarewellIsPacket();
    assert all <= Encode(MsgsOf(whole));
    StreamIsQueue(whole, i);
    SamePrefix(all, Encode(MsgsOf(whole)), 8 * i);
  }

  lemma PlayedIsRecords(h: Fifo.Hist, fs: seq<W.Frame>)
    requires Fifo.InPlay(h) == MsgsOf(fs)
    requires forall k :: 0 <= k < |fs| ==> IsRelayed(fs[k].typ)
    ensures Fifo.PaddedAll(Fifo.Played(h)) == MsgsOf(fs)
  {
    hide Fifo.InPlay;
    Pipe.RecordsPassUnchanged(MsgsOf(fs));
  }

  lemma WholeStream(fs: seq<W.Frame>)
    ensures Encode(MsgsOf(fs)) + PeerLeftBytes() == Encode(MsgsOf(fs + [L.PEER_LEFT.f]))
    ensures Encode(MsgsOf(fs)) + [] == Encode(MsgsOf(fs))
  {
    FarewellIsPacket();
    hide MsgOf, FrameBytes;
    assert MsgsOf(fs + [L.PEER_LEFT.f]) == MsgsOf(fs) + [PEER_LEFT];
    EncodeMore(MsgsOf(fs), [PEER_LEFT]);
    assert Encode([PEER_LEFT]) == FrameBytes(PEER_LEFT) + Encode([]);
  }

  lemma SamePrefix(p: seq<u8>, s: seq<u8>, i: nat)
    requires p <= s && i + 8 <= |p|
    ensures Transport.FrameAt(p, i) == Transport.FrameAt(s, i)
  {
  }

  // -------------------------------------------------------------- how a match begins

  const START_LEN := 15

  /** What the boot bank makes of the fifteen bytes it reads: nothing, and the console plays
      alone, or a match in which it is the guest or not. */
  function Handed(reply: seq<u8>): Option<bool>
    requires |reply| == START_LEN
  {
    if reply[1] != T_START || reply[5] != CBD then None else Some(reply[2] % 2 == 1)
  }

  /** A MATCH BEGINS FOR BOTH OR FOR NEITHER. Two partners each read a START of fifteen bytes.
      They begin the match if and only if the relay's delay is theirs; the one that came is
      then the guest and the one that waited is not: the two ends the lockstep model begins
      from, under one seed. */
  lemma MatchBegins(cfg: Config, ss: seq<RelayRuns.Step>, x: Id)
    requires Pipe.TraceRun(cfg, Pipe.START_TRACE, ss)
    requires var r := Pipe.TraceAfter(cfg, Pipe.START_TRACE, ss).r;
      x in r.live && x in r.obj && r.obj[x].partner.Some?
    ensures var t := Pipe.TraceAfter(cfg, Pipe.START_TRACE, ss); var p := t.r.obj[x].partner.value;
      var mine := Handing.Dealt(cfg, Pipe.START_TRACE, ss, x, Handing.Deal(0, false));
      var theirs := Handing.Dealt(cfg, Pipe.START_TRACE, ss, p, Handing.Deal(0, false));
      && x in t.h && p in t.h
      && |FrameBytes(t.h[x].start)| == START_LEN && |FrameBytes(t.h[p].start)| == START_LEN
      && Handed(FrameBytes(t.h[x].start)) == (if cfg.delay == CBD then Some(mine.came) else None)
      && Handed(FrameBytes(t.h[p].start)) == (if cfg.delay == CBD then Some(theirs.came) else None)
      && mine.came != theirs.came && mine.seed % 65536 == theirs.seed % 65536
  {
    hide Handing.Dealt, Pipe.TraceRun, Pipe.TraceAfter, Handing.Spelled;
    var t := Pipe.TraceAfter(cfg, Pipe.START_TRACE, ss);
    assert Pipe.Arises(cfg, t);
    Handing.StartIsExact(cfg, ss, x);
    Pipe.PartnersShareTheStart(cfg, t, x);
    var p := t.r.obj[x].partner.value;
    PartnerLives(cfg, t, x);
    Handing.StartIsExact(cfg, ss, p);
    var mine := Handing.Dealt(cfg, Pipe.START_TRACE, ss, x, Handing.Deal(0, false));
    var theirs := Handing.Dealt(cfg, Pipe.START_TRACE, ss, p, Handing.Deal(0, false));
    var a, b := t.h[x].start, t.h[p].start;
    assert a.payload[1..5][0] == a.payload[1] == FrameBytes(a)[3] && b.payload[1..5][0] == FrameBytes(b)[3];
    assert a.payload[1..5][1] == a.payload[2] == FrameBytes(a)[4] && b.payload[1..5][1] == FrameBytes(b)[4];
    assert a.payload[0] == FrameBytes(a)[2] && b.payload[0] == FrameBytes(b)[2];
    SeedBytes(mine.seed);
    SeedBytes(theirs.seed);
  }

  lemma SeedBytes(seed: nat)
    ensures seed % 65536 == seed / 256 % 256 * 256 + seed % 256
  {
  }

  lemma PartnerLives(cfg: Config, t: Fifo.Trace, x: Id)
    requires Pipe.Arises(cfg, t) && x in t.r.live && x in t.r.obj && t.r.obj[x].partner.Some?
    ensures t.r.obj[x].partner.value in t.r.live
      && t.r.obj[x].partner.value in t.r.obj
      && t.r.obj[t.r.obj[x].partner.value].partner == Some(x)
  {
    hide Pipe.Arises, Fifo.Piped;
    Pipe.ArisesConforms(cfg, t);
  }

  // -------------------------------------------------------------- verdicts are about simulations

  function Reals(byA: bool, ps: seq<L.Packet>): seq<Real> {
    seq(|ps|, i requires 0 <= i < |ps| => Real(byA, ps[i].at, ps[i].f.crc))
  }

  /** The reports of one console among all reports. */
  function Of(rs: seq<Real>, byA: bool): seq<Real>
    decreases |rs|
  {
    if rs == [] then []
    else if rs[|rs| - 1].byA == byA then Of(rs[..|rs| - 1], byA) + [rs[|rs| - 1]]
    else Of(rs[..|rs| - 1], byA)
  }

  /** The relay has heard some of the records of both consoles, each console's in order,
      the two interleaved in any way. */
  ghost predicate HeardFrom<S(!new)>(s: L.Sys<S>, rs: seq<Real>) {
    Of(rs, true) <= Reals(true, s.a.sent) && Of(rs, false) <= Reals(false, s.b.sent)
  }

  lemma {:induction false} OfEnds(rs: seq<Real>, byA: bool)
    ensures LastTick(rs, byA) == if Of(rs, byA) == [] then None else Some(Of(rs, byA)[|Of(rs, byA)| - 1].tick)
    ensures FirstTick(rs, byA) == if Of(rs, byA) == [] then None else Some(Of(rs, byA)[0].tick)
    decreases |rs|
  {
    if rs != [] {
      OfEnds(rs[..|rs| - 1], byA);
    }
  }

  lemma {:induction false} OfHas(rs: seq<Real>, r: Real)
    requires r in rs
    ensures r in Of(rs, r.byA)
    decreases |rs|
  {
    if r != rs[|rs| - 1] {
      OfHas(rs[..|rs| - 1], r);
    }
  }

  /** A console's own stream moves forward by at most six ticks a record. */
  lemma SentForward<S(!new)>(g: L.Game<S>, s: L.Sys<S>, i: nat)
    requires Reaches(g, s) && i < |s.a.sent|
    ensures i == 0 ==> 0 <= s.a.sent[0].at < 256
    ensures i > 0 ==> s.a.sent[i - 1].at <= s.a.sent[i].at <= s.a.sent[i - 1].at + 127
  {
    hide Reaches;
    StampsMoveSlowly(g, s, i);
  }

  lemma MirrorReaches<S(!new)>(g: L.Game<S>, s: L.Sys<S>)
    requires Reaches(g, s)
    ensures Reaches(g, L.Mirror(s))
  {
    hide Reachable;
    assert L.Mirror(L.Mirror(s)) == s;
  }

  lemma {:induction false} ConsolesStream<S(!new)>(g: L.Game<S>, s: L.Sys<S>, rs: seq<Real>)
    requires Reaches(g, s) && HeardFrom(s, rs)
    ensures Streams(rs)
    decreases |rs|
  {
    hide Reaches;
    if rs != [] {
      var head, r := rs[..|rs| - 1], rs[|rs| - 1];
      assert Of(head, true) <= Of(rs, true) && Of(head, false) <= Of(rs, false);
      ConsolesStream(g, s, head);
      OfEnds(head, r.byA);
      var k := |Of(head, r.byA)|;
      assert Of(rs, r.byA)[k] == r;
      if r.byA {
        SentForward(g, s, k);
      } else {
        MirrorReaches(g, s);
        SentForward(g, L.Mirror(s), k);
      }
    }
  }

  lemma ConsolesStartLow<S(!new)>(g: L.Game<S>, s: L.Sys<S>, rs: seq<Real>)
    requires Reaches(g, s) && HeardFrom(s, rs)
    ensures StartsLow(rs)
  {
    hide Reaches;
    OfEnds(rs, true);
    OfEnds(rs, false);
    if Of(rs, true) != [] {
      SentForward(g, s, 0);
    }
    if Of(rs, false) != [] {
      MirrorReaches(g, s);
      SentForward(g, L.Mirror(s), 0);
    }
  }

  /** A report heard from a console is the checksum of the state entering that tick less
      two. */
  lemma ReportMeansState<S(!new)>(g: L.Game<S>, s: L.Sys<S>, i: nat)
    requires Reaches(g, s) && i < |s.a.sent|
    ensures var p := s.a.sent[i]; 2 <= p.at < |s.a.enter| + 2 && p.f.crc == L.Crc(g, s.a.enter[p.at - 2])
  {
    ReachesInv(g, s);
    hide L.Half, L.Own, L.Hears, L.Ledger, L.RanAgreed, L.AlarmsReal, L.Sized, Reaches, L.Crc;
    Parts(g, s.a, s.b, s.toA);
    SentInOrder(g, s.a, i, i);
  }

  lemma HeardMeansState<S(!new)>(g: L.Game<S>, s: L.Sys<S>, rs: seq<Real>, r: Real)
    requires Reaches(g, s) && HeardFrom(s, rs) && r in rs
    ensures var n := if r.byA then s.a else s.b;
      2 <= r.tick < |n.enter| + 2 && r.crc == L.Crc(g, n.enter[r.tick - 2])
  {
    hide Reaches;
    OfHas(rs, r);
    if r.byA {
      var i :| 0 <= i < |Of(rs, true)| && Of(rs, true)[i] == r;
      ReportMeansState(g, s, i);
    } else {
      var i :| 0 <= i < |Of(rs, false)| && Of(rs, false)[i] == r;
      MirrorReaches(g, s);
      ReportMeansState(g, L.Mirror(s), i);
    }
  }

  /** THE VERDICT. Two fresh clients play, over any interleaving, delay and batching the
      environment predicate allows, and the relay hears their records in any interleaving.
      If it counts a mismatch on a record stamped k, both consoles have entered tick k - 2
      and their simulations differed there. */
  lemma MismatchIsDivergence<S(!new)>(g: L.Game<S>, s: L.Sys<S>, rs: seq<Real>, r: Real)
    requires Reaches(g, s) && HeardFrom(s, rs + [r])
    requires VerdictOn(HearAll(Pair(NEW_SIDE, NEW_SIDE), rs), r) == Mismatch
    ensures var t := r.tick - 2;
      && 0 <= t < |s.a.enter| && t < |s.b.enter|
      && L.Crc(g, s.a.enter[t]) != L.Crc(g, s.b.enter[t])
      && s.a.enter[t] != s.b.enter[t]
  {
    hide Reaches, VerdictOn, HearAll, L.Crc, Streams, StartsLow, HeardFrom;
    ConsolesStream(g, s, rs + [r]);
    ConsolesStartLow(g, s, rs + [r]);
    MismatchIsReal(rs, r);
    var x :| x in rs && x.byA != r.byA && x.tick == r.tick && x.crc != r.crc;
    assert x in rs + [r] && r in rs + [r];
    HeardMeansState(g, s, rs + [r], x);
    HeardMeansState(g, s, rs + [r], r);
  }

  /** The same of the relay at work: two fresh consoles matched among any number of other
      conforming clients, and a step at which the relay's mismatch counter moves. */
  lemma CountedMismatchIsDivergence<S(!new)>(
      g: L.Game<S>, sys: L.Sys<S>, cfg: Config, r: State, ss: seq<RelayRuns.Step>, a: Id, b: Id,
      rs: seq<Real>, s: RelayRuns.Step, rep: Real)
    requires Reaches(g, sys) && HeardFrom(sys, rs + [rep])
    requires RelayRuns.Run(cfg, r, ss) && Ear.MatchLasts(cfg, r, ss, a, b) && Ear.Reports(cfg, r, ss, a, b, rs)
    requires a in r.obj && b in r.obj && Ear.Logs(r, a, b) == Pair(NEW_SIDE, NEW_SIDE)
    requires var r' := RelayRuns.After(cfg, r, ss);
      && Sane(r') && RelayRuns.Matched(r') && RelayRuns.Possible(r', s) && RelayRuns.Polite(r', s)
      && Ear.Partners(r', a, b)
      && Ear.HeardOf(r', s, a, b) == Some(Real(rep.byA, Wrap(rep.tick), rep.crc))
      && RelayRuns.Do(cfg, r', s).stats.crcBad != r'.stats.crcBad
    ensures var t := rep.tick - 2;
      0 <= t < |sys.a.enter| && t < |sys.b.enter| && L.Crc(g, sys.a.enter[t]) != L.Crc(g, sys.b.enter[t])
  {
    hide Reaches, L.Crc, Streams, StartsLow, HeardFrom, RelayRuns.Do, Sane, RelayRuns.Matched, RelayRuns.Possible,
        RelayRuns.Polite, Ear.Partners;
    ConsolesStream(g, sys, rs + [rep]);
    ConsolesStartLow(g, sys, rs + [rep]);
    Ear.CountedMismatchIsReal(cfg, r, ss, a, b, rs, s, rep);
    var x :| x in rs && x.byA != rep.byA && x.tick == rep.tick && x.crc != rep.crc;
    assert x in rs + [rep] && rep in rs + [rep];
    HeardMeansState(g, sys, rs + [rep], x);
    HeardMeansState(g, sys, rs + [rep], rep);
  }
}
