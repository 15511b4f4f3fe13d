/** The relay's checksum logs over a run: two partners' logs are what the verdict model
    hears of their reports, whatever every other client does meanwhile. */
module Ear {
  import opened Bytes
  import opened Framing
  import opened Verdicts
  import opened Relay
  import opened RelayRuns
  import opened Fifo
  import opened FifoProofs

  predicate IsReport(m: Msg) {
    m.ftype == T_INPUT && |m.payload| >= 6
  }

  // -------------------------------------------------------------- whose log a frame touches

  lemma DropSide(r: State, c: Id, x: Id)
    requires Sane(r) && c in r.obj && x in r.obj
    ensures x in Drop(r, c).obj && Drop(r, c).obj[x].side == r.obj[x].side
  {
    hide FrameBytes;
  }

  lemma TryPairSide(cfg: Config, r: State, c: Id, seed: nat, x: Id)
    requires Sane(r) && c in r.obj && x in r.obj && !Pairs(PairNote(cfg, r, c, seed, x))
    ensures var r' := TryPair(cfg, r, c, seed); x in r'.obj && r'.obj[x].side == r.obj[x].side
  {
    hide FrameBytes, StartMsg, Shown;
  }

  lemma HelloSide(cfg: Config, r: State, c: Id, payload: seq<u8>, luck: Luck, x: Id)
    requires Sane(r) && c in r.obj && x in r.obj && !Pairs(HelloNote(cfg, r, c, payload, luck, x))
    ensures var r' := OnHello(cfg, r, c, payload, luck); x in r'.obj && r'.obj[x].side == r.obj[x].side
  {
    hide Drop, FreeName, Strip, Upper, GoodName, TryPair, PairNote;
    DropSide(r, c, x);
    if |payload| >= 3 {
      var r1 := Update(r, c, r.obj[c].(tv := Some(payload[1])));
      UpdateKeeps(r, c, r1.obj[c]);
      DropSide(r1, c, x);
      var free := FreeName(Upper(Strip(payload[2..])), r.names, luck.digits);
      if free.Some? && GoodName(Upper(Strip(payload[2..]))) && payload[1] <= 1 && payload[0] == PROTO {
        UpdateKeeps(r1, c, r1.obj[c].(name := free));
        TryPairSide(cfg, Claim(r1, c, free.value), c, luck.seed, x);
      }
    }
  }

  lemma ReportSide(cfg: Config, r: State, c: Id, m: Msg, luck: Luck, x: Id)
    requires Sane(r) && c in r.obj && x in r.obj && IsRelayed(m.ftype)
    requires x != c && r.obj[c].partner != Some(x)
    ensures var r' := Handle(cfg, r, c, m, luck); x in r'.obj && r'.obj[x].side == r.obj[x].side
  {
    hide FrameBytes, Report, Padded;
    ForwardKeeps(r, c, m);
  }

  lemma ForwardSide(r: State, c: Id, m: Msg, x: Id)
    requires Sane(r) && c in r.obj && x in r.obj
    ensures x in Forward(r, c, m).obj && Forward(r, c, m).obj[x].side == r.obj[x].side
  {
    hide FrameBytes, Padded;
  }

  lemma HandleSide(cfg: Config, r: State, c: Id, m: Msg, luck: Luck, x: Id)
    requires Sane(r) && c in r.obj && x in r.obj && !Pairs(NoteOf(cfg, r, c, m, luck, x))
    requires IsReport(m) ==> x != c && r.obj[c].partner != Some(x)
    ensures var r' := Handle(cfg, r, c, m, luck); x in r'.obj && r'.obj[x].side == r.obj[x].side
  {
    hide Drop, OnHello, TryPair, Forward, LogCrc, FrameBytes, Padded, PairNote, HelloNote, FirstNamed, Entries;
    if IsReport(m) {
      ReportSide(cfg, r, c, m, luck, x);
    } else if IsRelayed(m.ftype) {
      ForwardSide(r, c, m, x);
    } else if m.ftype == T_HELLO {
      HelloSide(cfg, r, c, m.payload, luck, x);
    } else if m.ftype == T_JOIN {
      TryPairSide(cfg, r, c, luck.seed, x);
    } else if m.ftype == T_BYE {
      DropSide(r, c, x);
    }
  }

  /** What two partners' logs hear in a step: their own reports. */
  function HeardOf(r: State, s: Step, a: Id, b: Id): Option<Real>
    requires Possible(r, s)
  {
    if s.Next? && IsReport(Heard(r, s)) && (s.c == a || s.c == b)
    then Some(Real(s.c == a, Heard(r, s).payload[0], Heard(r, s).payload[4]))
    else None
  }

  /** The logs of two partners, as a pair. */
  function Logs(r: State, a: Id, b: Id): Pair
    requires a in r.obj && b in r.obj
  {
    Pair(r.obj[a].side, r.obj[b].side)
  }

  ghost predicate Partners(r: State, a: Id, b: Id) {
    a in r.live && b in r.live && a in r.obj && b in r.obj && r.obj[a].partner == Some(b)
  }

  lemma ReportHeard(cfg: Config, r: State, c: Id, p: Id, m: Msg, luck: Luck)
    requires Sane(r) && c in r.obj && p in r.obj && r.obj[c].partner == Some(p) && IsReport(m)
    ensures var r' := Handle(cfg, r, c, m, luck);
      var o := Report(r.obj[c].side, Some(r.obj[p].side), m.payload[0], m.payload[4]);
      && c in r'.obj && p in r'.obj && r'.obj[c].side == o.mine
      && r'.obj[p].side == (if o.theirs.Some? then o.theirs.value else r.obj[p].side)
      && r'.stats == Count(r.stats, o.verdict)
  {
    hide FrameBytes, Report, Padded;
    ForwardKeeps(r, c, m);
    ForwardSide(r, c, m, c);
    ForwardSide(r, c, m, p);
  }

  /** One step: the partners' logs hear their own reports and nothing else. */
  lemma StepHears(cfg: Config, r: State, s: Step, a: Id, b: Id)
    requires Sane(r) && Matched(r) && Possible(r, s) && Polite(r, s) && Partners(r, a, b)
    ensures var r' := Do(cfg, r, s); var h := HeardOf(r, s, a, b);
      && a in r'.obj && b in r'.obj
      && Logs(r', a, b) == (if h.None? then Logs(r, a, b) else Hear(Logs(r, a, b), h.value))
      && (h.Some? ==> r'.stats == Count(r.stats, VerdictOn(Logs(r, a, b), h.value)))
  {
    hide Handle, Drop, Front, FrameBytes, NoteOf;
    match s
    case Arrive(c, ip, now) =>
    case Chunk(c, data) =>
    case Next(c, luck) => NextHears(cfg, r, s, a, b);
    case Garbled(c) => DropHears(r, r.(stats := r.stats.(badFrames := r.stats.badFrames + 1)), c, a, b);
    case Lost(c) => DropHears(r, r, c, a, b);
    case Flushed(c, sent) =>
      UpdateKeeps(r, c, Cut(r, c, sent).obj[c]);
      DropHears(r, r, c, a, b);
      DropHears(r, Cut(r, c, sent).(stats := r.stats.(txDrops := r.stats.txDrops + 1)), c, a, b);
    case Expired(c) => DropHears(r, r.(stats := r.stats.(helloTimeouts := r.stats.helloTimeouts + 1)), c, a, b);
  }

  lemma DropHears(r0: State, r: State, c: Id, a: Id, b: Id)
    requires Sane(r) && c in r.obj && a in r.obj && b in r.obj && a in r0.obj && b in r0.obj
    requires Logs(r, a, b) == Logs(r0, a, b)
    ensures a in Drop(r, c).obj && b in Drop(r, c).obj && Logs(Drop(r, c), a, b) == Logs(r0, a, b)
  {
    DropSide(r, c, a);
    DropSide(r, c, b);
  }

  lemma NextHears(cfg: Config, r: State, s: Step, a: Id, b: Id)
    requires Sane(r) && Matched(r) && Possible(r, s) && Polite(r, s) && Partners(r, a, b) && s.Next?
    ensures var r' := Do(cfg, r, s); var h := HeardOf(r, s, a, b);
      && a in r'.obj && b in r'.obj
      && Logs(r', a, b) == (if h.None? then Logs(r, a, b) else Hear(Logs(r, a, b), h.value))
      && (h.Some? ==> r'.stats == Count(r.stats, VerdictOn(Logs(r, a, b), h.value)))
  {
    var c := s.c;
    PoppedSane(r, c);
    var r0, m := Popped(r, c), Heard(r, s);
    assert r.obj[b].partner == Some(a);
    NeverBound(cfg, r, s, a);
    NeverBound(cfg, r, s, b);
    if StepNote(cfg, r, s, a).Started? {
      StartedMeans(cfg, r, s, a);
      assert false;
    }
    if StepNote(cfg, r, s, b).Started? {
      StartedMeans(cfg, r, s, b);
      assert false;
    }
    hide Handle, Front, NoteOf, Report, Matched;
    if IsReport(m) && c == a {
      ReportHeard(cfg, r0, a, b, m, s.luck);
      ByteWraps(m.payload[0]);
    } else if IsReport(m) && c == b {
      ReportHeard(cfg, r0, b, a, m, s.luck);
      ByteWraps(m.payload[0]);
    } else {
      if IsReport(m) {
        NotTheirs(r, c, a, b);
      }
      HandleSide(cfg, r0, c, m, s.luck, a);
      HandleSide(cfg, r0, c, m, s.luck, b);
    }
  }

  lemma ByteWraps(x: u8)
    ensures Wrap(x) == x
  {
  }

  lemma NotTheirs(r: State, c: Id, a: Id, b: Id)
    requires Matched(r) && Partners(r, a, b) && c in r.live && c in r.obj && c != a && c != b
    ensures r.obj[c].partner != Some(a) && r.obj[c].partner != Some(b)
  {
  }

  // -------------------------------------------------------------- over a match

  /** `a` and `b` stay partners through the whole of a run of conforming traffic. */
  ghost predicate MatchLasts(cfg: Config, r: State, ss: seq<Step>, a: Id, b: Id)
    requires Run(cfg, r, ss)
    decreases |ss|
  {
    Matched(r) && Partners(r, a, b)
    && (ss == [] || (Polite(r, ss[0]) && MatchLasts(cfg, Do(cfg, r, ss[0]), ss[1..], a, b)))
  }

  /** The true reports `rs` are what the two sent: the same bytes, in the order heard. */
  ghost predicate Reports(cfg: Config, r: State, ss: seq<Step>, a: Id, b: Id, rs: seq<Real>)
    requires Run(cfg, r, ss)
    decreases |ss|
  {
    if ss == [] then rs == []
    else
      var h := HeardOf(r, ss[0], a, b);
      if h.None? then Reports(cfg, Do(cfg, r, ss[0]), ss[1..], a, b, rs)
      else
        && rs != [] && rs[0].byA == h.value.byA && Wrap(rs[0].tick) == h.value.tick && rs[0].crc == h.value.crc
        && Reports(cfg, Do(cfg, r, ss[0]), ss[1..], a, b, rs[1..])
  }

  lemma {:induction false} HearFirst(p: Pair, r: Real, rs: seq<Real>)
    ensures HearAll(p, [r] + rs) == HearAll(Hear(p, r), rs)
    decreases |rs|
  {
    hide Hear;
    if rs == [] {
      assert [r] + rs == [r] && [r][..0] == [];
      assert HearAll(p, []) == p;
    } else {
      var all := [r] + rs;
      assert all[..|all| - 1] == [r] + rs[..|rs| - 1];
      HearFirst(p, r, rs[..|rs| - 1]);
    }
  }

  lemma SameHear(p: Pair, r: Real, q: Real)
    requires r.byA == q.byA && r.crc == q.crc && Wrap(r.tick) == Wrap(q.tick)
    ensures Hear(p, r) == Hear(p, q)
  {
  }

  /** THE RELAY HEARS. Over any conforming traffic of any number of clients, while two of
      them stay partners their logs are exactly what their own reports make of them. */
  lemma {:induction false} RelayHears(cfg: Config, r: State, ss: seq<Step>, a: Id, b: Id, rs: seq<Real>)
    requires Run(cfg, r, ss) && MatchLasts(cfg, r, ss, a, b) && Reports(cfg, r, ss, a, b, rs)
    ensures var r' := After(cfg, r, ss);
      a in r.obj && b in r.obj && a in r'.obj && b in r'.obj && Logs(r', a, b) == HearAll(Logs(r, a, b), rs)
    decreases |ss|
  {
    hide Do, Hear, Matched, Sane, Possible, Polite, Partners;
    PartnersKnown(r, a, b);
    if ss != [] {
      var r1 := Do(cfg, r, ss[0]);
      StepHears(cfg, r, ss[0], a, b);
      var h := HeardOf(r, ss[0], a, b);
      if h.None? {
        RelayHears(cfg, r1, ss[1..], a, b, rs);
      } else {
        RelayHears(cfg, r1, ss[1..], a, b, rs[1..]);
        HearFirst(Logs(r, a, b), rs[0], rs[1..]);
        assert [rs[0]] + rs[1..] == rs;
        ByteWraps(h.value.tick);
        SameHear(Logs(r, a, b), rs[0], h.value);
      }
    }
  }

  lemma PartnersKnown(r: State, a: Id, b: Id)
    requires Partners(r, a, b)
    ensures a in r.obj && b in r.obj
  {
  }

  /** Every mismatch the relay counts for a match of fresh clients, at whatever point of
      the run, is two true reports of one absolute tick with different checksums. */
  lemma CountedMismatchIsReal(cfg: Config, r: State, ss: seq<Step>, a: Id, b: Id, rs: seq<Real>, s: Step, rep: Real)
    requires Run(cfg, r, ss) && MatchLasts(cfg, r, ss, a, b) && Reports(cfg, r, ss, a, b, rs)
    requires a in r.obj && b in r.obj && Logs(r, a, b) == Pair(NEW_SIDE, NEW_SIDE)
    requires var r' := After(cfg, r, ss);
      Sane(r') && Matched(r') && Possible(r', s) && Polite(r', s) && Partners(r', a, b)
    requires HeardOf(After(cfg, r, ss), s, a, b) == Some(Real(rep.byA, Wrap(rep.tick), rep.crc))
    requires Streams(rs + [rep]) && StartsLow(rs + [rep])
    ensures var r' := After(cfg, r, ss);
      Do(cfg, r', s).stats.crcBad != r'.stats.crcBad ==>
        exists x :: x in rs && x.byA != rep.byA && x.tick == rep.tick && x.crc != rep.crc
  {
    hide Do, Matched, Sane, Possible, Polite, Partners, Hear, Streams, StartsLow, Report;
    var r' := After(cfg, r, ss);
    RelayHears(cfg, r, ss, a, b, rs);
    StepHears(cfg, r', s, a, b);
    MismatchIsReal(rs, rep);
    SameVerdict(Logs(r', a, b), rep);
  }

  lemma SameVerdict(p: Pair, rep: Real)
    ensures VerdictOn(p, Real(rep.byA, Wrap(rep.tick), rep.crc)) == VerdictOn(p, rep)
  {
    ByteWraps(Wrap(rep.tick));
  }
}
