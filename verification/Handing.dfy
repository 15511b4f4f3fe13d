/** What two consoles are told when their match begins, byte by byte, from the step that drew
    the seed to the console that reads the reply. */
module Handing {
  import opened Bytes
  import opened Framing
  import opened Verdicts
  import opened Relay
  import opened RelayRuns
  import opened Fifo
  import opened FifoProofs
  import opened Pipe

  // -------------------------------------------------------------- how a match was made

  /** The seed drawn when a client was matched, and whether it was the one that came (and not
      the one that waited). */
  datatype Deal = Deal(seed: nat, came: bool)

  function Deal1(cfg: Config, r: State, s: Step, x: Id, d: Deal): Deal
    requires Sane(r) && Possible(r, s)
  {
    if s.Next? && StepNote(cfg, r, s, x).Started? then Deal(s.luck.seed, s.c == x) else d
  }

  /** A client's last match over a run. */
  ghost function Dealt(cfg: Config, t: Trace, ss: seq<Step>, x: Id, d: Deal): Deal
    requires TraceRun(cfg, t, ss)
    decreases |ss|
  {
    if ss == [] then d else Dealt(cfg, TDo(cfg, t, ss[0]), ss[1..], x, Deal1(cfg, t.r, ss[0], x, d))
  }

  /** A name in eight bytes, padded with NULs. */
  predicate Spelled(b: seq<u8>, name: Name) {
    |b| == 8 && |name| <= 8 && b[..|name|] == name && forall i :: |name| <= i < 8 ==> b[i] == 0
  }

  /** The fifteen bytes of a START: length and type, the role (0 for the one that waited, 1 for
      the one that came), the seed low byte first, delay, variation and the opponent's name. */
  predicate Says(cfg: Config, b: seq<u8>, d: Deal, opponent: Name) {
    && |b| == 15 && b[0] == 14 && b[1] == 5
    && b[2] == (if d.came then 1 else 0)
    && b[3] == d.seed % 256 && b[4] == d.seed / 256 % 256
    && b[5] == cfg.delay && b[6] == cfg.variation
    && Spelled(b[7..], opponent)
  }

  /** A client with a partner was told so in its START, under the partner's name of now. */
  ghost predicate Informed(cfg: Config, t: Trace, x: Id, d: Deal) {
    && x in t.r.obj && x in t.h
    && (t.r.obj[x].partner.Some? ==>
          var p := t.r.obj[x].partner.value;
          && p in t.r.obj && t.r.obj[p].name.Some? && Says(cfg, FrameBytes(t.h[x].start), d, t.r.obj[p].name.value))
  }

  // -------------------------------------------------------------- the step that makes it

  lemma StartSays(cfg: Config, role: u8, seed: nat, opponent: Client, d: Deal)
    requires opponent.name.Some? && |opponent.name.value| <= 8
    requires role == (if d.came then 1 else 0) && d.seed == seed
    ensures Says(cfg, FrameBytes(StartMsg(cfg, role, seed, Shown(opponent))), d, opponent.name.value)
  {
    var m := StartMsg(cfg, role, seed, Shown(opponent));
    assert FrameBytes(m)[7..] == m.payload[5..];
  }

  /** What a pairing gives whoever it starts. */
  lemma PairingSays(cfg: Config, r: State, c: Id, seed: nat, x: Id)
    requires Sane(r) && c in r.obj && x in r.obj && PairNote(cfg, r, c, seed, x).Started?
    requires forall y :: y in r.obj && r.obj[y].name.Some? ==> |r.obj[y].name.value| <= 8
    ensures var n := PairNote(cfg, r, c, seed, x); var o := n.opponent; var r' := TryPair(cfg, r, c, seed);
      && o in r'.obj && r'.obj[o].name.Some?
      && Says(cfg, FrameBytes(n.m), Deal(seed, x == c), r'.obj[o].name.value)
  {
    hide FrameBytes, StartMsg, Shown, Says;
    var host := Oldest(r, Others(r, r.live, c));
    StartSays(cfg, 1, seed, r.obj[host], Deal(seed, true));
    StartSays(cfg, 0, seed, r.obj[c], Deal(seed, false));
  }

  lemma HelloSays(cfg: Config, r: State, c: Id, payload: seq<u8>, luck: Luck, x: Id)
    requires Sane(r) && NamesOk(r) && c in r.obj && x in r.obj && HelloNote(cfg, r, c, payload, luck, x).Started?
    ensures var n := HelloNote(cfg, r, c, payload, luck, x); var o := n.opponent;
      var r' := OnHello(cfg, r, c, payload, luck);
      && o in r'.obj && r'.obj[o].name.Some?
      && Says(cfg, FrameBytes(n.m), Deal(luck.seed, x == c), r'.obj[o].name.value)
  {
    hide Drop, TryPair, FreeName, Strip, Upper, PairNote, FrameBytes, Says;
    var name := Upper(Strip(payload[2..]));
    var r1 := Update(r, c, r.obj[c].(tv := Some(payload[1])));
    UpdateKeeps(r, c, r1.obj[c]);
    var free := FreeName(name, r.names, luck.digits);
    FreeNameIsGood(name, r.names, luck.digits);
    UpdateKeeps(r1, c, r1.obj[c].(name := free));
    PairingSays(cfg, Claim(r1, c, free.value), c, luck.seed, x);
  }

  lemma NextSays(cfg: Config, r: State, s: Step, x: Id)
    requires Sane(r) && NamesOk(r) && Possible(r, s) && Polite(r, s) && x in r.obj
    requires StepNote(cfg, r, s, x).Started?
    ensures var n := StepNote(cfg, r, s, x); var o := n.opponent; var r' := Do(cfg, r, s);
      && s.Next? && o in r'.obj && r'.obj[o].name.Some?
      && Says(cfg, FrameBytes(n.m), Deal1(cfg, r, s, x, Deal(0, false)), r'.obj[o].name.value)
  {
    hide HelloNote, PairNote, OnHello, Front, Says, FrameBytes, Padded, GoodName;
    DropNoteNeverStarts(cfg, r, s, x);
    PoppedSane(r, s.c);
    HelloSays(cfg, Popped(r, s.c), s.c, Heard(r, s).payload, s.luck, x);
  }

  // -------------------------------------------------------------- names stay

  lemma DropKeepsNames(r: State, c: Id, y: Id)
    requires Sane(r) && c in r.obj && y in r.obj
    ensures y in Drop(r, c).obj && Drop(r, c).obj[y].name == r.obj[y].name
  {
    hide FrameBytes;
  }

  lemma TryPairKeepsNames(cfg: Config, r: State, c: Id, seed: nat, y: Id)
    requires Sane(r) && c in r.obj && y in r.obj
    ensures var r' := TryPair(cfg, r, c, seed); y in r'.obj && r'.obj[y].name == r.obj[y].name
  {
    hide FrameBytes, StartMsg, Shown;
  }

  lemma HelloKeepsNames(cfg: Config, r: State, c: Id, payload: seq<u8>, luck: Luck, y: Id)
    requires Sane(r) && c in r.obj && y in r.obj && y != c
    ensures var r' := OnHello(cfg, r, c, payload, luck); y in r'.obj && r'.obj[y].name == r.obj[y].name
  {
    hide Drop, TryPair, FreeName, Strip, Upper, GoodName;
    DropKeepsNames(r, c, y);
    if |payload| >= 3 {
      var r1 := Update(r, c, r.obj[c].(tv := Some(payload[1])));
      UpdateKeeps(r, c, r1.obj[c]);
      DropKeepsNames(r1, c, y);
      var free := FreeName(Upper(Strip(payload[2..])), r.names, luck.digits);
      if free.Some? {
        UpdateKeeps(r1, c, r1.obj[c].(name := free));
        TryPairKeepsNames(cfg, Claim(r1, c, free.value), c, luck.seed, y);
      }
    }
  }

  lemma HandleKeepsNames(cfg: Config, r: State, c: Id, m: Msg, luck: Luck, y: Id)
    requires Sane(r) && c in r.obj && y in r.obj && (m.ftype == T_HELLO ==> y != c)
    ensures var r' := Handle(cfg, r, c, m, luck); y in r'.obj && r'.obj[y].name == r.obj[y].name
  {
    hide Drop, OnHello, TryPair, Forward, LogCrc, FrameBytes, LobbyMsg, Padded, SameLinks;
    if IsRelayed(m.ftype) {
      RelayedLinks(r, c, m);
      LinksKeepNames(r, Handle(cfg, r, c, m, luck), y);
    } else if m.ftype == T_HELLO {
      HelloKeepsNames(cfg, r, c, m.payload, luck, y);
    } else if m.ftype == T_JOIN {
      TryPairKeepsNames(cfg, r, c, luck.seed, y);
    } else if m.ftype == T_BYE {
      DropKeepsNames(r, c, y);
    }
  }

  lemma LinksKeepNames(r: State, r': State, y: Id)
    requires SameLinks(r, r') && y in r.obj
    ensures y in r'.obj && r'.obj[y].name == r.obj[y].name
  {
  }

  /** A conforming client never changes its name. */
  lemma NameStays(cfg: Config, r: State, s: Step, y: Id)
    requires Sane(r) && Possible(r, s) && Polite(r, s) && y in r.obj && r.obj[y].name.Some?
    ensures y in Do(cfg, r, s).obj && Do(cfg, r, s).obj[y].name == r.obj[y].name
  {
    hide Handle, Drop, Front, SameIp;
    match s
    case Arrive(c, ip, now) =>
    case Chunk(c, data) =>
    case Next(c, luck) =>
      PoppedSane(r, c);
      HandleKeepsNames(cfg, Popped(r, c), c, Heard(r, s), luck, y);
    case Garbled(c) => DropKeepsNames(r.(stats := r.stats.(badFrames := r.stats.badFrames + 1)), c, y);
    case Lost(c) => DropKeepsNames(r, c, y);
    case Flushed(c, sent) =>
      UpdateKeeps(r, c, Cut(r, c, sent).obj[c]);
      DropKeepsNames(r, c, y);
      DropKeepsNames(Cut(r, c, sent).(stats := r.stats.(txDrops := r.stats.txDrops + 1)), c, y);
    case Expired(c) => DropKeepsNames(r.(stats := r.stats.(helloTimeouts := r.stats.helloTimeouts + 1)), c, y);
  }

  // -------------------------------------------------------------- over a run

  lemma InformedStep(cfg: Config, t: Trace, s: Step, x: Id, d: Deal)
    requires Conforming(t) && NamesOk(t.r) && Possible(t.r, s) && Polite(t.r, s)
    requires x in TDo(cfg, t, s).r.live && (x in t.r.live ==> Informed(cfg, t, x, d))
    ensures Informed(cfg, TDo(cfg, t, s), x, Deal1(cfg, t.r, s, x, d))
  {
    hide StepNote, Do, Says, GoodName, FrameBytes, Accounted, Linked, LiveShrinks, Flows, Sane, Polite, Possible;
    var t' := TDo(cfg, t, s);
    DoSane(cfg, t.r, s);
    KnownLive(t'.r, x);
    if x !in t.r.obj {
      NewcomerAlone(cfg, t, s, x);
    } else {
      InformedBefore(cfg, t, s, x, d);
    }
  }

  lemma KnownLive(r: State, x: Id)
    requires Sane(r) && x in r.live
    ensures x in r.obj
  {
  }

  lemma NewcomerAlone(cfg: Config, t: Trace, s: Step, x: Id)
    requires Sane(t.r) && Possible(t.r, s) && x !in t.r.obj && x in Do(cfg, t.r, s).obj
    ensures Do(cfg, t.r, s).obj[x].partner.None?
  {
    OnlyArrivalsAreNew(cfg, t.r, s, x);
    hide SameIp;
  }

  lemma InformedBefore(cfg: Config, t: Trace, s: Step, x: Id, d: Deal)
    requires Conforming(t) && NamesOk(t.r) && Possible(t.r, s) && Polite(t.r, s)
    requires x in t.r.obj && x in Do(cfg, t.r, s).live && (x in t.r.live ==> Informed(cfg, t, x, d))
    ensures Informed(cfg, TDo(cfg, t, s), x, Deal1(cfg, t.r, s, x, d))
  {
    hide StepNote, Do, Says, GoodName, FrameBytes, Accounted, Linked, LiveShrinks, Sane, Polite, Possible, BytesOut,
        BytesIn, FramesIn;
    var t', n := TDo(cfg, t, s), StepNote(cfg, t.r, s, x);
    StepLive(cfg, t.r, s, x);
    LiveBefore(t.r, t'.r, s.c, x, n);
    StepFlows(cfg, t.r, s, x);
    TraceStep(cfg, t, s, x);
    NeverBound(cfg, t.r, s, x);
    if n.Started? {
      NextSays(cfg, t.r, s, x);
      assert Deal1(cfg, t.r, s, x, d) == Deal1(cfg, t.r, s, x, Deal(0, false));
    } else if t'.r.obj[x].partner.Some? {
      NameStays(cfg, t.r, s, t.r.obj[x].partner.value);
    }
  }

  lemma {:induction false} RunInformed(cfg: Config, t: Trace, ss: seq<Step>, x: Id, d: Deal)
    requires Conforming(t) && Steady(t.r) && TraceRun(cfg, t, ss) && x in TraceAfter(cfg, t, ss).r.live
    requires x in t.r.live ==> Informed(cfg, t, x, d)
    ensures Informed(cfg, TraceAfter(cfg, t, ss), x, Dealt(cfg, t, ss, x, d))
    decreases |ss|
  {
    hide Conforming, TDo, Deal1, Possible, Polite, Sane, Informed;
    if ss != [] {
      var t1 := TDo(cfg, t, ss[0]);
      StepConforms(cfg, t, ss[0]);
      StepSteady(cfg, t, ss[0]);
      if x in t1.r.live {
        InformedStep(cfg, t, ss[0], x, d);
      }
      RunInformed(cfg, t1, ss[1..], x, Deal1(cfg, t.r, ss[0], x, d));
    }
  }

  lemma StepSteady(cfg: Config, t: Trace, s: Step)
    requires Steady(t.r) && Possible(t.r, s)
    ensures NamesOk(t.r) && Steady(TDo(cfg, t, s).r)
  {
    hide Do, NamesOk, Queue;
    DoKeeps(cfg, t.r, s);
  }

  /** WHAT START SAYS. In every state conforming consoles bring the relay to, a live client
      with a partner was sent these fifteen bytes: its role, the seed drawn when the two were
      matched, the relay's delay and variation, and its partner's name. */
  lemma StartIsExact(cfg: Config, ss: seq<Step>, x: Id)
    requires TraceRun(cfg, START_TRACE, ss) && x in TraceAfter(cfg, START_TRACE, ss).r.live
    ensures var t := TraceAfter(cfg, START_TRACE, ss);
      && x in t.r.obj && x in t.h
      && (t.r.obj[x].partner.Some? ==>
            var p := t.r.obj[x].partner.value;
            && p in t.r.obj && t.r.obj[p].name.Some?
            && Says(cfg, FrameBytes(t.h[x].start), Dealt(cfg, START_TRACE, ss, x, Deal(0, false)),
                    t.r.obj[p].name.value))
  {
    hide Says, FrameBytes, TraceRun, TraceAfter, Dealt;
    assert Conforming(START_TRACE) && Steady(START_TRACE.r);
    RunInformed(cfg, START_TRACE, ss, x, Deal(0, false));
  }
}
