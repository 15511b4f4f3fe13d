/** Why the relay is a pipe: each step tells each client exactly what its note says, and
    the notes keep every link. */
module FifoProofs {
  import opened Bytes
  import opened Framing
  import opened Verdicts
  import opened Relay
  import opened RelayRuns
  import opened Fifo

  // -------------------------------------------------------------- steps obey their notes

  /** A client's transmit buffer and link after a step, by its note alone. */
  ghost predicate Obeys(r: State, r': State, x: Id, n: Note) {
    && x in r.obj && x in r'.obj
    && r'.obj[x].tx == (match n
         case Quiet => r.obj[x].tx
         case Bound(_) => r.obj[x].tx
         case Told(m) => r.obj[x].tx + FrameBytes(m)
         case Started(_, m) => r.obj[x].tx + FrameBytes(m))
    && r'.obj[x].partner == (match n
         case Quiet => r.obj[x].partner
         case Told(m) => if m == PEER_LEFT then None else r.obj[x].partner
         case Bound(o) => Some(o)
         case Started(o, _) => Some(o))
  }

  lemma DropObeys(r: State, c: Id, x: Id)
    requires Sane(r) && c in r.obj && x in r.obj
    ensures Obeys(r, Drop(r, c), x, DropNote(r, c, x))
    ensures forall y :: y in Drop(r, c).live ==> y in r.live && y != c
  {
    hide FrameBytes;
  }

  lemma MatchUpObeys(cfg: Config, r: State, host: Id, guest: Id, seed: nat, x: Id)
    requires host in r.obj && guest in r.obj && host != guest && x in r.obj
    ensures var r' := MatchUp(cfg, r, host, guest, seed);
      && r'.live == r.live
      && Obeys(r, r', x,
           if x == guest then Started(host, StartMsg(cfg, 1, seed, Shown(r.obj[host])))
           else if x == host then Started(guest, StartMsg(cfg, 0, seed, Shown(r.obj[guest])))
           else Quiet)
  {
    hide FrameBytes, StartMsg, Shown;
  }

  lemma RaiseObeys(r: State, host: Id, guest: Id, x: Id)
    requires host in r.obj && guest in r.obj && host != guest && x in r.obj
    ensures var r' := Raise(r, host, guest);
      && r'.live == r.live
      && Obeys(r, r', x, if x == guest then Bound(host) else if x == host then Bound(guest) else Quiet)
  {
  }

  lemma TryPairObeys(cfg: Config, r: State, c: Id, seed: nat, x: Id)
    requires Sane(r) && c in r.obj && x in r.obj
    ensures Obeys(r, TryPair(cfg, r, c, seed), x, PairNote(cfg, r, c, seed, x))
    ensures TryPair(cfg, r, c, seed).live == r.live
  {
    hide MatchUp, Raise, FrameBytes, StartMsg, Shown;
    var others := Others(r, r.live, c);
    if others != [] && r.obj[c].name.Some? {
      MatchUpObeys(cfg, r, Oldest(r, others), c, seed, x);
    } else if others != [] {
      RaiseObeys(r, Oldest(r, others), c, x);
    }
  }

  lemma HelloObeys(cfg: Config, r: State, c: Id, payload: seq<u8>, luck: Luck, x: Id)
    requires Sane(r) && c in r.obj && x in r.obj
    ensures Obeys(r, OnHello(cfg, r, c, payload, luck), x, HelloNote(cfg, r, c, payload, luck, x))
  {
    hide Drop, FreeName, Strip, Upper, GoodName, TryPair, PairNote, FrameBytes;
    DropObeys(r, c, x);
    if |payload| >= 3 {
      var r1 := Update(r, c, r.obj[c].(tv := Some(payload[1])));
      UpdateKeeps(r, c, r1.obj[c]);
      DropObeys(r1, c, x);
      var name := Upper(Strip(payload[2..]));
      var free := FreeName(name, r.names, luck.digits);
      if free.Some? {
        UpdateKeeps(r1, c, r1.obj[c].(name := free));
        TryPairObeys(cfg, Claim(r1, c, free.value), c, luck.seed, x);
      }
    }
  }

  lemma RelayedObeys(cfg: Config, r: State, c: Id, m: Msg, luck: Luck, x: Id)
    requires Sane(r) && c in r.obj && x in r.obj && IsRelayed(m.ftype)
    ensures Obeys(r, Handle(cfg, r, c, m, luck), x, NoteOf(cfg, r, c, m, luck, x))
  {
    hide FrameBytes, Report, Padded;
    ForwardKeeps(r, c, m);
    assert Padded(m) != PEER_LEFT by { PaddedKeepsType(m); }
  }

  lemma PaddedKeepsType(m: Msg)
    ensures Padded(m).ftype == m.ftype && (|m.payload| >= GAME_PAYLOAD ==> Padded(m) == m)
  {
  }

  lemma HandleObeys(cfg: Config, r: State, c: Id, m: Msg, luck: Luck, x: Id)
    requires Sane(r) && c in r.obj && x in r.obj
    ensures Obeys(r, Handle(cfg, r, c, m, luck), x, NoteOf(cfg, r, c, m, luck, x))
  {
    hide Drop, OnHello, TryPair, Forward, LogCrc, FrameBytes, Padded, PairNote, HelloNote, FirstNamed, Entries;
    if IsRelayed(m.ftype) {
      RelayedObeys(cfg, r, c, m, luck, x);
    } else if m.ftype == T_HELLO {
      HelloObeys(cfg, r, c, m.payload, luck, x);
    } else if m.ftype == T_JOIN {
      TryPairObeys(cfg, r, c, luck.seed, x);
    } else if m.ftype == T_BYE {
      DropObeys(r, c, x);
    }
  }

  function NoteBytes(n: Note): seq<u8> {
    match n case Quiet => [] case Bound(_) => [] case Told(m) => FrameBytes(m) case Started(_, m) => FrameBytes(m)
  }

  /** A client at a step: its bytes in and out, its frames, its link. */
  ghost predicate Flows(r: State, r': State, s: Step, x: Id, n: Note)
    requires Possible(r, s)
  {
    && x in r.obj && x in r'.obj
    && r.obj[x].rx + BytesIn(s, x) == Encode(FramesIn(r, s, x)) + r'.obj[x].rx
    && BytesOut(r, s, x) + r'.obj[x].tx == r.obj[x].tx + NoteBytes(n)
    && r'.obj[x].partner == (match n
         case Quiet => r.obj[x].partner
         case Told(m) => if m == PEER_LEFT then None else r.obj[x].partner
         case Bound(o) => Some(o)
         case Started(o, _) => Some(o))
  }

  lemma DropFlows(r0: State, r: State, s: Step, x: Id)
    requires Sane(r0) && Possible(r0, s) && !s.Chunk? && !s.Next? && !s.Arrive? && x in r0.obj
    requires SameLinks(r0, r) && Sane(r) && r.obj[x].rx == r0.obj[x].rx
    requires BytesOut(r0, s, x) + r.obj[x].tx == r0.obj[x].tx
    ensures Flows(r0, Drop(r, s.c), s, x, DropNote(r0, s.c, x))
  {
    hide Drop, FrameBytes, Sane;
    DropObeys(r, s.c, x);
    DropKeeps(r, s.c);
  }

  lemma NextFlows(cfg: Config, r: State, s: Step, x: Id)
    requires Sane(r) && Possible(r, s) && s.Next? && x in r.obj
    ensures Flows(r, Do(cfg, r, s), s, x, StepNote(cfg, r, s, x))
  {
    hide Handle, NoteOf, FrameBytes, Front;
    var c := s.c;
    PoppedSane(r, c);
    var m := Front(r.obj[c].rx).m;
    HandleObeys(cfg, Popped(r, c), c, m, s.luck, x);
    HandleKeeps(cfg, Popped(r, c), c, m, s.luck);
    FrontIsFrame(r.obj[c].rx);
    assert Encode([m]) == FrameBytes(m) + Encode([]);
  }

  /** What a send took and what it left. */
  lemma CutFlows(r: State, s: Step, x: Id)
    requires Sane(r) && Possible(r, s) && s.Flushed? && x in r.obj
    ensures var r1 := Cut(r, s.c, s.s);
      && Sane(r1) && SameLinks(r, r1) && x in r1.obj && r1.obj[x].rx == r.obj[x].rx
      && BytesOut(r, s, x) + r1.obj[x].tx == r.obj[x].tx
  {
    UpdateKeeps(r, s.c, Cut(r, s.c, s.s).obj[s.c]);
  }

  lemma FlushDrops(r: State, s: Step, x: Id)
    requires Sane(r) && Possible(r, s) && s.Flushed? && x in r.obj
    ensures var r2 := Cut(r, s.c, s.s).(stats := r.stats.(txDrops := r.stats.txDrops + 1));
      Sane(r2) && s.c in r2.obj && Flows(r, Drop(r2, s.c), s, x, DropNote(r, s.c, x))
  {
    CutFlows(r, s, x);
    hide Drop, DropNote, Cut, BytesOut, Flows;
    DropFlows(r, Cut(r, s.c, s.s).(stats := r.stats.(txDrops := r.stats.txDrops + 1)), s, x);
  }

  lemma FlushFlows(cfg: Config, r: State, s: Step, x: Id)
    requires Sane(r) && Possible(r, s) && s.Flushed? && x in r.obj
    ensures Flows(r, Do(cfg, r, s), s, x, StepNote(cfg, r, s, x))
  {
    if r.obj[s.c].tx == [] {
    } else if s.s.Broken? {
      hide Drop, DropNote, FrameBytes, Flows;
      DropFlows(r, r, s, x);
    } else {
      hide Drop, DropNote, Sane, Flows;
      CutFlows(r, s, x);
      FlushDrops(r, s, x);
      FlushStays(r, s, x);
    }
  }

  lemma FlushStays(r: State, s: Step, x: Id)
    requires Sane(r) && Possible(r, s) && s.Flushed? && x in r.obj
    ensures Flows(r, Cut(r, s.c, s.s), s, x, Quiet)
  {
    CutFlows(r, s, x);
    hide Cut, BytesOut, Sane;
  }

  lemma StepFlows(cfg: Config, r: State, s: Step, x: Id)
    requires Sane(r) && Possible(r, s) && x in r.obj
    ensures Flows(r, Do(cfg, r, s), s, x, StepNote(cfg, r, s, x))
  {
    hide Drop, DropNote, Handle, NoteOf, FrameBytes;
    match s
    case Arrive(c, ip, now) =>
    case Chunk(c, data) =>
    case Next(c, luck) => NextFlows(cfg, r, s, x);
    case Garbled(c) => DropFlows(r, r.(stats := r.stats.(badFrames := r.stats.badFrames + 1)), s, x);
    case Lost(c) => DropFlows(r, r, s, x);
    case Flushed(c, sent) => FlushFlows(cfg, r, s, x);
    case Expired(c) =>
      if r.obj[c].name.None? {
        DropFlows(r, r.(stats := r.stats.(helloTimeouts := r.stats.helloTimeouts + 1)), s, x);
      }
  }

  // -------------------------------------------------------------- bytes stay accounted for

  lemma AccountedStep(r: State, r': State, s: Step, x: Id, h: Hist, h': Hist, n: Note)
    requires Possible(r, s) && x in r.obj && Flows(r, r', s, x, n) && Accounted(r.obj[x], h)
    requires h' == Note1(h.(inb := h.inb + BytesIn(s, x), out := h.out + BytesOut(r, s, x),
      frames := h.frames + FramesIn(r, s, x)), n)
    ensures Accounted(r'.obj[x], h')
  {
    hide Encode, FrameBytes;
    EncodeMore(h.frames, FramesIn(r, s, x));
    calc {
      h.inb + BytesIn(s, x);
      (Encode(h.frames) + r.obj[x].rx) + BytesIn(s, x);
      { Regroup(Encode(h.frames), r.obj[x].rx, BytesIn(s, x)); }
      Encode(h.frames) + (r.obj[x].rx + BytesIn(s, x));
      { Regroup(Encode(h.frames), Encode(FramesIn(r, s, x)), r'.obj[x].rx); }
      Encode(h.frames + FramesIn(r, s, x)) + r'.obj[x].rx;
    }
    OutAccounted(h, r.obj[x].tx, BytesOut(r, s, x), r'.obj[x].tx, n);
  }

  lemma OutAccounted(h: Hist, tx: seq<u8>, gone: seq<u8>, tx': seq<u8>, n: Note)
    requires h.out + tx == h.pre + Encode(h.said) && gone + tx' == tx + NoteBytes(n)
    ensures var h' := Note1(h, n);
      && h.out + gone + tx' == h'.pre + Encode(h'.said)
      && (n.Started? ==> exists head :: h'.pre == head + FrameBytes(h'.start))
  {
    hide FrameBytes;
    Regroup(h.out, gone, tx');
    Regroup(h.out, tx, NoteBytes(n));
    assert h.out + gone + tx' == h.pre + Encode(h.said) + NoteBytes(n);
    match n
    case Quiet =>
    case Bound(_) =>
    case Told(m) =>
      EncodeMore(h.said, [m]);
      assert Encode([m]) == FrameBytes(m) + Encode([]);
      Regroup(h.pre, Encode(h.said), FrameBytes(m));
    case Started(o, m) =>
  }

  // -------------------------------------------------------------- what a note can be

  function Heard(r: State, s: Step): Msg
    requires Possible(r, s) && s.Next?
  {
    Front(r.obj[s.c].rx).m
  }

  /** A client can be started only while it lives and has no partner; and the console at
      the other end of that match is started in the same step. */
  ghost predicate StartsBoth(cfg: Config, r: State, s: Step, x: Id, n: Note)
    requires Sane(r) && Possible(r, s) && n.Started?
  {
    var o := n.opponent;
    && x in r.live && o in r.live && o != x && o in r.obj && x in r.obj
    && r.obj[x].partner.None?
    && StepNote(cfg, r, s, o).Started? && StepNote(cfg, r, s, o).opponent == x
    && SameStart(n.m, StepNote(cfg, r, s, o).m)
  }

  /** A HELLO claims a name before it looks for a partner, so only a JOIN can raise. */
  lemma NeverBound(cfg: Config, r: State, s: Step, x: Id)
    requires Sane(r) && Possible(r, s) && Polite(r, s)
    ensures !StepNote(cfg, r, s, x).Bound?
  {
    hide FreeName, Strip, Upper, GoodName, Others, Oldest, FirstNamed, Entries;
  }

  /** What each kind of note says about the frame that caused it. */
  ghost predicate Caused(r: State, s: Step, x: Id, n: Note)
    requires Possible(r, s) && x in r.obj
  {
    match n
    case Quiet => s.Next? && IsRelayed(Heard(r, s).ftype) ==> r.obj[s.c].partner != Some(x)
    case Started(_, _) => s.Next? && Heard(r, s).ftype == T_HELLO
    case Bound(_) => false
    case Told(m) =>
      if IsRelayed(m.ftype) then
        s.Next? && m == Padded(Heard(r, s)) && IsRelayed(Heard(r, s).ftype) && r.obj[s.c].partner == Some(x)
      else if m == PEER_LEFT then
        && s.c in r.live && s.c in r.obj && r.obj[s.c].partner == Some(x)
        && (s.Next? ==> Heard(r, s).ftype == T_HELLO || Heard(r, s).ftype == T_BYE)
      else
        && s.Next? && s.c == x && (Heard(r, s).ftype == T_LIST || Heard(r, s).ftype == T_PING)
        && (m.ftype == T_LOBBY || m.ftype == T_PONG)
  }

  lemma PairNoteStarts(cfg: Config, r: State, c: Id, seed: nat, x: Id)
    requires Sane(r) && c in r.obj && c in r.live && Idle(r, c) && x in r.obj
    requires PairNote(cfg, r, c, seed, x).Started?
    ensures var n := PairNote(cfg, r, c, seed, x); var o := n.opponent;
      && x in r.live && o in r.live && o != x && o in r.obj && r.obj[x].partner.None?
      && PairNote(cfg, r, c, seed, o).Started? && PairNote(cfg, r, c, seed, o).opponent == x
      && SameStart(n.m, PairNote(cfg, r, c, seed, o).m)
  {
    hide Ljust, Shown;
  }

  lemma HelloStarts(cfg: Config, r: State, c: Id, payload: seq<u8>, luck: Luck, x: Id)
    requires Sane(r) && c in r.obj && c in r.live && r.obj[c].partner.None? && x in r.obj
    requires HelloNote(cfg, r, c, payload, luck, x).Started?
    ensures var n := HelloNote(cfg, r, c, payload, luck, x); var o := n.opponent;
      && x in r.live && o in r.live && o != x && o in r.obj && r.obj[x].partner.None?
      && HelloNote(cfg, r, c, payload, luck, o).Started? && HelloNote(cfg, r, c, payload, luck, o).opponent == x
      && SameStart(n.m, HelloNote(cfg, r, c, payload, luck, o).m)
  {
    hide PairNote, FreeName, Strip, Upper, GoodName, SameStart;
    var name := Upper(Strip(payload[2..]));
    var r1 := Update(r, c, r.obj[c].(tv := Some(payload[1])));
    UpdateKeeps(r, c, r1.obj[c]);
    var free := FreeName(name, r.names, luck.digits);
    UpdateKeeps(r1, c, r1.obj[c].(name := free));
    PairNoteStarts(cfg, Claim(r1, c, free.value), c, luck.seed, x);
  }

  lemma StartedMeans(cfg: Config, r: State, s: Step, x: Id)
    requires Sane(r) && Matched(r) && Possible(r, s) && Polite(r, s) && x in r.obj
    requires StepNote(cfg, r, s, x).Started?
    ensures StartsBoth(cfg, r, s, x, StepNote(cfg, r, s, x)) && Caused(r, s, x, StepNote(cfg, r, s, x))
  {
    hide HelloNote, PairNote, SameStart, Front, Padded;
    var c := s.c;
    DropNoteNeverStarts(cfg, r, s, x);
    PoppedSane(r, c);
    assert r.obj[c].partner.None?;
    HelloStarts(cfg, Popped(r, c), c, Heard(r, s).payload, s.luck, x);
  }

  lemma DropNoteNeverStarts(cfg: Config, r: State, s: Step, x: Id)
    requires Sane(r) && Possible(r, s) && x in r.obj && StepNote(cfg, r, s, x).Started?
    ensures s.Next?
  {
    hide NoteOf;
  }

  lemma NoteCause(cfg: Config, r: State, s: Step, x: Id)
    requires Sane(r) && Matched(r) && Possible(r, s) && Polite(r, s) && x in r.obj
    ensures Caused(r, s, x, StepNote(cfg, r, s, x))
  {
    if StepNote(cfg, r, s, x).Started? {
      StartedMeans(cfg, r, s, x);
    } else if s.Next? {
      hide Front, FirstNamed, Entries, PairNote, FreeName, Strip, Upper, GoodName;
      PaddedKeepsType(Heard(r, s));
    }
  }

  // -------------------------------------------------------------- who is left

  /** No client comes back, and one whose partner is told it left has left. */
  ghost predicate LiveShrinks(r: State, r': State, c: Id, x: Id, n: Note) {
    && (forall y :: y in r.obj && y in r'.live ==> y in r.live)
    && (n == Told(PEER_LEFT) ==> c !in r'.live)
  }

  lemma HelloLive(cfg: Config, r: State, c: Id, payload: seq<u8>, luck: Luck, x: Id)
    requires Sane(r) && c in r.obj && x in r.obj
    ensures LiveShrinks(r, OnHello(cfg, r, c, payload, luck), c, x, HelloNote(cfg, r, c, payload, luck, x))
  {
    hide Drop, FreeName, Strip, Upper, GoodName, TryPair, FrameBytes, StartMsg, Obeys;
    DropObeys(r, c, x);
    if |payload| >= 3 {
      var r1 := Update(r, c, r.obj[c].(tv := Some(payload[1])));
      UpdateKeeps(r, c, r1.obj[c]);
      DropObeys(r1, c, x);
      var free := FreeName(Upper(Strip(payload[2..])), r.names, luck.digits);
      if free.Some? {
        UpdateKeeps(r1, c, r1.obj[c].(name := free));
        TryPairObeys(cfg, Claim(r1, c, free.value), c, luck.seed, x);
      }
    }
  }

  lemma HandleLive(cfg: Config, r: State, c: Id, m: Msg, luck: Luck, x: Id)
    requires Sane(r) && c in r.obj && x in r.obj
    ensures LiveShrinks(r, Handle(cfg, r, c, m, luck), c, x, NoteOf(cfg, r, c, m, luck, x))
  {
    hide Drop, OnHello, TryPair, Forward, LogCrc, FrameBytes, HelloNote, FirstNamed, Entries, Padded, StartMsg, Obeys;
    if IsRelayed(m.ftype) {
      RelayedLinks(r, c, m);
      PaddedKeepsType(m);
    } else if m.ftype == T_HELLO {
      HelloLive(cfg, r, c, m.payload, luck, x);
    } else if m.ftype == T_JOIN {
      TryPairObeys(cfg, r, c, luck.seed, x);
    } else if m.ftype == T_BYE {
      DropObeys(r, c, x);
    }
  }

  lemma StepLive(cfg: Config, r: State, s: Step, x: Id)
    requires Sane(r) && Possible(r, s) && x in r.obj
    ensures LiveShrinks(r, Do(cfg, r, s), s.c, x, StepNote(cfg, r, s, x))
  {
    hide Drop, Handle, NoteOf, Obeys, Front, FrameBytes;
    match s
    case Arrive(c, ip, now) =>
    case Chunk(c, data) =>
    case Next(c, luck) =>
      PoppedSane(r, c);
      HandleLive(cfg, Popped(r, c), c, Heard(r, s), luck, x);
    case Garbled(c) => DropObeys(r.(stats := r.stats.(badFrames := r.stats.badFrames + 1)), c, x);
    case Lost(c) => DropObeys(r, c, x);
    case Flushed(c, sent) =>
      UpdateKeeps(r, c, Cut(r, c, sent).obj[c]);
      DropObeys(r, c, x);
      DropObeys(Cut(r, c, sent).(stats := r.stats.(txDrops := r.stats.txDrops + 1)), c, x);
    case Expired(c) => DropObeys(r.(stats := r.stats.(helloTimeouts := r.stats.helloTimeouts + 1)), c, x);
  }

  // -------------------------------------------------------------- links

  function ToldBy(n: Note): seq<Msg> {
    if n.Told? then [n.m] else []
  }

  lemma TraceStep(cfg: Config, t: Trace, s: Step, y: Id)
    requires Sane(t.r) && Possible(t.r, s) && t.h.Keys == t.r.obj.Keys
    requires y in t.r.obj
    ensures var t' := TDo(cfg, t, s); var n := StepNote(cfg, t.r, s, y);
      && t'.r == Do(cfg, t.r, s) && y in t'.r.obj && y in t'.h && t'.h[y] == Hist1(cfg, t, s, y)
      && (!n.Started? ==> Grew(t.h[y], t'.h[y], FramesIn(t.r, s, y), ToldBy(n)))
      && (n.Started? ==>
            && t'.h[y].ex == Some(n.opponent) && t'.h[y].start == n.m && t'.h[y].said == []
            && t'.h[y].from == |t'.h[y].frames|)
  {
    StepFlows(cfg, t.r, s, y);
    hide Do, StepNote, Flows, FrameBytes, Encode;
  }

  /** The opponent's side of a link that is not being started. */
  lemma OpponentStep(cfg: Config, t: Trace, s: Step, x: Id)
    requires Conforming(t) && Possible(t.r, s) && Polite(t.r, s)
    requires x in t.r.live && !StepNote(cfg, t.r, s, x).Started? && t.h[x].ex.Some?
    ensures var a := t.h[x].ex.value;
      && a in t.r.obj && a in t.h && !StepNote(cfg, t.r, s, a).Started?
      && (a !in t.r.live ==> !(s.Next? && s.c == a))
  {
    var a := t.h[x].ex.value;
    assert Linked(t, x);
    if StepNote(cfg, t.r, s, a).Started? {
      StartedMeans(cfg, t.r, s, a);
      assert false;
    }
  }

  lemma LinkStep(cfg: Config, t: Trace, s: Step, x: Id)
    requires Conforming(t) && Possible(t.r, s) && Polite(t.r, s)
    requires x in t.r.obj && x in TDo(cfg, t, s).r.live
    ensures x in TDo(cfg, t, s).r.obj && x in TDo(cfg, t, s).h && Linked(TDo(cfg, t, s), x)
  {
    var t' := TDo(cfg, t, s);
    var n := StepNote(cfg, t.r, s, x);
    hide StepNote, Do, FramesIn, Grew, Flows, StartsBoth, Caused, LiveShrinks;
    StepLive(cfg, t.r, s, x);
    LiveBefore(t.r, t'.r, s.c, x, n);
    TraceStep(cfg, t, s, x);
    StepFlows(cfg, t.r, s, x);
    NeverBound(cfg, t.r, s, x);
    if n.Started? {
      StartStep(cfg, t, s, x);
    } else if n.Told? && (IsRelayed(n.m.ftype) || n.m == PEER_LEFT) {
      PartnerStep(cfg, t, s, x);
    } else {
      OwnStep(cfg, t, s, x);
    }
  }

  lemma LiveBefore(r: State, r': State, c: Id, x: Id, n: Note)
    requires LiveShrinks(r, r', c, x, n) && x in r.obj && x in r'.live
    ensures x in r.live
  {
  }

  lemma StartStep(cfg: Config, t: Trace, s: Step, x: Id)
    requires Conforming(t) && Possible(t.r, s) && Polite(t.r, s)
    requires x in t.r.live && StepNote(cfg, t.r, s, x).Started?
    ensures x in TDo(cfg, t, s).r.obj && x in TDo(cfg, t, s).h && Linked(TDo(cfg, t, s), x)
  {
    hide Do, StepNote, Matched, Piped, SameStart;
    StartedMeans(cfg, t.r, s, x);
    var o := StepNote(cfg, t.r, s, x).opponent;
    assert t.h.Keys == t.r.obj.Keys by { PipedKeys(t); }
    TraceStep(cfg, t, s, x);
    TraceStep(cfg, t, s, o);
    StepFlows(cfg, t.r, s, x);
    StartLinked(TDo(cfg, t, s), x, o);
  }

  lemma PipedKeys(t: Trace)
    requires Piped(t)
    ensures t.h.Keys == t.r.obj.Keys
  {
  }

  /** The two ends of a link when one of them is told something by the other's doing. */
  lemma PartnerFacts(cfg: Config, t: Trace, s: Step, x: Id)
    requires Conforming(t) && Possible(t.r, s) && Polite(t.r, s) && x in t.r.live
    requires var n := StepNote(cfg, t.r, s, x); n.Told? && (IsRelayed(n.m.ftype) || n.m == PEER_LEFT)
    ensures var c := s.c;
      && Caused(t.r, s, x, StepNote(cfg, t.r, s, x))
      && t.h.Keys == t.r.obj.Keys && c != x
      && x in t.r.obj && Linked(t, x) && Accounted(t.r.obj[x], t.h[x])
      && c in t.r.obj && Accounted(t.r.obj[c], t.h[c]) && t.r.obj[x].partner == Some(c)
      && !StepNote(cfg, t.r, s, c).Started? && Caused(t.r, s, c, StepNote(cfg, t.r, s, c))
      && t.r.obj[c].partner != Some(c)
  {
    hide StepNote, Padded, SameStart, Front, Accounted, Relayed;
    var c := s.c;
    NoteCause(cfg, t.r, s, x);
    assert t.r.obj[x].partner == Some(c);
    assert Linked(t, x) && Accounted(t.r.obj[x], t.h[x]) && Accounted(t.r.obj[c], t.h[c]);
    assert t.h[x].ex == Some(c);
    OpponentStep(cfg, t, s, x);
    NoteCause(cfg, t.r, s, c);
  }

  lemma PartnerStep(cfg: Config, t: Trace, s: Step, x: Id)
    requires Conforming(t) && Possible(t.r, s) && Polite(t.r, s) && x in t.r.live
    requires var n := StepNote(cfg, t.r, s, x); n.Told? && (IsRelayed(n.m.ftype) || n.m == PEER_LEFT)
    ensures x in TDo(cfg, t, s).r.obj && x in TDo(cfg, t, s).h && Linked(TDo(cfg, t, s), x)
  {
    hide Do, StepNote, Padded, Front, Linked, Grew, TDo, Polite, Relayed, Matched, Piped, Sane, SameStart;
    var c, t' := s.c, TDo(cfg, t, s);
    PartnerFacts(cfg, t, s, x);
    TraceStep(cfg, t, s, x);
    TraceStep(cfg, t, s, c);
    StepFlows(cfg, t.r, s, x);
    StepLive(cfg, t.r, s, x);
    var n := StepNote(cfg, t.r, s, x);
    assert ToldBy(StepNote(cfg, t.r, s, c)) == [] && FramesIn(t.r, s, x) == [];
    if IsRelayed(n.m.ftype) {
      ForwardLinked(t, t', x, c, Heard(t.r, s));
    } else {
      LeftLinked(t, t', x, c, FramesIn(t.r, s, c));
    }
  }

  lemma OwnStep(cfg: Config, t: Trace, s: Step, x: Id)
    requires Conforming(t) && Possible(t.r, s) && Polite(t.r, s) && x in t.r.live
    requires var n := StepNote(cfg, t.r, s, x); n.Quiet? || (n.Told? && !IsRelayed(n.m.ftype) && n.m != PEER_LEFT)
    ensures x in TDo(cfg, t, s).r.obj && x in TDo(cfg, t, s).h && Linked(TDo(cfg, t, s), x)
  {
    hide Do, StepNote, Padded, SameStart, Front;
    var t' := TDo(cfg, t, s);
    var n := StepNote(cfg, t.r, s, x);
    NoteCause(cfg, t.r, s, x);
    assert Linked(t, x) && Accounted(t.r.obj[x], t.h[x]);
    TraceStep(cfg, t, s, x);
    StepFlows(cfg, t.r, s, x);
    if t.h[x].ex.Some? {
      var a := t.h[x].ex.value;
      OpponentStep(cfg, t, s, x);
      TraceStep(cfg, t, s, a);
      StepLive(cfg, t.r, s, x);
      assert Accounted(t.r.obj[a], t.h[a]);
      GrewPlayed(t.h[a], t'.h[a], FramesIn(t.r, s, a), ToldBy(StepNote(cfg, t.r, s, a)));
      assert Played(t'.h[a]) == Played(t.h[a]);
    }
    StaysLinked(t, t', x, FramesIn(t.r, s, x), ToldBy(n));
  }
}
