/** The relay as a lossless pipe, over whole runs. */
module Pipe {
  import opened Bytes
  import opened Framing
  import opened Verdicts
  import opened Relay
  import opened RelayRuns
  import opened Fifo
  import opened FifoProofs

  // -------------------------------------------------------------- runs with history

  ghost predicate TraceRun(cfg: Config, t: Trace, ss: seq<Step>)
    decreases |ss|
  {
    && Sane(t.r)
    && (ss == [] ||
        (Possible(t.r, ss[0]) && Polite(t.r, ss[0]) && TraceRun(cfg, TDo(cfg, t, ss[0]), ss[1..])))
  }

  ghost function TraceAfter(cfg: Config, t: Trace, ss: seq<Step>): Trace
    requires TraceRun(cfg, t, ss)
    decreases |ss|
  {
    if ss == [] then t else TraceAfter(cfg, TDo(cfg, t, ss[0]), ss[1..])
  }

  const START_TRACE := Trace(EMPTY, map[])

  /** A state conforming consoles can bring the relay to, with its history. */
  ghost predicate Arises(cfg: Config, t: Trace) {
    exists ss :: TraceRun(cfg, START_TRACE, ss) && t == TraceAfter(cfg, START_TRACE, ss)
  }

  lemma OnlyArrivalsAreNew(cfg: Config, r: State, s: Step, x: Id)
    requires Sane(r) && Possible(r, s) && x !in r.obj && x in Do(cfg, r, s).obj
    ensures s.Arrive? && s.c == x
  {
    hide Handle, Drop, Front, Sane;
    match s
    case Arrive(c, ip, now) =>
    case Chunk(c, data) =>
    case Next(c, luck) =>
      PoppedSane(r, c);
      HandleKeeps(cfg, Popped(r, c), c, Heard(r, s), luck);
    case Garbled(c) =>
      CountingKeeps(r, r.stats.(badFrames := r.stats.badFrames + 1));
      DropKeeps(r.(stats := r.stats.(badFrames := r.stats.badFrames + 1)), c);
    case Lost(c) => DropKeeps(r, c);
    case Flushed(c, sent) => FlushKeeps(r, c, sent);
    case Expired(c) =>
      CountingKeeps(r, r.stats.(helloTimeouts := r.stats.helloTimeouts + 1));
      DropKeeps(r.(stats := r.stats.(helloTimeouts := r.stats.helloTimeouts + 1)), c);
  }

  lemma NewcomerLinked(cfg: Config, t: Trace, s: Step, x: Id)
    requires Conforming(t) && Possible(t.r, s) && x !in t.r.obj && x in TDo(cfg, t, s).r.obj
    ensures x in TDo(cfg, t, s).h && Accounted(TDo(cfg, t, s).r.obj[x], TDo(cfg, t, s).h[x])
      && Linked(TDo(cfg, t, s), x)
  {
    OnlyArrivalsAreNew(cfg, t.r, s, x);
    hide StepNote, Matched, Piped, SameIp;
  }

  lemma AccountedKept(cfg: Config, t: Trace, s: Step, x: Id)
    requires Conforming(t) && Possible(t.r, s) && x in t.r.obj
    ensures var t' := TDo(cfg, t, s); x in t'.r.obj && x in t'.h && Accounted(t'.r.obj[x], t'.h[x])
  {
    hide Accounted, Do, StepNote, Matched, Linked, Sane;
    StepFlows(cfg, t.r, s, x);
    TraceStep(cfg, t, s, x);
    AccountedStep(t.r, Do(cfg, t.r, s), s, x, t.h[x], TDo(cfg, t, s).h[x], StepNote(cfg, t.r, s, x));
  }

  lemma StepConforms(cfg: Config, t: Trace, s: Step)
    requires Conforming(t) && Possible(t.r, s) && Polite(t.r, s)
    ensures Conforming(TDo(cfg, t, s))
  {
    hide Accounted, Do, StepNote, Matched, Linked, Sane, Piped, Hist1, Polite, Possible;
    var t' := TDo(cfg, t, s);
    DoSane(cfg, t.r, s);
    DoKeeps(cfg, t.r, s);
    forall x | x in t'.r.obj ensures Accounted(t'.r.obj[x], t'.h[x]) {
      if x in t.r.obj {
        AccountedKept(cfg, t, s, x);
      } else {
        NewcomerLinked(cfg, t, s, x);
      }
    }
    forall x | x in t'.r.live && x in t'.r.obj ensures Linked(t', x) {
      if x in t.r.obj {
        LinkStep(cfg, t, s, x);
      } else {
        NewcomerLinked(cfg, t, s, x);
      }
    }
    PipedMeans(t');
  }

  lemma PipedMeans(t: Trace)
    requires t.h.Keys == t.r.obj.Keys
    requires forall x :: x in t.r.obj ==> Accounted(t.r.obj[x], t.h[x])
    requires forall x :: x in t.r.live && x in t.r.obj ==> Linked(t, x)
    ensures Piped(t)
  {
  }

  lemma {:induction false} RunConforms(cfg: Config, t: Trace, ss: seq<Step>)
    requires Conforming(t) && TraceRun(cfg, t, ss)
    ensures Conforming(TraceAfter(cfg, t, ss))
    decreases |ss|
  {
    hide Conforming, TDo, Possible, Polite, Sane;
    if ss != [] {
      StepConforms(cfg, t, ss[0]);
      RunConforms(cfg, TDo(cfg, t, ss[0]), ss[1..]);
    }
  }

  lemma ArisesConforms(cfg: Config, t: Trace)
    requires Arises(cfg, t)
    ensures Conforming(t)
  {
    var ss :| TraceRun(cfg, START_TRACE, ss) && t == TraceAfter(cfg, START_TRACE, ss);
    RunConforms(cfg, START_TRACE, ss);
  }

  // -------------------------------------------------------------- the pipe

  lemma GameAfter(ms: seq<Msg>)
    requires OnlyGame(ms) && NoFarewell(ms) && Relayed(ms) == []
    ensures ms == []
  {
  }

  lemma {:induction false} OnlyGameIsRelayed(ms: seq<Msg>)
    requires OnlyGame(ms)
    ensures NoFarewell(ms) ==> Relayed(ms) == ms
    ensures Farewell(ms) ==> ms == Relayed(ms) + [PEER_LEFT]
    decreases |ms|
  {
    if ms != [] {
      var head, m := ms[..|ms| - 1], ms[|ms| - 1];
      assert ms == head + [m];
      OnlyGameIsRelayed(head);
      if Farewell(ms) {
        var k :| 0 <= k < |ms| && ms[k] == PEER_LEFT && NoFarewell(ms[..k]) && NoFarewell(ms[k + 1..])
            && Relayed(ms[k + 1..]) == [];
        GameAfter(ms[k + 1..]);
        assert k == |head|;
        assert ms[..k] == head;
      }
    }
  }

  function Goodbye(x: Client): seq<u8> {
    if x.partner.None? then PeerLeftBytes() else []
  }

  /** LOSSLESS FIFO. Take any state that conforming consoles can bring the relay to, over
      any chunking of what they send and any partial sends, and a live console that has
      been paired and asks for nothing while it plays. Everything it has been sent since
      START, with what still waits, is its partner's game frames, each of them, in order,
      padded to eight bytes, and then one PEER_LEFT exactly when the partner is gone. */
  lemma RelayIsFifo(cfg: Config, t: Trace, x: Id)
    requires Arises(cfg, t) && x in t.r.live
    ensures x in t.r.obj && x in t.h
    ensures t.h[x].ex.Some? && AsksNothing(InPlay(t.h[x])) ==>
      var a := t.h[x].ex.value;
      && a in t.h && a != x
      && t.h[x].out + t.r.obj[x].tx == t.h[x].pre + Encode(PaddedAll(Played(t.h[a]))) + Goodbye(t.r.obj[x])
      && (t.r.obj[x].partner.None? <==> a !in t.r.live)
  {
    hide Relayed, SameStart, OnlyGame, Farewell, NoFarewell, Matched;
    ArisesConforms(cfg, t);
    assert x in t.r.obj && x in t.h && Accounted(t.r.obj[x], t.h[x]) && Linked(t, x);
    var h := t.h[x];
    if h.ex.Some? && AsksNothing(InPlay(h)) {
      var a := h.ex.value;
      OnlyGameIsRelayed(h.said);
      var game := PaddedAll(Played(t.h[a]));
      if t.r.obj[x].partner.None? {
        EncodeMore(game, [PEER_LEFT]);
        assert Encode([PEER_LEFT]) == FrameBytes(PEER_LEFT) + Encode([]);
        Regroup(h.pre, Encode(game), PeerLeftBytes());
      } else {
        StillHere(t, x, a);
      }
    }
  }

  lemma StillHere(t: Trace, x: Id, a: Id)
    requires Sane(t.r) && Matched(t.r) && x in t.r.live && x in t.r.obj && t.r.obj[x].partner == Some(a)
    ensures a in t.r.live
  {
  }

  /** So what a socket has taken since START is a prefix of that. */
  lemma ReceivedIsPrefix(cfg: Config, t: Trace, x: Id)
    requires Arises(cfg, t) && x in t.r.live && x in t.r.obj && x in t.h
    requires t.h[x].ex.Some? && AsksNothing(InPlay(t.h[x])) && |t.h[x].pre| <= |t.h[x].out|
    ensures var a := t.h[x].ex.value;
      && a in t.h
      && t.h[x].out[|t.h[x].pre|..] <= Encode(PaddedAll(Played(t.h[a]))) + Goodbye(t.r.obj[x])
  {
    hide Arises, Encode, PaddedAll, Played, InPlay, Goodbye;
    RelayIsFifo(cfg, t, x);
    var a := t.h[x].ex.value;
    var rest := Encode(PaddedAll(Played(t.h[a]))) + Goodbye(t.r.obj[x]);
    Regroup(t.h[x].pre, Encode(PaddedAll(Played(t.h[a]))), Goodbye(t.r.obj[x]));
    PrefixOfRest(t.h[x].out, t.r.obj[x].tx, t.h[x].pre, rest);
  }

  lemma PrefixOfRest(out: seq<u8>, tx: seq<u8>, pre: seq<u8>, rest: seq<u8>)
    requires out + tx == pre + rest && |pre| <= |out|
    ensures out[|pre|..] <= rest
  {
    assert (out + tx)[|pre|..|out|] == out[|pre|..];
    assert (pre + rest)[|pre|..|out|] == rest[..|out| - |pre|];
  }

  /** Whole records: a relayed type and a six-byte payload. */
  predicate Records(ms: seq<Msg>) {
    forall i :: 0 <= i < |ms| ==> IsRelayed(ms[i].ftype) && |ms[i].payload| == GAME_PAYLOAD
  }

  lemma {:induction false} RecordsPassUnchanged(ms: seq<Msg>)
    requires Records(ms)
    ensures PaddedAll(Relayed(ms)) == ms
    decreases |ms|
  {
    if ms != [] {
      var head, m := ms[..|ms| - 1], ms[|ms| - 1];
      RecordsPassUnchanged(head);
      RelayedMore(head, m);
      RelayedMore(Relayed(head), m);
      PaddedKeepsType(m);
      hide Relayed, PaddedAll, Padded;
      assert ms == head + [m];
    }
  }

  /** Byte for byte: while the partner sends nothing but eight-byte records, what one
      console has been sent since its START is what the other has sent since its own. */
  lemma RecordsArriveAsSent(cfg: Config, t: Trace, x: Id)
    requires Arises(cfg, t) && x in t.r.live && x in t.r.obj && x in t.h && t.h[x].ex.Some?
    requires AsksNothing(InPlay(t.h[x]))
    requires t.h[x].ex.value in t.h ==> Records(InPlay(t.h[t.h[x].ex.value]))
    ensures var a := t.h[x].ex.value;
      && a in t.h && a in t.r.obj
      && t.h[x].out + t.r.obj[x].tx == t.h[x].pre + Encode(InPlay(t.h[a])) + Goodbye(t.r.obj[x])
      && t.h[a].inb == Encode(t.h[a].frames[..|t.h[a].frames| - |InPlay(t.h[a])|]) + Encode(InPlay(t.h[a]))
          + t.r.obj[a].rx
  {
    ArisesConforms(cfg, t);
    var a := t.h[x].ex.value;
    assert Linked(t, x);
    assert Accounted(t.r.obj[a], t.h[a]);
    var h := t.h[a];
    assert h.from <= |h.frames|;
    assert h.frames == h.frames[..h.from] + InPlay(h);
    EncodeMore(h.frames[..h.from], InPlay(h));
    hide Arises, Conforming, Accounted, Linked, Encode;
    RelayIsFifo(cfg, t, x);
    RecordsPassUnchanged(InPlay(t.h[a]));
  }

  /** ONE MATCH, ONE SEED. Partners were told complementary roles and the same seed, delay
      and variation, in the last bytes of what preceded the match. */
  lemma PartnersShareTheStart(cfg: Config, t: Trace, x: Id)
    requires Arises(cfg, t) && x in t.r.live && x in t.r.obj && x in t.h && t.r.obj[x].partner.Some?
    ensures var p := t.r.obj[x].partner.value;
      && p in t.h && t.h[x].ex == Some(p) && t.h[p].ex == Some(x) && SameStart(t.h[x].start, t.h[p].start)
      && (exists head :: t.h[x].pre == head + FrameBytes(t.h[x].start))
  {
    hide Relayed, PaddedAll, SameStart, OnlyGame, Encode, FrameBytes;
    ArisesConforms(cfg, t);
    assert Linked(t, x);
    var p := t.r.obj[x].partner.value;
    assert Linked(t, p);
    assert Accounted(t.r.obj[x], t.h[x]);
  }
}
