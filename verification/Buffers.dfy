/** How much the relay can be made to say before it next tries to send: the bound behind
    the C relay's fixed transmit buffer. */
module Buffers {
  import opened Bytes
  import opened Framing
  import opened Verdicts
  import opened Relay
  import opened RelayRuns
  import opened Fifo
  import opened FifoProofs
  import CTables

  /** The length of a frame on the wire. */
  function Size(m: Msg): nat {
    |FrameBytes(m)|
  }

  /** Whether a step makes the relay tell `x` anything. */
  predicate Tells(cfg: Config, r: State, s: Step, x: Id)
    requires Sane(r) && Possible(r, s)
  {
    !StepNote(cfg, r, s, x).Quiet?
  }

  /** Twice what each byte another sends may add to a client's buffer: 8 in conforming
      traffic, 15 in any, where a JOIN of two bytes is answered by a START. */
  predicate Rate(rate: nat, polite: bool) {
    rate == 15 || (rate == 8 && polite)
  }

  /** Twice what a step may add to `x`'s buffer: 75 for a byte of its own, `rate` for one of
      another's, 16 for a departure no frame announced. */
  function Charge(cfg: Config, r: State, s: Step, x: Id, rate: nat): int
    requires Sane(r) && Possible(r, s)
  {
    if !Tells(cfg, r, s, x) then 0
    else if !s.Next? then 16
    else if s.c == x then 75 * Size(Heard(r, s))
    else rate * Size(Heard(r, s))
  }

  lemma LobbySize(r: State)
    ensures Size(LobbyMsg(r)) <= 75
  {
  }

  lemma HelloCharge(cfg: Config, r: State, c: Id, m: Msg, luck: Luck, x: Id)
    requires Sane(r) && c in r.obj && x in r.obj && m.ftype == T_HELLO
    ensures 2 * |NoteBytes(HelloNote(cfg, r, c, m.payload, luck, x))| <= 8 * Size(m)
  {
    hide GoodName, Upper, Strip, FreeName, Others, Oldest;
  }

  lemma FrameCharge(cfg: Config, r: State, c: Id, m: Msg, luck: Luck, x: Id)
    requires Sane(r) && c in r.obj && x in r.obj
    ensures 2 * |NoteBytes(NoteOf(cfg, r, c, m, luck, x))| <= if c == x then 75 * Size(m) else 15 * Size(m)
    ensures m.ftype != T_JOIN && c != x ==> 2 * |NoteBytes(NoteOf(cfg, r, c, m, luck, x))| <= 8 * Size(m)
  {
    hide HelloNote, FirstNamed, Entries, Others, Oldest;
    if m.ftype == T_HELLO {
      HelloCharge(cfg, r, c, m, luck, x);
    } else if m.ftype == T_LIST {
      LobbySize(r);
    }
  }

  lemma StepCharge(cfg: Config, r: State, s: Step, x: Id, rate: nat)
    requires Sane(r) && Possible(r, s) && Rate(rate, Polite(r, s)) && x in r.obj
    ensures 2 * |NoteBytes(StepNote(cfg, r, s, x))| <= Charge(cfg, r, s, x, rate)
  {
    hide NoteOf, Front;
    if s.Next? {
      PoppedSane(r, s.c);
      FrameCharge(cfg, Popped(r, s.c), s.c, Heard(r, s), s.luck, x);
    }
  }

  // -------------------------------------------------------------- over an iteration

  /** The frame bytes taken from `c`, the bytes received from it, and the departures `x`
      is told of without a frame, over some steps. */
  ghost function Eaten(cfg: Config, r: State, ss: seq<Step>, c: Id): nat
    requires Run(cfg, r, ss)
    decreases |ss|
  {
    if ss == [] then 0
    else (if ss[0].Next? && ss[0].c == c then Size(Heard(r, ss[0])) else 0) + Eaten(cfg, Do(cfg, r, ss[0]), ss[1..], c)
  }

  function Received(ss: seq<Step>, c: Id): nat {
    if ss == [] then 0 else |BytesIn(ss[0], c)| + Received(ss[1..], c)
  }

  ghost function Departures(cfg: Config, r: State, ss: seq<Step>, x: Id): nat
    requires Run(cfg, r, ss)
    decreases |ss|
  {
    if ss == [] then 0
    else (if !ss[0].Next? && Tells(cfg, r, ss[0], x) then 1 else 0) + Departures(cfg, Do(cfg, r, ss[0]), ss[1..], x)
  }

  /** The frame bytes taken from everyone but `x` in frames that tell `x` something. */
  ghost function FromOthers(cfg: Config, r: State, ss: seq<Step>, x: Id): nat
    requires Run(cfg, r, ss)
    decreases |ss|
  {
    if ss == [] then 0
    else (if ss[0].Next? && ss[0].c != x && Tells(cfg, r, ss[0], x) then Size(Heard(r, ss[0])) else 0)
         + FromOthers(cfg, Do(cfg, r, ss[0]), ss[1..], x)
  }

  /** Everyone else who tells `x` anything, by a frame or by leaving, is among `ps`. */
  ghost predicate OnlyThese(cfg: Config, r: State, ss: seq<Step>, x: Id, ps: seq<Id>)
    requires Run(cfg, r, ss)
    decreases |ss|
  {
    ss == [] ||
    ((Tells(cfg, r, ss[0], x) ==> ss[0].c == x || ss[0].c in ps)
     && OnlyThese(cfg, Do(cfg, r, ss[0]), ss[1..], x, ps))
  }

  /** Every frame eaten was in the buffer or received since. */
  lemma {:induction false} EatenIsReceived(cfg: Config, r: State, ss: seq<Step>, c: Id)
    requires Run(cfg, r, ss) && c in r.obj
    ensures c in After(cfg, r, ss).obj
    ensures Eaten(cfg, r, ss, c) + |After(cfg, r, ss).obj[c].rx| == |r.obj[c].rx| + Received(ss, c)
    decreases |ss|
  {
    hide Do, FrameBytes, StepNote;
    if ss != [] {
      StepFlows(cfg, r, ss[0], c);
      EatenOnce(r, ss[0], c);
      EatenIsReceived(cfg, Do(cfg, r, ss[0]), ss[1..], c);
    }
  }

  lemma EatenOnce(r: State, s: Step, c: Id)
    requires Possible(r, s)
    ensures |Encode(FramesIn(r, s, c))| == if s.Next? && s.c == c then Size(Heard(r, s)) else 0
  {
    hide Front;
    if s.Next? && s.c == c {
      var m := Heard(r, s);
      assert Encode([m]) == FrameBytes(m) + Encode([]);
    }
  }

  /** TRANSMIT GROWTH. However the steps between two flushes interleave, and whoever sends,
      a client's buffer grows by at most 75/2 of its own frame bytes, 15/2 of everyone
      else's that told it something (four times, in conforming traffic), and eight bytes
      for a partner lost without a BYE. */
  lemma {:induction false} TxGrowth(cfg: Config, r: State, ss: seq<Step>, x: Id, rate: nat)
    requires Run(cfg, r, ss) && Rate(rate, PoliteRun(cfg, r, ss)) && x in r.obj
    ensures x in After(cfg, r, ss).obj
    ensures 2 * |After(cfg, r, ss).obj[x].tx| <=
      2 * |r.obj[x].tx| + 75 * Eaten(cfg, r, ss, x) + rate * FromOthers(cfg, r, ss, x) + 16 * Departures(cfg, r, ss, x)
    decreases |ss|
  {
    hide Do, FrameBytes, StepNote, Polite;
    if ss != [] {
      var s, r1 := ss[0], Do(cfg, r, ss[0]);
      StepFlows(cfg, r, s, x);
      StepCharge(cfg, r, s, x, rate);
      assert |r1.obj[x].tx| <= |r.obj[x].tx| + |NoteBytes(StepNote(cfg, r, s, x))|;
      TxGrowth(cfg, r1, ss[1..], x, rate);
      if s.Next? && s.c != x && Tells(cfg, r, s, x) {
        Distribute(rate, Size(Heard(r, s)), FromOthers(cfg, r1, ss[1..], x));
      }
    }
  }

  lemma Distribute(k: nat, a: nat, b: nat)
    ensures k * (a + b) == k * a + k * b
  {
  }

  // -------------------------------------------------------------- by how many others tell it

  ghost function EatenFrom(cfg: Config, r: State, ss: seq<Step>, ps: seq<Id>): nat
    requires Run(cfg, r, ss)
    decreases |ps|
  {
    if ps == [] then 0 else Eaten(cfg, r, ss, ps[0]) + EatenFrom(cfg, r, ss, ps[1..])
  }

  lemma {:induction false} EatenFromStep(cfg: Config, r: State, ss: seq<Step>, ps: seq<Id>)
    requires Run(cfg, r, ss) && ss != [] && NoRepeat(ps)
    ensures EatenFrom(cfg, r, ss, ps) ==
      (if ss[0].Next? && ss[0].c in ps then Size(Heard(r, ss[0])) else 0)
      + EatenFrom(cfg, Do(cfg, r, ss[0]), ss[1..], ps)
    decreases |ps|
  {
    hide Do, Run, FrameBytes;
    if ps != [] {
      WithoutTail(ps, ps[0]);
      EatenFromStep(cfg, r, ss, ps[1..]);
      EatenUnfolds(cfg, r, ss, ps[0]);
      assert Run(cfg, Do(cfg, r, ss[0]), ss[1..]) by { RunTail(cfg, r, ss); }
      assert ss[0].c in ps <==> ss[0].c == ps[0] || ss[0].c in ps[1..];
    } else {
      RunTail(cfg, r, ss);
    }
  }

  lemma RunTail(cfg: Config, r: State, ss: seq<Step>)
    requires Run(cfg, r, ss) && ss != []
    ensures Sane(r) && Possible(r, ss[0]) && Run(cfg, Do(cfg, r, ss[0]), ss[1..])
  {
  }

  lemma EatenUnfolds(cfg: Config, r: State, ss: seq<Step>, c: Id)
    requires Run(cfg, r, ss) && ss != []
    ensures Run(cfg, Do(cfg, r, ss[0]), ss[1..])
    ensures Eaten(cfg, r, ss, c) ==
      (if ss[0].Next? && ss[0].c == c then Size(Heard(r, ss[0])) else 0) + Eaten(cfg, Do(cfg, r, ss[0]), ss[1..], c)
  {
  }

  lemma {:induction false} OthersAreThese(cfg: Config, r: State, ss: seq<Step>, x: Id, ps: seq<Id>)
    requires Run(cfg, r, ss) && OnlyThese(cfg, r, ss, x, ps) && NoRepeat(ps)
    ensures FromOthers(cfg, r, ss, x) <= EatenFrom(cfg, r, ss, ps)
    decreases |ss|
  {
    hide Do, FrameBytes, Tells;
    if ss != [] {
      EatenFromStep(cfg, r, ss, ps);
      OthersAreThese(cfg, Do(cfg, r, ss[0]), ss[1..], x, ps);
    }
  }

  // -------------------------------------------------------------- nobody departs twice

  lemma DepartureIsLast(cfg: Config, r: State, s: Step, x: Id)
    requires Sane(r) && Possible(r, s) && !s.Next? && Tells(cfg, r, s, x)
    ensures s.c in r.live && s.c in r.obj && s.c !in Do(cfg, r, s).live && s.c in Do(cfg, r, s).obj
  {
    hide FrameBytes, Front;
    if s.Flushed? {
      UpdateKeeps(r, s.c, Cut(r, s.c, s.s).obj[s.c]);
    }
  }

  /** The departed never tell `x` that again, so each of `ps` counts once at most. */
  lemma {:induction false} DepartOnce(cfg: Config, r: State, ss: seq<Step>, x: Id, ps: seq<Id>, gone: set<Id>)
    requires Run(cfg, r, ss) && OnlyThese(cfg, r, ss, x, ps)
    requires forall g :: g in gone ==> g in r.obj && g !in r.live
    requires x in r.obj
    ensures Departures(cfg, r, ss, x) <= |Elems(ps) - gone|
    decreases |ss|
  {
    hide Do, Tells, StepNote;
    if ss != [] {
      var s, r1 := ss[0], Do(cfg, r, ss[0]);
      StepFlows(cfg, r, s, x);
      forall g | g in gone ensures g in r1.obj && g !in r1.live {
        StepFlows(cfg, r, s, g);
        StepLive(cfg, r, s, g);
      }
      if !s.Next? && Tells(cfg, r, s, x) {
        DepartureIsLast(cfg, r, s, x);
        DepartureOfAnother(cfg, r, s, x);
        var left := Elems(ps) - gone;
        assert left - {s.c} == Elems(ps) - (gone + {s.c});
        assert s.c in left;
        DepartOnce(cfg, r1, ss[1..], x, ps, gone + {s.c});
      } else {
        DepartOnce(cfg, r1, ss[1..], x, ps, gone);
      }
    }
  }

  lemma DepartureOfAnother(cfg: Config, r: State, s: Step, x: Id)
    requires Sane(r) && Possible(r, s) && !s.Next? && Tells(cfg, r, s, x)
    ensures s.c != x
  {
    hide Front;
  }

  ghost function Elems(ps: seq<Id>): set<Id> {
    set p | p in ps
  }

  lemma {:induction false} AsManyAs(ps: seq<Id>)
    ensures |Elems(ps)| <= |ps|
    decreases |ps|
  {
    if ps != [] {
      AsManyAs(ps[1..]);
      assert Elems(ps) == {ps[0]} + (set p | p in ps[1..]);
    }
  }

  // -------------------------------------------------------------- one turn of the loop

  /** At most 200 bytes left over and one receive of at most 4096. */
  ghost predicate OneReceive(r: State, ss: seq<Step>, c: Id) {
    c in r.obj && |r.obj[c].rx| <= MAX_BODY && Received(ss, c) <= RECV_SIZE
  }

  lemma {:induction false} TurnEaten(cfg: Config, r: State, ss: seq<Step>, ps: seq<Id>)
    requires Run(cfg, r, ss) && forall p :: p in ps ==> OneReceive(r, ss, p)
    ensures EatenFrom(cfg, r, ss, ps) <= (MAX_BODY + RECV_SIZE) * |ps|
    decreases |ps|
  {
    hide Run, Eaten, After, Received;
    if ps != [] {
      assert ps[0] in ps;
      EatenIsReceived(cfg, r, ss, ps[0]);
      TurnEaten(cfg, r, ss, ps[1..]);
    }
  }

  /** ONE TURN OF THE LOOP. A buffer that began within the backlog limit grows by no more
      than the client's own receive allows and, for each of the others that told it
      something, 17192 bytes in conforming traffic and 32228 in any; with two of them in the
      one, or one in the other, it is still below the C relay's capacity. */
  lemma TxInOneTurn(cfg: Config, r: State, ss: seq<Step>, x: Id, ps: seq<Id>)
    requires Run(cfg, r, ss) && OnlyThese(cfg, r, ss, x, ps) && NoRepeat(ps)
    requires OneReceive(r, ss, x) && |r.obj[x].tx| <= MAX_BACKLOG
    requires forall p :: p in ps ==> OneReceive(r, ss, p)
    ensures x in After(cfg, r, ss).obj
    ensures |After(cfg, r, ss).obj[x].tx| <= 226636 + 32228 * |ps|
    ensures PoliteRun(cfg, r, ss) ==> |After(cfg, r, ss).obj[x].tx| <= 226636 + 17192 * |ps|
    ensures |ps| <= (if PoliteRun(cfg, r, ss) then 2 else 1) ==> |After(cfg, r, ss).obj[x].tx| < CTables.TX_CAP
  {
    hide Run, After, Eaten, Departures, OnlyThese, Received, FromOthers, NoRepeat, PoliteRun;
    EatenIsReceived(cfg, r, ss, x);
    TxGrowth(cfg, r, ss, x, 15);
    if PoliteRun(cfg, r, ss) {
      TxGrowth(cfg, r, ss, x, 8);
    }
    OthersAreThese(cfg, r, ss, x, ps);
    TurnEaten(cfg, r, ss, ps);
    DepartOnce(cfg, r, ss, x, ps, {});
    AsManyAs(ps);
    assert Elems(ps) - {} == Elems(ps);
  }

  // -------------------------------------------------------------- when the two buffers agree

  /** What some steps tell `x`, piece by piece, as `client_send` is handed it. */
  ghost function ToldBytes(cfg: Config, r: State, ss: seq<Step>, x: Id): seq<seq<u8>>
    requires Run(cfg, r, ss)
    decreases |ss|
  {
    if ss == [] then []
    else [NoteBytes(StepNote(cfg, r, ss[0], x))] + ToldBytes(cfg, Do(cfg, r, ss[0]), ss[1..], x)
  }

  /** Nothing is sent on to `x` meanwhile. */
  ghost predicate Undrained(cfg: Config, r: State, ss: seq<Step>, x: Id)
    requires Run(cfg, r, ss) && x in r.obj
    decreases |ss|
  {
    ss == [] ||
    (BytesOut(r, ss[0], x) == [] && x in Do(cfg, r, ss[0]).obj && Undrained(cfg, Do(cfg, r, ss[0]), ss[1..], x))
  }

  /** What the C buffer can come to hold when it is handed all of that. */
  ghost predicate CSends(b: seq<u8>, told: seq<seq<u8>>, b': seq<u8>)
    decreases |told|
  {
    if told == [] then b' == b
    else if told[0] == [] then CSends(b, told[1..], b')
    else exists b1 :: CTables.CSent(b, told[0], b1) && CSends(b1, told[1..], b')
  }

  /** Once it counts as full it stays so. */
  lemma {:induction false} FullStaysFull(b: seq<u8>, told: seq<seq<u8>>, b': seq<u8>)
    requires CSends(b, told, b') && |b| <= CTables.TX_CAP
    ensures |b| <= |b'| <= CTables.TX_CAP
    decreases |told|
  {
    if told != [] {
      if told[0] == [] {
        FullStaysFull(b, told[1..], b');
      } else {
        var b1 :| CTables.CSent(b, told[0], b1) && CSends(b1, told[1..], b');
        FullStaysFull(b1, told[1..], b');
      }
    }
  }

  /** WHEN THE C BUFFER IS PYTHON'S. However the steps between two sends interleave, and
      whoever takes them: exactly when what Python holds fits the capacity. */
  lemma {:induction false} CapIsExact(cfg: Config, r: State, ss: seq<Step>, x: Id, b': seq<u8>)
    requires Run(cfg, r, ss) && x in r.obj && Undrained(cfg, r, ss, x)
    requires |r.obj[x].tx| <= CTables.TX_CAP && CSends(r.obj[x].tx, ToldBytes(cfg, r, ss, x), b')
    ensures x in After(cfg, r, ss).obj
    ensures b' == After(cfg, r, ss).obj[x].tx <==> |After(cfg, r, ss).obj[x].tx| <= CTables.TX_CAP
    decreases |ss|
  {
    hide Do, StepNote, BytesOut, NoteBytes;
    if ss != [] {
      var s, r1 := ss[0], Do(cfg, r, ss[0]);
      StepFlows(cfg, r, s, x);
      var told := NoteBytes(StepNote(cfg, r, s, x));
      assert [] + r1.obj[x].tx == r1.obj[x].tx;
      assert r1.obj[x].tx == r.obj[x].tx + told;
      assert ToldBytes(cfg, r, ss, x)[1..] == ToldBytes(cfg, r1, ss[1..], x);
      assert ToldBytes(cfg, r, ss, x)[0] == told;
      if |r1.obj[x].tx| <= CTables.TX_CAP {
        assert told == [] ==> r1.obj[x].tx == r.obj[x].tx;
        CapIsExact(cfg, r1, ss[1..], x, b');
      } else {
        var b1 :| CTables.CSent(r.obj[x].tx, told, b1) && CSends(b1, ToldBytes(cfg, r1, ss[1..], x), b');
        FullStaysFull(b1, ToldBytes(cfg, r1, ss[1..], x), b');
        OnlyGrows(cfg, r1, ss[1..], x);
      }
    }
  }

  lemma {:induction false} OnlyGrows(cfg: Config, r: State, ss: seq<Step>, x: Id)
    requires Run(cfg, r, ss) && x in r.obj && Undrained(cfg, r, ss, x)
    ensures x in After(cfg, r, ss).obj && |r.obj[x].tx| <= |After(cfg, r, ss).obj[x].tx|
    decreases |ss|
  {
    hide Do, StepNote, BytesOut, NoteBytes;
    if ss != [] {
      StepFlows(cfg, r, ss[0], x);
      OnlyGrows(cfg, Do(cfg, r, ss[0]), ss[1..], x);
    }
  }
}
