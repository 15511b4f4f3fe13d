/** The relay as a pipe: what reaches a console after START is what its partner sent. A
    trace keeps, beside the relay's state, the bytes and frames that have gone by. */
module Fifo {
  import opened Bytes
  import opened Framing
  import opened Verdicts
  import opened Relay
  import opened RelayRuns

  // -------------------------------------------------------------- history

  datatype Hist = Hist(
    inb: seq<u8>,             // every byte received from this client
    frames: seq<Msg>,         // every frame handled
    out: seq<u8>,             // every byte the socket has taken
    pre: seq<u8>,             // what it was told up to and including its last START
    start: Msg,               // that START
    said: seq<Msg>,           // what it has been told since
    from: nat,                // how many of its own frames were handled before that START
    ex: Option<Id>)           // whom it was paired with

  const NEW_HIST := Hist([], [], [], [], Msg(T_START, [0, 0, 0, 0, 0]), [], 0, None)

  datatype Trace = Trace(r: State, h: map<Id, Hist>)

  /** What one frame makes the relay tell client `x`. */
  datatype Note =
    | Quiet
    | Told(m: Msg)
    | Started(opponent: Id, m: Msg)
    | Bound(opponent: Id)               // linked, and the relay raised before it said so

  predicate Pairs(n: Note) {
    n.Started? || n.Bound?
  }

  function DropNote(r: State, c: Id, x: Id): Note
    requires c in r.obj
  {
    if c in r.live && r.obj[c].partner == Some(x) then Told(PEER_LEFT) else Quiet
  }

  function PairNote(cfg: Config, r: State, c: Id, seed: nat, x: Id): Note
    requires Sane(r) && c in r.obj
  {
    var others := Others(r, r.live, c);
    if others == [] then Quiet
    else
      var host := Oldest(r, others);
      if r.obj[c].name.None? then if x == c then Bound(host) else if x == host then Bound(c) else Quiet
      else if x == c then Started(host, StartMsg(cfg, 1, seed, Shown(r.obj[host])))
      else if x == host then Started(c, StartMsg(cfg, 0, seed, Shown(r.obj[c])))
      else Quiet
  }

  function HelloNote(cfg: Config, r: State, c: Id, payload: seq<u8>, luck: Luck, x: Id): Note
    requires Sane(r) && c in r.obj
  {
    if |payload| < 3 || payload[0] != PROTO || payload[1] > 1 || !GoodName(Upper(Strip(payload[2..]))) then
      DropNote(r, c, x)
    else
      var free := FreeName(Upper(Strip(payload[2..])), r.names, luck.digits);
      if free.None? then Quiet
      else PairNote(cfg, Claim(Update(r, c, r.obj[c].(tv := Some(payload[1]))), c, free.value), c, luck.seed, x)
  }

  function NoteOf(cfg: Config, r: State, c: Id, m: Msg, luck: Luck, x: Id): Note
    requires Sane(r) && c in r.obj
  {
    if IsRelayed(m.ftype) then if r.obj[c].partner == Some(x) then Told(Padded(m)) else Quiet
    else if m.ftype == T_HELLO then HelloNote(cfg, r, c, m.payload, luck, x)
    else if m.ftype == T_LIST then if x == c then Told(LobbyMsg(r)) else Quiet
    else if m.ftype == T_JOIN then PairNote(cfg, r, c, luck.seed, x)
    else if m.ftype == T_PING then if x == c then Told(Msg(T_PONG, [])) else Quiet
    else if m.ftype == T_BYE then DropNote(r, c, x)
    else Quiet
  }

  function Note1(h: Hist, n: Note): Hist {
    match n
    case Quiet => h
    case Bound(_) => h
    case Told(m) => h.(said := h.said + [m])
    case Started(o, m) =>
      h.(pre := h.pre + Encode(h.said) + FrameBytes(m), start := m, said := [], from := |h.frames|, ex := Some(o))
  }

  /** What a step makes the relay tell client `x`. */
  function StepNote(cfg: Config, r: State, s: Step, x: Id): Note
    requires Sane(r) && Possible(r, s)
  {
    match s
    case Arrive(_, _, _) => Quiet
    case Chunk(_, _) => Quiet
    case Next(c, luck) => PoppedSane(r, c); NoteOf(cfg, Popped(r, c), c, Front(r.obj[c].rx).m, luck, x)
    case Garbled(c) => DropNote(r, c, x)
    case Lost(c) => DropNote(r, c, x)
    case Flushed(c, sent) =>
      if r.obj[c].tx != [] && (sent.Broken? || |Cut(r, c, sent).obj[c].tx| > MAX_BACKLOG)
      then DropNote(r, c, x) else Quiet
    case Expired(c) => if r.obj[c].name.None? then DropNote(r, c, x) else Quiet
  }

  /** The bytes a step moves: in from client `x`, or out to it. */
  function BytesIn(s: Step, x: Id): seq<u8> {
    if s.Chunk? && s.c == x then s.data else []
  }

  function BytesOut(r: State, s: Step, x: Id): seq<u8>
    requires x in r.obj
  {
    if s.Flushed? && s.c == x && s.s.Took? && s.s.k <= |r.obj[x].tx| then r.obj[x].tx[..s.s.k] else []
  }

  function FramesIn(r: State, s: Step, x: Id): seq<Msg>
    requires Possible(r, s)
  {
    if s.Next? && s.c == x then [Front(r.obj[x].rx).m] else []
  }

  function Hist1(cfg: Config, t: Trace, s: Step, x: Id): Hist
    requires Sane(t.r) && Possible(t.r, s)
  {
    if x !in t.r.obj || x !in t.h then NEW_HIST
    else
      var h := t.h[x];
      Note1(h.(inb := h.inb + BytesIn(s, x), out := h.out + BytesOut(t.r, s, x),
          frames := h.frames + FramesIn(t.r, s, x)),
            StepNote(cfg, t.r, s, x))
  }

  function TDo(cfg: Config, t: Trace, s: Step): Trace
    requires Sane(t.r) && Possible(t.r, s)
  {
    var r' := Do(cfg, t.r, s);
    Trace(r', map x | x in r'.obj :: Hist1(cfg, t, s, x))
  }

  // -------------------------------------------------------------- the invariants

  /** Bytes are accounted for: all that came in is frames and a leftover; all that went
      out or waits is what the client was told. */
  ghost predicate Accounted(x: Client, h: Hist) {
    && h.inb == Encode(h.frames) + x.rx
    && h.out + x.tx == h.pre + Encode(h.said)
    && h.from <= |h.frames|
    && (h.ex.Some? ==> exists head :: h.pre == head + FrameBytes(h.start))
  }

  function Relayed(ms: seq<Msg>): seq<Msg> {
    if ms == [] then []
    else if IsRelayed(ms[|ms| - 1].ftype) then Relayed(ms[..|ms| - 1]) + [ms[|ms| - 1]]
    else Relayed(ms[..|ms| - 1])
  }

  function PaddedAll(ms: seq<Msg>): seq<Msg> {
    if ms == [] then [] else PaddedAll(ms[..|ms| - 1]) + [Padded(ms[|ms| - 1])]
  }

  /** What the relay has heard from this client in its match, and the game frames of it. */
  function InPlay(h: Hist): seq<Msg> {
    if h.from <= |h.frames| then h.frames[h.from..] else []
  }

  function Played(h: Hist): seq<Msg> {
    Relayed(InPlay(h))
  }

  /** A client that asks the relay for nothing while it plays. */
  ghost predicate AsksNothing(ms: seq<Msg>) {
    forall i :: 0 <= i < |ms| ==> ms[i].ftype != T_LIST && ms[i].ftype != T_PING
  }

  ghost predicate NoFarewell(ms: seq<Msg>) {
    forall i :: 0 <= i < |ms| ==> ms[i].ftype != T_PEER_LEFT
  }

  /** Exactly one PEER_LEFT, and no game frame after it. */
  ghost predicate Farewell(ms: seq<Msg>) {
    exists k :: 0 <= k < |ms| && ms[k] == PEER_LEFT && NoFarewell(ms[..k]) && NoFarewell(ms[k + 1..])
        && Relayed(ms[k + 1..]) == []
  }

  ghost predicate OnlyGame(ms: seq<Msg>) {
    forall i :: 0 <= i < |ms| ==> IsRelayed(ms[i].ftype) || ms[i] == PEER_LEFT
  }

  /** What a live client `x` has been told since START, against what its opponent said. */
  ghost predicate Linked(t: Trace, x: Id)
    requires x in t.r.obj && x in t.h
  {
    var h, p := t.h[x], t.r.obj[x].partner;
    && (AsksNothing(InPlay(h)) ==> OnlyGame(h.said))
    && (match h.ex
        case None => p.None?
        case Some(a) =>
          && a in t.r.obj && a in t.h && a != x
          && Relayed(h.said) == PaddedAll(Played(t.h[a]))
          && (p.Some? ==> p == Some(a) && NoFarewell(h.said) && SameStart(h.start, t.h[a].start))
          && (p.None? ==> a !in t.r.live && Farewell(h.said)))
  }

  /** The two STARTs of a match: roles 0 and 1, and the same seed, delay and variation. */
  predicate SameStart(a: Msg, b: Msg) {
    && a.ftype == T_START && b.ftype == T_START && |a.payload| == 13 && |b.payload| == 13
    && ((a.payload[0] == 0 && b.payload[0] == 1) || (a.payload[0] == 1 && b.payload[0] == 0))
    && a.payload[1..5] == b.payload[1..5]
  }

  ghost predicate Piped(t: Trace) {
    && t.h.Keys == t.r.obj.Keys
    && (forall x :: x in t.r.obj ==> Accounted(t.r.obj[x], t.h[x]))
    && (forall x :: x in t.r.live && x in t.r.obj ==> Linked(t, x))
  }

  ghost predicate Conforming(t: Trace) {
    Sane(t.r) && Matched(t.r) && Piped(t)
  }

  // -------------------------------------------------------------- one client's link

  lemma RelayedMore(ms: seq<Msg>, m: Msg)
    ensures Relayed(ms + [m]) == if IsRelayed(m.ftype) then Relayed(ms) + [m] else Relayed(ms)
    ensures PaddedAll(ms + [m]) == PaddedAll(ms) + [Padded(m)]
  {
    assert (ms + [m])[..|ms|] == ms;
  }

  /** What happens to a client's history at a step that is not its START. */
  ghost predicate Grew(h: Hist, h': Hist, heard: seq<Msg>, told: seq<Msg>) {
    && h'.frames == h.frames + heard && h'.said == h.said + told
    && h'.from == h.from && h'.ex == h.ex && h'.start == h.start && h'.pre == h.pre
  }

  lemma GrewPlayed(h: Hist, h': Hist, heard: seq<Msg>, told: seq<Msg>)
    requires Grew(h, h', heard, told) && h.from <= |h.frames| && |heard| <= 1
    ensures InPlay(h') == InPlay(h) + heard
    ensures Played(h') == if |heard| == 1 && IsRelayed(heard[0].ftype) then Played(h) + heard else Played(h)
  {
    assert InPlay(h') == InPlay(h) + heard;
    if |heard| == 1 {
      assert heard == [heard[0]];
      RelayedMore(InPlay(h), heard[0]);
    } else {
      assert InPlay(h') == InPlay(h);
    }
  }

  /** Its own words, its own answers, or silence. */
  lemma StaysLinked(t: Trace, t': Trace, x: Id, heard: seq<Msg>, told: seq<Msg>)
    requires x in t.r.obj && x in t.h && x in t'.r.obj && x in t'.h && Linked(t, x)
    requires t.h[x].from <= |t.h[x].frames| && Grew(t.h[x], t'.h[x], heard, told)
    requires t'.r.obj[x].partner == t.r.obj[x].partner
    requires |heard| <= 1 && |told| <= 1
    requires |told| == 1 ==> |heard| == 1 && (heard[0].ftype == T_LIST || heard[0].ftype == T_PING)
                             && (told[0].ftype == T_LOBBY || told[0].ftype == T_PONG)
    requires t.h[x].ex.Some? ==>
      var a := t.h[x].ex.value;
      && a in t'.r.obj && a in t'.h && t'.h[a].start == t.h[a].start && Played(t'.h[a]) == Played(t.h[a])
      && (a !in t.r.live ==> a !in t'.r.live)
    ensures Linked(t', x)
  {
    var h, h' := t.h[x], t'.h[x];
    GrewPlayed(h, h', heard, told);
    if |told| == 1 {
      assert told == [told[0]] && heard == [heard[0]];
      OwnSaid(InPlay(h), heard[0], h.said, told[0]);
      assert h'.said == h.said + [told[0]];
      if Farewell(h.said) {
        StaysFarewell(h.said, told[0]);
      }
    } else {
      assert h'.said == h.said;
      AskedNothingBefore(InPlay(h), heard);
    }
    hide Relayed, PaddedAll, Played, InPlay, Farewell, SameStart, OnlyGame, NoFarewell, AsksNothing;
  }

  lemma AskedNothingBefore(ms: seq<Msg>, heard: seq<Msg>)
    ensures AsksNothing(ms + heard) ==> AsksNothing(ms)
  {
    assert forall i :: 0 <= i < |ms| ==> ms[i] == (ms + heard)[i];
  }

  lemma OwnSaid(play: seq<Msg>, q: Msg, said: seq<Msg>, m: Msg)
    requires (q.ftype == T_LIST || q.ftype == T_PING) && (m.ftype == T_LOBBY || m.ftype == T_PONG)
    ensures !AsksNothing(play + [q])
    ensures NoFarewell(said) ==> NoFarewell(said + [m])
    ensures Relayed(said + [m]) == Relayed(said)
  {
    assert (play + [q])[|play|] == q;
    RelayedMore(said, m);
  }

  lemma StaysFarewell(ms: seq<Msg>, m: Msg)
    requires Farewell(ms) && m.ftype != T_PEER_LEFT && !IsRelayed(m.ftype)
    ensures Farewell(ms + [m])
  {
    var k :| 0 <= k < |ms| && ms[k] == PEER_LEFT
          && NoFarewell(ms[..k]) && NoFarewell(ms[k + 1..]) && Relayed(ms[k + 1..]) == [];
    hide Relayed, NoFarewell;
    var tail := ms[k + 1..];
    RelayedMore(tail, m);
    NoFarewellMore(tail, m);
    FarewellAt(ms, k, tail, m);
  }

  lemma NoFarewellMore(ms: seq<Msg>, m: Msg)
    requires NoFarewell(ms) && m.ftype != T_PEER_LEFT
    ensures NoFarewell(ms + [m])
  {
  }

  lemma FarewellAt(ms: seq<Msg>, k: nat, tail: seq<Msg>, m: Msg)
    requires k < |ms| && ms[k] == PEER_LEFT && tail == ms[k + 1..]
    requires NoFarewell(ms[..k]) && NoFarewell(tail + [m]) && Relayed(tail + [m]) == []
    ensures Farewell(ms + [m])
  {
    hide Relayed, NoFarewell;
    assert (ms + [m])[..k] == ms[..k];
    assert (ms + [m])[k + 1..] == tail + [m];
    assert (ms + [m])[k] == PEER_LEFT;
  }

  lemma GameSaid(said: seq<Msg>, m: Msg)
    requires IsRelayed(m.ftype)
    ensures OnlyGame(said) ==> OnlyGame(said + [m])
    ensures NoFarewell(said) ==> NoFarewell(said + [m])
  {
  }

  /** A game frame of its partner's. */
  lemma ForwardLinked(t: Trace, t': Trace, x: Id, a: Id, m: Msg)
    requires x in t.r.obj && x in t.h && x in t'.r.obj && x in t'.h && Linked(t, x)
    requires t.h[x].from <= |t.h[x].frames| && Grew(t.h[x], t'.h[x], [], [Padded(m)])
    requires t.r.obj[x].partner == Some(a) && t'.r.obj[x].partner == Some(a) && IsRelayed(m.ftype)
    requires a in t.h && a in t'.h && a in t'.r.obj && t.h[a].from <= |t.h[a].frames|
    requires Grew(t.h[a], t'.h[a], [m], [])
    ensures Linked(t', x)
  {
    GrewPlayed(t.h[x], t'.h[x], [], [Padded(m)]);
    GrewPlayed(t.h[a], t'.h[a], [m], []);
    RelayedMore(t.h[x].said, Padded(m));
    RelayedMore(Played(t.h[a]), m);
    GameSaid(t.h[x].said, Padded(m));
    hide Relayed, PaddedAll, Padded, Played, InPlay, Farewell, SameStart, OnlyGame, NoFarewell, AsksNothing;
    assert Played(t'.h[a]) == Played(t.h[a]) + [m];
    assert InPlay(t'.h[x]) == InPlay(t.h[x]);
  }

  /** Its partner gone. */
  lemma LeftLinked(t: Trace, t': Trace, x: Id, a: Id, heard: seq<Msg>)
    requires x in t.r.obj && x in t.h && x in t'.r.obj && x in t'.h && Linked(t, x)
    requires t.h[x].from <= |t.h[x].frames| && Grew(t.h[x], t'.h[x], [], [PEER_LEFT])
    requires t.r.obj[x].partner == Some(a) && t'.r.obj[x].partner == None && a !in t'.r.live
    requires a in t.h && a in t'.h && a in t'.r.obj && t.h[a].from <= |t.h[a].frames|
    requires Grew(t.h[a], t'.h[a], heard, []) && |heard| <= 1 && (|heard| == 1 ==> !IsRelayed(heard[0].ftype))
    ensures Linked(t', x)
  {
    var said, said' := t.h[x].said, t'.h[x].said;
    GrewPlayed(t.h[x], t'.h[x], [], [PEER_LEFT]);
    GrewPlayed(t.h[a], t'.h[a], heard, []);
    RelayedMore(said, PEER_LEFT);
    assert InPlay(t'.h[x]) == InPlay(t.h[x]);
    var k := |said|;
    assert said'[..k] == said && said'[k + 1..] == [] && said'[k] == PEER_LEFT;
  }

  /** Its own START. */
  lemma StartLinked(t': Trace, x: Id, o: Id)
    requires x in t'.r.obj && x in t'.h && o in t'.r.obj && o in t'.h && o != x
    requires t'.r.obj[x].partner == Some(o) && t'.h[x].ex == Some(o) && t'.h[x].said == []
    requires t'.h[x].from == |t'.h[x].frames| && t'.h[o].from == |t'.h[o].frames|
    requires SameStart(t'.h[x].start, t'.h[o].start)
    ensures Linked(t', x)
  {
    assert InPlay(t'.h[o]) == [];
  }
}
