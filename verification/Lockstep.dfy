/** Two consoles, the two streams between them, and every way they can interleave.

    A `Node` is one console: its cells, its simulation, and the history the proofs
    speak of (which no step of the cells ever reads). The game is a parameter: a state
    type, what a run frame and a stalled frame do to it, and the cells the netcode
    looks at. Unbounded ticks live only in the history; the cells have bytes. */
module Lockstep {
  import opened Bytes
  import opened Entry
  import opened Wire
  import opened Console

  // -------------------------------------------------------------- the game

  datatype Game<!S> = Game(
    init: S,                      // what Combat's own START leaves
    run: (S, Shadows) -> S,       // a frame whose logic runs, INC CLOCK included
    redraw: S -> S,               // a stalled frame: LDSTEL, SCROT and the kernel
    view: S -> SimCells)          // the cells the checksum and the mixer read

  function Crc<S(!new)>(g: Game<S>, s: S): u8 {
    Checksum(g.view(s))
  }

  function On<S(!new)>(g: Game<S>, s: S): bool {
    g.view(s).gameOn >= 128
  }

  // -------------------------------------------------------------- one console

  /** A frame in flight, with the unbounded tick its stamp stands for. */
  datatype Packet = Packet(f: Frame, at: int)

  datatype Node<!S> = Node(
    c: Cells,
    sim: S,
    off: bool,                    // switched off, or back in the boot bank
    window: seq<Packet>,          // what the last READ left in the reply window
    high: int,                    // the unbounded CBRWAT
    caps: seq<u8>,                // this console's wire byte for ticks 0, 1, 2, ...
    raw: seq<u8>,                 // the same before any synthetic press
    enter: seq<S>,                // the state entering ticks 0, 1, 2, ...
    ran: seq<(u8, u8)>,           // the (host, guest) bytes ticks 0, 1, 2, ... ran with
    sent: seq<Packet>,            // every record the cartridge took
    arms: set<int>,               // ticks at which a repair was armed
    dirty: set<int>)              // ticks during which the simulation was disturbed

  /** The unbounded CBTICK. */
  function Tick<S>(n: Node<S>): int {
    |n.caps| - 3
  }

  function Fresh<S(!new)>(g: Game<S>, guest: bool, junk: Cells): Node<S> {
    Node(Start(guest, junk), g.init, false, [], -2, [IW_IDLE, IW_IDLE], [IW_IDLE, IW_IDLE],
         [], [], [], {}, {})
  }

  /** A video frame: CBSHIM, then the game logic or the stalled frame's redraw. */
  function Video<S(!new)>(g: Game<S>, n: Node<S>, hw: Hardware): Node<S>
    requires Shaped(n.c)
  {
    var crc := Crc(g, n.sim);
    var c' := Shim(n.c, hw, crc, On(g, n.sim));
    var advances := Boundary(n.c) && n.c.ent.ran;
    var gate := Advance(n.c.(adv := true), hw, crc);
    n.(c := c',
       sim := if c'.adv then g.run(n.sim, c'.shadows) else g.redraw(n.sim),
       off := n.off || c'.ent.left,
       caps := if advances then n.caps + [Captured(n.c, hw)] else n.caps,
       raw := if advances then n.raw + [Capture(hw)] else n.raw,
       enter := if advances then n.enter + [n.sim] else n.enter,
       ran := if Boundary(n.c) && GateOpen(gate) then n.ran + [Wires(gate)] else n.ran)
  }

  predicate IsInput(p: Packet) {
    p.f.typ == WT_INPUT
  }

  predicate ReadCompletes<S>(n: Node<S>, m: Mail) {
    n.c.nst.Rack? && Acked(n.c, m) && m.err == 0
  }

  /** What a micro-step launches, if the cartridge takes it. */
  function Launched<S(!new)>(n: Node<S>, taken: bool): seq<Packet>
    requires Shaped(n.c)
  {
    if n.c.nst.Wiss? && taken then [Packet(Outgoing(n.c), Tick(n) + CBD)] else []
  }

  /** How many packets a micro-step takes off the incoming stream. */
  function Drained<S(!new)>(n: Node<S>, m: Mail): nat {
    if ReadCompletes(n, m) then n.c.rdn / 8 else 0
  }

  /** The records of the reply window still to be consumed. */
  function Pending<S>(n: Node<S>): seq<Packet> {
    if n.c.nst.Cons? && n.c.rdn <= |n.window| then n.window[..n.c.rdn] else []
  }

  /** A transport micro-step, with the stream `q` waiting at this console. */
  function Net<S(!new)>(n: Node<S>, q: seq<Packet>, m: Mail, taken: bool): Node<S>
    requires Shaped(n.c) && Readable(m)
    requires Drained(n, m) <= |q|
  {
    var c' := NStep(n.c, m);
    var k := n.c.rdn - 1;
    var consumes := n.c.nst.Cons? && 0 <= k < |n.window|;
    var took := consumes && IsInput(n.window[k]) && Sound(n.window[k].f);
    n.(c := c',
       sent := n.sent + Launched(n, taken),
       window := if ReadCompletes(n, m) then q[..Drained(n, m)] else n.window,
       high := if took && n.window[k].at >= n.high then n.window[k].at else n.high,
       arms := if took && Arms(n.c, n.window[k].f) then n.arms + {Tick(n)} else n.arms)
  }

  // -------------------------------------------------------------- the pair

  datatype Act<!S> =
    | Frame(hw: Hardware)                 // a video frame
    | Micro(m: Mail, taken: bool)         // a transport micro-step
    | Glitch(s: S)                        // the simulation disturbed from outside
    | Leave                               // the console goes away

  datatype Sys<!S> = Sys(a: Node<S>, b: Node<S>, toA: seq<Packet>, toB: seq<Packet>)

  function Mirror<S>(s: Sys<S>): Sys<S> {
    Sys(s.b, s.a, s.toB, s.toA)
  }

  const PEER_LEFT := Packet(Wire.Frame(7, WT_LEFT, 0, 0, 0, 0, 0, 0), 0)

  /** What the hardware, the cartridge and a reliable stream allow console `n` to do.
      Micro-steps run in the frame's slack, so never before the first frame. The reply
      window shows what the READ fetched; STATUS reports no more bytes than have arrived,
      which may end in part of a frame; and a READ that succeeds returns what it was
      asked for. */
  predicate Possible<S(!new)>(n: Node<S>, q: seq<Packet>, act: Act<S>) {
    && (n.off ==> act.Leave?)
    && match act
    case Frame(_) => true
    case Micro(m, _) =>
      && Tick(n) >= 0
      && Readable(m)
      && (n.c.nst.Cons? ==> forall i :: 0 <= i < |n.window| && i < 64 ==> m.reply[i] == n.window[i].f)
      && (n.c.nst.Sack? ==> (m.avhi * 256 + m.avlo) / 8 <= |q|)
      && (ReadCompletes(n, m) ==> m.rxlo == n.c.rdn)
    case Glitch(_) => true
    case Leave => true
  }

  /** The watermark, counting the seeded ticks 0 and 1 as received. */
  function Base<S>(n: Node<S>): int {
    if n.high > 1 then n.high else 1
  }

  /** The environment predicate of the agreement theorems: no batch a READ fetches
      reaches further than one window past the watermark. */
  predicate Timely<S(!new)>(n: Node<S>, q: seq<Packet>, act: Act<S>) {
    act.Micro? && ReadCompletes(n, act.m) ==>
      forall i :: 0 <= i < |q| && i < n.c.rdn / 8 && IsInput(q[i]) ==> q[i].at <= Base(n) + CBWIN
  }

  function StepA<S(!new)>(g: Game<S>, s: Sys<S>, act: Act<S>): Sys<S>
    requires Shaped(s.a.c) && Possible(s.a, s.toA, act)
    requires act.Micro? ==> Drained(s.a, act.m) <= |s.toA|
  {
    match act
    case Frame(hw) => s.(a := Video(g, s.a, hw))
    case Micro(m, taken) =>
      s.(a := Net(s.a, s.toA, m, taken), toA := s.toA[Drained(s.a, m)..],
         toB := s.toB + Launched(s.a, taken))
    case Glitch(sim) => s.(a := s.a.(sim := sim, dirty := s.a.dirty + {Tick(s.a)}))
    case Leave => s.(a := s.a.(off := true), toB := s.toB + [PEER_LEFT])
  }

  // -------------------------------------------------------------- the invariant

  /** A packet from `y` says exactly what y's history says for its tick. */
  predicate Genuine<S(!new)>(g: Game<S>, y: Node<S>, p: Packet)
    requires |y.enter| == |y.caps| - 2
  {
    && (p.f.typ == WT_INPUT || p.f.typ == WT_LEFT)
    && (IsInput(p) ==>
          && 2 <= p.at < |y.caps|
          && p.f == Record(Wrap(p.at), y.caps[p.at], y.caps[p.at - 1], y.caps[p.at - 2],
                           Crc(g, y.enter[p.at - 2])))
  }

  function Last<S>(n: Node<S>): int {
    if n.sent == [] then 1 else n.sent[|n.sent| - 1].at
  }

  predicate Forward(ps: seq<Packet>) {
    forall i, j :: 0 <= i < j < |ps| && IsInput(ps[i]) && IsInput(ps[j]) ==> ps[i].at <= ps[j].at
  }

  /** What one console keeps whatever its peer does. */
  predicate Own<S(!new)>(g: Game<S>, n: Node<S>) {
    var t := Tick(n);
    && Shaped(n.c) && n.c.ent.net
    && t >= -1 && n.c.tick == Wrap(t) && n.c.rwat == Wrap(n.high)
    && (t == -1 ==> n.c.ent.ran && n.c.ent.phase == 0)
    && (n.c.ent.phase != 0 ==> n.c.ent.ran)
    && |n.raw| == |n.caps| && |n.enter| == t + 1
    && |n.ran| == t + (if n.c.ent.ran then 1 else 0)
    && n.caps[0] == IW_IDLE && n.caps[1] == IW_IDLE
    && (forall u :: 0 <= u && t <= u <= t + 2 ==> n.c.loc[u % 4] == n.caps[u])
    && (t >= 0 ==> n.c.crcv == Crc(g, n.enter[t]))
  }

  /** The repair ledger: armed now iff armed at this tick, and a capture differs from
      what the ports said only three ticks after an arming, by the one press. */
  predicate Ledger<S(!new)>(n: Node<S>) {
    && |n.raw| == |n.caps|
    && (n.c.ent.rsy <==> Tick(n) in n.arms)
    && (forall u :: u in n.arms ==> 0 <= u <= Tick(n))
    && (forall u :: 0 <= u < |n.caps| ==> n.caps[u] == if u - 3 in n.arms then Press(n.raw[u]) else n.raw[u])
  }

  /** What console `x` holds of console `y`, and what is on its way. */
  predicate Hears<S(!new)>(g: Game<S>, x: Node<S>, y: Node<S>, q: seq<Packet>)
    requires |y.enter| == |y.caps| - 2 >= 0
  {
    && (x.high == -2 || 2 <= x.high <= Last(y)) && Last(y) < |y.caps|
    && (Tick(x) >= 1 ==> x.high >= Tick(x) - 1)
    && (Tick(x) >= 0 && x.c.ent.ran ==> x.high >= Tick(x))
    && |x.c.ring| == 8
    && (forall u :: 0 <= u && Base(x) - 7 <= u <= Base(x) ==> x.c.ring[u % 8] == y.caps[u])
    && InFlight(g, x, y, q)
    && Batch(x)
  }

  predicate InFlight<S(!new)>(g: Game<S>, x: Node<S>, y: Node<S>, q: seq<Packet>)
    requires |y.enter| == |y.caps| - 2
  {
    && Forward(q)
    && (forall i :: 0 <= i < |q| ==>
          Genuine(g, y, q[i]) && (IsInput(q[i]) ==> x.high <= q[i].at <= Last(y)))
    && (forall i :: 0 <= i < |Pending(x)| ==>
          Genuine(g, y, Pending(x)[i]) && (IsInput(Pending(x)[i]) ==> Pending(x)[i].at <= Last(y)))
    && (forall i, j :: 0 <= i < |Pending(x)| && 0 <= j < |q| && IsInput(Pending(x)[i]) && IsInput(q[j])
          ==> Pending(x)[i].at <= q[j].at)
  }

  /** The transport's own bookkeeping: the cursor stays inside the window, and the
      stamps still to be consumed lie within one window of each other and of CBRWAT. */
  predicate Batch<S(!new)>(x: Node<S>) {
    && (x.c.nst.Cons? ==> x.c.rdn <= |x.window| <= 31)
    && (forall i :: 0 <= i < |Pending(x)| && IsInput(Pending(x)[i]) ==>
          x.high - CBWIN <= Pending(x)[i].at <= Base(x) + CBWIN)
    && (forall i, j :: 0 <= i < |Pending(x)| && 0 <= j < |Pending(x)|
          && IsInput(Pending(x)[i]) && IsInput(Pending(x)[j])
          ==> Pending(x)[i].at <= Pending(x)[j].at + CBWIN)
  }

  /** A READ never asks for more whole frames than have arrived. */
  predicate Sized<S(!new)>(x: Node<S>, q: seq<Packet>) {
    x.c.nst.Riss? || x.c.nst.Rack? ==> x.c.rdn % 8 == 0 && 8 <= x.c.rdn <= 248 && x.c.rdn <= 8 * |q|
  }

  /** The pair of wire bytes the two histories hold for tick `t`, host first. */
  function Agreed<S>(x: Node<S>, y: Node<S>, t: nat): (u8, u8)
    requires t < |x.caps| && t < |y.caps|
  {
    if x.c.ent.guest then (y.caps[t], x.caps[t]) else (x.caps[t], y.caps[t])
  }

  predicate RanAgreed<S>(x: Node<S>, y: Node<S>) {
    && |x.ran| <= |x.caps| && |x.ran| <= |y.caps|
    && forall t :: 0 <= t < |x.ran| ==> x.ran[t] == Agreed(x, y, t)
  }

  /** The stamp sent before the i-th, counting the seeded tick 1 as sent. */
  function Before(ps: seq<Packet>, i: nat): int
    requires i < |ps|
  {
    if i == 0 then 1 else ps[i - 1].at
  }

  predicate SentOk<S(!new)>(g: Game<S>, y: Node<S>)
    requires |y.enter| == |y.caps| - 2
  {
    && Forward(y.sent)
    && (forall i :: 0 <= i < |y.sent| ==> IsInput(y.sent[i]) && Genuine(g, y, y.sent[i]))
    && (forall i :: 0 <= i < |y.sent| ==> y.sent[i].at <= Before(y.sent, i) + 6)
  }

  predicate AlarmsReal<S(!new)>(g: Game<S>, x: Node<S>, y: Node<S>) {
    forall t :: t in x.arms ==>
      0 <= t < |x.enter| && t < |y.enter| && Crc(g, x.enter[t]) != Crc(g, y.enter[t])
  }

  predicate Half<S(!new)>(g: Game<S>, x: Node<S>, y: Node<S>, q: seq<Packet>) {
    && Own(g, x) && Own(g, y)
    && x.c.ent.guest != y.c.ent.guest
    && Ledger(x)
    && Hears(g, x, y, q)
    && Sized(x, q)
    && RanAgreed(x, y)
    && SentOk(g, x)
    && AlarmsReal(g, x, y)
  }

  predicate Inv<S(!new)>(g: Game<S>, s: Sys<S>) {
    Half(g, s.a, s.b, s.toA) && Half(g, s.b, s.a, s.toB)
  }
}
