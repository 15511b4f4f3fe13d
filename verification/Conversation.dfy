/** What two consoles in lockstep can say to a relay between them, which hears every record
    after it is written and before it is read; and so what the relay makes of clients it
    has used before. */
module Conversation {
  import opened Bytes
  import opened Console
  import opened Wire
  import opened Verdicts
  import opened Silence
  import L = Lockstep
  import D = Delivery
  import opened Agreement
  import opened FrameProofs
  import opened NetProofs

  lemma HalfSentOk<S(!new)>(g: L.Game<S>, x: L.Node<S>, y: L.Node<S>, q: seq<L.Packet>)
    requires L.Half(g, x, y, q)
    ensures |x.enter| == |x.caps| - 2 && L.SentOk(g, x)
  {
    hide L.SentOk, L.Hears, L.Ledger, L.RanAgreed, L.AlarmsReal, L.Sized;
  }

  lemma SentSlowly<S(!new)>(g: L.Game<S>, x: L.Node<S>, i: nat)
    requires |x.enter| == |x.caps| - 2 && L.SentOk(g, x) && i < |x.sent|
    ensures x.sent[i].at <= L.Before(x.sent, i) + 6 && 2 <= x.sent[i].at
    ensures i > 0 ==> x.sent[i - 1].at <= x.sent[i].at
  {
    SentInOrder(g, x, i, i);
    if i > 0 {
      SentInOrder(g, x, i - 1, i);
    }
  }

  lemma LastAtLeast<S(!new)>(g: L.Game<S>, x: L.Node<S>, y: L.Node<S>, q: seq<L.Packet>)
    requires L.Half(g, x, y, q)
    ensures L.Last(x) >= 1 && (x.sent != [] ==> L.Last(x) >= 2)
  {
    hide L.Half, L.SentOk;
    HalfSentOk(g, x, y, q);
    if x.sent != [] {
      SentSlowly(g, x, |x.sent| - 1);
    }
  }

  lemma NearReceived<S(!new)>(g: L.Game<S>, x: L.Node<S>, y: L.Node<S>, q: seq<L.Packet>)
    requires L.Half(g, x, y, q)
    ensures L.Tick(x) + CBD <= L.Base(x) + 3 && (L.Last(y) >= 1 ==> L.Base(x) <= L.Last(y))
  {
    hide L.Genuine, L.InFlight, L.Batch, L.Ledger, L.RanAgreed, L.AlarmsReal, L.Sized, L.SentOk;
  }

  /** A console never writes a record stamped more than three past what it has received. */
  lemma StampNearReceived<S(!new)>(g: L.Game<S>, v: L.Sys<S>)
    requires Reaches(g, v)
    ensures L.Tick(v.a) + CBD <= L.Base(v.a) + 3 && L.Base(v.a) <= L.Last(v.b)
  {
    hide Reaches, L.Half;
    ReachesInv(g, v);
    NearReceived(g, v.a, v.b, v.toA);
    LastAtLeast(g, v.b, v.a, v.toB);
  }

  // -------------------------------------------------------------- what a console has taken

  /** The records among some packets. */
  function InputsOf(ps: seq<L.Packet>): seq<L.Packet> {
    if ps == [] then [] else (if L.IsInput(ps[0]) then [ps[0]] else []) + InputsOf(ps[1..])
  }

  lemma {:induction false} InputsMore(xs: seq<L.Packet>, ys: seq<L.Packet>)
    ensures InputsOf(xs + ys) == InputsOf(xs) + InputsOf(ys)
    decreases |xs|
  {
    if xs == [] {
      assert xs + ys == ys;
    } else {
      assert (xs + ys)[0] == xs[0] && (xs + ys)[1..] == xs[1..] + ys;
      InputsMore(xs[1..], ys);
      var head := if L.IsInput(xs[0]) then [xs[0]] else [];
      Associates(head, InputsOf(xs[1..]), InputsOf(ys));
    }
  }

  lemma Associates<T>(a: seq<T>, b: seq<T>, c: seq<T>)
    ensures a + (b + c) == (a + b) + c
  {
  }

  lemma {:induction false} InputIn(ps: seq<L.Packet>, i: nat)
    requires i < |ps| && L.IsInput(ps[i])
    ensures ps[i] in InputsOf(ps)
    decreases |ps|
  {
    if i > 0 {
      InputIn(ps[1..], i - 1);
    }
  }

  /** The stamp of the k-th record, counting the seeded tick 1 as sent before the first. */
  function Stamp(ps: seq<L.Packet>, k: nat): int
    requires k <= |ps|
  {
    if k == 0 then 1 else ps[k - 1].at
  }

  /** How many of `y`'s records its peer has taken off the stream `q`. */
  function TakenOf<S>(y: L.Node<S>, q: seq<L.Packet>): int {
    |y.sent| - |InputsOf(q)|
  }

  /** The stream holds the last of what `y` sent; and of the rest `x` knows nothing newer
      than the newest. */
  ghost predicate Taken<S>(x: L.Node<S>, y: L.Node<S>, q: seq<L.Packet>) {
    var k := TakenOf(y, q);
    && 0 <= k && InputsOf(q) == y.sent[k..]
    && (x.high == -2 || x.high <= Stamp(y.sent, k))
    && forall i :: 0 <= i < |L.Pending(x)| && L.IsInput(L.Pending(x)[i]) ==> L.Pending(x)[i].at <= Stamp(y.sent, k)
  }

  lemma {:induction false} StampsUp<S(!new)>(g: L.Game<S>, x: L.Node<S>, j: nat, k: nat)
    requires |x.enter| == |x.caps| - 2 && L.SentOk(g, x) && j <= k <= |x.sent|
    ensures 1 <= Stamp(x.sent, j) <= Stamp(x.sent, k)
    decreases k - j
  {
    hide L.SentOk;
    if j > 0 {
      SentSlowly(g, x, j - 1);
    }
    if j < k {
      StampsUp(g, x, j + 1, k);
      SentSlowly(g, x, j);
    }
  }

  /** The receiver takes some packets into its window. */
  lemma ReadTaken<S(!new)>(g: L.Game<S>, x: L.Node<S>, x': L.Node<S>, y: L.Node<S>, q: seq<L.Packet>, d: nat)
    requires Taken(x, y, q) && |y.enter| == |y.caps| - 2 && L.SentOk(g, y) && d <= |q|
    requires x'.high == x.high && L.Pending(x') == q[..d]
    ensures Taken(x', y, q[d..])
  {
    hide L.SentOk, L.Pending;
    assert q == q[..d] + q[d..];
    InputsMore(q[..d], q[d..]);
    var k, k' := TakenOf(y, q), TakenOf(y, q[d..]);
    assert InputsOf(q[d..]) == y.sent[k'..];
    StampsUp(g, y, k, k');
    forall i | 0 <= i < d && L.IsInput(q[i]) ensures q[i].at <= Stamp(y.sent, k') {
      InputIn(q[..d], i);
      var w := InputsOf(q[..d]);
      var j :| 0 <= j < |w| && w[j] == q[..d][i];
      assert w[j] == y.sent[k..][j] && y.sent[k..][j] == y.sent[k + j];
      StampsUp(g, y, k + j + 1, k');
    }
  }

  lemma ConsumeTaken<S(!new)>(g: L.Game<S>, x: L.Node<S>, y: L.Node<S>, q: seq<L.Packet>, m: Mail, taken: bool)
    requires L.Half(g, x, y, q) && Taken(x, y, q)
    requires L.Possible(x, q, L.Micro(m, taken)) && Consumes(x) && L.Drained(x, m) <= |q|
    ensures Taken(L.Net(x, q, m, taken), y, q) && L.Drained(x, m) == 0
  {
    hide L.Net, L.Own, L.Ledger, L.RanAgreed, L.AlarmsReal, L.SentOk, L.Sized, L.Genuine, L.Hears, Consume;
    ConsumeMeans(g, x, y, q, m, taken);
    hide L.Half;
    var k := x.c.rdn - 1;
    assert L.Pending(x)[k] == x.window[k];
    assert forall i :: 0 <= i < k ==> x.window[..k][i] == L.Pending(x)[i];
  }

  /** A micro-step of the receiver. */
  lemma NetTaken<S(!new)>(g: L.Game<S>, x: L.Node<S>, y: L.Node<S>, q: seq<L.Packet>, m: Mail, taken: bool)
    requires L.Half(g, x, y, q) && |y.enter| == |y.caps| - 2 && L.SentOk(g, y) && Taken(x, y, q)
    requires L.Possible(x, q, L.Micro(m, taken)) && L.Timely(x, q, L.Micro(m, taken))
    requires L.Drained(x, m) <= |q|
    ensures Taken(L.Net(x, q, m, taken), y, q[L.Drained(x, m)..])
  {
    hide L.Net, L.Own, L.Ledger, L.RanAgreed, L.AlarmsReal, L.SentOk, L.Sized, L.Genuine, L.Hears, L.Pending;
    OwnShape(g, x);
    assert q[0..] == q;
    if Consumes(x) {
      ConsumeTaken(g, x, y, q, m, taken);
    } else {
      NetUntouched(x, q, m, taken);
      D.QuietPending(x, q, m, taken);
      if L.ReadCompletes(x, m) {
        ReadKeeps(g, x, y, q, m, taken);
        ReadTaken(g, x, L.Net(x, q, m, taken), y, q, L.Drained(x, m));
      } else {
        StaysQuiet(x, q, m, taken);
      }
    }
  }

  lemma StaysQuiet<S(!new)>(x: L.Node<S>, q: seq<L.Packet>, m: Mail, taken: bool)
    requires Shaped(x.c) && Readable(m) && L.Drained(x, m) <= |q| && !Consumes(x) && !L.ReadCompletes(x, m)
    ensures L.Pending(L.Net(x, q, m, taken)) == []
  {
    hide Consume;
  }

  /** The sender's history grows by a record that goes into the stream with it; or a packet
      that is none goes in. */
  lemma SenderTaken<S>(x: L.Node<S>, y: L.Node<S>, y': L.Node<S>, q: seq<L.Packet>, more: seq<L.Packet>)
    requires Taken(x, y, q) && y'.sent == y.sent + InputsOf(more)
    ensures Taken(x, y', q + more) && TakenOf(y', q + more) == TakenOf(y, q)
  {
    hide L.Pending, InputsOf;
    InputsMore(q, more);
    var k, add := TakenOf(y, q), InputsOf(more);
    TailMore(y.sent, add, k);
    StampSame(y.sent, add, k);
  }

  lemma TailMore<T>(a: seq<T>, b: seq<T>, k: nat)
    requires k <= |a|
    ensures (a + b)[k..] == a[k..] + b
  {
  }

  lemma StampSame(a: seq<L.Packet>, b: seq<L.Packet>, k: nat)
    requires k <= |a|
    ensures Stamp(a + b, k) == Stamp(a, k)
  {
  }

  lemma SameTaken<S>(x: L.Node<S>, x': L.Node<S>, y: L.Node<S>, y': L.Node<S>, q: seq<L.Packet>)
    requires Taken(x, y, q) && L.Pending(x') == L.Pending(x) && x'.high == x.high && y'.sent == y.sent
    ensures Taken(x', y', q) && TakenOf(y', q) == TakenOf(y, q)
  {
  }

  lemma OneInput(p: L.Packet)
    ensures InputsOf([p]) == (if L.IsInput(p) then [p] else []) && InputsOf([]) == []
  {
    assert [p][1..] == [];
  }

  // -------------------------------------------------------------- one move

  /** What holds of both directions. */
  ghost predicate BothTaken<S(!new)>(g: L.Game<S>, v: L.Sys<S>) {
    L.Inv(g, v) && Taken(v.a, v.b, v.toA) && Taken(v.b, v.a, v.toB)
  }

  lemma StillTaken<S(!new)>(v: L.Sys<S>, a': L.Node<S>)
    requires Taken(v.a, v.b, v.toA) && Taken(v.b, v.a, v.toB)
    requires L.Pending(a') == L.Pending(v.a) && a'.high == v.a.high && a'.sent == v.a.sent
    ensures Taken(a', v.b, v.toA) && Taken(v.b, a', v.toB)
  {
    hide L.Pending, Taken;
    SameTaken(v.a, a', v.b, v.b, v.toA);
    SameTaken(v.b, v.b, v.a, a', v.toB);
  }

  lemma FrameTaken<S(!new)>(g: L.Game<S>, v: L.Sys<S>, hw: Hardware)
    requires BothTaken(g, v)
    ensures Shaped(v.a.c)
    ensures var a' := L.Video(g, v.a, hw);
      a'.sent == v.a.sent && Taken(a', v.b, v.toA) && Taken(v.b, a', v.toB)
  {
    OwnShape(g, v.a) by { HalfOwn(g, v.a, v.b, v.toA); }
    hide L.Half, L.Video, Taken, L.Pending, L.Own;
    VideoIsNoTransport(g, v.a, hw);
    StillTaken(v, L.Video(g, v.a, hw));
  }

  lemma MicroTaken<S(!new)>(g: L.Game<S>, v: L.Sys<S>, m: Mail, taken: bool)
    requires BothTaken(g, v) && L.Possible(v.a, v.toA, L.Micro(m, taken)) && L.Timely(v.a, v.toA, L.Micro(m, taken))
    requires Shaped(v.a.c) && L.Drained(v.a, m) <= |v.toA|
    ensures var a' := L.Net(v.a, v.toA, m, taken);
      && a'.sent == v.a.sent + InputsOf(L.Launched(v.a, taken))
      && Taken(a', v.b, v.toA[L.Drained(v.a, m)..]) && Taken(v.b, a', v.toB + L.Launched(v.a, taken))
  {
    HalfSentOk(g, v.b, v.a, v.toB);
    hide L.Half, L.Net, Taken, L.Launched, L.SentOk, L.Pending;
    D.LaunchedIs(g, v.a, v.toA, m, taken);
    NetTaken(g, v.a, v.b, v.toA, m, taken);
    var more := L.Launched(v.a, taken);
    if more != [] {
      OneInput(more[0]);
      assert more == [more[0]];
    }
    SenderTaken(v.b, v.a, L.Net(v.a, v.toA, m, taken), v.toB, more);
  }

  lemma LeaveTaken<S(!new)>(v: L.Sys<S>)
    requires Taken(v.a, v.b, v.toA) && Taken(v.b, v.a, v.toB)
    ensures var a' := v.a.(off := true); Taken(a', v.b, v.toA) && Taken(v.b, a', v.toB + [L.PEER_LEFT])
  {
    var a' := v.a.(off := true);
    OneInput(L.PEER_LEFT);
    SamePending(v.a, a');
    hide L.Pending, Taken;
    SameTaken(v.a, a', v.b, v.b, v.toA);
    assert a'.sent == v.a.sent + InputsOf([L.PEER_LEFT]);
    SenderTaken(v.b, v.a, a', v.toB, [L.PEER_LEFT]);
  }

  /** What a move of console `a` adds to its history. */
  function Adds<S(!new)>(v: L.Sys<S>, act: L.Act<S>): seq<L.Packet>
    requires Steppable(v, act)
  {
    if act.Micro? then InputsOf(L.Launched(v.a, act.taken)) else []
  }

  lemma MoveTaken<S(!new)>(g: L.Game<S>, v: L.Sys<S>, act: L.Act<S>)
    requires BothTaken(g, v) && L.Possible(v.a, v.toA, act) && Steppable(v, act) && L.Timely(v.a, v.toA, act)
    ensures var v' := L.StepA(g, v, act);
      BothTaken(g, v') && v'.b == v.b && v'.a.sent == v.a.sent + Adds(v, act)
  {
    hide L.Half, L.Video, L.Net, L.Timely, Taken, L.Launched, InputsOf, L.Pending;
    StepAKeeps(g, v, act);
    assert v.a.sent + [] == v.a.sent;
    match act
    case Frame(hw) => FrameTaken(g, v, hw);
    case Micro(m, taken) => MicroTaken(g, v, m, taken);
    case Glitch(sim) =>
      var a' := v.a.(sim := sim, dirty := v.a.dirty + {L.Tick(v.a)});
      SamePending(v.a, a');
      StillTaken(v, a');
    case Leave => LeaveTaken(v);
  }

  lemma HalfOwn<S(!new)>(g: L.Game<S>, x: L.Node<S>, y: L.Node<S>, q: seq<L.Packet>)
    requires L.Half(g, x, y, q)
    ensures L.Own(g, x)
  {
    hide L.Own, L.SentOk, L.Hears, L.Ledger, L.RanAgreed, L.AlarmsReal, L.Sized;
  }

  lemma SamePending<S>(x: L.Node<S>, x': L.Node<S>)
    requires x'.c == x.c && x'.window == x.window
    ensures L.Pending(x') == L.Pending(x)
  {
  }

  // -------------------------------------------------------------- the relay listens

  /** How many records of each console the relay has heard, and the reports it made of them
      in the order it heard them. */
  datatype Ear = Ear(a: nat, b: nat, said: seq<Real>)

  /** A run of the consoles with the relay hearing their records in between. */
  datatype EarMove<!S> = Plays(mv: Move<S>) | Listens(byA: bool)

  /** Nothing is read that has not been heard: it all goes through the relay. */
  predicate InTime<S>(s: L.Sys<S>, ear: Ear) {
    TakenOf(s.a, s.toB) <= ear.a && TakenOf(s.b, s.toA) <= ear.b
  }

  predicate CanHear<S>(s: L.Sys<S>, ear: Ear, byA: bool) {
    if byA then ear.a < |s.a.sent| else ear.b < |s.b.sent|
  }

  function Heard<S>(s: L.Sys<S>, ear: Ear, byA: bool): Ear
    requires CanHear(s, ear, byA)
  {
    if byA then Ear(ear.a + 1, ear.b, ear.said + [Real(true, s.a.sent[ear.a].at, s.a.sent[ear.a].f.crc)])
    else Ear(ear.a, ear.b + 1, ear.said + [Real(false, s.b.sent[ear.b].at, s.b.sent[ear.b].f.crc)])
  }

  ghost predicate Overheard<S(!new)>(g: L.Game<S>, s: L.Sys<S>, ear: Ear, ems: seq<EarMove<S>>)
    decreases |ems|
  {
    ems == [] ||
    match ems[0]
    case Plays(mv) =>
      && Enabled(s, mv) && TimelyMove(s, mv) && InTime(Step(g, s, mv), ear)
      && Overheard(g, Step(g, s, mv), ear, ems[1..])
    case Listens(byA) => CanHear(s, ear, byA) && Overheard(g, s, Heard(s, ear, byA), ems[1..])
  }

  ghost function EarAfter<S(!new)>(g: L.Game<S>, s: L.Sys<S>, ear: Ear, ems: seq<EarMove<S>>): Ear
    requires Overheard(g, s, ear, ems)
    decreases |ems|
  {
    if ems == [] then ear
    else
      match ems[0]
      case Plays(mv) => EarAfter(g, Step(g, s, mv), ear, ems[1..])
      case Listens(byA) => EarAfter(g, s, Heard(s, ear, byA), ems[1..])
  }

  /** No record not heard yet is stamped more than three past `limit`. */
  ghost predicate Promised<S>(x: L.Node<S>, n: nat, limit: int) {
    forall i :: n <= i < |x.sent| ==> x.sent[i].at <= limit + 3
  }

  predicate LastSaid<S>(x: L.Node<S>, n: nat, last: Option<int>) {
    n <= |x.sent| && last == if n == 0 then None else Some(x.sent[n - 1].at)
  }

  /** What has been said, from one console: `n` of its records heard, and `m` of the
      peer's. */
  ghost predicate Spoken<S>(x: L.Node<S>, y: L.Node<S>, n: nat, m: nat, byA: bool, said: seq<Real>) {
    && InLockstep(said) && LastSaid(x, n, LastTick(said, byA)) && LastSaid(y, m, LastTick(said, !byA))
    && Promised(x, n, Stamp(y.sent, m)) && Promised(y, m, Stamp(x.sent, n))
  }

  ghost predicate Tuned<S(!new)>(g: L.Game<S>, s: L.Sys<S>, ear: Ear) {
    BothTaken(g, s) && InTime(s, ear) && Spoken(s.a, s.b, ear.a, ear.b, true, ear.said)
  }

  lemma OtherWay<S>(x: L.Node<S>, y: L.Node<S>, n: nat, m: nat, byA: bool, said: seq<Real>)
    requires Spoken(x, y, n, m, byA, said)
    ensures Spoken(y, x, m, n, !byA, said) && n <= |x.sent| && m <= |y.sent|
  {
    hide InLockstep, LastTick, Promised, Stamp;
  }

  lemma InLockstepMore(said: seq<Real>, r: Real)
    requires InLockstep(said) && 0 <= r.tick <= LastHeard(said, !r.byA) + 3
    requires var before := LastTick(said, r.byA); before.Some? ==> before.value <= r.tick <= before.value + 6
    ensures InLockstep(said + [r])
  {
    assert (said + [r])[..|said + [r]| - 1] == said;
  }

  /** A new record is within three of what its console has taken, and that has been heard. */
  lemma NewStamp<S(!new)>(g: L.Game<S>, x: L.Node<S>, y: L.Node<S>, qx: seq<L.Packet>, qy: seq<L.Packet>, m: nat)
    requires L.Half(g, x, y, qx) && L.Half(g, y, x, qy) && Taken(x, y, qx) && TakenOf(y, qx) <= m <= |y.sent|
    ensures L.Tick(x) + CBD <= Stamp(y.sent, m) + 3
  {
    NearReceived(g, x, y, qx);
    HalfSentOk(g, y, x, qy);
    hide L.Half, L.SentOk, InputsOf;
    StampsUp(g, y, TakenOf(y, qx), m);
    StampsUp(g, y, 0, m);
  }

  lemma MoverStamp<S(!new)>(g: L.Game<S>, v: L.Sys<S>, m: nat)
    requires BothTaken(g, v) && TakenOf(v.b, v.toA) <= m <= |v.b.sent|
    ensures L.Tick(v.a) + CBD <= Stamp(v.b.sent, m) + 3
  {
    hide L.Half, Taken, InputsOf;
    NewStamp(g, v.a, v.b, v.toA, v.toB, m);
  }

  lemma AddsAt<S(!new)>(v: L.Sys<S>, act: L.Act<S>)
    requires Steppable(v, act)
    ensures forall i :: 0 <= i < |Adds(v, act)| ==> Adds(v, act)[i].at == L.Tick(v.a) + CBD
  {
    hide Outgoing;
    if act.Micro? && L.Launched(v.a, act.taken) != [] {
      OneInput(L.Launched(v.a, act.taken)[0]);
      assert L.Launched(v.a, act.taken) == [L.Launched(v.a, act.taken)[0]];
    }
  }

  lemma SpokenMore<S>(x: L.Node<S>, x': L.Node<S>, y: L.Node<S>, n: nat, m: nat, byA: bool, said: seq<Real>,
                      more: seq<L.Packet>)
    requires Spoken(x, y, n, m, byA, said) && x'.sent == x.sent + more
    requires forall i :: 0 <= i < |more| ==> more[i].at <= Stamp(y.sent, m) + 3
    ensures Spoken(x', y, n, m, byA, said)
  {
    hide InLockstep, LastTick;
    StampSame(x.sent, more, n);
  }

  /** A move, from the console that makes it. */
  lemma TunedMove<S(!new)>(g: L.Game<S>, v: L.Sys<S>, act: L.Act<S>, n: nat, m: nat, byA: bool, said: seq<Real>)
    requires BothTaken(g, v) && L.Possible(v.a, v.toA, act) && Steppable(v, act) && L.Timely(v.a, v.toA, act)
    requires TakenOf(v.b, v.toA) <= m && Spoken(v.a, v.b, n, m, byA, said)
    ensures var v' := L.StepA(g, v, act); BothTaken(g, v') && Spoken(v'.a, v'.b, n, m, byA, said)
  {
    hide BothTaken, L.Possible, L.Timely, L.StepA, Adds, Spoken, InputsOf;
    OtherWay(v.a, v.b, n, m, byA, said);
    MoverStamp(g, v, m);
    MoveTaken(g, v, act);
    AddsAt(v, act);
    SpokenMore(v.a, L.StepA(g, v, act).a, v.b, n, m, byA, said, Adds(v, act));
  }

  lemma PlayTuned<S(!new)>(g: L.Game<S>, s: L.Sys<S>, ear: Ear, mv: Move<S>)
    requires Tuned(g, s, ear) && Enabled(s, mv) && TimelyMove(s, mv) && InTime(Step(g, s, mv), ear)
    ensures Tuned(g, Step(g, s, mv), ear)
  {
    hide L.Half, L.Possible, L.Timely, L.StepA, Taken, Steppable, Spoken, InputsOf;
    OtherWay(s.a, s.b, ear.a, ear.b, true, ear.said);
    if mv.byA {
      TunedMove(g, s, mv.act, ear.a, ear.b, true, ear.said);
    } else {
      TunedMove(g, L.Mirror(s), mv.act, ear.b, ear.a, false, ear.said);
      OtherWay(Step(g, s, mv).b, Step(g, s, mv).a, ear.b, ear.a, false, ear.said);
    }
  }

  /** Hearing the next record of `x`. */
  lemma HearsInLockstep<S(!new)>(g: L.Game<S>, x: L.Node<S>, y: L.Node<S>, n: nat, m: nat, said: seq<Real>, byA: bool)
    requires |x.enter| == |x.caps| - 2 && L.SentOk(g, x) && |y.enter| == |y.caps| - 2 && L.SentOk(g, y)
    requires Spoken(x, y, n, m, byA, said) && n < |x.sent|
    ensures Spoken(x, y, n + 1, m, byA, said + [Real(byA, x.sent[n].at, x.sent[n].f.crc)])
  {
    hide L.SentOk, InLockstep;
    var r := Real(byA, x.sent[n].at, x.sent[n].f.crc);
    SentSlowly(g, x, n);
    if m > 0 {
      SentSlowly(g, y, m - 1);
    }
    StampsUp(g, x, n, n + 1);
    MoreReports(NEW_SIDE, said, r, byA);
    MoreReports(NEW_SIDE, said, r, !byA);
    hide LastTick;
    InLockstepMore(said, r);
  }

  lemma BothSentOk<S(!new)>(g: L.Game<S>, s: L.Sys<S>)
    requires BothTaken(g, s)
    ensures |s.a.enter| == |s.a.caps| - 2 && L.SentOk(g, s.a) && |s.b.enter| == |s.b.caps| - 2 && L.SentOk(g, s.b)
  {
    hide L.Half, L.SentOk, Taken;
    HalfSentOk(g, s.a, s.b, s.toA);
    HalfSentOk(g, s.b, s.a, s.toB);
  }

  lemma ListenTuned<S(!new)>(g: L.Game<S>, s: L.Sys<S>, ear: Ear, byA: bool)
    requires Tuned(g, s, ear) && CanHear(s, ear, byA)
    ensures Tuned(g, s, Heard(s, ear, byA))
  {
    hide BothTaken, L.SentOk, Spoken, InputsOf;
    BothSentOk(g, s);
    OtherWay(s.a, s.b, ear.a, ear.b, true, ear.said);
    if byA {
      HearsInLockstep(g, s.a, s.b, ear.a, ear.b, ear.said, true);
    } else {
      HearsInLockstep(g, s.b, s.a, ear.b, ear.a, ear.said, false);
      var e := Heard(s, ear, false);
      OtherWay(s.b, s.a, e.b, e.a, false, e.said);
    }
  }

  lemma {:induction false} OverheardTuned<S(!new)>(g: L.Game<S>, s: L.Sys<S>, ear: Ear, ems: seq<EarMove<S>>)
    requires Tuned(g, s, ear) && Overheard(g, s, ear, ems)
    ensures InLockstep(EarAfter(g, s, ear, ems).said)
    decreases |ems|
  {
    if ems == [] {
      assert InLockstep(ear.said);
    } else {
      hide Tuned, L.Possible, Steppable, L.Timely, L.StepA, InTime, InLockstep;
      match ems[0]
      case Plays(mv) =>
        PlayTuned(g, s, ear, mv);
        OverheardTuned(g, Step(g, s, mv), ear, ems[1..]);
      case Listens(byA) =>
        ListenTuned(g, s, ear, byA);
        OverheardTuned(g, s, Heard(s, ear, byA), ems[1..]);
    }
  }

  lemma BeginTuned<S(!new)>(g: L.Game<S>, junkA: Cells, junkB: Cells)
    ensures Tuned(g, Begin(g, junkA, junkB), Ear(0, 0, []))
  {
    hide L.Half;
    var s := Begin(g, junkA, junkB);
    FreshHalf(g, s.a, s.b, false, junkA, junkB);
    FreshHalf(g, s.b, s.a, true, junkB, junkA);
    assert L.Pending(s.a) == [] && L.Pending(s.b) == [];
  }

  /** TWO CONSOLES IN LOCKSTEP. In every timely run from power-up, and every order in which
      the relay hears each record after it is written and before it is read, no console
      reports more than three ticks past what the relay has heard from the other. */
  lemma ConsolesInLockstep<S(!new)>(g: L.Game<S>, junkA: Cells, junkB: Cells, ems: seq<EarMove<S>>)
    requires Overheard(g, Begin(g, junkA, junkB), Ear(0, 0, []), ems)
    ensures InLockstep(EarAfter(g, Begin(g, junkA, junkB), Ear(0, 0, []), ems).said)
  {
    hide Tuned, Overheard, EarAfter;
    BeginTuned(g, junkA, junkB);
    OverheardTuned(g, Begin(g, junkA, junkB), Ear(0, 0, []), ems);
  }

  /** SILENCE AFTER RE-PAIRING. When the two first reports fall in different rebuilt laps,
      the relay, in whatever order it hears the consoles' records, compares nothing in the
      whole match. */
  lemma RepairedMatchIsSilent<S(!new)>(g: L.Game<S>, junkA: Cells, junkB: Cells, ems: seq<EarMove<S>>, p0: Pair)
    requires Overheard(g, Begin(g, junkA, junkB), Ear(0, 0, []), ems) && Cleared(p0)
    requires DifferentLaps(p0, EarAfter(g, Begin(g, junkA, junkB), Ear(0, 0, []), ems).said)
    ensures AllUnpaired(p0, EarAfter(g, Begin(g, junkA, junkB), Ear(0, 0, []), ems).said)
  {
    hide Overheard, EarAfter, DifferentLaps;
    ConsolesInLockstep(g, junkA, junkB, ems);
    NeverCompared(p0, EarAfter(g, Begin(g, junkA, junkB), Ear(0, 0, []), ems).said);
  }
}
