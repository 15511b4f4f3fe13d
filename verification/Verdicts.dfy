/** The relay's checksum verdicts: laps rebuilt from eight-bit ticks, an
    insertion-ordered log per console, eviction by age, and what a mismatch proves. */
module Verdicts {
  import opened Bytes

  datatype Option<+T> = None | Some(value: T)

  // -------------------------------------------------------------- a dict in insertion order

  datatype Entry = Entry(key: int, crc: u8)

  /** `self.crc`: a Python dict keyed by lap * 256 + tick, oldest entry first. */
  type Log = seq<Entry>

  ghost predicate Distinct(l: Log) {
    forall i, j :: 0 <= i < j < |l| ==> l[i].key != l[j].key
  }

  function Find(l: Log, key: int): (i: int)
    ensures -1 <= i < |l|
    ensures i >= 0 ==> l[i].key == key
    ensures i < 0 ==> forall j :: 0 <= j < |l| ==> l[j].key != key
    ensures forall j :: 0 <= j < i ==> l[j].key != key
  {
    if l == [] then -1
    else if l[0].key == key then 0
    else
      var i := Find(l[1..], key);
      assert forall j :: 1 <= j < |l| ==> l[j] == l[1..][j - 1];
      if i < 0 then -1 else i + 1
  }

  /** `d[key] = crc`: a known key keeps its age, a new one is the youngest. */
  function Put(l: Log, key: int, crc: u8): (r: Log)
    ensures Distinct(l) ==> Distinct(r)
  {
    var i := Find(l, key);
    if i >= 0 then l[i := Entry(key, crc)] else l + [Entry(key, crc)]
  }

  /** `d.pop(key)`. */
  function Pop(l: Log, key: int): (r: Log)
    ensures Distinct(l) ==> Distinct(r)
  {
    var i := Find(l, key);
    if i >= 0 then l[..i] + l[i + 1..] else l
  }

  /** `while len(d) > 8: d.pop(next(iter(d)))`. */
  function Evict(l: Log): Log {
    if |l| > 8 then l[|l| - 8..] else l
  }

  // -------------------------------------------------------------- one console's reports

  datatype Side = Side(log: Log, lap: nat, last: Option<u8>)

  const NEW_SIDE := Side([], 0, None)

  /** The lap after a tick: a forward move that lands on a smaller byte is a wrap. */
  function NextLap(s: Side, tick: u8): nat {
    if s.last.Some? && 0 < (tick - s.last.value) % 256 < 128 && tick < s.last.value then s.lap + 1 else s.lap
  }

  function KeyOf(s: Side, tick: u8): nat {
    NextLap(s, tick) * 256 + tick
  }

  datatype Verdict = Unpaired | Agree | Mismatch

  datatype Outcome = Outcome(mine: Side, theirs: Option<Side>, verdict: Verdict)

  /** `log_crc`: a report from one console, its partner's side beside it if it has one. */
  function Report(c: Side, p: Option<Side>, tick: u8, crc: u8): Outcome {
    var key := KeyOf(c, tick);
    var mine := Side(Put(c.log, key, crc), NextLap(c, tick), Some(tick));
    var i := if p.Some? then Find(p.value.log, key) else -1;
    if i < 0 then Outcome(mine.(log := Evict(mine.log)), p, Unpaired)
    else Outcome(mine, Some(p.value.(log := Pop(p.value.log, key))),
                 if p.value.log[i].crc != crc then Mismatch else Agree)
  }

  // -------------------------------------------------------------- laps

  /** How far a console's keys are from its true ticks. */
  predicate InStep(s: Side, true_: int, offset: int) {
    s.last == Some(Wrap(true_)) && s.lap * 256 + s.last.value == true_ + offset
  }

  /** LAP RECONSTRUCTION. If the true tick moves by d, |d| <= 127, the key moves with it
      exactly when the move is not a step back across a wrap: always for d >= 0, over any
      number of wraps, and for d < 0 only inside a lap. */
  lemma LapIsExact(s: Side, t: int, offset: int, d: int)
    requires InStep(s, t, offset) && -128 < d < 128
    ensures KeyOf(s, Wrap(t + d)) == t + d + offset <==> d >= 0 || Wrap(t) + d >= 0
  {
    var last, tick := Wrap(t), Wrap(t + d);
    var q := t / 256;
    assert t == 256 * q + last;
    if 0 <= last + d < 256 {
      ModShift(last + d, q);
      assert tick == last + d;
    } else if last + d >= 256 {
      ModShift(last + d - 256, q + 1);
      assert tick == last + d - 256;
    } else {
      ModShift(last + d + 256, q - 1);
      assert tick == last + d + 256;
    }
    assert (tick - last) % 256 == if d >= 0 then d else d + 256;
  }

  // -------------------------------------------------------------- soundness

  /** A report as it really was: who, the unbounded tick, the checksum. */
  datatype Real = Real(byA: bool, tick: int, crc: u8)

  datatype Pair = Pair(a: Side, b: Side)

  function Hear(p: Pair, r: Real): Pair {
    var o := if r.byA then Report(p.a, Some(p.b), Wrap(r.tick), r.crc) else Report(p.b, Some(p.a), Wrap(r.tick), r.crc);
    if o.theirs.None? then p
    else if r.byA then Pair(o.mine, o.theirs.value) else Pair(o.theirs.value, o.mine)
  }

  function VerdictOn(p: Pair, r: Real): Verdict {
    if r.byA then Report(p.a, Some(p.b), Wrap(r.tick), r.crc).verdict
    else Report(p.b, Some(p.a), Wrap(r.tick), r.crc).verdict
  }

  /** The reports of one match, in arrival order, heard from sides `p0`. */
  function HearAll(p0: Pair, rs: seq<Real>): Pair
    decreases |rs|
  {
    if rs == [] then p0 else Hear(HearAll(p0, rs[..|rs| - 1]), rs[|rs| - 1])
  }

  /** The last and the first tick a console has reported, if any. */
  function LastTick(rs: seq<Real>, byA: bool): Option<int>
    decreases |rs|
  {
    if rs == [] then None
    else if rs[|rs| - 1].byA == byA then Some(rs[|rs| - 1].tick)
    else LastTick(rs[..|rs| - 1], byA)
  }

  function FirstTick(rs: seq<Real>, byA: bool): Option<int>
    ensures FirstTick(rs, byA).Some? <==> LastTick(rs, byA).Some?
    decreases |rs|
  {
    if rs == [] then None
    else
      var early := FirstTick(rs[..|rs| - 1], byA);
      if early.None? && rs[|rs| - 1].byA == byA then Some(rs[|rs| - 1].tick) else early
  }

  /** Forward tick streams: after its first report a console moves on by 0 to 127. */
  ghost predicate Streams(rs: seq<Real>)
    decreases |rs|
  {
    rs == [] ||
    (var r := rs[|rs| - 1];
     var before := LastTick(rs[..|rs| - 1], r.byA);
     && Streams(rs[..|rs| - 1])
     && (before.Some? ==> before.value <= r.tick <= before.value + 127))
  }

  /** How far a side that starts as `s0` will be from the truth: settled by the lap and
      the last byte it already had when its first report came. */
  function Offset(s0: Side, rs: seq<Real>, byA: bool): int {
    var t := FirstTick(rs, byA);
    if t.None? then 0 else KeyOf(s0, Wrap(t.value)) - t.value
  }

  /** A match's first moment: `try_pair` has cleared both logs, and nothing else. */
  predicate Cleared(p0: Pair) {
    p0.a.log == [] && p0.b.log == []
  }

  /** The report a log entry came from. */
  function Source(e: Entry, byA: bool, offset: int): Real {
    Real(byA, e.key - offset, e.crc)
  }

  /** Every entry of a log is a report that console really made. */
  ghost predicate Honest(l: Log, rs: seq<Real>, byA: bool, offset: int) {
    forall e :: e in l ==> Source(e, byA, offset) in rs
  }

  ghost predicate Tracks(s: Side, s0: Side, rs: seq<Real>, byA: bool) {
    && Honest(s.log, rs, byA, Offset(s0, rs, byA))
    && (if LastTick(rs, byA).None? then s == s0.(log := [])
        else InStep(s, LastTick(rs, byA).value, Offset(s0, rs, byA)))
  }

  /** What a new report does to the truth. */
  lemma MoreReports(s0: Side, rs: seq<Real>, r: Real, byA: bool)
    ensures (rs + [r])[..|rs + [r]| - 1] == rs
    ensures LastTick(rs, byA).Some? || r.byA != byA ==> Offset(s0, rs + [r], byA) == Offset(s0, rs, byA)
    ensures LastTick(rs, byA).None? && r.byA == byA ==> Offset(s0, rs + [r], byA) == KeyOf(s0, Wrap(r.tick)) - r.tick
    ensures LastTick(rs + [r], byA) == if r.byA == byA then Some(r.tick) else LastTick(rs, byA)
  {
    assert (rs + [r])[..|rs + [r]| - 1] == rs;
  }

  lemma KeyIsTrueTick(s: Side, s0: Side, rs: seq<Real>, r: Real)
    requires Streams(rs + [r]) && Tracks(s, s0, rs, r.byA)
    ensures KeyOf(s, Wrap(r.tick)) == r.tick + Offset(s0, rs + [r], r.byA)
  {
    MoreReports(s0, rs, r, r.byA);
    var before := LastTick(rs, r.byA);
    if before.Some? {
      LapIsExact(s, before.value, Offset(s0, rs, r.byA), r.tick - before.value);
      assert before.value + (r.tick - before.value) == r.tick;
    }
  }

  lemma HonestMore(l: Log, rs: seq<Real>, r: Real, byA: bool, offset: int)
    requires Honest(l, rs, byA, offset)
    ensures Honest(l, rs + [r], byA, offset)
  {
  }

  lemma PutHas(l: Log, key: int, crc: u8, e: Entry)
    requires e in Put(l, key, crc)
    ensures e in l || e == Entry(key, crc)
  {
  }

  lemma PopHas(l: Log, key: int, e: Entry)
    requires e in Pop(l, key)
    ensures e in l
  {
  }

  lemma LogChanges(l: Log, key: int, crc: u8, rs: seq<Real>, byA: bool, offset: int)
    requires Honest(l, rs, byA, offset)
    ensures Honest(Pop(l, key), rs, byA, offset)
    ensures Honest(Evict(l), rs, byA, offset)
    ensures Source(Entry(key, crc), byA, offset) in rs ==> Honest(Put(l, key, crc), rs, byA, offset)
  {
    hide Source, Put, Pop;
    forall e | e in Put(l, key, crc) ensures e in l || e == Entry(key, crc) {
      PutHas(l, key, crc, e);
    }
    forall e | e in Pop(l, key) ensures e in l {
      PopHas(l, key, e);
    }
  }

  /** The reporting console's side after a report whose key is `key`. */
  lemma MineTracks(c: Side, c0: Side, rs: seq<Real>, r: Real, evicted: bool)
    requires Streams(rs + [r]) && Tracks(c, c0, rs, r.byA)
    ensures var put := Put(c.log, KeyOf(c, Wrap(r.tick)), r.crc);
      var log := if evicted then Evict(put) else put;
      Tracks(Side(log, NextLap(c, Wrap(r.tick)), Some(Wrap(r.tick))), c0, rs + [r], r.byA)
  {
    var rs' := rs + [r];
    KeyIsTrueTick(c, c0, rs, r);
    MoreReports(c0, rs, r, r.byA);
    var offset := Offset(c0, rs', r.byA);
    var key := KeyOf(c, Wrap(r.tick));
    assert r in rs' && Source(Entry(key, r.crc), r.byA, offset) == r;
    if LastTick(rs, r.byA).Some? {
      HonestMore(c.log, rs, r, r.byA, offset);
    }
    hide Streams, Offset, Put, Evict, LastTick;
    LogChanges(c.log, key, r.crc, rs', r.byA, offset);
    LogChanges(Put(c.log, key, r.crc), key, r.crc, rs', r.byA, offset);
  }

  lemma TheirsTracks(p: Side, p0: Side, rs: seq<Real>, r: Real, key: int)
    requires Tracks(p, p0, rs, !r.byA)
    ensures Tracks(p, p0, rs + [r], !r.byA)
    ensures Tracks(p.(log := Pop(p.log, key)), p0, rs + [r], !r.byA)
  {
    MoreReports(p0, rs, r, !r.byA);
    var offset := Offset(p0, rs, !r.byA);
    HonestMore(p.log, rs, r, !r.byA, offset);
    hide Offset, LastTick;
    LogChanges(p.log, key, 0, rs + [r], !r.byA, offset);
  }

  lemma ReportTracks(c: Side, p: Side, c0: Side, p0: Side, rs: seq<Real>, r: Real)
    requires Streams(rs + [r]) && Tracks(c, c0, rs, r.byA) && Tracks(p, p0, rs, !r.byA)
    ensures var o := Report(c, Some(p), Wrap(r.tick), r.crc);
      && o.theirs.Some?
      && Tracks(o.mine, c0, rs + [r], r.byA) && Tracks(o.theirs.value, p0, rs + [r], !r.byA)
  {
    var key := KeyOf(c, Wrap(r.tick));
    MineTracks(c, c0, rs, r, true);
    MineTracks(c, c0, rs, r, false);
    TheirsTracks(p, p0, rs, r, key);
    hide Tracks, Streams, Put, Pop, Evict, NextLap;
  }

  lemma ReportMeans(c: Side, p: Side, c0: Side, p0: Side, rs: seq<Real>, r: Real)
    requires Streams(rs + [r]) && Tracks(c, c0, rs, r.byA) && Tracks(p, p0, rs, !r.byA)
    ensures var o := Report(c, Some(p), Wrap(r.tick), r.crc);
      o.verdict != Unpaired ==>
        var t := r.tick + Offset(c0, rs + [r], r.byA) - Offset(p0, rs, !r.byA);
        exists x :: x in rs && x.byA != r.byA && x.tick == t && (o.verdict == Mismatch <==> x.crc != r.crc)
  {
    KeyIsTrueTick(c, c0, rs, r);
    var key := KeyOf(c, Wrap(r.tick));
    var i := Find(p.log, key);
    if i >= 0 {
      var x := Source(p.log[i], !r.byA, Offset(p0, rs, !r.byA));
      assert Honest(p.log, rs, !r.byA, Offset(p0, rs, !r.byA));
      hide Offset, Streams, Put, Pop, Evict, NextLap, Tracks;
      assert x in rs;
    }
  }

  lemma {:induction false} HearAllTracks(p0: Pair, rs: seq<Real>)
    requires Streams(rs) && Cleared(p0)
    ensures Tracks(HearAll(p0, rs).a, p0.a, rs, true) && Tracks(HearAll(p0, rs).b, p0.b, rs, false)
    decreases |rs|
  {
    if rs != [] {
      hide Report, Tracks;
      var rs0, r := rs[..|rs| - 1], rs[|rs| - 1];
      HearAllTracks(p0, rs0);
      assert rs0 + [r] == rs;
      var p := HearAll(p0, rs0);
      if r.byA {
        ReportTracks(p.a, p.b, p0.a, p0.b, rs0, r);
      } else {
        ReportTracks(p.b, p.a, p0.b, p0.a, rs0, r);
      }
    }
  }

  /** The distance between what two consoles call the same tick. */
  function Apart(p0: Pair, rs: seq<Real>, byA: bool): int {
    if byA then Offset(p0.a, rs, true) - Offset(p0.b, rs, false) else Offset(p0.b, rs, false) - Offset(p0.a, rs, true)
  }

  /** WHAT A VERDICT COMPARES. Under any arrival order, any duplication and any eviction,
      every verdict is about one report of each console; their ticks differ by exactly the
      distance between the two offsets; and it is a mismatch exactly when the checksums
      differ. */
  lemma VerdictCompares(p0: Pair, rs: seq<Real>, r: Real)
    requires Streams(rs + [r]) && Cleared(p0)
    ensures VerdictOn(HearAll(p0, rs), r) != Unpaired ==>
      exists x :: x in rs && x.byA != r.byA && x.tick == r.tick + Apart(p0, rs + [r], r.byA)
               && (VerdictOn(HearAll(p0, rs), r) == Mismatch <==> x.crc != r.crc)
  {
    assert (rs + [r])[..|rs + [r]| - 1] == rs;
    HearAllTracks(p0, rs);
    var p := HearAll(p0, rs);
    MoreReports(p0.a, rs, r, true);
    MoreReports(p0.b, rs, r, false);
    hide Report, Tracks, Offset;
    if r.byA {
      ReportMeans(p.a, p.b, p0.a, p0.b, rs, r);
    } else {
      ReportMeans(p.b, p.a, p0.b, p0.a, rs, r);
    }
  }

  /** Both consoles' first reports of a match fall in the first lap of the true tick. */
  predicate StartsLow(rs: seq<Real>) {
    forall byA :: FirstTick(rs, byA).Some? ==> 0 <= FirstTick(rs, byA).value < 256
  }

  /** MISMATCH SOUNDNESS. Between fresh clients, every mismatch is two reports of the same
      absolute tick, one from each console, with different checksums. */
  lemma MismatchIsReal(rs: seq<Real>, r: Real)
    requires Streams(rs + [r]) && StartsLow(rs + [r])
    ensures var p := HearAll(Pair(NEW_SIDE, NEW_SIDE), rs);
      VerdictOn(p, r) == Mismatch ==>
        exists x :: x in rs && x.byA != r.byA && x.tick == r.tick && x.crc != r.crc
  {
    hide Report;
    VerdictCompares(Pair(NEW_SIDE, NEW_SIDE), rs, r);
    FreshOffset(rs + [r], true);
    FreshOffset(rs + [r], false);
  }

  lemma FreshOffset(rs: seq<Real>, byA: bool)
    requires StartsLow(rs)
    ensures Offset(NEW_SIDE, rs, byA) == 0
  {
    var t := FirstTick(rs, byA);
    if t.Some? {
      assert Wrap(t.value) == t.value;
    }
  }

  /** RE-PAIRING. Pairing clears the logs but not the lap or the last byte. A match between
      used clients compares equal ticks exactly when the two first reports fall in the same
      reconstructed lap; otherwise what it compares lies whole laps apart. */
  lemma RepairedClients(p0: Pair, rs: seq<Real>, ta: int, tb: int)
    requires Cleared(p0) && Streams(rs) && StartsLow(rs)
    requires FirstTick(rs, true) == Some(ta) && FirstTick(rs, false) == Some(tb)
    ensures Apart(p0, rs, true) == 256 * (NextLap(p0.a, ta) - NextLap(p0.b, tb))
    ensures Apart(p0, rs, true) == 0 <==> NextLap(p0.a, ta) == NextLap(p0.b, tb)
  {
    assert Wrap(ta) == ta && Wrap(tb) == tb;
  }

  /** Such a pair exists: one client comes from a match that ended in lap 1, the other is
      new. Both report tick 2 with different checksums and the relay says nothing. */
  lemma RepairedClientsAreNotCompared(used: Side)
    requires used == Side([], 1, Some(1))
    ensures var p := Pair(used, NEW_SIDE); var rs := [Real(true, 2, 7)];
      && Streams(rs + [Real(false, 2, 8)]) && StartsLow(rs + [Real(false, 2, 8)])
      && VerdictOn(HearAll(p, rs), Real(false, 2, 8)) == Unpaired
  {
    var p := Pair(used, NEW_SIDE);
    var rs := [Real(true, 2, 7)];
    var both := rs + [Real(false, 2, 8)];
    assert Wrap(2) == 2;
    FirstReport(used);
    assert rs[..0] == [] && both[..1] == rs;
    assert HearAll(p, []) == p;
    assert HearAll(p, rs) == Hear(p, Real(true, 2, 7));
    hide Report, Hear, HearAll;
    SecondReport(NEW_SIDE, Side([Entry(258, 7)], 1, Some(2)));
    assert FirstTick(rs, true) == Some(2) && FirstTick(both, true) == Some(2);
    assert FirstTick(rs, false) == None && FirstTick(both, false) == Some(2);
  }

  lemma FirstReport(used: Side)
    requires used == Side([], 1, Some(1))
    ensures Report(used, Some(NEW_SIDE), 2, 7) == Outcome(Side([Entry(258, 7)], 1, Some(2)), Some(NEW_SIDE), Unpaired)
  {
  }

  lemma SecondReport(c: Side, p: Side)
    requires c == NEW_SIDE && p == Side([Entry(258, 7)], 1, Some(2))
    ensures Report(c, Some(p), 2, 8).verdict == Unpaired
  {
    assert KeyOf(c, 2) == 2;
    assert Find(p.log, 2) < 0;
  }

  // -------------------------------------------------------------- how long a log gets

  /** Eviction runs only when a report finds no partner entry: then at most eight stay. A
      report that is paired keeps its own entry, so a console that always reports second
      grows its log by one with every fresh tick. */
  lemma LogGrows(c: Side, p: Option<Side>, tick: u8, crc: u8)
    requires Distinct(c.log) && (p.Some? ==> Distinct(p.value.log))
    ensures var o := Report(c, p, tick, crc);
      && Distinct(o.mine.log) && (o.theirs.Some? ==> Distinct(o.theirs.value.log))
      && (o.verdict == Unpaired ==> |o.mine.log| <= 8)
      && (o.verdict != Unpaired ==>
            && |o.theirs.value.log| == |p.value.log| - 1
            && |o.mine.log| == |c.log| + (if Find(c.log, KeyOf(c, tick)) < 0 then 1 else 0))
  {
  }

  /** One tick of a match in which `a` always reports first: `b` keeps every entry. */
  function BothReport(n: nat): Pair
  {
    if n == 0 then Pair(NEW_SIDE, NEW_SIDE)
    else Hear(Hear(BothReport(n - 1), Real(true, n - 1, 0)), Real(false, n - 1, 0))
  }

  /** What the two sides are after n such ticks. */
  ghost predicate Lopsided(p: Pair, n: nat) {
    && p.a == Side([], LapOf(n), LastOf(n))
    && p.b.lap == LapOf(n) && p.b.last == LastOf(n) && |p.b.log| == n
    && (forall i :: 0 <= i < n ==> p.b.log[i] == Entry(i, 0))
  }

  lemma FirstOfTheTick(p: Pair, t: nat)
    requires Lopsided(p, t)
    ensures Hear(p, Real(true, t, 0)) == Pair(Side([Entry(t, 0)], LapOf(t + 1), LastOf(t + 1)), p.b)
  {
    LapMoves([], t);
    assert Find(p.b.log, t) < 0;
  }

  lemma SecondOfTheTick(p: Pair, t: nat)
    requires Lopsided(p.(a := Side([], LapOf(t), LastOf(t))), t) && p.a.log == [Entry(t, 0)]
    ensures Hear(p, Real(false, t, 0)) ==
      Pair(p.a.(log := []), Side(p.b.log + [Entry(t, 0)], LapOf(t + 1), LastOf(t + 1)))
  {
    LapMoves(p.b.log, t);
    assert Find(p.b.log, t) < 0;
    assert Find(p.a.log, t) == 0;
    assert Pop(p.a.log, t) == [];
  }

  lemma WholeTick(p: Pair, t: nat)
    requires Lopsided(p, t)
    ensures var p' := Hear(Hear(p, Real(true, t, 0)), Real(false, t, 0));
      Lopsided(p', t + 1) && |p'.b.log| == t + 1
  {
    FirstOfTheTick(p, t);
    SecondOfTheTick(Hear(p, Real(true, t, 0)), t);
    hide Hear, LapOf, LastOf;
  }

  /** NO BOUND. After n ticks of that match the second console's log holds n entries, so
      no array of fixed size holds every log. */
  lemma {:induction false} SecondReporterGrows(n: nat)
    ensures Lopsided(BothReport(n), n) && |BothReport(n).b.log| == n
  {
    assert n == 0 ==> Lopsided(BothReport(n), n);
    if n > 0 {
      hide Hear, Lopsided;
      SecondReporterGrows(n - 1);
      WholeTick(BothReport(n - 1), n - 1);
    }
  }

  function LapOf(n: nat): nat { if n == 0 then 0 else (n - 1) / 256 }
  function LastOf(n: nat): Option<u8> { if n == 0 then None else Some(Wrap(n - 1)) }

  lemma LapMoves(l: Log, t: nat)
    ensures var s := Side(l, LapOf(t), LastOf(t)); KeyOf(s, Wrap(t)) == t && NextLap(s, Wrap(t)) == LapOf(t + 1)
  {
    if t > 0 {
      var s := Side(l, LapOf(t), LastOf(t));
      assert InStep(s, t - 1, 0);
      LapIsExact(s, t - 1, 0, 1);
      assert (t - 1) + 1 == t;
    }
  }
}
