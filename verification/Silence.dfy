/** What becomes of a match between two clients that come from earlier matches in different
    laps: the relay compares nothing, however long it lasts. */
module Silence {
  import opened Bytes
  import opened Verdicts

  // -------------------------------------------------------------- what consoles' reports do

  /** The last tick heard from a console, counting the seeded tick 1 as heard. */
  function LastHeard(rs: seq<Real>, byA: bool): int {
    var last := LastTick(rs, byA);
    if last.Some? && last.value > 1 then last.value else 1
  }

  /** Reports as two consoles in lockstep make them: no console reports more than three
      ticks past what was heard from the other, and none skips more than six. */
  ghost predicate InLockstep(rs: seq<Real>)
    decreases |rs|
  {
    rs == [] ||
    (var r := rs[|rs| - 1];
     var rs0 := rs[..|rs| - 1];
     var before := LastTick(rs0, r.byA);
     && InLockstep(rs0)
     && 0 <= r.tick <= LastHeard(rs0, !r.byA) + 3
     && (before.Some? ==> before.value <= r.tick <= before.value + 6))
  }

  lemma {:induction false} LockstepStreams(rs: seq<Real>)
    requires InLockstep(rs)
    ensures Streams(rs)
    decreases |rs|
  {
    if rs != [] {
      LockstepStreams(rs[..|rs| - 1]);
    }
  }

  /** The two consoles' last ticks stay within four of each other. */
  lemma {:induction false} StayTogether(rs: seq<Real>, byA: bool)
    requires InLockstep(rs)
    ensures LastHeard(rs, byA) <= LastHeard(rs, !byA) + 3
    ensures LastTick(rs, byA).Some? ==> LastTick(rs, byA).value >= 0
    decreases |rs|
  {
    if rs != [] {
      StayTogether(rs[..|rs| - 1], byA);
    }
  }

  /** Each console's first report comes within its first ticks. */
  lemma {:induction false} FirstIsLow(rs: seq<Real>, byA: bool)
    requires InLockstep(rs)
    ensures FirstTick(rs, byA).Some? ==> 0 <= FirstTick(rs, byA).value <= 7
    decreases |rs|
  {
    if rs != [] {
      FirstIsLow(rs[..|rs| - 1], byA);
      StayTogether(rs[..|rs| - 1], !byA);
    }
  }

  lemma LockstepStartsLow(rs: seq<Real>)
    requires InLockstep(rs)
    ensures StartsLow(rs)
  {
    forall byA ensures FirstTick(rs, byA).Some? ==> 0 <= FirstTick(rs, byA).value < 256 {
      FirstIsLow(rs, byA);
    }
  }

  // -------------------------------------------------------------- the log of an unpaired console

  /** At most eight entries, each one to six ticks after the one before, the last at `k`. */
  ghost predicate Ladder(l: Log, k: int) {
    l == [] ||
    (|l| <= 8 && l[|l| - 1].key == k && forall i {:trigger Rung(l, i)} :: 0 < i < |l| ==> Rung(l, i))
  }

  predicate Rung(l: Log, i: nat)
    requires 0 < i < |l|
  {
    l[i - 1].key < l[i].key <= l[i - 1].key + 6
  }

  lemma {:induction false} LadderAt(l: Log, k: int, i: nat)
    requires Ladder(l, k) && i < |l|
    ensures k - 6 * (|l| - 1 - i) <= l[i].key <= k
    ensures i < |l| - 1 ==> l[i].key < k
    decreases |l| - i
  {
    if i < |l| - 1 {
      assert Rung(l, i + 1);
      LadderAt(l, k, i + 1);
    }
  }

  lemma LadderSpan(l: Log, k: int, key: int)
    requires Ladder(l, k) && Find(l, key) >= 0
    ensures k - 42 <= key <= k
  {
    LadderAt(l, k, Find(l, key));
  }

  lemma LadderPut(l: Log, k: int, key: int, crc: u8)
    requires Ladder(l, k) && (l != [] ==> k <= key <= k + 6)
    ensures Ladder(Evict(Put(l, key, crc)), key)
  {
    var i := Find(l, key);
    if i >= 0 {
      LadderAt(l, k, i);
      LadderSame(l, k, crc);
    } else {
      if l != [] {
        assert l[|l| - 1].key != key;
      }
      LadderSnoc(l, k, key, crc);
    }
  }

  lemma LadderSame(l: Log, k: int, crc: u8)
    requires Ladder(l, k) && l != []
    ensures Ladder(Evict(l[|l| - 1 := Entry(k, crc)]), k)
  {
    var l' := l[|l| - 1 := Entry(k, crc)];
    forall i | 0 < i < |l'| ensures Rung(l', i) {
      assert Rung(l, i);
    }
  }

  lemma LadderSnoc(l: Log, k: int, key: int, crc: u8)
    requires Ladder(l, k) && (l != [] ==> k < key <= k + 6)
    ensures Ladder(Evict(l + [Entry(key, crc)]), key)
  {
    var l' := l + [Entry(key, crc)];
    var e := Evict(l');
    forall i | 0 < i < |e| ensures Rung(e, i) {
      var j := |l'| - |e| + i;
      assert e[i] == l'[j] && e[i - 1] == l'[j - 1];
      assert j < |l| ==> Rung(l, j);
    }
  }

  // -------------------------------------------------------------- the invariant

  /** One console's log while nothing has been paired. */
  ghost predicate Quiet(s: Side, s0: Side, rs: seq<Real>, byA: bool) {
    var last := LastTick(rs, byA);
    if last.None? then s.log == [] else Ladder(s.log, last.value + Offset(s0, rs, byA))
  }

  /** The two consoles' first reports fall in different rebuilt laps. */
  ghost predicate DifferentLaps(p0: Pair, rs: seq<Real>) {
    FirstTick(rs, true).Some? && FirstTick(rs, false).Some? ==>
      NextLap(p0.a, FirstTick(rs, true).value % 256) != NextLap(p0.b, FirstTick(rs, false).value % 256)
  }

  ghost predicate AllUnpaired(p0: Pair, rs: seq<Real>)
    decreases |rs|
  {
    rs == [] ||
    (AllUnpaired(p0, rs[..|rs| - 1]) && VerdictOn(HearAll(p0, rs[..|rs| - 1]), rs[|rs| - 1]) == Unpaired)
  }

  /** Whole laps lie between two keys of one tick. */
  lemma LapsApart(p0: Pair, rs: seq<Real>)
    requires StartsLow(rs) && DifferentLaps(p0, rs) && FirstTick(rs, true).Some? && FirstTick(rs, false).Some?
    ensures var d := Offset(p0.a, rs, true) - Offset(p0.b, rs, false); d >= 256 || d <= -256
  {
    var ta, tb := FirstTick(rs, true).value, FirstTick(rs, false).value;
    assert Wrap(ta) == ta && Wrap(tb) == tb;
  }

  /** The reporter finds nothing under its key. */
  lemma NothingFound(c: Side, o: Side, c0: Side, o0: Side, rs: seq<Real>, r: Real)
    requires InLockstep(rs + [r]) && Tracks(c, c0, rs, r.byA) && Quiet(o, o0, rs, !r.byA)
    requires LastTick(rs, !r.byA).Some? ==>
      var d := Offset(c0, rs + [r], r.byA) - Offset(o0, rs, !r.byA); d >= 256 || d <= -256
    ensures Find(o.log, KeyOf(c, Wrap(r.tick))) < 0
  {
    var key := KeyOf(c, Wrap(r.tick));
    LockstepStreams(rs + [r]);
    KeyIsTrueTick(c, c0, rs, r);
    assert (rs + [r])[..|rs + [r]| - 1] == rs;
    StayTogether(rs, r.byA);
    StayTogether(rs, !r.byA);
    hide Offset, KeyOf, Tracks, Streams, Find, Ladder;
    if Find(o.log, key) >= 0 && LastTick(rs, !r.byA).Some? {
      LadderSpan(o.log, LastTick(rs, !r.byA).value + Offset(o0, rs, !r.byA), key);
      ReportNear(rs, r);
    }
  }

  /** A report is within four ticks of the other console's last. */
  lemma ReportNear(rs: seq<Real>, r: Real)
    requires InLockstep(rs + [r]) && LastTick(rs, !r.byA).Some?
    ensures -4 <= r.tick - LastTick(rs, !r.byA).value <= 4
  {
    assert (rs + [r])[..|rs + [r]| - 1] == rs;
    StayTogether(rs, r.byA);
    StayTogether(rs, !r.byA);
  }

  /** The reporter's own log goes on being a ladder. */
  lemma StaysQuiet(c: Side, c0: Side, rs: seq<Real>, r: Real)
    requires InLockstep(rs + [r]) && Tracks(c, c0, rs, r.byA) && Quiet(c, c0, rs, r.byA)
    ensures Quiet(Side(Evict(Put(c.log, KeyOf(c, Wrap(r.tick)), r.crc)), NextLap(c, Wrap(r.tick)), Some(Wrap(r.tick))),
                  c0, rs + [r], r.byA)
  {
    LockstepStreams(rs + [r]);
    KeyIsTrueTick(c, c0, rs, r);
    MoreReports(c0, rs, r, r.byA);
    var key := KeyOf(c, Wrap(r.tick));
    var last := LastTick(rs, r.byA);
    assert (rs + [r])[..|rs + [r]| - 1] == rs;
    hide Offset, KeyOf, Tracks, Streams, Put, Evict, Ladder;
    if last.Some? {
      LadderPut(c.log, last.value + Offset(c0, rs, r.byA), key, r.crc);
    } else {
      LadderPut(c.log, key, key, r.crc) by { assert Ladder([], key) by { EmptyLadder(key); } }
    }
  }

  lemma EmptyLadder(k: int)
    ensures Ladder([], k)
  {
  }

  lemma OtherQuiet(o: Side, o0: Side, rs: seq<Real>, r: Real)
    requires Quiet(o, o0, rs, !r.byA)
    ensures Quiet(o, o0, rs + [r], !r.byA)
  {
    MoreReports(o0, rs, r, !r.byA);
    hide Offset, Ladder, LastTick;
  }

  lemma ReportQuiet(c: Side, o: Side, c0: Side, o0: Side, rs: seq<Real>, r: Real)
    requires InLockstep(rs + [r]) && Tracks(c, c0, rs, r.byA)
    requires Quiet(c, c0, rs, r.byA) && Quiet(o, o0, rs, !r.byA)
    requires LastTick(rs, !r.byA).Some? ==>
      var d := Offset(c0, rs + [r], r.byA) - Offset(o0, rs, !r.byA); d >= 256 || d <= -256
    ensures var t := Report(c, Some(o), Wrap(r.tick), r.crc);
      && t.verdict == Unpaired && t.theirs == Some(o)
      && Quiet(t.mine, c0, rs + [r], r.byA) && Quiet(o, o0, rs + [r], !r.byA)
  {
    NothingFound(c, o, c0, o0, rs, r);
    StaysQuiet(c, c0, rs, r);
    OtherQuiet(o, o0, rs, r);
    hide Quiet, Tracks, InLockstep, KeyOf, Put, Evict, Find, NextLap;
  }

  /** Once both have reported, the distance between the offsets is settled. */
  lemma Settled(p0: Pair, rs: seq<Real>, r: Real)
    requires StartsLow(rs + [r]) && DifferentLaps(p0, rs + [r]) && LastTick(rs, !r.byA).Some?
    ensures var c0 := if r.byA then p0.a else p0.b; var o0 := if r.byA then p0.b else p0.a;
      var d := Offset(c0, rs + [r], r.byA) - Offset(o0, rs, !r.byA); d >= 256 || d <= -256
  {
    MoreReports(p0.a, rs, r, true);
    MoreReports(p0.b, rs, r, false);
    assert FirstTick(rs + [r], true).Some? && FirstTick(rs + [r], false).Some?;
    hide Offset;
    LapsApart(p0, rs + [r]);
  }

  lemma EarlierFirst(rs: seq<Real>, r: Real, byA: bool)
    ensures FirstTick(rs, byA).Some? ==> FirstTick(rs + [r], byA) == FirstTick(rs, byA)
  {
    assert (rs + [r])[..|rs + [r]| - 1] == rs;
  }

  lemma EarlierHolds(p0: Pair, rs: seq<Real>, r: Real)
    requires InLockstep(rs + [r]) && DifferentLaps(p0, rs + [r])
    ensures InLockstep(rs) && DifferentLaps(p0, rs)
  {
    assert (rs + [r])[..|rs + [r]| - 1] == rs;
    EarlierFirst(rs, r, true);
    EarlierFirst(rs, r, false);
  }

  /** SILENCE. Two clients whose first reports of a match fall in different rebuilt laps are
      never compared: in lockstep, however long the match, every report is unpaired. */
  lemma {:induction false} NeverCompared(p0: Pair, rs: seq<Real>)
    requires Cleared(p0) && InLockstep(rs) && DifferentLaps(p0, rs)
    ensures AllUnpaired(p0, rs)
    ensures Quiet(HearAll(p0, rs).a, p0.a, rs, true) && Quiet(HearAll(p0, rs).b, p0.b, rs, false)
    decreases |rs|
  {
    hide Report, Tracks, Quiet, Ladder, InLockstep, StartsLow, DifferentLaps, Offset, NextLap;
    if rs == [] {
      NothingYet(p0);
    } else {
      var rs0, r := rs[..|rs| - 1], rs[|rs| - 1];
      assert rs0 + [r] == rs;
      EarlierHolds(p0, rs0, r);
      NeverCompared(p0, rs0);
      LockstepStreams(rs0);
      LockstepStartsLow(rs);
      HearAllTracks(p0, rs0);
      var p := HearAll(p0, rs0);
      if LastTick(rs0, !r.byA).Some? {
        Settled(p0, rs0, r);
      }
      if r.byA {
        ReportQuiet(p.a, p.b, p0.a, p0.b, rs0, r);
      } else {
        ReportQuiet(p.b, p.a, p0.b, p0.a, rs0, r);
      }
    }
  }

  lemma NothingYet(p0: Pair)
    requires Cleared(p0)
    ensures AllUnpaired(p0, []) && HearAll(p0, []) == p0
    ensures Quiet(p0.a, p0.a, [], true) && Quiet(p0.b, p0.b, [], false)
  {
  }
}
