/** When a divergence is reported: two reports of one tick do get their verdict, unless the
    first is pushed out of its log before the second comes. */
module Reporting {
  import opened Bytes
  import opened Verdicts

  // -------------------------------------------------------------- an entry in a log

  /** The entry of `key` is there, holds `crc`, and at most `younger` entries are younger. */
  ghost predicate Keeps(l: Log, key: int, crc: u8, younger: int) {
    var i := Find(l, key);
    i >= 0 && l[i].crc == crc && |l| - 1 - i <= younger
  }

  lemma {:induction false} FindAt(l: Log, key: int, i: nat)
    requires i < |l| && l[i].key == key && forall j :: 0 <= j < i ==> l[j].key != key
    ensures Find(l, key) == i
  {
    assert Find(l, key) >= 0;
  }

  lemma PutKeeps(l: Log, key: int, crc: u8, younger: int, k: int, c: u8)
    requires Keeps(l, key, crc, younger) && k != key
    ensures Keeps(Put(l, k, c), key, crc, younger + 1)
  {
    FindAt(Put(l, k, c), key, Find(l, key));
  }

  lemma PutNew(l: Log, key: int, crc: u8)
    ensures Find(l, key) < 0 ==> Keeps(Put(l, key, crc), key, crc, 0)
    ensures Find(l, key) >= 0 ==> Keeps(Put(l, key, crc), key, crc, |l|)
  {
    FindAt(Put(l, key, crc), key, if Find(l, key) < 0 then |l| else Find(l, key));
  }

  /** Ageing spares the eight youngest. */
  lemma EvictKeeps(l: Log, key: int, crc: u8, younger: int)
    requires Keeps(l, key, crc, younger) && younger <= 7
    ensures Keeps(Evict(l), key, crc, younger)
  {
    if |l| > 8 {
      FindAt(Evict(l), key, Find(l, key) - (|l| - 8));
    }
  }

  lemma PopKeeps(l: Log, key: int, crc: u8, younger: int, k: int)
    requires Keeps(l, key, crc, younger) && k != key
    ensures Keeps(Pop(l, k), key, crc, younger)
  {
    var i, j := Find(l, key), Find(l, k);
    if j >= 0 {
      FindAt(Pop(l, k), key, if j < i then i - 1 else i);
    }
  }

  // -------------------------------------------------------------- over the reports in between

  /** How many of some reports one console made. */
  function CountOf(rs: seq<Real>, byA: bool): nat
    decreases |rs|
  {
    if rs == [] then 0 else CountOf(rs[..|rs| - 1], byA) + (if rs[|rs| - 1].byA == byA then 1 else 0)
  }

  ghost predicate NoneOf(rs: seq<Real>, tick: int) {
    forall i :: 0 <= i < |rs| ==> rs[i].tick != tick
  }

  /** A later report of another tick, by either console. */
  lemma ReportKeeps(c: Side, o: Side, key: int, crc: u8, younger: int, tick: u8, sum: u8)
    requires KeyOf(c, tick) != key
    ensures Keeps(c.log, key, crc, younger) && younger < 7 ==>
      Keeps(Report(c, Some(o), tick, sum).mine.log, key, crc, younger + 1)
    ensures Keeps(o.log, key, crc, younger) ==>
      Report(c, Some(o), tick, sum).theirs.Some?
      && Keeps(Report(c, Some(o), tick, sum).theirs.value.log, key, crc, younger)
  {
    hide Keeps, Find, Put, Pop, Evict, KeyOf;
    var k := KeyOf(c, tick);
    if Keeps(c.log, key, crc, younger) {
      PutKeeps(c.log, key, crc, younger, k, sum);
      if younger < 7 {
        EvictKeeps(Put(c.log, k, sum), key, crc, younger + 1);
      }
    }
    if Keeps(o.log, key, crc, younger) {
      PopKeeps(o.log, key, crc, younger, k);
    }
  }

  function SideOf(p: Pair, byA: bool): Side {
    if byA then p.a else p.b
  }

  /** An offset, once there has been a report, is settled. */
  lemma {:induction false} OffsetSettled(s0: Side, rs: seq<Real>, more: seq<Real>, byA: bool)
    requires LastTick(rs, byA).Some?
    ensures Offset(s0, rs + more, byA) == Offset(s0, rs, byA) && LastTick(rs + more, byA).Some?
    decreases |more|
  {
    hide Offset, LastTick;
    if more == [] {
      assert rs + more == rs;
    } else {
      var front, r := more[..|more| - 1], more[|more| - 1];
      assert rs + more == (rs + front) + [r];
      OffsetSettled(s0, rs, front, byA);
      MoreReports(s0, rs + front, r, byA);
    }
  }

  lemma {:induction false} StreamsPrefix(rs: seq<Real>, more: seq<Real>)
    requires Streams(rs + more)
    ensures Streams(rs)
    decreases |more|
  {
    if more == [] {
      assert rs + more == rs;
    } else {
      var front := more[..|more| - 1];
      assert (rs + more)[..|rs + more| - 1] == rs + front;
      StreamsPrefix(rs, front);
    }
  }

  /** The key of any report is its tick and its console's offset over the whole match. */
  lemma KeyIs(p0: Pair, rs: seq<Real>, r: Real, more: seq<Real>)
    requires Cleared(p0) && Streams((rs + [r]) + more)
    ensures KeyOf(SideOf(HearAll(p0, rs), r.byA), Wrap(r.tick))
         == r.tick + Offset(SideOf(p0, r.byA), (rs + [r]) + more, r.byA)
  {
    StreamsPrefix(rs + [r], more);
    StreamsPrefix(rs, [r]);
    HearAllTracks(p0, rs);
    KeyIsTrueTick(SideOf(HearAll(p0, rs), r.byA), SideOf(p0, r.byA), rs, r);
    MoreReports(SideOf(p0, r.byA), rs, r, r.byA);
    hide Offset, LastTick, Tracks, Streams, HearAll, KeyOf;
    OffsetSettled(SideOf(p0, r.byA), rs + [r], more, r.byA);
  }

  lemma HearOne(p0: Pair, rs: seq<Real>, r: Real)
    ensures HearAll(p0, rs + [r]) == Hear(HearAll(p0, rs), r)
  {
    assert (rs + [r])[..|rs + [r]| - 1] == rs;
  }

  /** What hearing a report does to the side that made it and to the other. */
  lemma HearSides(p: Pair, r: Real)
    ensures var c, o := SideOf(p, r.byA), SideOf(p, !r.byA);
      var t := Report(c, Some(o), Wrap(r.tick), r.crc);
      && SideOf(Hear(p, r), r.byA) == t.mine && t.theirs.Some? && SideOf(Hear(p, r), !r.byA) == t.theirs.value
      && VerdictOn(p, r) == t.verdict
  {
    hide KeyOf, NextLap, Put, Pop, Evict;
  }

  /** Through reports of other ticks, at most seven of them its own console's, an entry
      stays. */
  lemma {:induction false} EntryStays(p0: Pair, rs: seq<Real>, mid: seq<Real>, rest: seq<Real>, r: Real)
    requires Cleared(p0) && Streams((rs + mid) + rest) && NoneOf(mid, r.tick) && CountOf(mid, r.byA) <= 7
    requires var all := (rs + mid) + rest;
      Offset(SideOf(p0, true), all, true) == Offset(SideOf(p0, false), all, false)
    requires Keeps(SideOf(HearAll(p0, rs), r.byA).log,
                   r.tick + Offset(SideOf(p0, r.byA), (rs + mid) + rest, r.byA), r.crc, 0)
    ensures Keeps(SideOf(HearAll(p0, rs + mid), r.byA).log,
                  r.tick + Offset(SideOf(p0, r.byA), (rs + mid) + rest, r.byA), r.crc, CountOf(mid, r.byA))
    decreases |mid|
  {
    hide Keeps, Offset, LastTick, Streams, KeyOf, Report;
    if mid == [] {
      assert rs + mid == rs;
    } else {
      var front, m := mid[..|mid| - 1], mid[|mid| - 1];
      var all := (rs + mid) + rest;
      assert all == (rs + front) + ([m] + rest) && all == ((rs + front) + [m]) + rest;
      assert rs + mid == (rs + front) + [m];
      assert NoneOf(front, r.tick) && m.tick != r.tick by { LastIsNone(mid, r.tick); }
      EntryStays(p0, rs, front, [m] + rest, r);
      KeyIs(p0, rs + front, m, rest);
      HearOne(p0, rs + front, m);
      HearSides(HearAll(p0, rs + front), m);
      var p := HearAll(p0, rs + front);
      var key := r.tick + Offset(SideOf(p0, r.byA), all, r.byA);
      hide HearAll, Hear, SideOf;
      ReportKeeps(SideOf(p, m.byA), SideOf(p, !m.byA), key, r.crc, CountOf(front, r.byA), Wrap(m.tick), m.crc);
    }
  }

  lemma LastIsNone(mid: seq<Real>, tick: int)
    requires NoneOf(mid, tick) && mid != []
    ensures NoneOf(mid[..|mid| - 1], tick) && mid[|mid| - 1].tick != tick
  {
  }

  /** A report's own entry, where it found none of the other console's: the youngest, unless
      the tick had been reported before. */
  lemma OwnEntry(c: Side, o: Side, tick: u8, crc: u8)
    requires Find(c.log, KeyOf(c, tick)) < 0
    ensures Keeps(Report(c, Some(o), tick, crc).mine.log, KeyOf(c, tick), crc, 0)
  {
    var key := KeyOf(c, tick);
    PutNew(c.log, key, crc);
    EvictKeeps(Put(c.log, key, crc), key, crc, 0);
    hide Keeps, Put, Evict, Find, Pop;
  }

  /** The other console's report of that tick. */
  lemma SecondVerdict(c: Side, o: Side, tick: u8, crc: u8, first: u8, younger: int)
    requires Keeps(o.log, KeyOf(c, tick), first, younger)
    ensures Report(c, Some(o), tick, crc).verdict == if first != crc then Mismatch else Agree
  {
    hide Put, Pop, Evict;
  }

  /** A DIVERGENCE IS REPORTED. Where the two offsets agree, a tick reported by one console
      for the first time and then by the other, with no report of it in between and at most
      seven others of the first console, gets its verdict: a mismatch exactly when the two
      checksums differ. */
  lemma DivergenceIsReported(p0: Pair, rs: seq<Real>, r: Real, mid: seq<Real>, r': Real)
    requires var all := (((rs + [r]) + mid) + [r']);
      && Cleared(p0) && Streams(all)
      && Offset(p0.a, all, true) == Offset(p0.b, all, false)
    requires NoneOf(rs, r.tick) && NoneOf(mid, r.tick) && CountOf(mid, r.byA) <= 7
    requires r'.tick == r.tick && r'.byA != r.byA
    ensures VerdictOn(HearAll(p0, (rs + [r]) + mid), r') == if r.crc != r'.crc then Mismatch else Agree
  {
    hide Keeps, Offset, LastTick, Streams, KeyOf, Report, Find;
    var all := ((rs + [r]) + mid) + [r'];
    assert all == (rs + [r]) + (mid + [r']);
    var p := HearAll(p0, rs);
    KeyIs(p0, rs, r, mid + [r']);
    FirstTime(p0, rs, r, mid + [r']);
    OwnEntry(SideOf(p, r.byA), SideOf(p, !r.byA), Wrap(r.tick), r.crc);
    HearOne(p0, rs, r);
    HearSides(p, r);
    EntryStays(p0, rs + [r], mid, [r'], r);
    assert all + [] == all;
    KeyIs(p0, (rs + [r]) + mid, r', []);
    var q := HearAll(p0, (rs + [r]) + mid);
    HearSides(q, r');
    hide HearAll, Hear;
    SecondVerdict(SideOf(q, r'.byA), SideOf(q, r.byA), Wrap(r'.tick), r'.crc, r.crc, CountOf(mid, r.byA));
  }

  /** A tick not reported before is in nobody's log. */
  lemma FirstTime(p0: Pair, rs: seq<Real>, r: Real, more: seq<Real>)
    requires Cleared(p0) && Streams((rs + [r]) + more) && NoneOf(rs, r.tick)
    ensures Find(SideOf(HearAll(p0, rs), r.byA).log, KeyOf(SideOf(HearAll(p0, rs), r.byA), Wrap(r.tick))) < 0
  {
    StreamsPrefix(rs + [r], more);
    StreamsPrefix(rs, [r]);
    HearAllTracks(p0, rs);
    var c := SideOf(HearAll(p0, rs), r.byA);
    KeyIsTrueTick(c, SideOf(p0, r.byA), rs, r);
    MoreReports(SideOf(p0, r.byA), rs, r, r.byA);
    NotInLog(c.log, rs, r, Offset(SideOf(p0, r.byA), rs, r.byA));
  }

  /** An entry would be a report of that tick. */
  lemma NotInLog(l: Log, rs: seq<Real>, r: Real, offset: int)
    requires Honest(l, rs, r.byA, offset) && NoneOf(rs, r.tick)
    ensures Find(l, r.tick + offset) < 0
  {
    forall i | 0 <= i < |l| ensures l[i].key != r.tick + offset {
      assert l[i] in l && Source(l[i], r.byA, offset) in rs;
    }
  }
}
