/** The C relay's bounded tables: arrays, counts and memmove standing in for Python's
    dicts. Each is proved against the sequence it holds, with what it does when full. */
module CTables {
  import opened Bytes
  import opened Verdicts
  import opened Relay

  const CRC_SLOTS := 16
  const NAME_SLOTS := 256
  const TX_CAP := 262144
  const RX_CAP := 4352

  // -------------------------------------------------------------- crc[16]

  /** `crc_set` on what the table holds: a full table loses its youngest entry. */
  function CPut(l: Log, key: int, crc: u8): Log {
    var i := Find(l, key);
    if i >= 0 then l[i := Entry(key, crc)]
    else if |l| >= CRC_SLOTS then l[..CRC_SLOTS - 1] + [Entry(key, crc)]
    else l + [Entry(key, crc)]
  }

  /** What a slot's table always holds: sixteen entries at most, each key once. */
  ghost predicate FitsSlot(l: Log) {
    |l| <= CRC_SLOTS && Distinct(l)
  }

  lemma CPutFits(l: Log, key: int, crc: u8)
    requires FitsSlot(l)
    ensures FitsSlot(CPut(l, key, crc))
  {
  }

  lemma PopFits(l: Log, key: int)
    requires FitsSlot(l)
    ensures FitsSlot(Pop(l, key)) && FitsSlot(Evict(l))
  {
  }

  class CrcTable {
    const ents: array<Entry>
    var n: nat
    ghost var log: Log

    ghost predicate Valid()
      reads this, ents
    {
      ents.Length == CRC_SLOTS && n <= CRC_SLOTS && log == ents[..n]
    }

    constructor ()
      ensures Valid() && log == [] && fresh(ents)
    {
      ents := new Entry[CRC_SLOTS](_ => Entry(0, 0));
      n, log := 0, [];
    }

    method Lookup(key: int) returns (i: int)
      requires Valid()
      ensures i == Find(log, key)
    {
      i := 0;
      while i < n
        invariant 0 <= i <= n
        invariant forall j :: 0 <= j < i ==> log[j].key != key
      {
        if ents[i].key == key {
          FindIs(log, key, i);
          return;
        }
        i := i + 1;
      }
      return -1;
    }

    /** `crc_set`. */
    method Set(key: int, crc: u8)
      requires Valid()
      modifies this, ents
      ensures Valid() && log == CPut(old(log), key, crc)
    {
      var i := Lookup(key);
      if i >= 0 {
        ents[i] := Entry(key, crc);
        log := log[i := Entry(key, crc)];
        return;
      }
      if n >= CRC_SLOTS {
        n := CRC_SLOTS - 1;
      }
      ents[n] := Entry(key, crc);
      log := log[..n] + [Entry(key, crc)];
      n := n + 1;
    }

    /** `crc_del_at`: memmove over the hole. */
    method DelAt(i: nat)
      requires Valid() && i < n
      modifies this, ents
      ensures Valid() && log == old(log[..i] + log[i + 1..]) && n == old(n) - 1
    {
      forall k | i <= k < n - 1 {
        ents[k] := ents[k + 1];
      }
      n := n - 1;
      log := log[..i] + log[i + 1..];
    }

    /** `crc_del_at` at a key's place, as `log_crc` calls it. */
    method Take(i: nat, key: int)
      requires Valid() && i < n && Find(log, key) == i
      modifies this, ents
      ensures Valid() && log == Pop(old(log), key)
    {
      DelAt(i);
    }

    /** `while (c->ncrc > 8) crc_del_at(c, 0)`. */
    method Age()
      requires Valid()
      modifies this, ents
      ensures Valid() && log == Evict(old(log))
    {
      while n > 8
        invariant Valid() && Evict(log) == Evict(old(log))
      {
        DelAt(0);
      }
    }

    /** `c->ncrc = 0`. */
    method Clear()
      requires Valid()
      modifies this
      ensures Valid() && log == []
    {
      n, log := 0, [];
    }
  }

  lemma {:induction false} FindIs(l: Log, key: int, i: nat)
    requires i < |l| && l[i].key == key && forall j :: 0 <= j < i ==> l[j].key != key
    ensures Find(l, key) == i
  {
    var k := Find(l, key);
    assert k >= 0;
  }

  /** `log_crc` in C. */
  function CReport(c: Side, p: Option<Side>, tick: u8, crc: u8): Outcome {
    var key := KeyOf(c, tick);
    var mine := Side(CPut(c.log, key, crc), NextLap(c, tick), Some(tick));
    var i := if p.Some? then Find(p.value.log, key) else -1;
    if i < 0 then Outcome(mine.(log := Evict(mine.log)), p, Unpaired)
    else Outcome(mine, Some(p.value.(log := Pop(p.value.log, key))),
                 if p.value.log[i].crc != crc then Mismatch else Agree)
  }

  /** Whatever is reported, both tables still fit. */
  lemma CReportFits(c: Side, p: Option<Side>, tick: u8, crc: u8)
    requires FitsSlot(c.log) && (p.Some? ==> FitsSlot(p.value.log))
    ensures var o := CReport(c, p, tick, crc);
      FitsSlot(o.mine.log) && (o.theirs.Some? ==> FitsSlot(o.theirs.value.log))
  {
    hide FitsSlot, CPut, Pop, Evict;
    var key := KeyOf(c, tick);
    CPutFits(c.log, key, crc);
    PopFits(CPut(c.log, key, crc), key);
    if p.Some? {
      PopFits(p.value.log, key);
    }
  }

  /** WHEN SIXTEEN IS ENOUGH. On any log that fits the array, C and Python agree on a report
      exactly when the key is known already or there is a free entry. */
  lemma CReportIsReport(c: Side, p: Option<Side>, tick: u8, crc: u8)
    requires FitsSlot(c.log)
    ensures CReport(c, p, tick, crc) == Report(c, p, tick, crc)
      <==> Find(c.log, KeyOf(c, tick)) >= 0 || |c.log| < CRC_SLOTS
    ensures CReport(c, p, tick, crc).verdict == Report(c, p, tick, crc).verdict
    ensures CReport(c, p, tick, crc).theirs == Report(c, p, tick, crc).theirs
  {
    var key := KeyOf(c, tick);
    if Find(c.log, key) < 0 && |c.log| == CRC_SLOTS {
      var a, b := CPut(c.log, key, crc), Put(c.log, key, crc);
      assert |a| == 16 && |b| == 17;
      assert Evict(a)[0] == c.log[8] && Evict(b)[0] == c.log[9];
      assert c.log[8].key != c.log[9].key;
      hide NextLap, KeyOf, Pop;
      assert CReport(c, p, tick, crc).mine.log != Report(c, p, tick, crc).mine.log;
    }
  }

  /** IT IS NOT ALWAYS ENOUGH. The console that reports second fills its table in sixteen
      ticks, and then C drops an entry Python keeps. */
  lemma SixteenIsReached(n: nat, crc: u8)
    requires n == CRC_SLOTS
    ensures var p := BothReport(n);
      && |p.b.log| == CRC_SLOTS
      && CReport(p.b, Some(p.a), Wrap(n), crc) != Report(p.b, Some(p.a), Wrap(n), crc)
  {
    hide BothReport, Report, CReport;
    SecondReporterGrows(n);
    var p := BothReport(n);
    LapMoves(p.b.log, n);
    assert p.b == Side(p.b.log, LapOf(n), LastOf(n));
    NotLogged(p.b.log, n);
    CReportIsReport(p.b, Some(p.a), Wrap(n), crc);
  }

  lemma NotLogged(l: Log, n: nat)
    requires |l| == n && forall i :: 0 <= i < n ==> l[i] == Entry(i, 0)
    ensures Find(l, n) < 0 && Distinct(l)
  {
  }

  // -------------------------------------------------------------- order[64]

  class OrderTable {
    const a: array<nat>
    var n: nat
    ghost var ids: seq<nat>

    ghost predicate Valid()
      reads this, a
    {
      a.Length == MAX_CLIENTS && n <= MAX_CLIENTS && ids == a[..n]
    }

    constructor ()
      ensures Valid() && ids == [] && fresh(a)
    {
      a := new nat[MAX_CLIENTS](_ => 0);
      n, ids := 0, [];
    }

    /** `order_add`: silently nothing when full. */
    method Add(ci: nat)
      requires Valid()
      modifies this, a
      ensures Valid() && ids == if |old(ids)| < MAX_CLIENTS then old(ids) + [ci] else old(ids)
    {
      if n < MAX_CLIENTS {
        a[n] := ci;
        ids := ids + [ci];
        n := n + 1;
      }
    }

    /** `order_del`: the first match, memmoved over. */
    method Del(ci: nat)
      requires Valid() && NoRepeat(ids)
      modifies this, a
      ensures Valid() && ids == Without(old(ids), ci)
    {
      var i := 0;
      while i < n
        invariant 0 <= i <= n
        invariant Valid() && ids == old(ids) && ci !in ids[..i]
      {
        if a[i] == ci {
          WithoutAt(ids, ci, i);
          forall k | i <= k < n - 1 {
            a[k] := a[k + 1];
          }
          n := n - 1;
          ids := ids[..i] + ids[i + 1..];
          return;
        }
        i := i + 1;
      }
      assert ids[..i] == ids;
      WithoutNone(ids, ci);
    }
  }

  lemma {:induction false} WithoutNone(s: seq<nat>, c: nat)
    requires c !in s
    ensures Without(s, c) == s
    decreases |s|
  {
    if s != [] {
      WithoutNone(s[1..], c);
    }
  }

  lemma {:induction false} WithoutAt(s: seq<nat>, c: nat, i: nat)
    requires i < |s| && s[i] == c && NoRepeat(s)
    ensures Without(s, c) == s[..i] + s[i + 1..]
    decreases i
  {
    if i == 0 {
      assert c !in s[1..];
      WithoutNone(s[1..], c);
    } else {
      WithoutAt(s[1..], c, i - 1);
      assert s[0] != c;
      assert s[1..][..i - 1] == s[1..i] && s[1..][i..] == s[i + 1..];
    }
  }

  // -------------------------------------------------------------- by_name[256]

  /** A name and the slot and generation that claimed it. */
  datatype NameEnt = NameEnt(name: Name, ci: nat, gen: nat)

  /** A slot's occupant: no two occupants, ever, have the same tag. */
  function Tag(ci: nat, gen: nat): nat {
    gen * MAX_CLIENTS + ci
  }

  lemma TagsDiffer(a: nat, g: nat, b: nat, h: nat)
    requires a < MAX_CLIENTS && b < MAX_CLIENTS
    ensures Tag(a, g) == Tag(b, h) <==> a == b && g == h
  {
  }

  ghost predicate NamesDistinct(es: seq<NameEnt>) {
    forall i, j :: 0 <= i < j < |es| ==> es[i].name != es[j].name
  }

  /** The dict the entries stand for. */
  function Dict(es: seq<NameEnt>): map<Name, nat> {
    if es == [] then map[] else Dict(es[..|es| - 1])[es[|es| - 1].name := Tag(es[|es| - 1].ci, es[|es| - 1].gen)]
  }

  lemma {:induction false} DictHas(es: seq<NameEnt>)
    requires NamesDistinct(es)
    ensures forall n :: n in Dict(es) <==> exists i :: 0 <= i < |es| && es[i].name == n
    ensures forall i :: 0 <= i < |es| ==> es[i].name in Dict(es) && Dict(es)[es[i].name] == Tag(es[i].ci, es[i].gen)
    decreases |es|
  {
    if es != [] {
      DictHas(es[..|es| - 1]);
    }
  }

  lemma DictIs(es: seq<NameEnt>, d: map<Name, nat>)
    requires NamesDistinct(es)
    requires forall i :: 0 <= i < |es| ==> es[i].name in d && d[es[i].name] == Tag(es[i].ci, es[i].gen)
    requires forall n :: n in d ==> exists i :: 0 <= i < |es| && es[i].name == n
    ensures Dict(es) == d
  {
    DictHas(es);
  }

  // The names in order of age, by themselves: what a dict would not say.

  function NamesOf(es: seq<NameEnt>): (t: seq<Name>)
    ensures |t| == |es|
  {
    seq(|es|, i requires 0 <= i < |es| => es[i].name)
  }

  /** The names of a table that are still claimed, in the order they were. */
  function Surviving(t: seq<Name>, names: map<Name, nat>): seq<Name> {
    if t == [] then []
    else if t[0] in names then [t[0]] + Surviving(t[1..], names)
    else Surviving(t[1..], names)
  }

  ghost function Newcomer(t: seq<Name>, names: map<Name, nat>): seq<Name> {
    if exists n :: n in names && n !in t then
      var n :| n in names && n !in t;
      [n]
    else []
  }

  /** The table after a step that leaves `names`: the survivors, and a new name last. */
  ghost function Retable(t: seq<Name>, names: map<Name, nat>): seq<Name> {
    Surviving(t, names) + Newcomer(t, names)
  }

  lemma {:induction false} SurvivingAll(t: seq<Name>, names: map<Name, nat>)
    requires forall n :: n in t ==> n in names
    ensures Surviving(t, names) == t
    decreases |t|
  {
    if t != [] {
      SurvivingAll(t[1..], names);
    }
  }

  lemma {:induction false} SurvivingHole(t: seq<Name>, i: nat, names: map<Name, nat>)
    requires i < |t| && t[i] !in names && forall k :: 0 <= k < |t| && k != i ==> t[k] in names
    ensures Surviving(t, names) == t[..i] + t[i + 1..]
    decreases |t|
  {
    if i == 0 {
      assert forall n :: n in t[1..] ==> n in names;
      SurvivingAll(t[1..], names);
    } else {
      assert forall k :: 0 <= k < |t[1..]| ==> t[1..][k] == t[k + 1];
      SurvivingHole(t[1..], i - 1, names);
      assert t[1..][..i - 1] == t[1..i] && t[1..][i..] == t[i + 1..];
    }
  }

  lemma RetableSame(t: seq<Name>, names: map<Name, nat>)
    requires forall n :: n in t <==> n in names
    ensures Retable(t, names) == t
  {
    SurvivingAll(t, names);
  }

  /** No name twice, and the same names as the dict. */
  ghost predicate Lists(t: seq<Name>, d: map<Name, nat>) {
    && (forall j, k :: 0 <= j < k < |t| ==> t[j] != t[k])
    && (forall n :: n in t <==> n in d)
  }

  lemma HoleRetables(t: seq<Name>, d: map<Name, nat>, i: nat)
    requires Lists(t, d) && i < |t|
    ensures t[..i] + t[i + 1..] == Retable(t, d - {t[i]})
  {
    SurvivingHole(t, i, d - {t[i]});
    assert Newcomer(t, d - {t[i]}) == [];
  }

  /** A new name, the oldest gone first if it has to. */
  lemma SnocRetables(t: seq<Name>, d: map<Name, nat>, n: Name, id: nat)
    requires Lists(t, d) && n !in d
    ensures t + [n] == Retable(t, d[n := id])
    ensures t != [] ==> t[1..] + [n] == Retable(t, (d - {t[0]})[n := id])
  {
    SurvivingAll(t, d[n := id]);
    NewcomerIs(t, d[n := id], n);
    if t != [] {
      var e := (d - {t[0]})[n := id];
      SurvivingHole(t, 0, e);
      NewcomerIs(t, e, n);
      assert t[..0] + t[1..] == t[1..];
    }
  }

  lemma NewcomerIs(t: seq<Name>, names: map<Name, nat>, n: Name)
    requires n in names && n !in t && forall m :: m in names && m != n ==> m in t
    ensures Newcomer(t, names) == [n]
  {
  }

  lemma NamesListed(es: seq<NameEnt>)
    requires NamesDistinct(es)
    ensures Lists(NamesOf(es), Dict(es)) && Retable(NamesOf(es), Dict(es)) == NamesOf(es)
  {
    DictHas(es);
    var t := NamesOf(es);
    forall n | n in Dict(es) ensures n in t {
      var i :| 0 <= i < |es| && es[i].name == n;
      assert t[i] == n;
    }
    RetableSame(t, Dict(es));
  }

  lemma NamesOfParts(es: seq<NameEnt>, i: nat, e: NameEnt)
    requires i < |es|
    ensures NamesOf(es[..i] + es[i + 1..]) == NamesOf(es)[..i] + NamesOf(es)[i + 1..]
    ensures NamesOf(es[1..] + [e]) == NamesOf(es)[1..] + [e.name]
    ensures NamesOf(es)[i] == es[i].name
  {
  }

  lemma NamesOfSnoc(es: seq<NameEnt>, e: NameEnt)
    ensures NamesOf(es + [e]) == NamesOf(es) + [e.name]
  {
  }

  /** One entry gone. */
  lemma RetableHole(es: seq<NameEnt>, i: nat)
    requires NamesDistinct(es) && i < |es|
    ensures var r := es[..i] + es[i + 1..];
      NamesDistinct(r) && NamesOf(r) == Retable(NamesOf(es), Dict(r))
  {
    hide NamesDistinct, Dict, NamesOf, Retable, Lists;
    HoleIs(es, i);
    NamesListed(es);
    NamesOfParts(es, i, es[i]);
    HoleRetables(NamesOf(es), Dict(es), i);
  }

  /** The oldest entry gone, if any has to go, and a new one. */
  lemma RetableSnoc(es: seq<NameEnt>, rest: seq<NameEnt>, e: NameEnt)
    requires NamesDistinct(es) && e.name !in Dict(es) && (rest == es || (es != [] && rest == es[1..]))
    ensures NamesDistinct(rest + [e]) && NamesOf(rest + [e]) == Retable(NamesOf(es), Dict(rest + [e]))
  {
    hide NamesDistinct, Dict, NamesOf, Retable, Lists, Tag;
    NamesListed(es);
    NamesOfSnoc(es, e);
    SnocRetables(NamesOf(es), Dict(es), e.name, Tag(e.ci, e.gen));
    if rest != es {
      RestIs(es, Dict(es));
      NamesOfParts(es, 0, e);
    }
    SnocIs(rest, e);
  }

  class NameTable {
    const ents: array<NameEnt>
    var n: nat
    ghost var es: seq<NameEnt>

    ghost predicate Valid()
      reads this, ents
    {
      ents.Length == NAME_SLOTS && n <= NAME_SLOTS && es == ents[..n] && NamesDistinct(es)
    }

    constructor ()
      ensures Valid() && es == [] && fresh(ents)
    {
      ents := new NameEnt[NAME_SLOTS](_ => NameEnt([], 0, 0));
      n, es := 0, [];
    }

    method Search(name: Name) returns (i: nat)
      requires Valid()
      ensures i <= n && (i < n ==> es[i].name == name)
      ensures forall j :: 0 <= j < i ==> es[j].name != name
      ensures i < n <==> name in Dict(es)
    {
      DictHas(es);
      i := 0;
      while i < n
        invariant 0 <= i <= n && forall j :: 0 <= j < i ==> es[j].name != name
      {
        if ents[i].name == name {
          return;
        }
        i := i + 1;
      }
    }

    /** `name_taken`. */
    method Taken(name: Name) returns (b: bool)
      requires Valid()
      ensures b == (name in Dict(es))
    {
      var i := Search(name);
      return i < n;
    }

    /** `name_set`: the dict's assignment while there is room; when the table is full and
        the name new, the oldest entry is lost first. */
    method Set(name: Name, ci: nat, gen: nat)
      requires Valid()
      modifies this, ents
      ensures Valid()
      ensures name in old(Dict(es)) || |old(es)| < NAME_SLOTS ==> Dict(es) == old(Dict(es))[name := Tag(ci, gen)]
      ensures name !in old(Dict(es)) && |old(es)| == NAME_SLOTS ==>
        Dict(es) == (old(Dict(es)) - {old(es)[0].name})[name := Tag(ci, gen)]
      ensures forall e :: e in es ==> e in old(es) || e == NameEnt(name, ci, gen)
      ensures name !in old(Dict(es)) ==> NamesOf(es) == Retable(old(NamesOf(es)), Dict(es))
    {
      hide NamesDistinct, Dict, Retable, NamesOf;
      var i := Search(name);
      ghost var d := Dict(es);
      if i < n {
        ents[i] := NameEnt(name, ci, gen);
        UpdateIs(es, i, NameEnt(name, ci, gen));
        es := es[i := NameEnt(name, ci, gen)];
        return;
      }
      if n >= NAME_SLOTS {
        forall k | 0 <= k < n - 1 {
          ents[k] := ents[k + 1];
        }
        n := n - 1;
        RestIs(es, d);
        es := es[1..];
      }
      ents[n] := NameEnt(name, ci, gen);
      n := n + 1;
      SnocIs(es, NameEnt(name, ci, gen));
      RetableSnoc(old(es), es, NameEnt(name, ci, gen));
      es := es + [NameEnt(name, ci, gen)];
    }

    /** `name_del_if_is`: only its own entry. */
    method DelIfIs(name: Name, ci: nat, gen: nat)
      requires Valid() && ci < MAX_CLIENTS && forall e :: e in es ==> e.ci < MAX_CLIENTS
      modifies this, ents
      ensures Valid()
      ensures var d := old(Dict(es));
        Dict(es) == if name in d && d[name] == Tag(ci, gen) then d - {name} else d
      ensures forall e :: e in es ==> e in old(es)
      ensures NamesOf(es) == Retable(old(NamesOf(es)), Dict(es))
    {
      hide NamesDistinct, Dict, Tag, Retable, NamesOf;
      NamesListed(es);
      var i := Search(name);
      if i == n {
        return;
      }
      DictAt(es, i);
      assert es[i] in es;
      TagsDiffer(es[i].ci, es[i].gen, ci, gen);
      if ents[i].ci != ci || ents[i].gen != gen {
        return;
      }
      forall k | i <= k < n - 1 {
        ents[k] := ents[k + 1];
      }
      n := n - 1;
      HoleIs(es, i);
      RetableHole(es, i);
      es := es[..i] + es[i + 1..];
    }
  }

  lemma DictAt(es: seq<NameEnt>, i: nat)
    requires NamesDistinct(es) && i < |es|
    ensures es[i].name in Dict(es) && Dict(es)[es[i].name] == Tag(es[i].ci, es[i].gen)
  {
    DictHas(es);
  }

  lemma RestIs(es: seq<NameEnt>, d: map<Name, nat>)
    requires NamesDistinct(es) && es != [] && d == Dict(es)
    ensures NamesDistinct(es[1..]) && Dict(es[1..]) == d - {es[0].name}
  {
    HoleIs(es, 0);
    assert es[..0] + es[1..] == es[1..];
  }

  lemma UpdateIs(es: seq<NameEnt>, i: nat, e: NameEnt)
    requires NamesDistinct(es) && i < |es| && es[i].name == e.name
    ensures NamesDistinct(es[i := e]) && Dict(es[i := e]) == Dict(es)[e.name := Tag(e.ci, e.gen)]
  {
    var r, d := es[i := e], Dict(es)[e.name := Tag(e.ci, e.gen)];
    DictHas(es);
    assert forall j :: 0 <= j < |r| ==> r[j].name == es[j].name;
    forall n | n in d ensures exists j :: 0 <= j < |r| && r[j].name == n {
      if n != e.name {
        var k :| 0 <= k < |es| && es[k].name == n;
        assert r[k].name == n;
      } else {
        assert r[i].name == n;
      }
    }
    DictIs(r, d);
  }

  lemma SnocIs(es: seq<NameEnt>, e: NameEnt)
    requires NamesDistinct(es) && e.name !in Dict(es)
    ensures NamesDistinct(es + [e]) && Dict(es + [e]) == Dict(es)[e.name := Tag(e.ci, e.gen)]
  {
    DictHas(es);
    assert (es + [e])[..|es|] == es;
  }

  lemma HoleIs(es: seq<NameEnt>, i: nat)
    requires NamesDistinct(es) && i < |es|
    ensures var r := es[..i] + es[i + 1..]; NamesDistinct(r) && Dict(r) == Dict(es) - {es[i].name}
  {
    var r := es[..i] + es[i + 1..];
    DictHas(es);
    assert forall j :: 0 <= j < |r| ==> r[j] == es[if j < i then j else j + 1];
    var d := Dict(es) - {es[i].name};
    forall n | n in d ensures exists j :: 0 <= j < |r| && r[j].name == n {
      var k :| 0 <= k < |es| && es[k].name == n;
      assert r[if k < i then k else k - 1].name == n;
    }
    DictIs(r, d);
  }

  // -------------------------------------------------------------- txbuf

  /** `client_send`: an append, or a buffer that only counts as full. */
  ghost predicate CSent(b: seq<u8>, data: seq<u8>, b': seq<u8>) {
    if |b| + |data| <= TX_CAP then b' == b + data else |b'| == TX_CAP && b <= b'
  }

  /** So many bytes of an array, whatever it holds. */
  function Fill(beyond: seq<u8>, k: nat): (f: seq<u8>)
    ensures |f| == k
  {
    if |beyond| >= k then beyond[..k] else beyond + seq(k - |beyond|, _ => 0)
  }

  /** The same with what the array holds beyond the buffer's end: a full buffer takes in
      bytes nobody sent. */
  function Saturate(b: seq<u8>, data: seq<u8>, beyond: seq<u8>): (b': seq<u8>)
    ensures |b| <= TX_CAP ==> |b'| <= TX_CAP && CSent(b, data, b')
  {
    if |b| + |data| <= TX_CAP then b + data
    else if |b| <= TX_CAP then b + Fill(beyond, TX_CAP - |b|)
    else b
  }

  class TxBuffer {
    const buf: array<u8>
    var n: nat
    ghost var bytes: seq<u8>

    ghost predicate Valid()
      reads this, buf
    {
      buf.Length == TX_CAP && n <= TX_CAP && bytes == buf[..n]
    }

    constructor ()
      ensures Valid() && bytes == [] && fresh(buf)
    {
      buf := new u8[TX_CAP](_ => 0);
      n, bytes := 0, [];
    }

    /** `client_send`. */
    method Send(data: array<u8>)
      requires Valid() && data != buf
      modifies this, buf
      ensures Valid()
      ensures bytes == Saturate(old(bytes), old(data[..]), old(buf[n..]))
    {
      if n + data.Length > TX_CAP {
        assert buf[..TX_CAP] == buf[..n] + Fill(buf[n..], TX_CAP - n);
        n := TX_CAP;
        bytes := buf[..n];
        return;
      }
      forall k | 0 <= k < data.Length {
        buf[n + k] := data[k];
      }
      n := n + data.Length;
      bytes := bytes + data[..];
    }

    /** `memmove(txbuf, txbuf + k, tx_len - k)`. */
    method Cut(k: nat)
      requires Valid() && k <= n
      modifies this, buf
      ensures Valid() && bytes == old(bytes)[k..]
    {
      forall j | 0 <= j < n - k {
        buf[j] := buf[j + k];
      }
      n := n - k;
      bytes := bytes[k..];
    }
  }
}
