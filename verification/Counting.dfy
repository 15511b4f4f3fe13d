/** What the relay's counters count: each step's part in every one of them, and the verdict
    on a match as the counters give it. */
module Counting {
  import opened Bytes
  import opened Framing
  import opened Verdicts
  import opened Relay
  import opened RelayRuns
  import opened Fifo
  import opened FifoProofs
  import opened Ear
  import Reporting

  // -------------------------------------------------------------- logs are dicts

  /** No log has a key twice. */
  ghost predicate Dicts(r: State) {
    forall c :: c in r.obj ==> Distinct(r.obj[c].side.log)
  }

  /** A side is left alone or has its log cleared. */
  predicate AtMostCleared(s: Side, s': Side) {
    s' == s || s' == s.(log := [])
  }

  ghost predicate LogsOnlyCleared(r: State, r': State) {
    r'.obj.Keys == r.obj.Keys && forall x :: x in r.obj ==> AtMostCleared(r.obj[x].side, r'.obj[x].side)
  }

  lemma ClearedDicts(r: State, r': State)
    requires Dicts(r) && LogsOnlyCleared(r, r')
    ensures Dicts(r')
  {
  }

  lemma DropClears(r: State, c: Id)
    requires Sane(r) && c in r.obj
    ensures LogsOnlyCleared(r, Drop(r, c))
  {
    hide FrameBytes;
  }

  lemma TryPairClears(cfg: Config, r: State, c: Id, seed: nat)
    requires Sane(r) && c in r.obj
    ensures LogsOnlyCleared(r, TryPair(cfg, r, c, seed))
  {
    hide FrameBytes, StartMsg, Shown;
  }

  lemma ChangeClears(r: State, c: Id, x: Client)
    requires c in r.obj && x.side == r.obj[c].side
    ensures LogsOnlyCleared(r, Update(r, c, x))
  {
  }

  lemma ClearsTwice(r: State, r1: State, r2: State)
    requires LogsOnlyCleared(r, r1) && LogsOnlyCleared(r1, r2)
    ensures LogsOnlyCleared(r, r2)
  {
  }

  lemma OnHelloClears(cfg: Config, r: State, c: Id, payload: seq<u8>, luck: Luck)
    requires Sane(r) && c in r.obj
    ensures LogsOnlyCleared(r, OnHello(cfg, r, c, payload, luck))
  {
    hide Drop, TryPair, FreeName, Strip, Upper, GoodName, LogsOnlyCleared, Sane;
    DropClears(r, c);
    if |payload| >= 3 {
      var r1 := Update(r, c, r.obj[c].(tv := Some(payload[1])));
      UpdateKeeps(r, c, r1.obj[c]);
      ChangeClears(r, c, r1.obj[c]);
      DropClears(r1, c);
      ClearsTwice(r, r1, Drop(r1, c));
      var free := FreeName(Upper(Strip(payload[2..])), r.names, luck.digits);
      if free.Some? {
        var r2 := Claim(r1, c, free.value);
        UpdateKeeps(r1, c, r1.obj[c].(name := free));
        ClaimClears(r1, c, free.value);
        TryPairClears(cfg, r2, c, luck.seed);
        ClearsTwice(r, r1, r2);
        ClearsTwice(r, r2, TryPair(cfg, r2, c, luck.seed));
      } else {
        assert LogsOnlyCleared(r, r1.(halted := true)) by { HaltClears(r, r1); }
      }
    }
  }

  lemma ClaimClears(r: State, c: Id, name: Name)
    requires Sane(r) && c in r.obj
    ensures Sane(Claim(r, c, name)) && LogsOnlyCleared(r, Claim(r, c, name))
  {
  }

  lemma HaltClears(r: State, r1: State)
    requires LogsOnlyCleared(r, r1)
    ensures LogsOnlyCleared(r, r1.(halted := true))
  {
  }

  lemma LogCrcDicts(r: State, c: Id, tick: u8, crc: u8)
    requires Sane(r) && c in r.obj && Dicts(r)
    ensures Dicts(LogCrc(r, c, tick, crc))
  {
    var p := r.obj[c].partner;
    LogGrows(r.obj[c].side, if p.Some? then Some(r.obj[p.value].side) else None, tick, crc);
    hide Report;
  }

  lemma ForwardClears(r: State, c: Id, m: Msg)
    requires Sane(r) && c in r.obj
    ensures LogsOnlyCleared(r, Forward(r, c, m))
  {
    hide FrameBytes, Padded;
  }

  lemma HandleDicts(cfg: Config, r: State, c: Id, m: Msg, luck: Luck)
    requires Sane(r) && c in r.obj && Dicts(r)
    ensures Dicts(Handle(cfg, r, c, m, luck))
  {
    hide Drop, OnHello, TryPair, Forward, LogCrc, FrameBytes, LobbyMsg, Dicts, LogsOnlyCleared;
    var r' := Handle(cfg, r, c, m, luck);
    if IsRelayed(m.ftype) {
      ForwardKeeps(r, c, m);
      ForwardClears(r, c, m);
      ClearedDicts(r, Forward(r, c, m));
      if IsReport(m) {
        LogCrcDicts(Forward(r, c, m), c, m.payload[0], m.payload[4]);
      }
    } else {
      if m.ftype == T_HELLO {
        OnHelloClears(cfg, r, c, m.payload, luck);
      } else if m.ftype == T_JOIN {
        TryPairClears(cfg, r, c, luck.seed);
      } else if m.ftype == T_BYE {
        DropClears(r, c);
      } else {
        ChangeClears(r, c, r'.obj[c]);
        assert r'.obj == r.obj || r' == Update(r, c, r'.obj[c]);
        SameClears(r);
      }
      ClearedDicts(r, r');
    }
  }

  lemma SameClears(r: State)
    ensures LogsOnlyCleared(r, r)
  {
  }

  lemma {:induction false} DoDicts(cfg: Config, r: State, s: Step)
    requires Sane(r) && Possible(r, s) && Dicts(r)
    ensures Dicts(Do(cfg, r, s))
  {
    hide Handle, Drop, Front, SameIp;
    match s
    case Arrive(c, ip, now) =>
    case Chunk(c, data) =>
    case Next(c, luck) =>
      PoppedSane(r, c);
      HandleDicts(cfg, Popped(r, c), c, Heard(r, s), luck);
    case Garbled(c) => DropDicts(r.(stats := r.stats.(badFrames := r.stats.badFrames + 1)), c);
    case Lost(c) => DropDicts(r, c);
    case Flushed(c, sent) =>
      UpdateKeeps(r, c, Cut(r, c, sent).obj[c]);
      DropDicts(r, c);
      DropDicts(Cut(r, c, sent).(stats := r.stats.(txDrops := r.stats.txDrops + 1)), c);
    case Expired(c) => DropDicts(r.(stats := r.stats.(helloTimeouts := r.stats.helloTimeouts + 1)), c);
  }

  lemma DropDicts(r: State, c: Id)
    requires Sane(r) && c in r.obj && Dicts(r)
    ensures Dicts(Drop(r, c))
  {
    hide Drop;
    DropClears(r, c);
  }

  /** Whatever anyone sends, no log ever has a key twice. */
  lemma {:induction false} LogsAreDicts(cfg: Config, r: State, ss: seq<Step>)
    requires Dicts(r) && Run(cfg, r, ss)
    ensures Dicts(After(cfg, r, ss)) && Sane(After(cfg, r, ss))
    decreases |ss|
  {
    hide Dicts, Do, Sane;
    if ss != [] {
      DoDicts(cfg, r, ss[0]);
      LogsAreDicts(cfg, Do(cfg, r, ss[0]), ss[1..]);
    }
  }

  // -------------------------------------------------------------- what one step counts

  predicate MakesReport(r: State, s: Step)
    requires Possible(r, s)
  {
    s.Next? && IsReport(Heard(r, s))
  }

  /** The key the relay rebuilds for a report. */
  function ReportKey(r: State, s: Step): int
    requires Possible(r, s) && MakesReport(r, s)
  {
    KeyOf(r.obj[s.c].side, Heard(r, s).payload[0])
  }

  /** The reporter's partner has reported that key, with the checksum `other`. */
  ghost predicate Holds(r: State, s: Step, other: u8)
    requires Sane(r) && Possible(r, s) && MakesReport(r, s)
  {
    var p := r.obj[s.c].partner;
    p.Some? && Entry(ReportKey(r, s), other) in r.obj[p.value].side.log
  }

  ghost predicate Agrees(r: State, s: Step)
    requires Sane(r) && Possible(r, s)
  {
    MakesReport(r, s) && Holds(r, s, Heard(r, s).payload[4])
  }

  ghost predicate Disagrees(r: State, s: Step)
    requires Sane(r) && Possible(r, s)
  {
    MakesReport(r, s) && exists other: u8 :: other != Heard(r, s).payload[4] && Holds(r, s, other)
  }

  /** A step that begins a match tells its caller START. */
  ghost predicate Begins(cfg: Config, r: State, s: Step)
    requires Sane(r) && Possible(r, s)
  {
    s.Next? && StepNote(cfg, r, s, s.c).Started?
  }

  predicate BackedUp(r: State, s: Step)
    requires Possible(r, s)
  {
    s.Flushed? && r.obj[s.c].tx != [] && !s.s.Broken?
    && |r.obj[s.c].tx| - (if s.s.Took? && s.s.k <= |r.obj[s.c].tx| then s.s.k else 0) > 65536
  }

  /** The clients among these from one address. */
  ghost function From(r: State, ids: seq<Id>, ip: int): set<Id> {
    set c | c in ids && c in r.obj && r.obj[c].ip == ip
  }

  ghost predicate TooManyFrom(r: State, s: Step) {
    s.Arrive? && |r.live| < 64 && |From(r, r.live, s.ip)| >= 8
  }

  function One(b: bool): nat {
    if b then 1 else 0
  }

  /** What a step adds to each counter. */
  ghost function Counted(cfg: Config, r: State, s: Step): Stats
    requires Sane(r) && Possible(r, s)
  {
    Stats(r.stats.matches + One(Begins(cfg, r, s)), r.stats.crcOk + One(Agrees(r, s)),
          r.stats.crcBad + One(Disagrees(r, s)), r.stats.badFrames + One(s.Garbled?),
          r.stats.txDrops + One(BackedUp(r, s)), r.stats.helloTimeouts + One(s.Expired? && r.obj[s.c].name.None?),
          r.stats.ipRejects + One(TooManyFrom(r, s)))
  }

  lemma FindHas(l: Log, e: Entry)
    requires Distinct(l) && e in l
    ensures Find(l, e.key) >= 0 && l[Find(l, e.key)] == e
  {
    var i :| 0 <= i < |l| && l[i] == e;
    assert Find(l, e.key) == i;
  }

  /** The verdict on a report, by what the partner's log holds. */
  lemma VerdictIs(c: Side, p: Side, tick: u8, crc: u8)
    requires Distinct(p.log)
    ensures var v := Report(c, Some(p), tick, crc).verdict;
      && (v == Agree <==> Entry(KeyOf(c, tick), crc) in p.log)
      && (v == Mismatch <==> exists other: u8 :: other != crc && Entry(KeyOf(c, tick), other) in p.log)
  {
    var key := KeyOf(c, tick);
    var i := Find(p.log, key);
    if i >= 0 {
      assert p.log[i] == Entry(key, p.log[i].crc) && p.log[i] in p.log;
    }
    forall x: u8 | Entry(key, x) in p.log ensures i >= 0 && p.log[i].crc == x {
      FindHas(p.log, Entry(key, x));
    }
    hide Put, Pop, Evict, KeyOf, NextLap;
  }

  lemma TryPairCounts(cfg: Config, r: State, c: Id, seed: nat)
    requires Sane(r) && c in r.obj
    ensures TryPair(cfg, r, c, seed).stats
      == r.stats.(matches := r.stats.matches + One(PairNote(cfg, r, c, seed, c).Started?))
  {
    hide FrameBytes, StartMsg, Shown;
  }

  lemma DropCounts(r: State, c: Id)
    requires Sane(r) && c in r.obj
    ensures Drop(r, c).stats == r.stats
  {
  }

  lemma HelloCounts(cfg: Config, r: State, c: Id, payload: seq<u8>, luck: Luck)
    requires Sane(r) && c in r.obj
    ensures OnHello(cfg, r, c, payload, luck).stats
      == r.stats.(matches := r.stats.matches + One(HelloNote(cfg, r, c, payload, luck, c).Started?))
  {
    hide Drop, TryPair, FreeName, Strip, Upper, GoodName, PairNote, Sane;
    DropCounts(r, c);
    if |payload| >= 3 {
      var r1 := Update(r, c, r.obj[c].(tv := Some(payload[1])));
      UpdateKeeps(r, c, r1.obj[c]);
      DropCounts(r1, c);
      var free := FreeName(Upper(Strip(payload[2..])), r.names, luck.digits);
      if free.Some? {
        ClaimClears(r1, c, free.value);
        TryPairCounts(cfg, Claim(r1, c, free.value), c, luck.seed);
      }
    }
  }

  lemma ReportCounts(cfg: Config, r: State, c: Id, m: Msg, luck: Luck)
    requires Sane(r) && c in r.obj && IsReport(m) && Dicts(r)
    ensures var p := r.obj[c].partner; var key, crc := KeyOf(r.obj[c].side, m.payload[0]), m.payload[4];
      Handle(cfg, r, c, m, luck).stats
      == r.stats.(
           crcOk := r.stats.crcOk + One(p.Some? && Entry(key, crc) in r.obj[p.value].side.log),
           crcBad := r.stats.crcBad
             + One(p.Some? && exists other: u8 :: other != crc && Entry(key, other) in r.obj[p.value].side.log))
  {
    hide FrameBytes, Padded, KeyOf;
    var p := r.obj[c].partner;
    ForwardKeeps(r, c, m);
    ForwardSide(r, c, m, c);
    if p.Some? {
      ForwardSide(r, c, m, p.value);
      VerdictIs(r.obj[c].side, r.obj[p.value].side, m.payload[0], m.payload[4]);
    }
    hide Report, Distinct;
  }

  lemma OtherCounts(cfg: Config, r: State, c: Id, m: Msg, luck: Luck)
    requires Sane(r) && c in r.obj && !IsReport(m)
    ensures Handle(cfg, r, c, m, luck).stats
      == r.stats.(matches := r.stats.matches + One(NoteOf(cfg, r, c, m, luck, c).Started?))
  {
    hide Drop, OnHello, TryPair, LogCrc, FrameBytes, LobbyMsg, HelloNote, PairNote, Padded;
    if m.ftype == T_HELLO {
      HelloCounts(cfg, r, c, m.payload, luck);
    } else if m.ftype == T_JOIN {
      TryPairCounts(cfg, r, c, luck.seed);
    } else if m.ftype == T_BYE {
      DropCounts(r, c);
    }
  }

  lemma FromFirst(r: State, ids: seq<Id>, ip: int)
    requires ids != [] && NoRepeat(ids)
    ensures NoRepeat(ids[1..]) && ids[0] !in From(r, ids[1..], ip)
    ensures From(r, ids, ip)
      == From(r, ids[1..], ip) + (if ids[0] in r.obj && r.obj[ids[0]].ip == ip then {ids[0]} else {})
  {
    WithoutTail(ids, ids[0]);
    assert ids == [ids[0]] + ids[1..];
  }

  lemma {:induction false} SameIpCounts(r: State, ids: seq<Id>, ip: int)
    requires NoRepeat(ids)
    ensures SameIp(r, ids, ip) == |From(r, ids, ip)|
    decreases |ids|
  {
    hide From, NoRepeat;
    if ids == [] {
      assert From(r, ids, ip) == {} by { FromNone(r, ip); }
    } else {
      FromFirst(r, ids, ip);
      SameIpCounts(r, ids[1..], ip);
    }
  }

  lemma FromNone(r: State, ip: int)
    ensures From(r, [], ip) == {}
  {
  }

  lemma NextCounts(cfg: Config, r: State, s: Step)
    requires Sane(r) && Possible(r, s) && Dicts(r) && s.Next?
    ensures Do(cfg, r, s).stats == Counted(cfg, r, s)
  {
    hide Handle, Front, NoteOf, FrameBytes, KeyOf, Dicts;
    PoppedSane(r, s.c);
    var q, m := Popped(r, s.c), Heard(r, s);
    if IsReport(m) {
      PoppedDicts(r, s.c);
      ReportCounts(cfg, q, s.c, m, s.luck);
      NoStart(cfg, q, s.c, m, s.luck);
      NextReports(r, s);
    } else {
      OtherCounts(cfg, q, s.c, m, s.luck);
    }
  }

  lemma PoppedDicts(r: State, c: Id)
    requires Sane(r) && c in r.obj && Front(r.obj[c].rx).Whole? && Dicts(r)
    ensures Dicts(Popped(r, c))
  {
    hide Front;
  }

  lemma NextReports(r: State, s: Step)
    requires Sane(r) && Possible(r, s) && s.Next? && MakesReport(r, s)
    ensures var q, c := Popped(r, s.c), s.c; var p := q.obj[c].partner;
      var key, crc := KeyOf(q.obj[c].side, Heard(r, s).payload[0]), Heard(r, s).payload[4];
      && (p.Some? ==> p.value in q.obj)
      && (Agrees(r, s) <==> p.Some? && Entry(key, crc) in q.obj[p.value].side.log)
      && (Disagrees(r, s)
          <==> p.Some? && exists other: u8 :: other != crc && Entry(key, other) in q.obj[p.value].side.log)
  {
    hide Front, KeyOf;
    var c := s.c;
    var p, q := r.obj[c].partner, Popped(r, c);
    assert q.obj[c].side == r.obj[c].side && q.obj[c].partner == p;
    assert p.Some? ==> q.obj[p.value].side == r.obj[p.value].side;
    var key := KeyOf(q.obj[c].side, Heard(r, s).payload[0]);
    assert forall x: u8 :: Holds(r, s, x) <==> p.Some? && Entry(key, x) in q.obj[p.value].side.log;
  }

  lemma NoStart(cfg: Config, r: State, c: Id, m: Msg, luck: Luck)
    requires Sane(r) && c in r.obj && IsReport(m)
    ensures !NoteOf(cfg, r, c, m, luck, c).Started?
  {
    hide Padded;
  }

  /** EVERY STEP COUNTS. Whatever step anyone causes, a match is counted exactly when the
      caller is told START; an agreement or a mismatch exactly when the reporter's partner
      holds an entry under the rebuilt key, with the same checksum or with another; a bad
      frame, a dropped backlog, a timeout and a crowded address exactly when they happen; and
      nothing else moves. */
  lemma StepCounts(cfg: Config, r: State, s: Step)
    requires Sane(r) && Possible(r, s) && Dicts(r)
    ensures Do(cfg, r, s).stats == Counted(cfg, r, s)
  {
    hide Handle, Drop, Front, FrameBytes, StepNote, Accept, SameIp, From;
    match s
    case Arrive(c, ip, now) => ArriveCounts(r, c, ip, now);
    case Chunk(c, data) =>
    case Next(c, luck) => NextCounts(cfg, r, s);
    case Garbled(c) => DropCounts(r.(stats := r.stats.(badFrames := r.stats.badFrames + 1)), c);
    case Lost(c) => DropCounts(r, c);
    case Flushed(c, sent) =>
      UpdateKeeps(r, c, Cut(r, c, sent).obj[c]);
      DropCounts(r, c);
      DropCounts(Cut(r, c, sent).(stats := r.stats.(txDrops := r.stats.txDrops + 1)), c);
    case Expired(c) => DropCounts(r.(stats := r.stats.(helloTimeouts := r.stats.helloTimeouts + 1)), c);
  }

  lemma ArriveCounts(r: State, c: Id, ip: int, now: int)
    requires Sane(r)
    ensures Accept(r, c, ip, now).stats
      == r.stats.(ipRejects := r.stats.ipRejects + One(|r.live| < MAX_CLIENTS && |From(r, r.live, ip)| >= MAX_PER_IP))
  {
    hide SameIp, From;
    SameIpCounts(r, r.live, ip);
  }

  /** A client that has just been admitted. */
  predicate Newcomer(x: Client, ip: int, now: int) {
    x.name.None? && x.tv.None? && x.partner.None? && x.role.None? && x.rx == x.tx == [] && x.side == NEW_SIDE
    && x.ip == ip && x.born == now
  }

  /** WHO GETS IN. A caller is admitted exactly while fewer than 64 live and fewer than eight
      of them are from its address; it comes last in the line, and nobody else is touched. */
  lemma AcceptMeans(r: State, c: Id, ip: int, now: int)
    requires Sane(r) && c !in r.obj
    ensures var r' := Accept(r, c, ip, now);
      && (forall x :: x in r.obj ==> x in r'.obj && r'.obj[x] == r.obj[x]) && r'.names == r.names
      && if |r.live| < 64 && |From(r, r.live, ip)| < 8
         then r'.live == r.live + [c] && r'.obj.Keys == r.obj.Keys + {c} && Newcomer(r'.obj[c], ip, now)
         else r'.live == r.live && r'.obj == r.obj
  {
    hide SameIp, From;
    SameIpCounts(r, r.live, ip);
  }

  // -------------------------------------------------------------- how a match starts

  lemma PairingStarts(cfg: Config, r: State, c: Id, seed: nat, x: Id)
    requires Sane(r) && c in r.obj && x in r.obj
    ensures var r' := TryPair(cfg, r, c, seed); var n := PairNote(cfg, r, c, seed, x);
      && x in r'.obj
      && (n.Started? ==> r'.obj[x].side == r.obj[x].side.(log := []))
      && (n.Bound? ==>
            && r'.halted && r'.obj[x].role == Some(if x == c then 1 else 0)
            && r'.obj[x].side == (if x == c then r.obj[x].side else r.obj[x].side.(log := [])))
  {
    hide FrameBytes, StartMsg, Shown;
  }

  lemma HelloPairs(cfg: Config, r: State, c: Id, payload: seq<u8>, luck: Luck, x: Id)
    requires Sane(r) && c in r.obj && x in r.obj
    ensures var r' := OnHello(cfg, r, c, payload, luck); var n := HelloNote(cfg, r, c, payload, luck, x);
      && (n.Started? ==> x in r'.obj && r'.obj[x].side == r.obj[x].side.(log := []))
      && !n.Bound?
  {
    hide Drop, TryPair, FreeName, Strip, Upper, GoodName, Others, Oldest, Sane;
    if |payload| >= 3 {
      var r1 := Update(r, c, r.obj[c].(tv := Some(payload[1])));
      UpdateKeeps(r, c, r1.obj[c]);
      var free := FreeName(Upper(Strip(payload[2..])), r.names, luck.digits);
      if free.Some? {
        ClaimClears(r1, c, free.value);
        PairingStarts(cfg, Claim(r1, c, free.value), c, luck.seed, x);
      }
    }
  }

  lemma HandlePairs(cfg: Config, r: State, c: Id, m: Msg, luck: Luck, x: Id)
    requires Sane(r) && c in r.obj && x in r.obj
    ensures var r' := Handle(cfg, r, c, m, luck); var n := NoteOf(cfg, r, c, m, luck, x);
      && (n.Started? ==> x in r'.obj && r'.obj[x].side == r.obj[x].side.(log := []))
      && (n.Bound? ==>
            && m.ftype == T_JOIN && r'.halted && x in r'.obj && r'.obj[x].role == Some(if x == c then 1 else 0)
            && r'.obj[x].side == (if x == c then r.obj[x].side else r.obj[x].side.(log := [])))
  {
    hide OnHello, TryPair, PairNote, HelloNote, LogCrc, Forward, Drop, FrameBytes, LobbyMsg, Padded;
    if m.ftype == T_HELLO {
      HelloPairs(cfg, r, c, m.payload, luck, x);
    } else if m.ftype == T_JOIN {
      PairingStarts(cfg, r, c, luck.seed, x);
    }
  }

  /** A MATCH STARTS WITH EMPTY LOGS, and with nothing else of a side forgotten: whoever is told
      START keeps its lap and its last tick. A caller that raises, which only a JOIN can, is
      left with its log; the one that waited has lost its own. */
  lemma StartClearsTheLog(cfg: Config, r: State, s: Step, x: Id)
    requires Sane(r) && Possible(r, s) && x in r.obj
    ensures var r' := Do(cfg, r, s); var n := StepNote(cfg, r, s, x);
      && (n.Started? ==>
            && x in r'.obj && r'.obj[x].side.log == []
            && r'.obj[x].side.lap == r.obj[x].side.lap && r'.obj[x].side.last == r.obj[x].side.last)
      && (n.Bound? ==>
            && s.Next? && Heard(r, s).ftype == T_JOIN && r'.halted && x in r'.obj
            && r'.obj[x].role == Some(if x == s.c then 1 else 0)
            && r'.obj[x].side == (if x == s.c then r.obj[x].side else r.obj[x].side.(log := [])))
  {
    hide Handle, NoteOf, Front, FrameBytes;
    if s.Next? {
      PoppedSane(r, s.c);
      HandlePairs(cfg, Popped(r, s.c), s.c, Heard(r, s), s.luck, x);
    }
  }

  // -------------------------------------------------------------- over a match

  /** A COUNTED DIVERGENCE. Two clients whose offsets agree stay partners over any conforming
      traffic. One reports a tick for the first time; then, after at most seven other reports
      of its own, the other reports it. At that step the relay counts one mismatch more if the
      checksums differ and one agreement more if they do not. */
  lemma DivergenceIsCounted(
      cfg: Config, r: State, ss: seq<Step>, a: Id, b: Id, rs: seq<Real>, rep: Real, mid: seq<Real>, s: Step,
      rep': Real)
    requires Run(cfg, r, ss) && MatchLasts(cfg, r, ss, a, b) && Reports(cfg, r, ss, a, b, (rs + [rep]) + mid)
    requires a in r.obj && b in r.obj && Cleared(Logs(r, a, b))
    requires var r' := After(cfg, r, ss);
      && Sane(r') && Matched(r') && Possible(r', s) && Polite(r', s) && Partners(r', a, b)
      && HeardOf(r', s, a, b) == Some(Real(rep'.byA, Wrap(rep'.tick), rep'.crc))
    requires var all := ((rs + [rep]) + mid) + [rep'];
      Streams(all) && Offset(r.obj[a].side, all, true) == Offset(r.obj[b].side, all, false)
    requires Reporting.NoneOf(rs, rep.tick) && Reporting.NoneOf(mid, rep.tick)
    requires Reporting.CountOf(mid, rep.byA) <= 7 && rep'.tick == rep.tick && rep'.byA != rep.byA
    ensures var q, q' := After(cfg, r, ss).stats, Do(cfg, After(cfg, r, ss), s).stats;
      && q'.crcBad == q.crcBad + One(rep.crc != rep'.crc)
      && q'.crcOk == q.crcOk + One(rep.crc == rep'.crc)
  {
    hide Do, Matched, Sane, Possible, Polite, Partners, Hear, Streams, Report, Offset;
    var r' := After(cfg, r, ss);
    RelayHears(cfg, r, ss, a, b, (rs + [rep]) + mid);
    StepHears(cfg, r', s, a, b);
    Reporting.DivergenceIsReported(Logs(r, a, b), rs, rep, mid, rep');
    SameVerdict(Logs(r', a, b), rep');
  }
}
