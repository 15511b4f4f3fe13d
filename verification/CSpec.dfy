/** What the C relay does with each event, as functions on the state of Relay.dfy: Python's
    but for the bounded tables, the bounded name search, the unchecked name, the transmit
    buffers that only count as full, and the slots a sweep frees. Exactly when each step is
    Python's, and that whole runs are while every step is. */
module CSpec {
  import opened Bytes
  import opened Framing
  import opened Verdicts
  import opened Relay
  import opened RelayRuns
  import opened Fifo
  import opened FifoProofs
  import opened CTables

  const SEARCH_LIMIT := 1000

  /** What each slot's transmit array holds beyond the buffer's end. */
  type Stale = seq<seq<u8>>

  /** A client's slot is its tag modulo the number of slots. */
  function At(stale: Stale, c: Id): seq<u8> {
    if c % MAX_CLIENTS < |stale| then stale[c % MAX_CLIENTS] else []
  }

  /** What the environment, the table of names and the arrays bring to one step: the draws,
      the name a full table would lose, the stale bytes. */
  datatype Fate = Fate(luck: Luck, lost: Option<Name>, stale: Stale)

  // -------------------------------------------------------------- sending

  /** `client_send`. */
  function CSend(r: State, c: Id, bytes: seq<u8>, stale: Stale): State
    requires c in r.obj
  {
    Update(r, c, r.obj[c].(tx := Saturate(r.obj[c].tx, bytes, At(stale, c))))
  }

  function CForward(r: State, c: Id, m: Msg, stale: Stale): State
    requires Sane(r) && c in r.obj
  {
    if r.obj[c].partner.Some? then CSend(r, r.obj[c].partner.value, FrameBytes(Padded(m)), stale) else r
  }

  /** `drop` in C. */
  function CDrop(r: State, c: Id, stale: Stale): State
    requires Sane(r) && c in r.obj
  {
    if c !in r.live then r
    else
      var p := r.obj[c].partner;
      var r1 := r.(names := Unname(r, c), live := Without(r.live, c));
      if p.None? then r1 else CUnlink(r1, p.value, stale)
  }

  function CUnlink(r: State, p: Id, stale: Stale): State
    requires p in r.obj
  {
    Update(r, p, r.obj[p].(partner := None, tx := Saturate(r.obj[p].tx, PeerLeftBytes(), At(stale, p))))
  }

  // -------------------------------------------------------------- pairing

  /** One player's half of a match. */
  function CStartOne(r: State, me: Id, them: Id, role: u8, bytes: seq<u8>, stale: Stale): State
    requires me in r.obj
  {
    Update(r, me, r.obj[me].(partner := Some(them), role := Some(role), side := r.obj[me].side.(log := []),
                             tx := Saturate(r.obj[me].tx, bytes, At(stale, me))))
  }

  function CMatchUp(cfg: Config, r: State, host: Id, guest: Id, seed: nat, stale: Stale): State
    requires host in r.obj && guest in r.obj
  {
    var h, g := Shown(r.obj[host]), Shown(r.obj[guest]);
    var r1 := CStartOne(r, host, guest, 0, FrameBytes(StartMsg(cfg, 0, seed, g)), stale);
    var r2 := CStartOne(r1, guest, host, 1, FrameBytes(StartMsg(cfg, 1, seed, h)), stale);
    r2.(stats := r.stats.(matches := r.stats.matches + 1))
  }

  /** `try_pair` in C. A caller without a name is paired all the same. */
  function CTryPair(cfg: Config, r: State, c: Id, seed: nat, stale: Stale): State
    requires Sane(r) && c in r.obj
  {
    var others := Others(r, r.live, c);
    if others == [] then r else CMatchUp(cfg, r, Oldest(r, others), c, seed, stale)
  }

  // -------------------------------------------------------------- names

  /** What a full table loses when a new name goes in. */
  function Forget(names: map<Name, Id>, lost: Option<Name>): map<Name, Id> {
    if lost.Some? then names - {lost.value} else names
  }

  /** `name_set`, and the name in the slot. */
  function CClaim(r: State, c: Id, name: Name, lost: Option<Name>): State
    requires c in r.obj
  {
    Update(r, c, r.obj[c].(name := Some(name))).(names := Forget(r.names, lost)[name := c])
  }

  /** The accepted half of `on_hello` in C: a search that does not end in a thousand draws
      drops the client. */
  function CRegister(cfg: Config, r: State, c: Id, name: Name, f: Fate): State
    requires Sane(r) && c in r.obj
  {
    var free := FreeName(name, r.names, f.luck.digits);
    if free.None? then CDrop(r, c, f.stale)
    else CTryPair(cfg, CClaim(r, c, free.value, f.lost), c, f.luck.seed, f.stale)
  }

  /** The rest of `on_hello`, from the television standard on. */
  function CGreet(cfg: Config, r: State, c: Id, payload: seq<u8>, f: Fate): State
    requires Sane(r) && c in r.obj && |payload| >= 3
  {
    var name := Upper(Strip(payload[2..]));
    if payload[1] > 1 || !GoodName(name) then CDrop(r, c, f.stale) else CRegister(cfg, r, c, name, f)
  }

  function COnHello(cfg: Config, r: State, c: Id, payload: seq<u8>, f: Fate): State
    requires Sane(r) && c in r.obj
  {
    if |payload| < 3 || payload[0] != PROTO then CDrop(r, c, f.stale)
    else CGreet(cfg, Update(r, c, r.obj[c].(tv := Some(payload[1]))), c, payload, f)
  }

  lemma {:induction false} FoundIsFree(name: Name, names: map<Name, Id>, digits: seq<u8>)
    ensures FreeName(name, names, digits).Some? ==> FreeName(name, names, digits).value !in names
    decreases |digits|
  {
    if name in names && digits != [] {
      FoundIsFree(Variant(name, digits[0]), names, digits[1..]);
    }
  }

  // -------------------------------------------------------------- checksums

  /** `log_crc` in C. */
  function CLogCrc(r: State, c: Id, tick: u8, crc: u8): State
    requires Sane(r) && c in r.obj
  {
    var p := r.obj[c].partner;
    var o := CReport(r.obj[c].side, if p.Some? then Some(r.obj[p.value].side) else None, tick, crc);
    var r1 := Update(r, c, r.obj[c].(side := o.mine)).(stats := Count(r.stats, o.verdict));
    if p.Some? && o.theirs.Some? then Update(r1, p.value, r.obj[p.value].(side := o.theirs.value)) else r1
  }

  /** The reporter's table has room, or knows the key. */
  predicate LogRoom(side: Side, tick: u8) {
    Find(side.log, KeyOf(side, tick)) >= 0 || |side.log| < CRC_SLOTS
  }

  // -------------------------------------------------------------- one frame

  /** `handle` in C. */
  function CHandle(cfg: Config, r: State, c: Id, m: Msg, f: Fate): State
    requires Sane(r) && c in r.obj
  {
    if IsRelayed(m.ftype) then
      var r1 := CForward(r, c, m, f.stale);
      CForwardKeeps(r, c, m, f.stale);
      if m.ftype == T_INPUT && |m.payload| >= 6 then CLogCrc(r1, c, m.payload[0], m.payload[4]) else r1
    else if m.ftype == T_HELLO then COnHello(cfg, r, c, m.payload, f)
    else if m.ftype == T_LIST then CSend(r, c, FrameBytes(LobbyMsg(r)), f.stale)
    else if m.ftype == T_JOIN then CTryPair(cfg, r, c, f.luck.seed, f.stale)
    else if m.ftype == T_PING then CSend(r, c, FrameBytes(Msg(T_PONG, [])), f.stale)
    else if m.ftype == T_BYE then CDrop(r, c, f.stale)
    else r
  }

  lemma CForwardKeeps(r: State, c: Id, m: Msg, stale: Stale)
    requires Sane(r) && c in r.obj
    ensures Keeps(r, CForward(r, c, m, stale))
  {
    hide FrameBytes, Padded, Saturate;
  }

  // -------------------------------------------------------------- what always holds

  /** Every client's checksums fit its slot, sixteen at most and each key once; and so does
      what waits to be sent to it. */
  ghost predicate Fits(r: State) {
    forall c :: c in r.obj ==> FitsSlot(r.obj[c].side.log) && |r.obj[c].tx| <= TX_CAP
  }

  /** What every step of C keeps: the object graph, the tables, the buffers; and it never
      halts. */
  ghost predicate Holds(r: State, r': State) {
    Keeps(r, r') && r'.halted == r.halted && (Fits(r) ==> Fits(r'))
  }

  lemma HoldsThen(r: State, r1: State, r2: State)
    requires Holds(r, r1)
    ensures Holds(r1, r2) ==> Holds(r, r2)
    ensures Sane(r1) && r1.obj.Keys == r.obj.Keys
  {
    hide Sane, Fits;
  }

  lemma UpdateHolds(r: State, c: Id, x: Client)
    requires Sane(r) && c in r.obj && x.partner == r.obj[c].partner && x.rx == r.obj[c].rx
    requires FitsSlot(r.obj[c].side.log) ==> FitsSlot(x.side.log)
    requires |r.obj[c].tx| <= TX_CAP ==> |x.tx| <= TX_CAP
    ensures Holds(r, Update(r, c, x))
  {
    hide FitsSlot;
    UpdateKeeps(r, c, x);
  }

  lemma SendHolds(r: State, c: Id, bytes: seq<u8>, stale: Stale)
    requires Sane(r) && c in r.obj
    ensures Holds(r, CSend(r, c, bytes, stale))
  {
    hide Holds, FitsSlot;
    UpdateHolds(r, c, r.obj[c].(tx := Saturate(r.obj[c].tx, bytes, At(stale, c))));
  }

  lemma CDropHolds(r: State, c: Id, stale: Stale)
    requires Sane(r) && c in r.obj
    ensures Holds(r, CDrop(r, c, stale))
  {
    hide FitsSlot, PeerLeftBytes, Fill;
  }

  lemma CMatchUpHolds(cfg: Config, r: State, host: Id, guest: Id, seed: nat, stale: Stale)
    requires Sane(r) && host in r.obj && guest in r.obj && host != guest
    ensures Holds(r, CMatchUp(cfg, r, host, guest, seed, stale))
  {
    hide StartMsg, FrameBytes, Fill;
  }

  lemma CTryPairHolds(cfg: Config, r: State, c: Id, seed: nat, stale: Stale)
    requires Sane(r) && c in r.obj
    ensures Holds(r, CTryPair(cfg, r, c, seed, stale))
  {
    hide CMatchUp, FitsSlot;
    var others := Others(r, r.live, c);
    if others != [] {
      CMatchUpHolds(cfg, r, Oldest(r, others), c, seed, stale);
    }
  }

  lemma CClaimHolds(r: State, c: Id, name: Name, lost: Option<Name>)
    requires Sane(r) && c in r.obj
    ensures Holds(r, CClaim(r, c, name, lost))
  {
    hide FitsSlot;
  }

  lemma CRegisterHolds(cfg: Config, r: State, c: Id, name: Name, f: Fate)
    requires Sane(r) && c in r.obj
    ensures Holds(r, CRegister(cfg, r, c, name, f))
  {
    hide CTryPair, CClaim, FreeName, CDrop, Holds, Sane;
    CDropHolds(r, c, f.stale);
    var free := FreeName(name, r.names, f.luck.digits);
    if free.Some? {
      var q := CClaim(r, c, free.value, f.lost);
      CClaimHolds(r, c, free.value, f.lost);
      HoldsThen(r, q, q);
      CTryPairHolds(cfg, q, c, f.luck.seed, f.stale);
      HoldsThen(r, q, CTryPair(cfg, q, c, f.luck.seed, f.stale));
    }
  }

  lemma COnHelloHolds(cfg: Config, r: State, c: Id, payload: seq<u8>, f: Fate)
    requires Sane(r) && c in r.obj
    ensures Holds(r, COnHello(cfg, r, c, payload, f))
  {
    hide CDrop, CRegister, Strip, Upper, GoodName, Holds, Sane;
    CDropHolds(r, c, f.stale);
    if |payload| >= 3 {
      var r1 := Update(r, c, r.obj[c].(tv := Some(payload[1])));
      var name := Upper(Strip(payload[2..]));
      UpdateHolds(r, c, r1.obj[c]);
      HoldsThen(r, r1, r1);
      CDropHolds(r1, c, f.stale);
      HoldsThen(r, r1, CDrop(r1, c, f.stale));
      CRegisterHolds(cfg, r1, c, name, f);
      HoldsThen(r, r1, CRegister(cfg, r1, c, name, f));
    }
  }

  lemma PartnerIsKnown(r: State, c: Id)
    requires Sane(r) && c in r.obj && r.obj[c].partner.Some?
    ensures r.obj[c].partner.value in r.obj && r.obj[c].partner.value != c
  {
  }

  lemma CountingHolds(r: State, stats: Stats)
    requires Sane(r)
    ensures Holds(r, r.(stats := stats))
  {
  }

  lemma CLogCrcHolds(r: State, c: Id, tick: u8, crc: u8)
    requires Sane(r) && c in r.obj
    ensures Holds(r, CLogCrc(r, c, tick, crc))
  {
    CLogCrcKeeps(r, c, tick, crc);
    CLogCrcFits(r, c, tick, crc);
    hide Keeps, Sane, Fits, CReport;
  }

  lemma CLogCrcFits(r: State, c: Id, tick: u8, crc: u8)
    requires Sane(r) && c in r.obj
    ensures Fits(r) ==> Fits(CLogCrc(r, c, tick, crc))
  {
    hide CReport, FitsSlot;
    var p := r.obj[c].partner;
    if Fits(r) {
      CReportFits(r.obj[c].side, if p.Some? then Some(r.obj[p.value].side) else None, tick, crc);
    }
  }

  lemma CLogCrcKeeps(r: State, c: Id, tick: u8, crc: u8)
    requires Sane(r) && c in r.obj
    ensures Keeps(r, CLogCrc(r, c, tick, crc))
  {
    hide CReport, Sane;
    var p := r.obj[c].partner;
    if p.Some? {
      PartnerIsKnown(r, c);
    }
    var o := CReport(r.obj[c].side, if p.Some? then Some(r.obj[p.value].side) else None, tick, crc);
    var r1 := Update(r, c, r.obj[c].(side := o.mine));
    UpdateKeeps(r, c, r1.obj[c]);
    CountingKeeps(r1, Count(r.stats, o.verdict));
    if p.Some? {
      var r2 := r1.(stats := Count(r.stats, o.verdict));
      var side := if o.theirs.Some? then o.theirs.value else r2.obj[p.value].side;
      UpdateKeeps(r2, p.value, r2.obj[p.value].(side := side));
    }
  }

  lemma CForwardHolds(r: State, c: Id, m: Msg, stale: Stale)
    requires Sane(r) && c in r.obj
    ensures Holds(r, CForward(r, c, m, stale))
  {
    hide FrameBytes, Padded, Holds, CSend, Sane;
    if r.obj[c].partner.Some? {
      PartnerIsKnown(r, c);
      SendHolds(r, r.obj[c].partner.value, FrameBytes(Padded(m)), stale);
    } else {
      CountingHolds(r, r.stats);
    }
  }

  /** THE TABLES HOLD. Whatever the frame, no checksum table holds more than sixteen entries
      or one key twice, no transmit buffer more than its array, the object graph stays sane,
      and C never halts. */
  lemma CHandleHolds(cfg: Config, r: State, c: Id, m: Msg, f: Fate)
    requires Sane(r) && c in r.obj
    ensures Holds(r, CHandle(cfg, r, c, m, f))
  {
    hide CDrop, CTryPair, COnHello, CLogCrc, CForward, LobbyMsg, FrameBytes, Holds, CSend, Sane;
    CountingHolds(r, r.stats);
    if IsRelayed(m.ftype) {
      var r1 := CForward(r, c, m, f.stale);
      CForwardHolds(r, c, m, f.stale);
      HoldsThen(r, r1, r1);
      if m.ftype == T_INPUT && |m.payload| >= 6 {
        CLogCrcHolds(r1, c, m.payload[0], m.payload[4]);
        HoldsThen(r, r1, CLogCrc(r1, c, m.payload[0], m.payload[4]));
      }
    } else if m.ftype == T_HELLO {
      COnHelloHolds(cfg, r, c, m.payload, f);
    } else if m.ftype == T_LIST {
      SendHolds(r, c, FrameBytes(LobbyMsg(r)), f.stale);
    } else if m.ftype == T_JOIN {
      CTryPairHolds(cfg, r, c, f.luck.seed, f.stale);
    } else if m.ftype == T_PING {
      SendHolds(r, c, FrameBytes(Msg(T_PONG, [])), f.stale);
    } else if m.ftype == T_BYE {
      CDropHolds(r, c, f.stale);
    }
  }

  // -------------------------------------------------------------- Python's state, clipped

  /** What a buffer that was `was` holds in C where it would be `now` in Python. */
  function Clip(was: seq<u8>, now: seq<u8>, stale: seq<u8>): seq<u8> {
    if |now| <= TX_CAP then now
    else if |was| <= TX_CAP then was + Fill(stale, TX_CAP - |was|)
    else was
  }

  /** `q` is `h`, every transmit buffer that has outgrown its array clipped. */
  ghost predicate Clipped(r: State, h: State, q: State, stale: Stale) {
    && q == h.(obj := q.obj) && q.obj.Keys == h.obj.Keys == r.obj.Keys
    && forall x :: x in r.obj ==> q.obj[x] == h.obj[x].(tx := Clip(r.obj[x].tx, h.obj[x].tx, At(stale, x)))
  }

  ghost predicate Bounded(r: State) {
    forall x :: x in r.obj ==> |r.obj[x].tx| <= TX_CAP
  }

  lemma ClippedIff(r: State, h: State, q: State, stale: Stale)
    requires Clipped(r, h, q, stale) && Bounded(r)
    ensures q == h <==> Bounded(h)
  {
    if !Bounded(h) {
      var x :| x in h.obj && |h.obj[x].tx| > TX_CAP;
      assert |q.obj[x].tx| == TX_CAP;
    } else {
      assert q.obj == h.obj;
    }
  }

  lemma SameClipped(r: State, h: State, stale: Stale)
    requires Bounded(r) && h.obj == r.obj
    ensures Clipped(r, h, h, stale)
  {
  }

  /** Only the buffers before the step matter. */
  lemma ClippedFrom(r: State, r1: State, h: State, q: State, stale: Stale)
    requires Clipped(r1, h, q, stale) && r1.obj.Keys == r.obj.Keys
    requires forall x :: x in r.obj ==> r1.obj[x].tx == r.obj[x].tx || |h.obj[x].tx| <= TX_CAP
    ensures Clipped(r, h, q, stale)
  {
  }

  lemma StatsClipped(r: State, h: State, q: State, stats: Stats, stale: Stale)
    requires Clipped(r, h, q, stale)
    ensures Clipped(r, h.(stats := stats), q.(stats := stats), stale) && h.stats == q.stats
  {
    hide Clip;
  }

  lemma SaturateIsClip(b: seq<u8>, data: seq<u8>, stale: seq<u8>)
    requires |b| <= TX_CAP
    ensures Saturate(b, data, stale) == Clip(b, b + data, stale)
  {
    hide Fill;
  }

  /** The survivor's half of a drop in Python. */
  function Unlink(r: State, p: Id): State
    requires p in r.obj
  {
    Update(r, p, r.obj[p].(partner := None, tx := r.obj[p].tx + PeerLeftBytes()))
  }

  lemma UnlinkClipped(r: State, h: State, p: Id, stale: Stale)
    requires h.obj == r.obj && p in r.obj && Bounded(r)
    ensures Clipped(r, Unlink(h, p), CUnlink(h, p, stale), stale)
  {
    SaturateIsClip(r.obj[p].tx, PeerLeftBytes(), At(stale, p));
    hide PeerLeftBytes, Saturate, Fill;
  }

  lemma DropClipped(r: State, c: Id, stale: Stale)
    requires Sane(r) && c in r.obj && Bounded(r)
    ensures Clipped(r, Drop(r, c), CDrop(r, c, stale), stale)
  {
    hide PeerLeftBytes, Saturate, Unname, Clipped, Clip;
    SameClipped(r, r, stale);
    var r1 := r.(names := Unname(r, c), live := Without(r.live, c));
    SameClipped(r, r1, stale);
    if r.obj[c].partner.Some? {
      PartnerIsKnown(r, c);
      UnlinkClipped(r, r1, r.obj[c].partner.value, stale);
    }
  }

  lemma SendClipped(r: State, c: Id, bytes: seq<u8>, stale: Stale)
    requires c in r.obj && Bounded(r)
    ensures Clipped(r, Send(r, c, bytes), CSend(r, c, bytes, stale), stale)
  {
    hide Fill;
  }

  /** One player's half of a match in Python. */
  function StartOne(r: State, me: Id, them: Id, role: u8, bytes: seq<u8>): State
    requires me in r.obj
  {
    Update(r, me, r.obj[me].(partner := Some(them), role := Some(role), side := r.obj[me].side.(log := []),
                             tx := r.obj[me].tx + bytes))
  }

  lemma MatchUpIsTwo(cfg: Config, r: State, host: Id, guest: Id, seed: nat)
    requires host in r.obj && guest in r.obj && host != guest
    ensures var h, g := Shown(r.obj[host]), Shown(r.obj[guest]);
      var r1 := StartOne(r, host, guest, 0, FrameBytes(StartMsg(cfg, 0, seed, g)));
      MatchUp(cfg, r, host, guest, seed) == StartOne(r1, guest, host, 1, FrameBytes(StartMsg(cfg, 1, seed, h)))
                                              .(stats := r.stats.(matches := r.stats.matches + 1))
  {
    hide StartMsg, FrameBytes, Shown;
  }

  lemma StartOneClipped(r: State, h: State, q: State, me: Id, them: Id, role: u8, bytes: seq<u8>, stale: Stale)
    requires Clipped(r, h, q, stale) && me in h.obj && me in q.obj && me in r.obj
    requires h.obj[me].tx == r.obj[me].tx && |r.obj[me].tx| <= TX_CAP
    ensures Clipped(r, StartOne(h, me, them, role, bytes), CStartOne(q, me, them, role, bytes, stale), stale)
  {
    SaturateIsClip(r.obj[me].tx, bytes, At(stale, me));
    assert q.obj[me].tx == r.obj[me].tx by {
      assert q.obj[me] == h.obj[me].(tx := Clip(r.obj[me].tx, h.obj[me].tx, At(stale, me)));
    }
    hide Saturate, Clip;
  }

  lemma MatchUpClipped(cfg: Config, r: State, host: Id, guest: Id, seed: nat, stale: Stale)
    requires host in r.obj && guest in r.obj && host != guest && Bounded(r)
    ensures Clipped(r, MatchUp(cfg, r, host, guest, seed), CMatchUp(cfg, r, host, guest, seed, stale), stale)
  {
    var h := FrameBytes(StartMsg(cfg, 0, seed, Shown(r.obj[guest])));
    var g := FrameBytes(StartMsg(cfg, 1, seed, Shown(r.obj[host])));
    assert |r.obj[host].tx| <= TX_CAP && |r.obj[guest].tx| <= TX_CAP;
    SameClipped(r, r, stale);
    MatchUpIsTwo(cfg, r, host, guest, seed);
    hide StartMsg, FrameBytes, Shown, Clipped, Saturate, Clip, Bounded;
    StartOneClipped(r, r, r, host, guest, 0, h, stale);
    var h1, q1 := StartOne(r, host, guest, 0, h), CStartOne(r, host, guest, 0, h, stale);
    StartOneClipped(r, h1, q1, guest, host, 1, g, stale);
    StatsClipped(r, StartOne(h1, guest, host, 1, g), CStartOne(q1, guest, host, 1, g, stale),
                 r.stats.(matches := r.stats.matches + 1), stale);
  }

  lemma TryPairClipped(cfg: Config, r: State, c: Id, seed: nat, stale: Stale)
    requires Sane(r) && c in r.obj && Bounded(r) && !r.halted
    ensures r.obj[c].name.Some? || Others(r, r.live, c) == [] ==>
      Clipped(r, TryPair(cfg, r, c, seed), CTryPair(cfg, r, c, seed, stale), stale)
    ensures !(r.obj[c].name.Some? || Others(r, r.live, c) == []) ==>
      TryPair(cfg, r, c, seed) != CTryPair(cfg, r, c, seed, stale)
  {
    var others := Others(r, r.live, c);
    if others == [] {
      SameClipped(r, r, stale);
    } else {
      MatchUpClipped(cfg, r, Oldest(r, others), c, seed, stale);
    }
    assert others != [] ==> !CMatchUp(cfg, r, Oldest(r, others), c, seed, stale).halted;
    hide MatchUp, CMatchUp, Clipped;
  }

  // -------------------------------------------------------------- a HELLO

  predicate LosesNothing(r: State, lost: Option<Name>) {
    lost.Some? ==> lost.value !in r.names
  }

  lemma CTryPairNames(cfg: Config, r: State, c: Id, seed: nat, stale: Stale)
    requires Sane(r) && c in r.obj
    ensures CTryPair(cfg, r, c, seed, stale).names == r.names && TryPair(cfg, r, c, seed).names == r.names
  {
    hide StartMsg, FrameBytes, Saturate;
  }

  /** A name the table loses is missed. */
  lemma ClaimDiffers(cfg: Config, r: State, c: Id, name: Name, f: Fate)
    requires Sane(r) && c in r.obj && name !in r.names && !LosesNothing(r, f.lost)
    ensures Sane(CClaim(r, c, name, f.lost)) && Sane(Claim(r, c, name))
    ensures CTryPair(cfg, CClaim(r, c, name, f.lost), c, f.luck.seed, f.stale)
      != TryPair(cfg, Claim(r, c, name), c, f.luck.seed)
  {
    var q, q' := Claim(r, c, name), CClaim(r, c, name, f.lost);
    CClaimHolds(r, c, name, f.lost);
    CClaimHolds(r, c, name, None);
    assert CClaim(r, c, name, None) == q;
    CTryPairNames(cfg, q', c, f.luck.seed, f.stale);
    CTryPairNames(cfg, q, c, f.luck.seed, f.stale);
    assert f.lost.value in q.names && f.lost.value !in q'.names;
  }

  lemma RegisterClipped(cfg: Config, r: State, c: Id, name: Name, f: Fate)
    requires Sane(r) && c in r.obj && !r.halted && Bounded(r)
    ensures FreeName(name, r.names, f.luck.digits).Some? && LosesNothing(r, f.lost) ==>
      Clipped(r, Register(cfg, r, c, name, f.luck), CRegister(cfg, r, c, name, f), f.stale)
    ensures !(FreeName(name, r.names, f.luck.digits).Some? && LosesNothing(r, f.lost)) ==>
      Register(cfg, r, c, name, f.luck) != CRegister(cfg, r, c, name, f)
  {
    hide FreeName, CTryPair, TryPair, Sane, CDrop, Clipped, Bounded, Others;
    var free := FreeName(name, r.names, f.luck.digits);
    if free.None? {
      CDropHolds(r, c, f.stale);
    } else {
      FoundIsFree(name, r.names, f.luck.digits);
      if LosesNothing(r, f.lost) {
        ClaimClipped(cfg, r, c, free.value, f);
      } else {
        ClaimDiffers(cfg, r, c, free.value, f);
      }
    }
  }

  lemma ClaimClipped(cfg: Config, r: State, c: Id, name: Name, f: Fate)
    requires Sane(r) && c in r.obj && !r.halted && Bounded(r) && LosesNothing(r, f.lost)
    ensures CClaim(r, c, name, f.lost) == Claim(r, c, name) && Sane(Claim(r, c, name))
    ensures Clipped(r, TryPair(cfg, Claim(r, c, name), c, f.luck.seed),
                    CTryPair(cfg, Claim(r, c, name), c, f.luck.seed, f.stale), f.stale)
  {
    hide CTryPair, TryPair, Clipped, Others;
    var q := Claim(r, c, name);
    CClaimHolds(r, c, name, f.lost);
    assert Forget(r.names, f.lost) == r.names;
    assert CClaim(r, c, name, f.lost) == q;
    hide Sane;
    TryPairClipped(cfg, q, c, f.luck.seed, f.stale);
    ClippedFrom(r, q, TryPair(cfg, q, c, f.luck.seed), CTryPair(cfg, q, c, f.luck.seed, f.stale), f.stale);
  }

  lemma HelloClipped(cfg: Config, r: State, c: Id, payload: seq<u8>, f: Fate)
    requires Sane(r) && c in r.obj && !r.halted && Bounded(r)
    ensures var ok := WellFormed(payload) ==>
        FreeName(Upper(Strip(payload[2..])), r.names, f.luck.digits).Some? && LosesNothing(r, f.lost);
      && (ok ==> Clipped(r, OnHello(cfg, r, c, payload, f.luck), COnHello(cfg, r, c, payload, f), f.stale))
      && (!ok ==> OnHello(cfg, r, c, payload, f.luck) != COnHello(cfg, r, c, payload, f))
  {
    hide CRegister, Register, FreeName, Strip, Upper, GoodName, Drop, CDrop, Clipped, Sane;
    DropClipped(r, c, f.stale);
    if |payload| >= 3 && payload[0] == PROTO {
      var r1 := Update(r, c, r.obj[c].(tv := Some(payload[1])));
      UpdateHolds(r, c, r1.obj[c]);
      HoldsThen(r, r1, r1);
      DropClipped(r1, c, f.stale);
      ClippedFrom(r, r1, Drop(r1, c), CDrop(r1, c, f.stale), f.stale);
      var name := Upper(Strip(payload[2..]));
      if WellFormed(payload) {
        RegisterClipped(cfg, r1, c, name, f);
        if FreeName(name, r.names, f.luck.digits).Some? && LosesNothing(r, f.lost) {
          ClippedFrom(r, r1, Register(cfg, r1, c, name, f.luck), CRegister(cfg, r1, c, name, f), f.stale);
        }
      }
    }
  }

  // -------------------------------------------------------------- a game frame

  lemma ForwardClipped(r: State, c: Id, m: Msg, stale: Stale)
    requires Sane(r) && c in r.obj && Bounded(r)
    ensures Clipped(r, Forward(r, c, m), CForward(r, c, m, stale), stale)
  {
    hide FrameBytes, Padded, CSend, Send, Clipped;
    if r.obj[c].partner.Some? {
      PartnerIsKnown(r, c);
      SendClipped(r, r.obj[c].partner.value, FrameBytes(Padded(m)), stale);
    } else {
      SameClipped(r, r, stale);
    }
  }

  function SetSide(r: State, c: Id, side: Side): State
    requires c in r.obj
  {
    Update(r, c, r.obj[c].(side := side))
  }

  /** What a report's outcome does to the two clients and the counters. */
  function Logged(r: State, c: Id, o: Outcome): State
    requires Sane(r) && c in r.obj
  {
    var p := r.obj[c].partner;
    var r1 := SetSide(r, c, o.mine).(stats := Count(r.stats, o.verdict));
    if p.Some? && o.theirs.Some? then SetSide(r1, p.value, o.theirs.value) else r1
  }

  lemma SideClipped(r: State, h: State, q: State, c: Id, side: Side, stale: Stale)
    requires c in h.obj && c in q.obj && Clipped(r, h, q, stale)
    ensures Clipped(r, SetSide(h, c, side), SetSide(q, c, side), stale)
  {
    hide Clip;
  }

  lemma LoggedClipped(r: State, h: State, q: State, c: Id, o: Outcome, stale: Stale)
    requires Sane(h) && Sane(q) && c in h.obj && c in q.obj && Clipped(r, h, q, stale)
    ensures Clipped(r, Logged(h, c, o), Logged(q, c, o), stale)
  {
    ClippedSides(r, h, q, c, stale);
    StatsClipped(r, h, q, h.stats, stale);
    hide Clipped, Sane;
    var h1, q1 := SetSide(h, c, o.mine), SetSide(q, c, o.mine);
    SideClipped(r, h, q, c, o.mine, stale);
    StatsClipped(r, h1, q1, Count(h.stats, o.verdict), stale);
    var p := h.obj[c].partner;
    if p.Some? && o.theirs.Some? {
      var h2, q2 := h1.(stats := Count(h.stats, o.verdict)), q1.(stats := Count(h.stats, o.verdict));
      SideClipped(r, h2, q2, p.value, o.theirs.value, stale);
    }
  }

  /** Logging a checksum looks at no buffer. */
  lemma LogCrcClipped(r: State, h: State, q: State, c: Id, tick: u8, crc: u8, stale: Stale)
    requires Sane(h) && Sane(q) && c in h.obj && c in q.obj && Clipped(r, h, q, stale)
    requires FitsSlot(h.obj[c].side.log)
    ensures LogRoom(h.obj[c].side, tick) ==>
      Clipped(r, LogCrc(h, c, tick, crc), CLogCrc(q, c, tick, crc), stale)
    ensures !LogRoom(h.obj[c].side, tick) ==> LogCrc(h, c, tick, crc) != CLogCrc(q, c, tick, crc)
  {
    var p := h.obj[c].partner;
    ClippedSides(r, h, q, c, stale);
    var ps := if p.Some? then Some(h.obj[p.value].side) else None;
    CReportIsReport(h.obj[c].side, ps, tick, crc);
    var o, o' := Report(h.obj[c].side, ps, tick, crc), CReport(h.obj[c].side, ps, tick, crc);
    hide CReport, Report, Find, KeyOf, Clip, Clipped, Sane;
    LoggedClipped(r, h, q, c, o, stale);
    LogCrcIsLogged(h, c, tick, crc);
    LogCrcIsLogged(q, c, tick, crc);
    assert LogCrc(h, c, tick, crc).obj[c].side == o.mine by { LoggedSide(h, c, o); }
    assert CLogCrc(q, c, tick, crc).obj[c].side == o'.mine by { LoggedSide(q, c, o'); }
  }

  lemma LogCrcIsLogged(r: State, c: Id, tick: u8, crc: u8)
    requires Sane(r) && c in r.obj
    ensures var x := r.obj[c]; var ps := if x.partner.Some? then Some(r.obj[x.partner.value].side) else None;
      && LogCrc(r, c, tick, crc) == Logged(r, c, Report(x.side, ps, tick, crc))
      && CLogCrc(r, c, tick, crc) == Logged(r, c, CReport(x.side, ps, tick, crc))
  {
    hide Report, CReport;
  }

  lemma LoggedSide(r: State, c: Id, o: Outcome)
    requires Sane(r) && c in r.obj
    ensures c in Logged(r, c, o).obj && Logged(r, c, o).obj[c].side == o.mine
  {
  }

  lemma ClippedSides(r: State, h: State, q: State, c: Id, stale: Stale)
    requires Sane(h) && Clipped(r, h, q, stale) && c in h.obj && c in q.obj
    ensures q.obj[c].side == h.obj[c].side && q.obj[c].partner == h.obj[c].partner
    ensures var p := h.obj[c].partner;
      p.Some? ==> p.value in h.obj && p.value in q.obj && q.obj[p.value].side == h.obj[p.value].side
  {
    hide Clip;
  }

  lemma ForwardSides(r: State, c: Id, m: Msg, x: Id)
    requires Sane(r) && c in r.obj && x in r.obj
    ensures x in Forward(r, c, m).obj && Forward(r, c, m).obj[x].side == r.obj[x].side
  {
    hide FrameBytes, Padded;
  }

  lemma RelayedClipped(cfg: Config, r: State, c: Id, m: Msg, f: Fate)
    requires Sane(r) && c in r.obj && Fits(r) && IsRelayed(m.ftype)
    ensures var ok := m.ftype == T_INPUT && |m.payload| >= 6 ==> LogRoom(r.obj[c].side, m.payload[0]);
      && (ok ==> Clipped(r, Handle(cfg, r, c, m, f.luck), CHandle(cfg, r, c, m, f), f.stale))
      && (!ok ==> Handle(cfg, r, c, m, f.luck) != CHandle(cfg, r, c, m, f))
  {
    hide CLogCrc, LogCrc, Forward, CForward, Clipped, LogRoom;
    ForwardKeeps(r, c, m);
    CForwardKeeps(r, c, m, f.stale);
    ForwardClipped(r, c, m, f.stale);
    ForwardSides(r, c, m, c);
    if m.ftype == T_INPUT && |m.payload| >= 6 {
      LogCrcClipped(r, Forward(r, c, m), CForward(r, c, m, f.stale), c, m.payload[0], m.payload[4], f.stale);
    }
  }

  // -------------------------------------------------------------- when C is Python

  /** Whoever this frame makes the relay tell something has room for it. */
  ghost predicate RoomFor(cfg: Config, r: State, c: Id, m: Msg, luck: Luck)
    requires Sane(r) && c in r.obj
  {
    forall x :: x in r.obj ==> |r.obj[x].tx| + |NoteBytes(NoteOf(cfg, r, c, m, luck, x))| <= TX_CAP
  }

  /** The tables: a free entry for a new checksum key, a name for a JOIN while somebody
      waits, a search that ends in a thousand draws, a free entry for a new name. */
  predicate TablesServe(r: State, c: Id, m: Msg, f: Fate)
    requires c in r.obj
  {
    && (m.ftype == T_INPUT && |m.payload| >= 6 ==> LogRoom(r.obj[c].side, m.payload[0]))
    && (m.ftype == T_JOIN ==> r.obj[c].name.Some? || Others(r, r.live, c) == [])
    && (m.ftype == T_HELLO && WellFormed(m.payload) ==>
          FreeName(Upper(Strip(m.payload[2..])), r.names, f.luck.digits).Some? && LosesNothing(r, f.lost))
  }

  /** What a frame must not run into for C to be Python. */
  ghost predicate Guarded(cfg: Config, r: State, c: Id, m: Msg, f: Fate)
    requires Sane(r) && c in r.obj
  {
    TablesServe(r, c, m, f) && RoomFor(cfg, r, c, m, f.luck)
  }

  lemma HandleClipped(cfg: Config, r: State, c: Id, m: Msg, f: Fate)
    requires Sane(r) && c in r.obj && !r.halted && Fits(r)
    ensures TablesServe(r, c, m, f) ==>
      Clipped(r, Handle(cfg, r, c, m, f.luck), CHandle(cfg, r, c, m, f), f.stale)
    ensures !TablesServe(r, c, m, f) ==> Handle(cfg, r, c, m, f.luck) != CHandle(cfg, r, c, m, f)
  {
    hide Drop, CDrop, CTryPair, TryPair, CLogCrc, LogCrc, Others, FrameBytes, LobbyMsg, COnHello, OnHello;
    hide WellFormed, Forward, CForward, FreeName, LosesNothing, LogRoom, Clipped, Send, CSend;
    assert Bounded(r);
    if IsRelayed(m.ftype) {
      RelayedClipped(cfg, r, c, m, f);
    } else if m.ftype == T_JOIN {
      TryPairClipped(cfg, r, c, f.luck.seed, f.stale);
    } else if m.ftype == T_HELLO {
      HelloClipped(cfg, r, c, m.payload, f);
    } else if m.ftype == T_LIST {
      SendClipped(r, c, FrameBytes(LobbyMsg(r)), f.stale);
    } else if m.ftype == T_PING {
      SendClipped(r, c, FrameBytes(Msg(T_PONG, [])), f.stale);
    } else if m.ftype == T_BYE {
      DropClipped(r, c, f.stale);
    } else {
      SameClipped(r, r, f.stale);
    }
  }

  /** What Python's buffers come to is what the notes say. */
  lemma HandleBounded(cfg: Config, r: State, c: Id, m: Msg, luck: Luck)
    requires Sane(r) && c in r.obj
    ensures Bounded(Handle(cfg, r, c, m, luck)) <==> RoomFor(cfg, r, c, m, luck)
  {
    hide Handle, NoteOf, FrameBytes;
    HandleKeeps(cfg, r, c, m, luck);
    forall x | x in r.obj
      ensures |Handle(cfg, r, c, m, luck).obj[x].tx| == |r.obj[x].tx| + |NoteBytes(NoteOf(cfg, r, c, m, luck, x))|
    {
      HandleObeys(cfg, r, c, m, luck, x);
    }
  }

  /** WHEN C IS PYTHON, frame by frame: exactly under the guards. */
  lemma CHandleIsHandle(cfg: Config, r: State, c: Id, m: Msg, f: Fate)
    requires Sane(r) && c in r.obj && !r.halted && Fits(r)
    ensures CHandle(cfg, r, c, m, f) == Handle(cfg, r, c, m, f.luck) <==> Guarded(cfg, r, c, m, f)
  {
    assert Bounded(r);
    hide CHandle, Handle, TablesServe, RoomFor, Clipped, Bounded, Sane, Fits;
    HandleClipped(cfg, r, c, m, f);
    HandleBounded(cfg, r, c, m, f.luck);
    if TablesServe(r, c, m, f) {
      ClippedIff(r, Handle(cfg, r, c, m, f.luck), CHandle(cfg, r, c, m, f), f.stale);
    }
  }

  // -------------------------------------------------------------- one step

  /** One whole frame taken from the buffer and handled. */
  function CTakeOne(cfg: Config, r: State, c: Id, f: Fate): (r': State)
    requires Sane(r) && c in r.obj && Front(r.obj[c].rx).Whole?
  {
    PoppedSane(r, c);
    CHandle(cfg, Popped(r, c), c, Front(r.obj[c].rx).m, f)
  }

  /** The receive: what no longer fits the array drops the connection. */
  function CChunk(r: State, c: Id, data: seq<u8>, stale: Stale): State
    requires Sane(r) && c in r.obj
  {
    if |r.obj[c].rx| + |data| > RX_CAP then CDrop(r, c, stale)
    else Update(r, c, r.obj[c].(rx := r.obj[c].rx + data))
  }

  function CGarble(r: State, c: Id, stale: Stale): State
    requires Sane(r) && c in r.obj
  {
    CDrop(r.(stats := r.stats.(badFrames := r.stats.badFrames + 1)), c, stale)
  }

  function CExpire(r: State, c: Id, stale: Stale): State
    requires Sane(r) && c in r.obj
  {
    if r.obj[c].name.None?
    then CDrop(r.(stats := r.stats.(helloTimeouts := r.stats.helloTimeouts + 1)), c, stale) else r
  }

  /** `flush` in C. */
  function CFlush(r: State, c: Id, sent: Sent, stale: Stale): State
    requires Sane(r) && c in r.obj
  {
    if r.obj[c].tx == [] then r
    else if sent.Broken? then CDrop(r, c, stale)
    else
      var r1 := Cut(r, c, sent);
      UpdateKeeps(r, c, r1.obj[c]);
      if |r1.obj[c].tx| > MAX_BACKLOG
      then CDrop(r1.(stats := r.stats.(txDrops := r.stats.txDrops + 1)), c, stale) else r1
  }

  /** Every step but an arrival, which is about slots. */
  function CAct(cfg: Config, r: State, s: Step, lost: Option<Name>, stale: Stale): State
    requires Sane(r) && Possible(r, s) && !s.Arrive?
  {
    match s
    case Chunk(c, data) => CChunk(r, c, data, stale)
    case Next(c, luck) => CTakeOne(cfg, r, c, Fate(luck, lost, stale))
    case Garbled(c) => CGarble(r, c, stale)
    case Lost(c) => CDrop(r, c, stale)
    case Flushed(c, sent) => CFlush(r, c, sent, stale)
    case Expired(c) => CExpire(r, c, stale)
  }

  /** What every step keeps: the object graph, the tables and the buffers, no client lost. */
  ghost predicate Sound(r: State, r': State) {
    Sane(r') && r'.obj.Keys == r.obj.Keys && r'.halted == r.halted && (Fits(r) ==> Fits(r'))
  }

  lemma HoldsSound(r: State, r1: State, r2: State)
    requires Sane(r1) && r1.obj.Keys == r.obj.Keys && r1.halted == r.halted && (Fits(r) ==> Fits(r1))
    requires Holds(r1, r2)
    ensures Sound(r, r2)
  {
    hide Sane, Fits;
  }

  lemma PoppedHolds(r: State, c: Id)
    requires Sane(r) && c in r.obj && Front(r.obj[c].rx).Whole?
    ensures Sane(Popped(r, c)) && Popped(r, c).obj.Keys == r.obj.Keys && Popped(r, c).halted == r.halted
    ensures Fits(r) ==> Fits(Popped(r, c))
  {
    hide FitsSlot, Front;
  }

  lemma RxHolds(r: State, c: Id, rx: seq<u8>)
    requires Sane(r) && c in r.obj
    ensures Sound(r, Update(r, c, r.obj[c].(rx := rx)))
  {
    hide FitsSlot;
    PartnerSane(r, c, r.obj[c].(rx := rx));
  }

  lemma CFlushHolds(r: State, c: Id, sent: Sent, stale: Stale)
    requires Sane(r) && c in r.obj
    ensures Holds(r, CFlush(r, c, sent, stale))
  {
    hide CDrop, Holds, Sane;
    CountingHolds(r, r.stats);
    CDropHolds(r, c, stale);
    var r1 := Cut(r, c, sent);
    UpdateHolds(r, c, r1.obj[c]);
    HoldsThen(r, r1, r1);
    var r2 := r1.(stats := r.stats.(txDrops := r.stats.txDrops + 1));
    CountingHolds(r1, r2.stats);
    HoldsThen(r1, r2, r2);
    CDropHolds(r2, c, stale);
    HoldsThen(r1, r2, CDrop(r2, c, stale));
    HoldsThen(r, r1, CDrop(r2, c, stale));
  }

  lemma StatsDropHolds(r: State, stats: Stats, c: Id, stale: Stale)
    requires Sane(r) && c in r.obj
    ensures Sane(r.(stats := stats)) && Holds(r, CDrop(r.(stats := stats), c, stale))
  {
    hide CDrop, Holds, Sane;
    var r1 := r.(stats := stats);
    CountingHolds(r, stats);
    HoldsThen(r, r1, r1);
    CDropHolds(r1, c, stale);
    HoldsThen(r, r1, CDrop(r1, c, stale));
  }

  lemma HoldsIsSound(r: State, r': State)
    requires Holds(r, r')
    ensures Sound(r, r')
  {
    hide Sane, Fits;
  }

  lemma CActSound(cfg: Config, r: State, s: Step, lost: Option<Name>, stale: Stale)
    requires Sane(r) && Possible(r, s) && !s.Arrive?
    ensures Sound(r, CAct(cfg, r, s, lost, stale))
  {
    hide CDrop, CHandle, CFlush, Holds, Sane, Fits, Front, Sound;
    CountingHolds(r, r.stats);
    HoldsIsSound(r, r);
    match s
    case Chunk(c, data) =>
      CDropHolds(r, c, stale);
      HoldsIsSound(r, CDrop(r, c, stale));
      RxHolds(r, c, r.obj[c].rx + data);
    case Next(c, luck) =>
      PoppedHolds(r, c);
      CHandleHolds(cfg, Popped(r, c), c, Front(r.obj[c].rx).m, Fate(luck, lost, stale));
      HoldsSound(r, Popped(r, c), CTakeOne(cfg, r, c, Fate(luck, lost, stale)));
    case Garbled(c) =>
      StatsDropHolds(r, r.stats.(badFrames := r.stats.badFrames + 1), c, stale);
      HoldsIsSound(r, CGarble(r, c, stale));
    case Lost(c) =>
      CDropHolds(r, c, stale);
      HoldsIsSound(r, CDrop(r, c, stale));
    case Flushed(c, sent) =>
      CFlushHolds(r, c, sent, stale);
      HoldsIsSound(r, CFlush(r, c, sent, stale));
    case Expired(c) =>
      StatsDropHolds(r, r.stats.(helloTimeouts := r.stats.helloTimeouts + 1), c, stale);
      HoldsIsSound(r, CExpire(r, c, stale));
  }

  // -------------------------------------------------------------- when a step is Python's

  /** Whoever this step makes the relay tell something has room for it. */
  ghost predicate StepRoom(cfg: Config, r: State, s: Step)
    requires Sane(r) && Possible(r, s)
  {
    forall x :: x in r.obj ==> |r.obj[x].tx| + |NoteBytes(StepNote(cfg, r, s, x))| <= TX_CAP
  }

  predicate StepTables(r: State, s: Step, lost: Option<Name>, stale: Stale)
    requires Sane(r) && Possible(r, s)
  {
    s.Next? ==> TablesServe(Popped(r, s.c), s.c, Front(r.obj[s.c].rx).m, Fate(s.luck, lost, stale))
  }

  /** A receive as the socket gives it: 4096 bytes at most. */
  predicate Receivable(s: Step) {
    s.Chunk? ==> |s.data| <= RECV_SIZE
  }

  lemma DropRoom(r: State, c: Id, x: Id)
    requires Sane(r) && c in r.obj && x in r.obj
    ensures x == c ==> DropNote(r, c, x) == Quiet
  {
  }

  /** What Python's buffers come to is what the notes say; a flush only takes away. */
  lemma DoBounded(cfg: Config, r: State, s: Step)
    requires Sane(r) && Possible(r, s) && Bounded(r) && !s.Arrive?
    ensures Sane(Do(cfg, r, s)) && Do(cfg, r, s).obj.Keys == r.obj.Keys
    ensures Bounded(Do(cfg, r, s)) <==> StepRoom(cfg, r, s)
  {
    hide Do, FrameBytes, Front, NoteOf;
    DoSane(cfg, r, s);
    DoObjects(cfg, r, s);
    forall x | x in r.obj
      ensures |Do(cfg, r, s).obj[x].tx| <= TX_CAP
        <==> |r.obj[x].tx| + |NoteBytes(StepNote(cfg, r, s, x))| <= TX_CAP
    {
      StepFlows(cfg, r, s, x);
      if s.Flushed? && s.c == x {
        DropRoom(r, x, x);
      } else {
        assert BytesOut(r, s, x) == [];
        assert [] + Do(cfg, r, s).obj[x].tx == Do(cfg, r, s).obj[x].tx;
      }
    }
  }

  lemma DoObjects(cfg: Config, r: State, s: Step)
    requires Sane(r) && Possible(r, s) && !s.Arrive?
    ensures Do(cfg, r, s).obj.Keys == r.obj.Keys
  {
    hide Drop, Handle, Front, Sane;
    match s
    case Chunk(c, data) =>
    case Next(c, luck) =>
      PoppedSane(r, c);
      HandleKeeps(cfg, Popped(r, c), c, Front(r.obj[c].rx).m, luck);
    case Garbled(c) =>
      CountingKeeps(r, r.stats.(badFrames := r.stats.badFrames + 1));
      DropKeeps(r.(stats := r.stats.(badFrames := r.stats.badFrames + 1)), c);
    case Lost(c) => DropKeeps(r, c);
    case Flushed(c, sent) => FlushKeeps(r, c, sent);
    case Expired(c) =>
      CountingKeeps(r, r.stats.(helloTimeouts := r.stats.helloTimeouts + 1));
      DropKeeps(r.(stats := r.stats.(helloTimeouts := r.stats.helloTimeouts + 1)), c);
  }

  lemma StatsDropClipped(r: State, stats: Stats, c: Id, stale: Stale)
    requires Sane(r) && c in r.obj && Bounded(r)
    ensures Sane(r.(stats := stats))
    ensures Clipped(r, Drop(r.(stats := stats), c), CDrop(r.(stats := stats), c, stale), stale)
  {
    hide Drop, CDrop, Clip;
    CountingKeeps(r, stats);
    DropClipped(r.(stats := stats), c, stale);
  }

  lemma FlushClipped(r: State, c: Id, sent: Sent, stale: Stale)
    requires Sane(r) && c in r.obj && Bounded(r)
    ensures Clipped(r, Flush(r, c, sent), CFlush(r, c, sent, stale), stale)
  {
    hide Drop, CDrop, Clipped, Sane;
    SameClipped(r, r, stale);
    DropClipped(r, c, stale);
    var r1 := Cut(r, c, sent);
    UpdateKeeps(r, c, r1.obj[c]);
    CutClipped(r, c, sent, stale);
    var stats := r.stats.(txDrops := r.stats.txDrops + 1);
    StatsDropClipped(r1, stats, c, stale);
    CutSmall(r, c, sent);
    DropKeepsTx(r1.(stats := stats), c);
    ClippedFrom(r, r1, Drop(r1.(stats := stats), c), CDrop(r1.(stats := stats), c, stale), stale);
  }

  lemma CutSmall(r: State, c: Id, sent: Sent)
    requires c in r.obj && Bounded(r)
    ensures var r1 := Cut(r, c, sent);
      r1.obj.Keys == r.obj.Keys && Bounded(r1) && forall x :: x in r.obj && x != c ==> r1.obj[x].tx == r.obj[x].tx
  {
  }

  lemma DropKeepsTx(r: State, c: Id)
    requires Sane(r) && c in r.obj
    ensures c in Drop(r, c).obj && Drop(r, c).obj[c].tx == r.obj[c].tx
  {
    hide PeerLeftBytes, Unname;
  }

  lemma CutClipped(r: State, c: Id, sent: Sent, stale: Stale)
    requires c in r.obj && Bounded(r)
    ensures Clipped(r, Cut(r, c, sent), Cut(r, c, sent), stale)
  {
  }

  lemma NextClipped(cfg: Config, r: State, c: Id, f: Fate)
    requires Sane(r) && c in r.obj && Front(r.obj[c].rx).Whole? && !r.halted && Fits(r)
    ensures Sane(Popped(r, c))
    ensures var q, m := Popped(r, c), Front(r.obj[c].rx).m;
      && (TablesServe(q, c, m, f) ==> Clipped(r, Handle(cfg, q, c, m, f.luck), CHandle(cfg, q, c, m, f), f.stale))
      && (!TablesServe(q, c, m, f) ==> Handle(cfg, q, c, m, f.luck) != CHandle(cfg, q, c, m, f))
  {
    hide Handle, CHandle, Clipped, TablesServe, Sane, Fits, Front;
    PoppedHolds(r, c);
    var q, m := Popped(r, c), Front(r.obj[c].rx).m;
    HandleClipped(cfg, q, c, m, f);
    if TablesServe(q, c, m, f) {
      ClippedFrom(r, q, Handle(cfg, q, c, m, f.luck), CHandle(cfg, q, c, m, f), f.stale);
    }
  }

  lemma ReceiveFits(r: State, c: Id, data: seq<u8>)
    requires c in r.obj && Front(r.obj[c].rx).Short? && |data| <= RECV_SIZE
    ensures |r.obj[c].rx| + |data| <= RX_CAP
  {
    FrontIsFrame(r.obj[c].rx);
  }

  lemma FrameClipped(cfg: Config, r: State, s: Step, lost: Option<Name>, stale: Stale)
    requires Sane(r) && Possible(r, s) && Fits(r) && s.Next?
    ensures StepTables(r, s, lost, stale) ==> Clipped(r, Do(cfg, r, s), CAct(cfg, r, s, lost, stale), stale)
    ensures !StepTables(r, s, lost, stale) ==> Do(cfg, r, s) != CAct(cfg, r, s, lost, stale)
  {
    hide Handle, CHandle, Clipped, TablesServe, Sane, Fits, Front, Popped;
    NextClipped(cfg, r, s.c, Fate(s.luck, lost, stale));
  }

  lemma StepClipped(cfg: Config, r: State, s: Step, lost: Option<Name>, stale: Stale)
    requires Sane(r) && Possible(r, s) && Receivable(s) && Fits(r) && !s.Arrive? && !s.Next?
    ensures Clipped(r, Do(cfg, r, s), CAct(cfg, r, s, lost, stale), stale)
  {
    assert Bounded(r);
    hide Drop, CDrop, Flush, CFlush, Clipped, Sane, Bounded, Fits, Front;
    match s
    case Chunk(c, data) =>
      ReceiveFits(r, c, data);
      RxClipped(r, c, r.obj[c].rx + data, stale);
    case Garbled(c) => StatsDropClipped(r, r.stats.(badFrames := r.stats.badFrames + 1), c, stale);
    case Lost(c) => DropClipped(r, c, stale);
    case Flushed(c, sent) => FlushClipped(r, c, sent, stale);
    case Expired(c) =>
      SameClipped(r, r, stale);
      StatsDropClipped(r, r.stats.(helloTimeouts := r.stats.helloTimeouts + 1), c, stale);
  }

  lemma RxClipped(r: State, c: Id, rx: seq<u8>, stale: Stale)
    requires c in r.obj && Bounded(r)
    ensures var q := Update(r, c, r.obj[c].(rx := rx)); Clipped(r, q, q, stale)
  {
  }

  /** WHEN A STEP OF C IS PYTHON'S: exactly when its tables serve and everybody told has
      room. A receive never overflows its array. */
  lemma CActIsDo(cfg: Config, r: State, s: Step, lost: Option<Name>, stale: Stale)
    requires Sane(r) && Possible(r, s) && Receivable(s) && Fits(r) && !s.Arrive?
    ensures CAct(cfg, r, s, lost, stale) == Do(cfg, r, s)
      <==> StepTables(r, s, lost, stale) && StepRoom(cfg, r, s)
  {
    assert Bounded(r);
    assert !s.Next? ==> StepTables(r, s, lost, stale);
    hide CAct, Do, StepTables, StepRoom, Clipped, Bounded, Sane, Fits, Possible;
    if s.Next? {
      FrameClipped(cfg, r, s, lost, stale);
    } else {
      StepClipped(cfg, r, s, lost, stale);
    }
    DoBounded(cfg, r, s);
    if StepTables(r, s, lost, stale) {
      ClippedIff(r, Do(cfg, r, s), CAct(cfg, r, s, lost, stale), stale);
    }
  }

  // -------------------------------------------------------------- slots, names and sweeps

  /** The C relay whole: its clients, who sits in each slot, and its table of names from
      the oldest to the youngest. */
  datatype CState = CState(r: State, slots: seq<Option<Id>>, table: seq<Name>)

  /** What happens: one of the relay's events, with what the arrays hold beyond the
      buffers at that moment; or the sweep at the end of a turn of the loop. */
  datatype CStep = Does(s: Step, stale: Stale) | Sweep

  predicate Full(slots: seq<Option<Id>>) {
    forall k :: 0 <= k < |slots| ==> slots[k].Some?
  }

  predicate HasSeat(slots: seq<Option<Id>>, c: Id) {
    exists k :: 0 <= k < |slots| && slots[k] == Some(c)
  }

  /** The first free slot. */
  function FirstFree(slots: seq<Option<Id>>): (k: nat)
    ensures k <= |slots| && (k < |slots| ==> slots[k].None?)
    ensures forall j :: 0 <= j < k ==> slots[j].Some?
  {
    if slots == [] || slots[0].None? then 0 else 1 + FirstFree(slots[1..])
  }

  function Sit(slots: seq<Option<Id>>, c: Id): seq<Option<Id>> {
    var k := FirstFree(slots);
    if k < |slots| then slots[k := Some(c)] else slots
  }

  function Loses(table: seq<Name>): Option<Name> {
    if |table| == NAME_SLOTS then Some(table[0]) else None
  }

  predicate Admits(r: State, ip: int) {
    |r.live| < MAX_CLIENTS && SameIp(r, r.live, ip) < MAX_PER_IP
  }

  /** `accept_client`: Python's refusals, and no client while no slot is free. */
  function CAccept(r: State, c: Id, ip: int, now: int, full: bool): State {
    if full && Admits(r, ip) then r else Accept(r, c, ip, now)
  }

  /** Slots are kept by the live. */
  function Swept(slots: seq<Option<Id>>, live: seq<Id>): seq<Option<Id>> {
    seq(|slots|, k requires 0 <= k < |slots| =>
      if slots[k].Some? && slots[k].value in live then slots[k] else None)
  }

  /** The one who sits in a slot after its occupant `c` is swept out: no client yet. */
  function Heir(c: Id): Id {
    c + MAX_CLIENTS
  }

  ghost predicate NoneDangling(r: State) {
    forall c :: c in r.live && c in r.obj && r.obj[c].partner.Some? ==> r.obj[c].partner.value in r.live
  }

  /** Conforming traffic leaves nothing dangling. */
  lemma MatchedNoneDangling(r: State)
    requires Matched(r) && Sane(r)
    ensures NoneDangling(r)
  {
  }

  /** `reap`: a partner is a bare index, and denotes the next to sit there. */
  function Relink(r: State, x: Client): Client {
    if x.partner.Some? && x.partner.value !in r.live then x.(partner := Some(Heir(x.partner.value))) else x
  }

  function Relinked(r: State): State {
    r.(obj := map c | c in r.obj :: if c in r.live then Relink(r, r.obj[c]) else r.obj[c])
  }

  predicate CPossible(s: CState, e: CStep) {
    match e
    case Sweep => !s.r.halted
    case Does(Arrive(c, _, _), _) => !s.r.halted && c !in s.r.obj
    case Does(st, _) => Possible(s.r, st) && Receivable(st) && HasSeat(s.slots, st.c)
  }

  /** One step of the C relay. */
  ghost function CDo(cfg: Config, s: CState, e: CStep): CState
    requires Sane(s.r) && CPossible(s, e)
  {
    match e
    case Sweep => CState(Relinked(s.r), Swept(s.slots, s.r.live), s.table)
    case Does(Arrive(c, ip, now), _) =>
      var r' := CAccept(s.r, c, ip, now, Full(s.slots));
      CState(r', if c in r'.obj then Sit(s.slots, c) else s.slots, s.table)
    case Does(st, stale) =>
      var r' := CAct(cfg, s.r, st, Loses(s.table), stale);
      CState(r', s.slots, Retable(s.table, r'.names))
  }

  /** What a step must not run into for C to be Python, for which a sweep is nothing. */
  ghost predicate GuardedStep(cfg: Config, s: CState, e: CStep)
    requires Sane(s.r) && CPossible(s, e)
  {
    match e
    case Sweep => NoneDangling(s.r)
    case Does(Arrive(c, ip, now), _) => !(Full(s.slots) && Admits(s.r, ip))
    case Does(st, stale) => StepTables(s.r, st, Loses(s.table), stale) && StepRoom(cfg, s.r, st)
  }

  lemma RelinkedIff(r: State)
    requires Sane(r)
    ensures Relinked(r) == r <==> NoneDangling(r)
    ensures Fits(r) ==> Fits(Relinked(r))
  {
    if !NoneDangling(r) {
      var c :| c in r.live && c in r.obj && r.obj[c].partner.Some? && r.obj[c].partner.value !in r.live;
      assert Relinked(r).obj[c].partner == Some(Heir(r.obj[c].partner.value));
    } else {
      assert Relinked(r).obj == r.obj;
    }
    hide FitsSlot;
  }

  lemma CAcceptIs(r: State, c: Id, ip: int, now: int, full: bool)
    requires Sane(r) && c !in r.obj
    ensures CAccept(r, c, ip, now, full) == Accept(r, c, ip, now) <==> !(full && Admits(r, ip))
    ensures Sane(CAccept(r, c, ip, now, full)) && (Fits(r) ==> Fits(CAccept(r, c, ip, now, full)))
  {
    hide SameIp;
    assert Admits(r, ip) ==> Accept(r, c, ip, now).live == r.live + [c];
  }

  /** WHEN A STEP OF C IS PYTHON'S, an arrival and a sweep included: exactly under its
      guard; and whatever the step, the tables and the buffers hold. */
  lemma CDoIsDo(cfg: Config, s: CState, e: CStep)
    requires Sane(s.r) && CPossible(s, e) && Fits(s.r) && (e.Does? ==> Possible(s.r, e.s))
    ensures CDo(cfg, s, e).r == (if e.Does? then Do(cfg, s.r, e.s) else s.r) <==> GuardedStep(cfg, s, e)
    ensures Fits(CDo(cfg, s, e).r) && (e.Does? || NoneDangling(s.r) ==> Sane(CDo(cfg, s, e).r))
  {
    hide CAct, CAccept, Accept, Fits, Sane, Admits, Relinked, Retable, StepTables, StepRoom, NoneDangling, Full;
    match e
    case Sweep => RelinkedIff(s.r);
    case Does(Arrive(c, ip, now), _) => CAcceptIs(s.r, c, ip, now, Full(s.slots));
    case Does(st, stale) =>
      CActSound(cfg, s.r, st, Loses(s.table), stale);
      CActIsDo(cfg, s.r, st, Loses(s.table), stale);
  }

  // -------------------------------------------------------------- whole runs

  /** A run of the C relay; it is followed as far as every index denotes a client there
      has been. */
  ghost predicate CRun(cfg: Config, s: CState, es: seq<CStep>)
    decreases |es|
  {
    es == [] || (Sane(s.r) && CPossible(s, es[0]) && CRun(cfg, CDo(cfg, s, es[0]), es[1..]))
  }

  ghost function CAfter(cfg: Config, s: CState, es: seq<CStep>): CState
    requires CRun(cfg, s, es)
    decreases |es|
  {
    if es == [] then s else CAfter(cfg, CDo(cfg, s, es[0]), es[1..])
  }

  /** Every step is guarded, and the clock does not run backwards. */
  ghost predicate GuardedRun(cfg: Config, s: CState, es: seq<CStep>)
    requires CRun(cfg, s, es)
    decreases |es|
  {
    es == [] ||
    ((es[0].Does? ==> Possible(s.r, es[0].s)) && GuardedStep(cfg, s, es[0])
     && GuardedRun(cfg, CDo(cfg, s, es[0]), es[1..]))
  }

  /** The events among the steps. */
  function Steps(es: seq<CStep>): seq<Step> {
    if es == [] then [] else (if es[0].Does? then [es[0].s] else []) + Steps(es[1..])
  }

  /** C IS PYTHON OVER WHOLE RUNS, slots used again and sweeps included. Every run of the C
      relay in which no step meets a guard is the Python relay's run of the same events. */
  lemma {:induction false} CRunIsRun(cfg: Config, s: CState, es: seq<CStep>)
    requires CRun(cfg, s, es) && GuardedRun(cfg, s, es) && Sane(s.r) && Fits(s.r)
    ensures Run(cfg, s.r, Steps(es)) && CAfter(cfg, s, es).r == After(cfg, s.r, Steps(es))
    ensures Fits(CAfter(cfg, s, es).r)
    decreases |es|
  {
    hide Sane, Possible, GuardedStep, CPossible, CDo, Do, Fits, NoneDangling;
    if es != [] {
      CDoIsDo(cfg, s, es[0]);
      assert es[0].Sweep? ==> NoneDangling(s.r) by { SweepGuard(cfg, s, es[0]); }
      CRunIsRun(cfg, CDo(cfg, s, es[0]), es[1..]);
      if es[0].Does? {
        assert Steps(es)[0] == es[0].s && Steps(es)[1..] == Steps(es[1..]);
      } else {
        assert Steps(es) == Steps(es[1..]);
      }
    }
  }

  lemma SweepGuard(cfg: Config, s: CState, e: CStep)
    requires Sane(s.r) && CPossible(s, e) && GuardedStep(cfg, s, e)
    ensures e.Sweep? ==> NoneDangling(s.r)
  {
  }

  lemma {:induction false} CRunMore(cfg: Config, s: CState, xs: seq<CStep>, ys: seq<CStep>)
    requires CRun(cfg, s, xs) && CRun(cfg, CAfter(cfg, s, xs), ys)
    ensures CRun(cfg, s, xs + ys) && CAfter(cfg, s, xs + ys) == CAfter(cfg, CAfter(cfg, s, xs), ys)
    decreases |xs|
  {
    hide Sane, CPossible, CDo;
    if xs == [] {
      assert xs + ys == ys;
    } else {
      assert (xs + ys)[0] == xs[0] && (xs + ys)[1..] == xs[1..] + ys;
      CRunMore(cfg, CDo(cfg, s, xs[0]), xs[1..], ys);
    }
  }

  // -------------------------------------------------------------- one buffer

  /** What the environment brings to one frame. */
  datatype Moment = Moment(luck: Luck, stale: Stale)

  function FirstMoment(ms: seq<Moment>): Moment {
    if ms == [] then Moment(Luck([], 1), []) else ms[0]
  }

  function LaterMoments(ms: seq<Moment>): seq<Moment> {
    if ms == [] then [] else ms[1..]
  }

  /** A client whose buffer is being served. */
  ghost predicate Served(s: CState, c: Id) {
    Sane(s.r) && !s.r.halted && c in s.r.obj && HasSeat(s.slots, c)
  }

  lemma TakesFrame(cfg: Config, s: CState, c: Id, m: Moment)
    requires Served(s, c) && Front(s.r.obj[c].rx).Whole?
    ensures CPossible(s, Does(Next(c, m.luck), m.stale))
    ensures var s' := CDo(cfg, s, Does(Next(c, m.luck), m.stale));
      && Served(s', c) && s'.r.obj[c].rx == Front(s.r.obj[c].rx).rest && s'.r.obj.Keys == s.r.obj.Keys
      && forall x :: x in s.r.obj && x != c ==> s'.r.obj[x].rx == s.r.obj[x].rx
  {
    hide CHandle, Front, Retable, Sane, Fits, HasSeat;
    PoppedSane(s.r, c);
    CHandleHolds(cfg, Popped(s.r, c), c, Front(s.r.obj[c].rx).m, Fate(m.luck, Loses(s.table), m.stale));
  }

  /** `service` in C, past its receive. */
  ghost function CService(cfg: Config, s: CState, c: Id, ms: seq<Moment>): CState
    requires Served(s, c)
    decreases |s.r.obj[c].rx|
  {
    match Front(s.r.obj[c].rx)
    case Short => s
    case Bad => CDo(cfg, s, Does(Garbled(c), FirstMoment(ms).stale))
    case Whole(_, _) =>
      TakesFrame(cfg, s, c, FirstMoment(ms));
      CService(cfg, CDo(cfg, s, Does(Next(c, FirstMoment(ms).luck), FirstMoment(ms).stale)), c, LaterMoments(ms))
  }

  ghost function CServiceSteps(cfg: Config, s: CState, c: Id, ms: seq<Moment>): seq<CStep>
    requires Served(s, c)
    decreases |s.r.obj[c].rx|
  {
    match Front(s.r.obj[c].rx)
    case Short => []
    case Bad => [Does(Garbled(c), FirstMoment(ms).stale)]
    case Whole(_, _) =>
      TakesFrame(cfg, s, c, FirstMoment(ms));
      var e := Does(Next(c, FirstMoment(ms).luck), FirstMoment(ms).stale);
      [e] + CServiceSteps(cfg, CDo(cfg, s, e), c, LaterMoments(ms))
  }

  /** The framing loop of the C relay is a run of single-frame steps. */
  lemma {:induction false} CServiceIsSteps(cfg: Config, s: CState, c: Id, ms: seq<Moment>)
    requires Served(s, c)
    ensures CRun(cfg, s, CServiceSteps(cfg, s, c, ms))
    ensures CAfter(cfg, s, CServiceSteps(cfg, s, c, ms)) == CService(cfg, s, c, ms)
    decreases |s.r.obj[c].rx|
  {
    hide CAct, Sane, Retable;
    match Front(s.r.obj[c].rx)
    case Short =>
    case Bad =>
      var e := Does(Garbled(c), FirstMoment(ms).stale);
      assert CRun(cfg, CDo(cfg, s, e), []) && [e][1..] == [];
    case Whole(_, _) =>
      TakesFrame(cfg, s, c, FirstMoment(ms));
      var e := Does(Next(c, FirstMoment(ms).luck), FirstMoment(ms).stale);
      CServiceIsSteps(cfg, CDo(cfg, s, e), c, LaterMoments(ms));
      assert CServiceSteps(cfg, s, c, ms)[1..] == CServiceSteps(cfg, CDo(cfg, s, e), c, LaterMoments(ms));
  }

  /** BETWEEN RECEIVES, in C. What the loop leaves in a live client's buffer is part of one
      frame, at most 200 bytes, so the next receive fits the array; nobody else's buffer is
      touched. */
  lemma {:induction false} CServiceLeavesPartial(cfg: Config, s: CState, c: Id, ms: seq<Moment>)
    requires Served(s, c)
    ensures var r' := CService(cfg, s, c, ms).r;
      && Sane(r') && !r'.halted && r'.obj.Keys == s.r.obj.Keys && CService(cfg, s, c, ms).slots == s.slots
      && (c in r'.live ==> Front(r'.obj[c].rx).Short? && |r'.obj[c].rx| + RECV_SIZE <= RX_CAP)
      && (forall x :: x in s.r.obj && x != c ==> r'.obj[x].rx == s.r.obj[x].rx)
    decreases |s.r.obj[c].rx|
  {
    hide Front, Sane, Retable, CHandle;
    match Front(s.r.obj[c].rx)
    case Short => ReceiveFits(s.r, c, seq(RECV_SIZE, _ => 0));
    case Bad => CGarbledIsGone(s.r, c, FirstMoment(ms).stale);
    case Whole(_, _) =>
      TakesFrame(cfg, s, c, FirstMoment(ms));
      var e := Does(Next(c, FirstMoment(ms).luck), FirstMoment(ms).stale);
      CServiceLeavesPartial(cfg, CDo(cfg, s, e), c, LaterMoments(ms));
  }

  lemma CGarbledIsGone(r: State, c: Id, stale: Stale)
    requires Sane(r) && c in r.obj
    ensures var r' := CGarble(r, c, stale);
      && Sane(r') && r'.halted == r.halted && r'.obj.Keys == r.obj.Keys && c !in r'.live
      && forall x :: x in r.obj ==> r'.obj[x].rx == r.obj[x].rx
  {
    hide CDrop, Sane, Fits;
    StatsDropHolds(r, r.stats.(badFrames := r.stats.badFrames + 1), c, stale);
    CDropIsGone(r.(stats := r.stats.(badFrames := r.stats.badFrames + 1)), c, stale);
  }

  lemma CDropIsGone(r: State, c: Id, stale: Stale)
    requires Sane(r) && c in r.obj
    ensures c !in CDrop(r, c, stale).live
  {
    hide PeerLeftBytes, Saturate;
  }

  // -------------------------------------------------------------- for the loop of `service`

  /** Some frames taken one after another. */
  ghost predicate CTakes(cfg: Config, s: CState, c: Id, ms: seq<Moment>, s': CState)
    decreases |ms|
  {
    && Served(s, c)
    && (if ms == [] then s' == s
        else Front(s.r.obj[c].rx).Whole? && CTakes(cfg, CTakeNext(cfg, s, c, ms[0]), c, ms[1..], s'))
  }

  ghost function CTakeNext(cfg: Config, s: CState, c: Id, m: Moment): CState
    requires Served(s, c) && Front(s.r.obj[c].rx).Whole?
  {
    TakesFrame(cfg, s, c, m);
    CDo(cfg, s, Does(Next(c, m.luck), m.stale))
  }

  lemma {:induction false} CTakesMore(cfg: Config, s: CState, c: Id, ms: seq<Moment>, s1: CState, m: Moment)
    requires CTakes(cfg, s, c, ms, s1)
    ensures Served(s1, c)
    ensures Front(s1.r.obj[c].rx).Whole? ==> CTakes(cfg, s, c, ms + [m], CTakeNext(cfg, s1, c, m))
    decreases |ms|
  {
    hide CDo, Front;
    if ms == [] {
      assert [] + [m] == [m] && [m][1..] == [];
      if Front(s1.r.obj[c].rx).Whole? {
        TakesFrame(cfg, s1, c, m);
        assert CTakes(cfg, CTakeNext(cfg, s1, c, m), c, [], CTakeNext(cfg, s1, c, m));
      }
    } else {
      assert (ms + [m])[1..] == ms[1..] + [m];
      CTakesMore(cfg, CTakeNext(cfg, s, c, ms[0]), c, ms[1..], s1, m);
    }
  }

  /** Where no whole frame is left, that was the service; a bad length drops the client. */
  lemma {:induction false} CTakesIsService(cfg: Config, s: CState, c: Id, ms: seq<Moment>, s1: CState, last: Moment)
    requires CTakes(cfg, s, c, ms, s1)
    ensures Served(s, c) && Served(s1, c)
    ensures Front(s1.r.obj[c].rx).Short? ==> CService(cfg, s, c, ms) == s1
    ensures Front(s1.r.obj[c].rx).Bad? ==>
      CPossible(s1, Does(Garbled(c), last.stale))
      && CService(cfg, s, c, ms + [last]) == CDo(cfg, s1, Does(Garbled(c), last.stale))
    decreases |ms|
  {
    hide CDo, Front, Sane;
    if ms == [] {
      assert [] + [last] == [last];
    } else {
      assert (ms + [last])[1..] == ms[1..] + [last];
      CTakesIsService(cfg, CTakeNext(cfg, s, c, ms[0]), c, ms[1..], s1, last);
    }
  }

  // -------------------------------------------------------------- what the loop is handed

  /** An event of the loop. A socket's events carry the slot and the generation it was
      registered with; no data is the end of the stream. */
  datatype Event =
    | Connect(ip: int, now: int)
    | Readable(ci: nat, gen: nat, data: seq<u8>, lucks: seq<Luck>)
    | Writable(ci: nat, gen: nat, sent: Sent)
    | Overdue(ci: nat, gen: nat)
    | EndOfTurn

  /** One receive at most, and digits enough for every frame in it. */
  predicate Ready(e: Event) {
    e.Readable? ==>
      |e.data| <= RECV_SIZE && |e.lucks| >= RX_CAP && forall l :: l in e.lucks ==> |l.digits| == SEARCH_LIMIT
  }

  /** Whether the slot is still the one the event is about. */
  predicate Listens(s: CState, ci: nat, gen: nat) {
    ci < |s.slots| && s.slots[ci] == Some(Tag(ci, gen)) && Tag(ci, gen) in s.r.live
  }

  /** What an event may bring about: nothing if it comes too late. */
  ghost predicate Takes(cfg: Config, s: CState, e: Event, es: seq<CStep>) {
    && CRun(cfg, s, es)
    && match e
       case Connect(ip, now) => |es| == 1 && es[0].Does? && es[0].s.Arrive? && es[0].s.ip == ip && es[0].s.now == now
       case EndOfTurn => es == [Sweep]
       case Writable(ci, gen, sent) =>
         if Listens(s, ci, gen) then |es| == 1 && es[0].Does? && es[0].s == Flushed(Tag(ci, gen), sent) else es == []
       case Overdue(ci, gen) =>
         if Listens(s, ci, gen) then |es| == 1 && es[0].Does? && es[0].s == Expired(Tag(ci, gen)) else es == []
       case Readable(ci, gen, data, lucks) =>
         if !Listens(s, ci, gen) then es == []
         else if data == [] then |es| == 1 && es[0].Does? && es[0].s == Lost(Tag(ci, gen))
         else ReadsBuffer(cfg, s, Tag(ci, gen), data, lucks, es)
  }

  /** A receive, and one step for each frame it completes. */
  ghost predicate ReadsBuffer(cfg: Config, s: CState, c: Id, data: seq<u8>, lucks: seq<Luck>, es: seq<CStep>)
    requires CRun(cfg, s, es)
  {
    && |es| >= 1 && es[0].Does? && es[0].s == Chunk(c, data)
    && var s1 := CDo(cfg, s, es[0]);
    && Served(s1, c)
    && exists ms :: es[1..] == CServiceSteps(cfg, s1, c, ms) && LucksOf(ms, lucks)
  }

  ghost predicate LucksOf(ms: seq<Moment>, lucks: seq<Luck>) {
    |ms| <= |lucks| && forall k :: 0 <= k < |ms| ==> ms[k].luck == lucks[k]
  }

  /** What a sequence of events may bring about. */
  ghost predicate Plays(cfg: Config, s: CState, events: seq<Event>, es: seq<CStep>)
    decreases |events|, 0
  {
    if events == [] then es == []
    else
      var k := |events| - 1;
      exists n :: 0 <= n <= |es| && PlaysTo(cfg, s, events[..k], events[k], es[..n], es[n..])
  }

  ghost predicate PlaysTo(cfg: Config, s: CState, before: seq<Event>, e: Event, xs: seq<CStep>, ys: seq<CStep>)
    decreases |before|, 1
  {
    CRun(cfg, s, xs) && Plays(cfg, s, before, xs) && Takes(cfg, CAfter(cfg, s, xs), e, ys)
  }

  lemma PlaysMore(cfg: Config, s: CState, before: seq<Event>, e: Event, xs: seq<CStep>, ys: seq<CStep>)
    requires PlaysTo(cfg, s, before, e, xs, ys)
    ensures Plays(cfg, s, before + [e], xs + ys)
    ensures CRun(cfg, s, xs + ys) && CAfter(cfg, s, xs + ys) == CAfter(cfg, CAfter(cfg, s, xs), ys)
  {
    CRunMore(cfg, s, xs, ys);
    var n := |xs|;
    assert (xs + ys)[..n] == xs && (xs + ys)[n..] == ys;
    assert (before + [e])[..|before|] == before;
  }

  lemma OneTakes(cfg: Config, s: CState, e: CStep)
    requires Sane(s.r) && CPossible(s, e)
    ensures CRun(cfg, s, [e]) && CAfter(cfg, s, [e]) == CDo(cfg, s, e)
  {
    assert [e][1..] == [];
    assert CRun(cfg, CDo(cfg, s, e), []);
  }

  /** A receive as a run. */
  lemma ReadTakes(cfg: Config, s: CState, c: Id, data: seq<u8>, stale: Stale, ms: seq<Moment>, lucks: seq<Luck>)
    requires Sane(s.r) && CPossible(s, Does(Chunk(c, data), stale)) && LucksOf(ms, lucks)
    requires Served(CDo(cfg, s, Does(Chunk(c, data), stale)), c)
    ensures var e := Does(Chunk(c, data), stale); var s1 := CDo(cfg, s, e);
      var es := [e] + CServiceSteps(cfg, s1, c, ms);
      CRun(cfg, s, es) && CAfter(cfg, s, es) == CService(cfg, s1, c, ms) && ReadsBuffer(cfg, s, c, data, lucks, es)
  {
    var e := Does(Chunk(c, data), stale);
    var s1 := CDo(cfg, s, e);
    CServiceIsSteps(cfg, s1, c, ms);
    assert ([e] + CServiceSteps(cfg, s1, c, ms))[1..] == CServiceSteps(cfg, s1, c, ms);
    hide Sane, CPossible, CDo;
  }

  lemma CActKeepsRx(cfg: Config, r: State, st: Step, lost: Option<Name>, stale: Stale)
    requires Sane(r) && Possible(r, st) && (st.Lost? || st.Flushed? || st.Expired?)
    ensures var r' := CAct(cfg, r, st, lost, stale);
      r'.obj.Keys == r.obj.Keys && forall x :: x in r.obj ==> r'.obj[x].rx == r.obj[x].rx
  {
    hide CDrop, CFlush, Sane, Fits;
    match st
    case Lost(c) => CDropHolds(r, c, stale);
    case Flushed(c, sent) => CFlushHolds(r, c, sent, stale);
    case Expired(c) => StatsDropHolds(r, r.stats.(helloTimeouts := r.stats.helloTimeouts + 1), c, stale);
  }
}
