/** Whole runs of the relay: what any traffic keeps (names, buffers, the waiting line) and
    what conforming traffic keeps besides (the matching). */
module RelayRuns {
  import opened Bytes
  import opened Framing
  import opened Verdicts
  import opened Relay

  // -------------------------------------------------------------- steps

  /** The relay's work cut into its smallest pieces. A receive is a Chunk, one Next for
      each whole frame and, on a bad length, a Garbled. */
  datatype Step =
    | Arrive(c: Id, ip: int, now: int)
    | Chunk(c: Id, data: seq<u8>)
    | Next(c: Id, luck: Luck)
    | Garbled(c: Id)
    | Lost(c: Id)                         // end of stream
    | Flushed(c: Id, s: Sent)
    | Expired(c: Id)

  /** When the relay can take a step. Frames are still taken from a dropped client. */
  predicate Possible(r: State, s: Step) {
    && !r.halted
    && match s
    case Arrive(c, _, now) => c !in r.obj && forall x :: x in r.live && x in r.obj ==> r.obj[x].born <= now
    case Chunk(c, _) => c in r.live && c in r.obj && Front(r.obj[c].rx).Short?
    case Next(c, _) => c in r.obj && Front(r.obj[c].rx).Whole?
    case Garbled(c) => c in r.obj && Front(r.obj[c].rx).Bad?
    case Lost(c) => c in r.live && c in r.obj
    case Flushed(c, _) => c in r.live && c in r.obj
    case Expired(c) => c in r.live && c in r.obj
  }

  function Popped(r: State, c: Id): State
    requires c in r.obj && Front(r.obj[c].rx).Whole?
  {
    Update(r, c, r.obj[c].(rx := Front(r.obj[c].rx).rest))
  }

  lemma PoppedSane(r: State, c: Id)
    requires Sane(r) && c in r.obj && Front(r.obj[c].rx).Whole?
    ensures Sane(Popped(r, c))
  {
  }

  function Garble(r: State, c: Id): State
    requires Sane(r) && c in r.obj
  {
    Drop(r.(stats := r.stats.(badFrames := r.stats.badFrames + 1)), c)
  }

  function Do(cfg: Config, r: State, s: Step): State
    requires Sane(r) && Possible(r, s)
  {
    match s
    case Arrive(c, ip, now) => Accept(r, c, ip, now)
    case Chunk(c, data) => Update(r, c, r.obj[c].(rx := r.obj[c].rx + data))
    case Next(c, luck) => Handle(cfg, Popped(r, c), c, Front(r.obj[c].rx).m, luck)
    case Garbled(c) => Garble(r, c)
    case Lost(c) => Drop(r, c)
    case Flushed(c, sent) => Flush(r, c, sent)
    case Expired(c) => Expire(r, c)
  }

  lemma DoSane(cfg: Config, r: State, s: Step)
    requires Sane(r) && Possible(r, s)
    ensures Sane(Do(cfg, r, s))
  {
    hide Drop, Handle, Front;
    match s
    case Arrive(c, ip, now) =>
    case Chunk(c, data) =>
    case Next(c, luck) => HandleKeeps(cfg, Popped(r, c), c, Front(r.obj[c].rx).m, luck);
    case Garbled(c) => DropKeeps(r.(stats := r.stats.(badFrames := r.stats.badFrames + 1)), c);
    case Lost(c) => DropKeeps(r, c);
    case Flushed(c, sent) => FlushKeeps(r, c, sent);
    case Expired(c) => DropKeeps(r.(stats := r.stats.(helloTimeouts := r.stats.helloTimeouts + 1)), c);
  }

  lemma FlushKeeps(r: State, c: Id, sent: Sent)
    requires Sane(r) && c in r.obj
    ensures Keeps(r, Flush(r, c, sent))
  {
    hide Drop, Sane;
    var r1 := Cut(r, c, sent);
    DropKeeps(r, c);
    UpdateKeeps(r, c, r1.obj[c]);
    var r2 := r1.(stats := r.stats.(txDrops := r.stats.txDrops + 1));
    CountingKeeps(r1, r2.stats);
    DropKeeps(r2, c);
  }

  lemma CountingKeeps(r: State, stats: Stats)
    requires Sane(r)
    ensures Sane(r.(stats := stats))
  {
  }

  ghost predicate Run(cfg: Config, r: State, ss: seq<Step>)
    decreases |ss|
  {
    Sane(r) && (ss == [] || (Possible(r, ss[0]) && Run(cfg, Do(cfg, r, ss[0]), ss[1..])))
  }

  ghost function After(cfg: Config, r: State, ss: seq<Step>): State
    requires Run(cfg, r, ss)
    decreases |ss|
  {
    if ss == [] then r else After(cfg, Do(cfg, r, ss[0]), ss[1..])
  }

  // -------------------------------------------------------------- service is such steps

  function ServiceSteps(cfg: Config, r: State, c: Id, lucks: seq<Luck>): seq<Step>
    requires Sane(r) && c in r.obj
    decreases |r.obj[c].rx|
  {
    if r.halted then []
    else
      match Front(r.obj[c].rx)
      case Short => []
      case Bad => [Garbled(c)]
      case Whole(m, rest) =>
        PoppedSane(r, c);
        HandleKeeps(cfg, Popped(r, c), c, m, Draw(lucks));
        [Next(c, Draw(lucks))]
        + ServiceSteps(cfg, Handle(cfg, Popped(r, c), c, m, Draw(lucks)), c, if lucks == [] then [] else lucks[1..])
  }

  /** The loop of `service`, which looks at nothing but the buffer between two frames, is
      a run of single-frame steps. */
  lemma {:induction false} ServiceIsSteps(cfg: Config, r: State, c: Id, lucks: seq<Luck>)
    requires Sane(r) && c in r.obj
    ensures Run(cfg, r, ServiceSteps(cfg, r, c, lucks))
    ensures After(cfg, r, ServiceSteps(cfg, r, c, lucks)) == Service(cfg, r, c, lucks)
    decreases |r.obj[c].rx|
  {
    hide Handle, Drop, Sane;
    if !r.halted {
      match Front(r.obj[c].rx)
      case Short =>
      case Bad =>
        DoSane(cfg, r, Garbled(c));
        assert Run(cfg, Do(cfg, r, Garbled(c)), []);
      case Whole(m, rest) =>
        var tail := if lucks == [] then [] else lucks[1..];
        DoSane(cfg, r, Next(c, Draw(lucks)));
        PoppedSane(r, c);
        HandleKeeps(cfg, Popped(r, c), c, m, Draw(lucks));
        var r2 := Handle(cfg, Popped(r, c), c, m, Draw(lucks));
        ServiceIsSteps(cfg, r2, c, tail);
        assert ServiceSteps(cfg, r, c, lucks)[1..] == ServiceSteps(cfg, r2, c, tail);
    }
  }

  /** A readable socket as steps: its end, or bytes and then the loop. */
  function ReceiveSteps(cfg: Config, r: State, c: Id, data: seq<u8>, lucks: seq<Luck>): seq<Step>
    requires Sane(r) && c in r.obj
  {
    if data == [] then [Lost(c)]
    else [Chunk(c, data)] + ServiceSteps(cfg, Update(r, c, r.obj[c].(rx := r.obj[c].rx + data)), c, lucks)
  }

  /** A receive is a run of such steps: no bytes are the end of the stream, and the client is
      dropped. */
  lemma ReceiveIsSteps(cfg: Config, r: State, c: Id, data: seq<u8>, lucks: seq<Luck>)
    requires Sane(r) && !r.halted && c in r.live && c in r.obj && Front(r.obj[c].rx).Short?
    ensures Run(cfg, r, ReceiveSteps(cfg, r, c, data, lucks))
    ensures After(cfg, r, ReceiveSteps(cfg, r, c, data, lucks)) == Receive(cfg, r, c, data, lucks)
    ensures data == [] ==> c !in Receive(cfg, r, c, data, lucks).live
  {
    hide Service, ServiceSteps, Front;
    if data == [] {
      DoSane(cfg, r, Lost(c));
      assert Run(cfg, Do(cfg, r, Lost(c)), []);
    } else {
      var r1 := Update(r, c, r.obj[c].(rx := r.obj[c].rx + data));
      ServiceIsSteps(cfg, r1, c, lucks);
      var ss := ReceiveSteps(cfg, r, c, data, lucks);
      assert ss[1..] == ServiceSteps(cfg, r1, c, lucks) && Do(cfg, r, ss[0]) == r1;
    }
  }

  /** BETWEEN RECEIVES. What `service` leaves in a live client's receive buffer is part of
      one frame, at most 200 bytes. */
  lemma {:induction false} ServiceLeavesPartial(cfg: Config, r: State, c: Id, lucks: seq<Luck>)
    requires Sane(r) && c in r.obj
    ensures var r' := Service(cfg, r, c, lucks);
      && Keys(r, r')
      && (!r'.halted && c in r'.live ==> Front(r'.obj[c].rx).Short? && |r'.obj[c].rx| <= MAX_BODY)
    decreases |r.obj[c].rx|
  {
    hide Handle, Drop, Front;
    FrontIsFrame(r.obj[c].rx);
    if !r.halted {
      match Front(r.obj[c].rx)
      case Short =>
      case Bad => GarbledIsGone(r, c);
      case Whole(m, rest) =>
        PoppedSane(r, c);
        HandleKeeps(cfg, Popped(r, c), c, m, Draw(lucks));
        var tail := if lucks == [] then [] else lucks[1..];
        ServiceLeavesPartial(cfg, Handle(cfg, Popped(r, c), c, m, Draw(lucks)), c, tail);
    }
  }

  predicate Keys(r: State, r': State) {
    r'.obj.Keys == r.obj.Keys
  }

  lemma GarbledIsGone(r: State, c: Id)
    requires Sane(r) && c in r.obj
    ensures Keys(r, Garble(r, c)) && c !in Garble(r, c).live
  {
  }

  // -------------------------------------------------------------- names, for all traffic

  /** Every live named client is what by_name holds at its own name, and names are good. */
  ghost predicate NamesOk(r: State) {
    && (forall c :: c in r.live && c in r.obj && r.obj[c].name.Some? ==>
          r.obj[c].name.value in r.names && r.names[r.obj[c].name.value] == c)
    && (forall c :: c in r.obj && r.obj[c].name.Some? ==> GoodName(r.obj[c].name.value))
  }

  /** Accept order is birth order. */
  ghost predicate Queue(r: State) {
    forall i, j :: 0 <= i < j < |r.live| && r.live[i] in r.obj && r.live[j] in r.obj ==>
      r.obj[r.live[i]].born <= r.obj[r.live[j]].born
  }

  /** Steps that leave names and the waiting line alone; and those that leave the links
      alone too. */
  ghost predicate SameNames(r: State, r': State) {
    && r'.live == r.live && r'.names == r.names && r'.obj.Keys == r.obj.Keys
    && forall c :: c in r.obj ==> r'.obj[c].name == r.obj[c].name && r'.obj[c].born == r.obj[c].born
  }

  ghost predicate SameLinks(r: State, r': State) {
    && SameNames(r, r')
    && forall c :: c in r.obj ==> r'.obj[c].partner == r.obj[c].partner && r'.obj[c].role == r.obj[c].role
  }

  lemma SameNamesKeep(r: State, r': State)
    requires SameNames(r, r')
    ensures NamesOk(r) ==> NamesOk(r')
    ensures Queue(r) ==> Queue(r')
  {
    hide GoodName;
  }

  lemma SameLinksKeep(r: State, r': State)
    requires SameLinks(r, r')
    ensures NamesOk(r) ==> NamesOk(r')
    ensures Queue(r) ==> Queue(r')
    ensures Matched(r) ==> Matched(r')
  {
    hide GoodName, NamesOk, Queue;
    SameNamesKeep(r, r');
  }

  /** The name a search settles on is free, good, keeps all but perhaps the last of eight
      characters of the name asked for, and is that very name when it was free. */
  lemma {:induction false} FreeNameIsGood(name: Name, names: map<Name, Id>, digits: seq<u8>)
    requires GoodName(name)
    ensures var f := FreeName(name, names, digits);
      f.Some? ==> && f.value !in names && GoodName(f.value)
                  && |name| <= |f.value| && f.value[..|Stem(name)|] == Stem(name)
                  && (name !in names <==> f.value == name)
    decreases |digits|
  {
    if name in names && digits != [] {
      FreeNameIsGood(Variant(name, digits[0]), names, digits[1..]);
      var f := FreeName(name, names, digits);
      if f.Some? {
        var k, v := |Stem(name)|, Variant(name, digits[0]);
        assert v[..k] == Stem(name) == Stem(v)[..k];
        assert f.value[..k] == f.value[..|Stem(v)|][..k];
      }
    }
  }

  /** The characters of a name that every search keeps. */
  function Stem(name: Name): Name {
    if |name| > 7 then name[..7] else name
  }

  /** Digits that bring a name up to eight characters at most. */
  predicate Suffix(stem: Name, w: seq<u8>) {
    |w| >= 1 && |stem| + |w| <= 8 && forall i :: 0 <= i < |w| ==> 48 <= w[i] <= 57
  }

  /** WHEN A SEARCH CAN END. Some digits end it exactly when the name itself is free or the
      stem is with some digits after it, eight characters in all at most; otherwise it goes
      on for ever. */
  lemma SearchCanEnd(name: Name, names: map<Name, Id>)
    requires 2 <= |name| <= 8
    ensures (exists ds :: Ends(name, names, ds)) <==> name !in names || HasFreeVariant(name, names)
  {
    if name !in names {
      assert Ends(name, names, []);
    } else if HasFreeVariant(name, names) {
      var w :| Suffix(Stem(name), w) && Stem(name) + w !in names;
      SearchEnds(name, names, w);
      assert Ends(name, names, Draws(w));
    } else {
      forall ds ensures !Ends(name, names, ds) {
        SearchGoesOn(Stem(name), names, name, ds);
      }
    }
  }

  predicate Ends(name: Name, names: map<Name, Id>, digits: seq<u8>) {
    FreeName(name, names, digits).Some?
  }

  ghost predicate HasFreeVariant(name: Name, names: map<Name, Id>) {
    exists w :: Suffix(Stem(name), w) && Stem(name) + w !in names
  }

  /** The draws that append some digits. */
  function Draws(w: seq<u8>): seq<u8> {
    seq(|w|, i requires 0 <= i < |w| => w[i] % 48)
  }

  /** The first draw cuts a name of eight characters down to its stem. */
  lemma SearchEnds(name: Name, names: map<Name, Id>, w: seq<u8>)
    requires Suffix(Stem(name), w) && Stem(name) + w !in names
    ensures FreeName(name, names, Draws(w)).Some?
  {
    var d := Draws(w);
    var v := Variant(name, d[0]);
    assert d[0] % 10 == w[0] - 48 && v == Stem(name) + [w[0]];
    assert d[1..] == Draws(w[1..]);
    assert v + w[1..] == Stem(name) + w;
    SearchAppends(v, names, w[1..]);
  }

  lemma {:induction false} SearchAppends(name: Name, names: map<Name, Id>, w: seq<u8>)
    requires |name| + |w| <= 8 && (forall i :: 0 <= i < |w| ==> 48 <= w[i] <= 57) && name + w !in names
    ensures FreeName(name, names, Draws(w)).Some?
    decreases |w|
  {
    if w == [] {
      assert name + w == name;
    } else {
      var d := Draws(w);
      assert d[0] % 10 == w[0] - 48 && Variant(name, d[0]) == name + [w[0]];
      assert d[1..] == Draws(w[1..]);
      assert name + [w[0]] + w[1..] == name + w;
      SearchAppends(name + [w[0]], names, w[1..]);
    }
  }

  /** Every name a search comes to is the stem with digits after it. */
  lemma {:induction false} SearchGoesOn(stem: Name, names: map<Name, Id>, name: Name, digits: seq<u8>)
    requires 2 <= |name| <= 8 && |stem| <= 7 && stem <= name
    requires name == stem || Suffix(stem, name[|stem|..]) || stem == Stem(name)
    requires name in names && forall w :: Suffix(stem, w) ==> stem + w in names
    ensures FreeName(name, names, digits).None?
    decreases |digits|
  {
    if digits != [] {
      var v := Variant(name, digits[0]);
      var w := v[|stem|..];
      assert v == stem + w && Suffix(stem, w);
      SearchGoesOn(stem, names, v, digits[1..]);
    }
  }

  // -------------------------------------------------------------- the matching

  /** `partner` is a symmetric matching of live named clients with roles 0 and 1. */
  ghost predicate Matched(r: State) {
    forall c :: c in r.live && c in r.obj && r.obj[c].partner.Some? ==>
      var p := r.obj[c].partner.value;
      && p in r.live && p in r.obj && p != c && r.obj[p].partner == Some(c)
      && r.obj[c].name.Some? && r.obj[p].name.Some?
      && ((r.obj[c].role == Some(0) && r.obj[p].role == Some(1))
          || (r.obj[c].role == Some(1) && r.obj[p].role == Some(0)))
  }

  /** Conforming consoles say HELLO once, never JOIN, and nothing once they are gone. */
  predicate Polite(r: State, s: Step) {
    match s
    case Next(c, _) =>
      c in r.obj && Front(r.obj[c].rx).Whole? ==>
        var m := Front(r.obj[c].rx).m;
        c in r.live && m.ftype != T_JOIN && (m.ftype == T_HELLO ==> r.obj[c].name.None?)
    case _ => true
  }

  // -------------------------------------------------------------- operation by operation

  lemma DropNames(r: State, c: Id)
    requires Sane(r) && c in r.obj && NamesOk(r)
    ensures NamesOk(Drop(r, c))
  {
    hide GoodName, PeerLeftBytes;
  }

  lemma DropQueue(r: State, c: Id)
    requires Sane(r) && c in r.obj && Queue(r)
    ensures Queue(Drop(r, c))
  {
    hide PeerLeftBytes;
    WithoutQueue(r, r.live, c);
  }

  lemma DropLinks(r: State, c: Id)
    requires Sane(r) && c in r.obj
    ensures NamesOk(r) ==> NamesOk(Drop(r, c))
    ensures Queue(r) ==> Queue(Drop(r, c))
  {
    hide NamesOk, Queue, Drop, Sane;
    if NamesOk(r) {
      DropNames(r, c);
    }
    if Queue(r) {
      DropQueue(r, c);
    }
  }

  lemma {:induction false} WithoutQueue(r: State, ids: seq<Id>, c: Id)
    requires Queue(r.(live := ids))
    ensures Queue(r.(live := Without(ids, c)))
    decreases |ids|
  {
    if ids != [] {
      var rest := ids[1..];
      assert forall i :: 0 <= i < |rest| ==> rest[i] == ids[i + 1];
      WithoutQueue(r, rest, c);
      var kept := Without(rest, c);
      forall j | 0 <= j < |kept| && ids[0] in r.obj && kept[j] in r.obj
        ensures r.obj[ids[0]].born <= r.obj[kept[j]].born {
        assert kept[j] in rest;
        var k :| 0 <= k < |rest| && rest[k] == kept[j];
        assert ids[k + 1] == kept[j];
      }
    }
  }

  lemma DropMatched(r: State, c: Id)
    requires Sane(r) && c in r.obj && Matched(r)
    ensures Matched(Drop(r, c))
  {
  }

  lemma MatchUpNames(cfg: Config, r: State, host: Id, guest: Id, seed: nat)
    requires host in r.obj && guest in r.obj && host != guest
    ensures SameNames(r, MatchUp(cfg, r, host, guest, seed))
  {
    hide StartMsg, FrameBytes;
  }

  lemma MatchUpMatches(cfg: Config, r: State, host: Id, guest: Id, seed: nat)
    requires Sane(r) && host in r.obj && guest in r.obj && host != guest
    requires Matched(r) && host in r.live && guest in r.live && Idle(r, host) && Idle(r, guest)
    ensures Matched(MatchUp(cfg, r, host, guest, seed))
  {
    hide StartMsg, FrameBytes;
  }

  lemma MatchUpLinks(cfg: Config, r: State, host: Id, guest: Id, seed: nat)
    requires Sane(r) && host in r.obj && guest in r.obj && host != guest
    ensures NamesOk(r) ==> NamesOk(MatchUp(cfg, r, host, guest, seed))
    ensures Queue(r) ==> Queue(MatchUp(cfg, r, host, guest, seed))
    ensures Matched(r) && host in r.live && guest in r.live && Idle(r, host) && Idle(r, guest) ==>
      Matched(MatchUp(cfg, r, host, guest, seed))
  {
    hide MatchUp, NamesOk, Queue, Matched, SameNames;
    MatchUpNames(cfg, r, host, guest, seed);
    SameNamesKeep(r, MatchUp(cfg, r, host, guest, seed));
    if Matched(r) && host in r.live && guest in r.live && Idle(r, host) && Idle(r, guest) {
      MatchUpMatches(cfg, r, host, guest, seed);
    }
  }

  lemma RaiseNames(r: State, host: Id, guest: Id)
    requires host in r.obj && guest in r.obj
    ensures SameNames(r, Raise(r, host, guest))
  {
  }

  lemma TryPairLinks(cfg: Config, r: State, c: Id, seed: nat)
    requires Sane(r) && c in r.obj
    ensures NamesOk(r) ==> NamesOk(TryPair(cfg, r, c, seed))
    ensures Queue(r) ==> Queue(TryPair(cfg, r, c, seed))
    ensures Matched(r) && c in r.live && Idle(r, c) ==> Matched(TryPair(cfg, r, c, seed))
  {
    hide GoodName, MatchUp, Raise, Matched, NamesOk, Queue;
    var others := Others(r, r.live, c);
    if others == [] {
    } else if r.obj[c].name.None? {
      RaiseNames(r, Oldest(r, others), c);
      SameNamesKeep(r, Raise(r, Oldest(r, others), c));
    } else {
      MatchUpLinks(cfg, r, Oldest(r, others), c, seed);
    }
  }

  lemma RegisterLinks(cfg: Config, r: State, c: Id, name: Name, luck: Luck)
    requires Sane(r) && c in r.obj && GoodName(name)
    ensures NamesOk(r) ==> NamesOk(Register(cfg, r, c, name, luck))
    ensures Queue(r) ==> Queue(Register(cfg, r, c, name, luck))
    ensures Matched(r) && c in r.live && r.obj[c].name.None? ==> Matched(Register(cfg, r, c, name, luck))
  {
    hide GoodName, TryPair, FreeName, NamesOk, Queue, Matched, Sane;
    var free := FreeName(name, r.names, luck.digits);
    if free.Some? {
      FreeNameIsGood(name, r.names, luck.digits);
      ClaimLinks(r, c, free.value);
      TryPairLinks(cfg, Claim(r, c, free.value), c, luck.seed);
    } else {
      SameLinksKeep(r, r.(halted := true));
    }
  }

  lemma ClaimLinks(r: State, c: Id, name: Name)
    requires Sane(r) && c in r.obj && GoodName(name) && name !in r.names
    ensures Sane(Claim(r, c, name))
    ensures NamesOk(r) ==> NamesOk(Claim(r, c, name))
    ensures Queue(r) ==> Queue(Claim(r, c, name))
    ensures Matched(r) && c in r.live && r.obj[c].name.None? ==>
      Matched(Claim(r, c, name)) && Idle(Claim(r, c, name), c)
  {
    hide GoodName;
  }

  lemma OnHelloLinks(cfg: Config, r: State, c: Id, payload: seq<u8>, luck: Luck)
    requires Sane(r) && c in r.obj
    ensures NamesOk(r) ==> NamesOk(OnHello(cfg, r, c, payload, luck))
    ensures Queue(r) ==> Queue(OnHello(cfg, r, c, payload, luck))
    ensures Matched(r) && c in r.live && r.obj[c].name.None? ==> Matched(OnHello(cfg, r, c, payload, luck))
  {
    hide GoodName, Drop, Register, Strip, Upper, NamesOk, Queue, Matched;
    if Matched(r) {
      DropMatched(r, c);
    }
    DropLinks(r, c);
    if |payload| >= 3 {
      var r1 := Update(r, c, r.obj[c].(tv := Some(payload[1])));
      UpdateKeeps(r, c, r1.obj[c]);
      SameLinksKeep(r, r1);
      var name := Upper(Strip(payload[2..]));
      DropLinks(r1, c);
      if Matched(r) {
        DropMatched(r1, c);
      }
      if GoodName(name) {
        RegisterLinks(cfg, r1, c, name, luck);
      }
    }
  }

  lemma LogCrcLinks(r: State, c: Id, tick: u8, crc: u8)
    requires Sane(r) && c in r.obj
    ensures SameLinks(r, LogCrc(r, c, tick, crc))
  {
    hide Report;
  }

  lemma ForwardLinks(r: State, c: Id, m: Msg)
    requires Sane(r) && c in r.obj
    ensures SameLinks(r, Forward(r, c, m))
  {
    hide FrameBytes;
  }

  lemma RelayedLinks(r: State, c: Id, m: Msg)
    requires Sane(r) && c in r.obj
    ensures SameLinks(r, Forward(r, c, m))
    ensures |m.payload| >= 6 ==>
      Sane(Forward(r, c, m)) && SameLinks(r, LogCrc(Forward(r, c, m), c, m.payload[0], m.payload[4]))
  {
    hide LogCrc, Forward, Sane;
    ForwardKeeps(r, c, m);
    ForwardLinks(r, c, m);
    if |m.payload| >= 6 {
      LogCrcLinks(Forward(r, c, m), c, m.payload[0], m.payload[4]);
    }
  }

  lemma HandleLinks(cfg: Config, r: State, c: Id, m: Msg, luck: Luck)
    requires Sane(r) && c in r.obj
    ensures NamesOk(r) ==> NamesOk(Handle(cfg, r, c, m, luck))
    ensures Queue(r) ==> Queue(Handle(cfg, r, c, m, luck))
    ensures Matched(r) && c in r.live && m.ftype != T_JOIN && (m.ftype == T_HELLO ==> r.obj[c].name.None?) ==>
      Matched(Handle(cfg, r, c, m, luck))
  {
    hide GoodName, Drop, TryPair, OnHello, LogCrc, Forward, LobbyMsg, FrameBytes, NamesOk, Queue, Matched;
    var r' := Handle(cfg, r, c, m, luck);
    if IsRelayed(m.ftype) {
      RelayedLinks(r, c, m);
      SameLinksKeep(r, r');
    } else if m.ftype == T_HELLO {
      OnHelloLinks(cfg, r, c, m.payload, luck);
    } else if m.ftype == T_JOIN {
      TryPairLinks(cfg, r, c, luck.seed);
    } else if m.ftype == T_BYE {
      DropLinks(r, c);
      if Matched(r) {
        DropMatched(r, c);
      }
    } else {
      SameLinksKeep(r, r');
    }
  }

  // -------------------------------------------------------------- steps

  ghost predicate Steady(r: State) {
    Sane(r) && NamesOk(r) && Queue(r)
  }

  lemma AdmitLinks(r: State, c: Id, x: Client)
    requires Sane(r) && c !in r.obj && x.name == None && x.partner == None
    requires forall o :: o in r.live && o in r.obj ==> r.obj[o].born <= x.born
    ensures var r' := Update(r, c, x).(live := r.live + [c]);
      && (NamesOk(r) ==> NamesOk(r')) && (Queue(r) ==> Queue(r')) && (Matched(r) ==> Matched(r'))
  {
    hide GoodName;
  }

  lemma ArriveLinks(r: State, c: Id, ip: int, now: int)
    requires Sane(r) && Possible(r, Arrive(c, ip, now))
    ensures NamesOk(r) ==> NamesOk(Accept(r, c, ip, now))
    ensures Queue(r) ==> Queue(Accept(r, c, ip, now))
    ensures Matched(r) ==> Matched(Accept(r, c, ip, now))
  {
    hide NamesOk, Queue, Matched, Sane, SameIp;
    SameLinksKeep(r, Accept(r, c, ip, now).(obj := r.obj, live := r.live));
    AdmitLinks(r, c, NEW_CLIENT.(ip := ip, born := now));
  }

  lemma DropAll(r0: State, r: State, c: Id)
    requires Sane(r0) && SameLinks(r0, r) && c in r0.obj
    ensures Sane(r)
    ensures NamesOk(r0) ==> NamesOk(Drop(r, c))
    ensures Queue(r0) ==> Queue(Drop(r, c))
    ensures Matched(r0) ==> Matched(Drop(r, c))
  {
    hide Drop, NamesOk, Queue;
    SameLinksKeep(r0, r);
    DropLinks(r, c);
    if Matched(r0) {
      DropMatched(r, c);
    }
  }

  lemma FlushLinks(r: State, c: Id, sent: Sent)
    requires Sane(r) && c in r.obj
    ensures NamesOk(r) ==> NamesOk(Flush(r, c, sent))
    ensures Queue(r) ==> Queue(Flush(r, c, sent))
    ensures Matched(r) ==> Matched(Flush(r, c, sent))
  {
    hide Drop, NamesOk, Queue, Matched, Sane;
    var r1 := Cut(r, c, sent);
    UpdateKeeps(r, c, r1.obj[c]);
    DropAll(r, r, c);
    DropAll(r, r1.(stats := r.stats.(txDrops := r.stats.txDrops + 1)), c);
    SameLinksKeep(r, r1);
  }

  lemma DoKeeps(cfg: Config, r: State, s: Step)
    requires Sane(r) && Possible(r, s)
    ensures Steady(r) ==> Steady(Do(cfg, r, s))
    ensures Matched(r) && Polite(r, s) ==> Matched(Do(cfg, r, s))
  {
    hide GoodName, Drop, Handle, NamesOk, Queue, Matched, Front;
    DoSane(cfg, r, s);
    var r' := Do(cfg, r, s);
    match s
    case Arrive(c, ip, now) => ArriveLinks(r, c, ip, now);
    case Chunk(c, data) => SameLinksKeep(r, r');
    case Next(c, luck) =>
      SameLinksKeep(r, Popped(r, c));
      HandleLinks(cfg, Popped(r, c), c, Front(r.obj[c].rx).m, luck);
    case Garbled(c) => DropAll(r, r.(stats := r.stats.(badFrames := r.stats.badFrames + 1)), c);
    case Lost(c) => DropAll(r, r, c);
    case Flushed(c, sent) => FlushLinks(r, c, sent);
    case Expired(c) => DropAll(r, r.(stats := r.stats.(helloTimeouts := r.stats.helloTimeouts + 1)), c);
  }

  /** UNIQUE NAMES. Whatever anyone sends, in every state the relay reaches each live named
      client owns its name in the table, so two live clients never share one. */
  lemma {:induction false} NamesAreUnique(cfg: Config, r: State, ss: seq<Step>)
    requires Steady(r) && Run(cfg, r, ss)
    ensures Steady(After(cfg, r, ss))
    ensures var r' := After(cfg, r, ss);
      forall c, d :: c in r'.live && d in r'.live && c in r'.obj && d in r'.obj ==>
        r'.obj[c].name.Some? && r'.obj[c].name == r'.obj[d].name ==> c == d
    decreases |ss|
  {
    hide Do, Sane, Queue, GoodName;
    if ss != [] {
      DoKeeps(cfg, r, ss[0]);
      NamesAreUnique(cfg, Do(cfg, r, ss[0]), ss[1..]);
    }
  }

  ghost predicate PoliteRun(cfg: Config, r: State, ss: seq<Step>)
    requires Run(cfg, r, ss)
    decreases |ss|
  {
    ss == [] || (Polite(r, ss[0]) && PoliteRun(cfg, Do(cfg, r, ss[0]), ss[1..]))
  }

  /** THE MATCHING. Under conforming traffic `partner` is a symmetric irreflexive matching
      of live clients with complementary roles in every state the relay reaches. */
  lemma {:induction false} PartnersAreMatched(cfg: Config, r: State, ss: seq<Step>)
    requires Matched(r) && Run(cfg, r, ss) && PoliteRun(cfg, r, ss)
    ensures Matched(After(cfg, r, ss))
    decreases |ss|
  {
    hide Do, Sane, Matched, Steady;
    if ss != [] {
      DoKeeps(cfg, r, ss[0]);
      PartnersAreMatched(cfg, Do(cfg, r, ss[0]), ss[1..]);
    }
  }

  /** NO QUEUE-JUMPING. The partner found is the first waiting client in accept order. */
  lemma {:induction false} OldestIsFirst(r: State, ids: seq<Id>, c: Id)
    requires Queue(r.(live := ids)) && (forall x :: x in ids ==> x in r.obj)
    ensures var others := Others(r, ids, c);
      others != [] ==> Oldest(r, others) == others[0]
    decreases |ids|
  {
    if ids != [] {
      var rest := ids[1..];
      OldestIsFirst(r, rest, c);
      var others := Others(r, ids, c);
      if Idle(r, ids[0]) && ids[0] != c && |others| > 1 {
        assert others[1..] == Others(r, rest, c);
        var o := Oldest(r, others[1..]);
        assert o in rest;
        var k :| 0 <= k < |rest| && rest[k] == o;
        assert ids[k + 1] == o;
      }
    }
  }
}
