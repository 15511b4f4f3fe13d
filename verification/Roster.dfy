/** Who owns which name: under conforming traffic the table is the live named clients and
    nothing else, and exactly when a HELLO keeps it so. */
module Roster {
  import opened Bytes
  import opened Framing
  import opened Verdicts
  import opened Relay
  import opened RelayRuns
  import Joining

  /** The table holds the name of each live named client, and no other. */
  ghost predicate Exact(r: State) {
    NamesOk(r)
    && forall n :: n in r.names ==>
         r.names[n] in r.live && r.names[n] in r.obj && r.obj[r.names[n]].name == Some(n)
  }

  lemma SameNamesExact(r: State, r': State)
    requires SameNames(r, r')
    ensures Exact(r) <==> Exact(r')
  {
    hide GoodName;
  }

  lemma DropExact(r: State, c: Id)
    requires Sane(r) && c in r.obj && Exact(r)
    ensures Exact(Drop(r, c))
  {
    hide Exact, Drop;
    DropNames(r, c) by { ExactNames(r); }
    DropFrees(r, c);
    hide Sane;
    ExactFrom(r, Drop(r, c), c);
  }

  lemma ExactNames(r: State)
    requires Exact(r)
    ensures NamesOk(r)
  {
  }

  /** What a drop does to names: the one of a live client goes, and so does the client. */
  lemma DropFrees(r: State, c: Id)
    requires Sane(r) && c in r.obj && Exact(r)
    ensures var r' := Drop(r, c);
      && (forall x :: x in r.obj ==> x in r'.obj && r'.obj[x].name == r.obj[x].name)
      && (forall x :: x in r.live && x != c ==> x in r'.live)
      && (forall n :: n in r'.names ==> n in r.names && r'.names[n] == r.names[n])
      && (c in r.live && r.obj[c].name.Some? ==> r.obj[c].name.value !in r'.names)
      && (c !in r.live ==> r' == r)
  {
    hide GoodName, PeerLeftBytes;
  }

  lemma ExactFrom(r: State, r': State, c: Id)
    requires c in r.obj && Exact(r) && NamesOk(r')
    requires forall x :: x in r.obj ==> x in r'.obj && r'.obj[x].name == r.obj[x].name
    requires forall x :: x in r.live && x != c ==> x in r'.live
    requires forall n :: n in r'.names ==> n in r.names && r'.names[n] == r.names[n]
    requires c in r.live && r.obj[c].name.Some? ==> r.obj[c].name.value !in r'.names
    requires c !in r.live ==> r' == r
    ensures Exact(r')
  {
    hide GoodName, NamesOk;
  }

  lemma ClaimExact(r: State, c: Id, name: Name)
    requires Sane(r) && c in r.obj && Exact(r) && GoodName(name) && name !in r.names
    ensures Exact(Claim(r, c, name)) <==> c in r.live && r.obj[c].name.None?
  {
    hide GoodName;
    var r' := Claim(r, c, name);
    if c in r.live && r.obj[c].name.Some? {
      var first := r.obj[c].name.value;
      assert first in r'.names && r'.names[first] == c && r'.obj[c].name != Some(first);
    } else if c !in r.live {
      assert r'.names[name] == c;
    }
  }

  lemma PairingExact(cfg: Config, r: State, c: Id, seed: nat)
    requires Sane(r) && c in r.obj
    ensures Exact(TryPair(cfg, r, c, seed)) <==> Exact(r)
  {
    hide MatchUp, Raise, Exact, Others;
    var others := Others(r, r.live, c);
    if others != [] {
      var host := Oldest(r, others);
      MatchUpNames(cfg, r, host, c, seed);
      RaiseNames(r, host, c);
      SameNamesExact(r, MatchUp(cfg, r, host, c, seed));
      SameNamesExact(r, Raise(r, host, c));
    }
  }

  lemma RegisterExact(cfg: Config, r: State, c: Id, name: Name, luck: Luck)
    requires Sane(r) && c in r.obj && Exact(r) && GoodName(name)
    ensures Exact(Register(cfg, r, c, name, luck))
      <==> FreeName(name, r.names, luck.digits).None? || (c in r.live && r.obj[c].name.None?)
  {
    hide GoodName, TryPair, FreeName, Exact;
    var free := FreeName(name, r.names, luck.digits);
    if free.Some? {
      FreeNameIsGood(name, r.names, luck.digits);
      ClaimLinks(r, c, free.value);
      ClaimExact(r, c, free.value);
      PairingExact(cfg, Claim(r, c, free.value), c, luck.seed);
    } else {
      SameNamesExact(r, r.(halted := true));
    }
  }

  /** WHEN A HELLO KEEPS THE TABLE EXACT. Exactly when it is refused, or comes from a live client
      that has no name yet: a second HELLO leaves the first name taken for ever, and one from a
      client already dropped takes a name for nobody. */
  lemma HelloKeepsExact(cfg: Config, r: State, c: Id, payload: seq<u8>, luck: Luck)
    requires Sane(r) && c in r.obj && Exact(r)
    ensures Exact(OnHello(cfg, r, c, payload, luck))
      <==> !Joining.Accepted(r, payload, luck) || (c in r.live && r.obj[c].name.None?)
  {
    hide GoodName, Strip, Upper, FreeName, Drop, Register, Exact, Sane;
    DropExact(r, c);
    if |payload| >= 3 {
      var r1 := Update(r, c, r.obj[c].(tv := Some(payload[1])));
      UpdateKeeps(r, c, r1.obj[c]);
      SameNamesExact(r, r1);
      DropExact(r1, c);
      if GoodName(Upper(Strip(payload[2..]))) {
        RegisterExact(cfg, r1, c, Upper(Strip(payload[2..])), luck);
      }
    }
  }

  lemma HandleExact(cfg: Config, r: State, c: Id, m: Msg, luck: Luck)
    requires Sane(r) && c in r.obj && Exact(r)
    requires c in r.live && (m.ftype == T_HELLO ==> r.obj[c].name.None?)
    ensures Exact(Handle(cfg, r, c, m, luck))
  {
    hide GoodName, Drop, TryPair, OnHello, LogCrc, Forward, LobbyMsg, FrameBytes, Exact, Sane;
    var r' := Handle(cfg, r, c, m, luck);
    if IsRelayed(m.ftype) {
      RelayedLinks(r, c, m);
      SameNamesExact(r, r');
    } else if m.ftype == T_HELLO {
      HelloKeepsExact(cfg, r, c, m.payload, luck);
    } else if m.ftype == T_JOIN {
      PairingExact(cfg, r, c, luck.seed);
    } else if m.ftype == T_BYE {
      DropExact(r, c);
    } else {
      SameNamesExact(r, r');
    }
  }

  lemma AdmitExact(r: State, c: Id, x: Client)
    requires Sane(r) && c !in r.obj && x.name == None && Exact(r)
    ensures Exact(Update(r, c, x).(live := r.live + [c]))
  {
    hide GoodName;
  }

  lemma DropAllExact(r0: State, r: State, c: Id)
    requires Sane(r0) && SameLinks(r0, r) && c in r0.obj && Exact(r0)
    ensures Sane(r) && Exact(Drop(r, c))
  {
    hide Drop, Exact;
    SameNamesExact(r0, r);
    DropExact(r, c);
  }

  lemma StepExact(cfg: Config, r: State, s: Step)
    requires Sane(r) && Possible(r, s) && Polite(r, s) && Exact(r)
    ensures Exact(Do(cfg, r, s))
  {
    hide GoodName, Drop, Handle, Exact, Front, SameIp;
    match s
    case Arrive(c, ip, now) =>
      AdmitExact(r, c, NEW_CLIENT.(ip := ip, born := now));
      SameNamesExact(r, r.(stats := r.stats.(ipRejects := r.stats.ipRejects + 1)));
    case Chunk(c, data) => SameNamesExact(r, Do(cfg, r, s));
    case Next(c, luck) =>
      PoppedSane(r, c);
      SameNamesExact(r, Popped(r, c));
      HandleExact(cfg, Popped(r, c), c, Front(r.obj[c].rx).m, luck);
    case Garbled(c) => DropAllExact(r, r.(stats := r.stats.(badFrames := r.stats.badFrames + 1)), c);
    case Lost(c) => DropAllExact(r, r, c);
    case Flushed(c, sent) =>
      var r1 := Cut(r, c, sent);
      DropAllExact(r, r, c);
      DropAllExact(r, r1.(stats := r.stats.(txDrops := r.stats.txDrops + 1)), c);
      SameNamesExact(r, r1);
    case Expired(c) => DropAllExact(r, r.(stats := r.stats.(helloTimeouts := r.stats.helloTimeouts + 1)), c);
  }

  // -------------------------------------------------------------- over runs

  /** The live clients that have a name. */
  ghost function Players(r: State): set<Id> {
    set c | c in r.live && c in r.obj && r.obj[c].name.Some?
  }

  /** As many names as there are clients to have them. */
  lemma {:induction false} CountNames(names: map<Name, Id>, owners: set<Id>)
    requires (forall n :: n in names ==> names[n] in owners)
    requires (forall c :: c in owners ==> exists n :: n in names && names[n] == c)
    requires forall n, n' :: n in names && n' in names && names[n] == names[n'] ==> n == n'
    ensures |names| == |owners|
    decreases |owners|
  {
    if owners == {} {
      assert names == map[];
    } else {
      var c :| c in owners;
      var n :| n in names && names[n] == c;
      var rest := names - {n};
      assert |names| == |rest| + 1 by {
        assert names.Keys == rest.Keys + {n};
      }
      forall d | d in owners - {c} ensures exists m :: m in rest && rest[m] == d {
        var m :| m in names && names[m] == d;
        assert m in rest && rest[m] == d;
      }
      CountNames(rest, owners - {c});
    }
  }

  /** THE ROSTER. In every state conforming traffic brings the relay to, the table holds the
      names of the live named clients and no others, so its length, which the Lobby is told,
      is how many there are. */
  lemma {:induction false} RosterIsExact(cfg: Config, r: State, ss: seq<Step>)
    requires Exact(r) && Run(cfg, r, ss) && PoliteRun(cfg, r, ss)
    ensures var r' := After(cfg, r, ss); Exact(r') && |r'.names| == |Players(r')|
    decreases |ss|
  {
    hide Do, Sane, Exact;
    if ss == [] {
      ExactCounts(r);
    } else {
      StepExact(cfg, r, ss[0]);
      RosterIsExact(cfg, Do(cfg, r, ss[0]), ss[1..]);
    }
  }

  lemma ExactCounts(r: State)
    requires Exact(r)
    ensures |r.names| == |Players(r)|
  {
    hide GoodName;
    forall c | c in Players(r) ensures exists n :: n in r.names && r.names[n] == c {
      assert r.obj[c].name.value in r.names;
    }
    CountNames(r.names, Players(r));
  }
}
