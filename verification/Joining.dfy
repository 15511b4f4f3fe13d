/** What a JOIN, or a second HELLO, does to the matching: exactly when a pairing keeps it,
    and a run from an empty server in which one does not. */
module Joining {
  import opened Bytes
  import opened Framing
  import opened Verdicts
  import opened Relay
  import opened RelayRuns
  import opened RelayPaths
  import opened Meeting

  /** WHEN A JOIN KEEPS THE MATCHING. Whoever asks: exactly when nobody waits, or the caller
      itself is live, named and without a partner. */
  lemma JoinKeepsTheMatching(cfg: Config, r: State, c: Id, seed: nat)
    requires Sane(r) && Matched(r) && c in r.obj
    ensures Matched(TryPair(cfg, r, c, seed)) <==> Others(r, r.live, c) == [] || (c in r.live && Idle(r, c))
  {
    hide MatchUp, Raise, Matched;
    var others := Others(r, r.live, c);
    if others != [] {
      var host := Oldest(r, others);
      if r.obj[c].name.None? {
        BadRaise(r, host, c);
      } else if c in r.live && Idle(r, c) {
        MatchUpMatches(cfg, r, host, c, seed);
      } else {
        BadMatchUp(cfg, r, host, c, seed);
      }
    }
  }

  /** So does one without a name. */
  lemma BadRaise(r: State, host: Id, c: Id)
    requires c in r.obj && host in r.obj && host in r.live && host != c && r.obj[c].name.None?
    ensures !Matched(Raise(r, host, c))
  {
    assert Raise(r, host, c).obj[host].partner == Some(c);
  }

  /** A caller that is gone or has a partner already breaks it. */
  lemma BadMatchUp(cfg: Config, r: State, host: Id, c: Id, seed: nat)
    requires Matched(r) && c in r.obj && host in r.obj && host in r.live && Idle(r, host) && host != c
    requires c !in r.live || r.obj[c].partner.Some?
    ensures !Matched(MatchUp(cfg, r, host, c, seed))
  {
    hide StartMsg, FrameBytes;
    var r' := MatchUp(cfg, r, host, c, seed);
    assert r'.obj[host].partner == Some(c) && r'.obj[c].partner == Some(host);
    if c in r.live {
      var b := r.obj[c].partner.value;
      assert b != host && r'.obj[b].partner == Some(c);
    }
  }

  /** A HELLO the relay takes: well formed, and a free name found for it. */
  predicate Accepted(r: State, payload: seq<u8>, luck: Luck) {
    WellFormed(payload) && FreeName(Upper(Strip(payload[2..])), r.names, luck.digits).Some?
  }

  /** WHEN A HELLO KEEPS THE MATCHING, a client's first or not: exactly when it is refused,
      nobody else waits, or the caller is live and without a partner. */
  lemma HelloKeepsTheMatching(cfg: Config, r: State, c: Id, payload: seq<u8>, luck: Luck)
    requires Sane(r) && Matched(r) && c in r.obj
    ensures Matched(OnHello(cfg, r, c, payload, luck))
      <==> !Accepted(r, payload, luck) || Others(r, r.live, c) == [] || (c in r.live && r.obj[c].partner.None?)
  {
    hide GoodName, Strip, Upper, FreeName, Drop, Register, Others, Matched, NamesOk, Queue;
    DropMatched(r, c);
    if |payload| >= 3 {
      var r1 := Update(r, c, r.obj[c].(tv := Some(payload[1])));
      UpdateKeeps(r, c, r1.obj[c]);
      SameLinksKeep(r, r1);
      DropMatched(r1, c);
      SameOthers(r, r1, r.live, c);
      RegisterKeepsTheMatching(cfg, r1, c, Upper(Strip(payload[2..])), luck);
    }
  }

  lemma RegisterKeepsTheMatching(cfg: Config, r: State, c: Id, name: Name, luck: Luck)
    requires Sane(r) && Matched(r) && c in r.obj
    ensures Matched(Register(cfg, r, c, name, luck))
      <==> FreeName(name, r.names, luck.digits).None? || Others(r, r.live, c) == []
           || (c in r.live && r.obj[c].partner.None?)
  {
    hide FreeName, TryPair, Others, Matched, NamesOk, Queue;
    var free := FreeName(name, r.names, luck.digits);
    if free.Some? {
      var r2 := Claim(r, c, free.value);
      UpdateKeeps(r, c, r2.obj[c]);
      ClaimMatched(r, c, free.value);
      SameOthers(r, r2, r.live, c);
      JoinKeepsTheMatching(cfg, r2, c, luck.seed);
    } else {
      SameLinksKeep(r, r.(halted := true));
    }
  }

  lemma ClaimMatched(r: State, c: Id, name: Name)
    requires Matched(r) && c in r.obj
    ensures Matched(Claim(r, c, name))
  {
  }

  /** Who else waits does not depend on the caller's own name. */
  lemma {:induction false} SameOthers(r: State, r': State, ids: seq<Id>, c: Id)
    requires r.obj.Keys == r'.obj.Keys && forall x :: x in r.obj && x != c ==> r'.obj[x] == r.obj[x]
    ensures Others(r', ids, c) == Others(r, ids, c)
    decreases |ids|
  {
    if ids != [] {
      SameOthers(r, r', ids[1..], c);
    }
  }

  // -------------------------------------------------------------- the failing run

  const NAME_C: Name := [67, 67]
  const JOIN := Msg(T_JOIN, [])
  const BYE := Msg(T_BYE, [])

  /** A conforming run from an empty server, then a JOIN, then a BYE: before the JOIN
      partner is a matching, after it it is not, and after the BYE a live client's partner
      lives no longer. */
  ghost predicate Breaks(cfg: Config, ss: seq<Step>, join: Step, bye: Step) {
    && Run(cfg, EMPTY, ss) && PoliteRun(cfg, EMPTY, ss)
    && var r := After(cfg, EMPTY, ss);
    && Sane(r) && Matched(r) && Possible(r, join)
    && var r1 := Do(cfg, r, join);
    && Sane(r1) && !Matched(r1) && Possible(r1, bye)
    && Dangles(Do(cfg, r1, bye))
  }

  ghost predicate Dangles(r: State) {
    exists b :: b in r.live && b in r.obj && r.obj[b].partner.Some? && r.obj[b].partner.value !in r.live
  }

  /** Two consoles matched and a third waiting; the first has a JOIN and a BYE in its
      buffer. */
  ghost predicate ThirdWaits(r: State) {
    && Sane(r) && !r.halted && r.live == [0, 1, 2] && r.obj.Keys == {0, 1, 2}
    && r.obj[0].partner == Some(1) && r.obj[1].partner == Some(0) && r.obj[0].name.Some? && r.obj[1].name.Some?
    && Idle(r, 2) && r.obj[0].rx == FrameBytes(JOIN) + (FrameBytes(BYE) + [])
  }

  lemma ThirdJoins(r: State)
    requires Met(r)
    ensures Open(r) && GoodName(NAME_C) && NAME_C !in r.names
    ensures var q := Joined(r, 2, NAME_C);
      && Sane(q) && !q.halted && q.live == [0, 1, 2] && q.obj.Keys == {0, 1, 2}
      && q.obj[0] == r.obj[0] && q.obj[1] == r.obj[1] && Idle(q, 2) && q.obj[0].rx == []
  {
    assert NAME_C[0] != NAME_A[0] && NAME_C[0] != NAME_B[0];
    assert [0, 1] + [2] == [0, 1, 2];
  }

  lemma Arrange(cfg: Config) returns (ss: seq<Step>, r: State)
    ensures Leads(cfg, EMPTY, ss, r) && ThirdWaits(r)
  {
    hide Leads, TryPair, Joined, Open, Met, FrameBytes;
    var s1, r1 := Meets(cfg);
    ThirdJoins(r1);
    assert r1.obj[0].partner == Some(1) && r1.obj[1].partner == Some(0) && 2 !in r1.obj
        && r1.obj[0].name.Some? && r1.obj[1].name.Some? by { MetMeans(r1); }
    var s2 := Joins(cfg, r1, 2, NAME_C);
    var q := Joined(r1, 2, NAME_C);
    NobodyWaits(cfg, q, 2, 1);
    Chain(cfg, EMPTY, s1, r1, s2, q);
    var data := FrameBytes(JOIN) + (FrameBytes(BYE) + []);
    Receives(cfg, q, 0, data);
    r := Update(q, 0, q.obj[0].(rx := data));
    Chain(cfg, EMPTY, s1 + s2, q, [Chunk(0, data)], r);
    ss := s1 + s2 + [Chunk(0, data)];
  }

  lemma MetMeans(r: State)
    requires Met(r)
    ensures r.obj.Keys == {0, 1} && r.obj[0].partner == Some(1) && r.obj[1].partner == Some(0)
    ensures r.obj[0].name.Some? && r.obj[1].name.Some?
  {
  }

  /** The JOIN pairs the first console a second time. */
  lemma JoinHeard(cfg: Config, r: State)
    requires ThirdWaits(r) && Matched(r)
    ensures Possible(r, Next(0, Luck([], 1)))
    ensures var r1 := Do(cfg, r, Next(0, Luck([], 1)));
      && Sane(r1) && !Matched(r1) && !r1.halted && r1.live == [0, 1, 2] && 0 in r1.obj && 1 in r1.obj
      && r1.obj[0].partner == Some(2) && r1.obj[1].partner == Some(0) && r1.obj[0].rx == FrameBytes(BYE) + []
  {
    FrontOfFrame(JOIN, FrameBytes(BYE) + []);
    assert JOIN.ftype == T_JOIN;
    hide FrameBytes, Front, TryPair, Matched, MatchUp, Sane, NamesOk, Queue;
    PoppedSane(r, 0);
    JoinIsTryPair(cfg, r, 0, Luck([], 1));
    PoppedLinks(r, 0);
    JoinPairs(cfg, Popped(r, 0));
  }

  lemma PoppedLinks(r: State, c: Id)
    requires c in r.obj && Front(r.obj[c].rx).Whole?
    ensures SameLinks(r, Popped(r, c)) && (Matched(r) ==> Matched(Popped(r, c)))
  {
    hide Matched;
    SameLinksKeep(r, Popped(r, c));
  }

  lemma JoinIsTryPair(cfg: Config, r: State, c: Id, luck: Luck)
    requires Sane(r) && Possible(r, Next(c, luck)) && Front(r.obj[c].rx).m == JOIN
    ensures Sane(Popped(r, c)) && Do(cfg, r, Next(c, luck)) == TryPair(cfg, Popped(r, c), c, luck.seed)
  {
    hide Sane, TryPair, Front;
    PoppedSane(r, c);
  }

  lemma JoinPairs(cfg: Config, q: State)
    requires Sane(q) && Matched(q) && !q.halted && q.live == [0, 1, 2] && q.obj.Keys == {0, 1, 2}
    requires q.obj[0].partner == Some(1) && q.obj[1].partner == Some(0) && q.obj[0].name.Some? && Idle(q, 2)
    ensures var r1 := TryPair(cfg, q, 0, 1);
      && Sane(r1) && !Matched(r1) && !r1.halted && r1.live == [0, 1, 2] && 0 in r1.obj && 1 in r1.obj
      && r1.obj[0].partner == Some(2) && r1.obj[1].partner == Some(0) && r1.obj[0].rx == q.obj[0].rx
  {
    hide TryPair, Matched, MatchUp;
    OnlyOneWaits(q, q.live, 0, 2);
    JoinKeepsTheMatching(cfg, q, 0, 1);
    TryPairKeeps(cfg, q, 0, 1);
    PairsWith(cfg, q, 0, 2, 1);
    MatchUpGives(cfg, q, 2, 0, 1);
  }

  lemma ByeHeard(cfg: Config, r: State)
    requires Sane(r) && !r.halted && r.live == [0, 1, 2] && 0 in r.obj && 1 in r.obj
    requires r.obj[0].partner == Some(2) && r.obj[1].partner == Some(0) && r.obj[0].rx == FrameBytes(BYE) + []
    ensures Possible(r, Next(0, Luck([], 1))) && Dangles(Do(cfg, r, Next(0, Luck([], 1))))
  {
    FrontOfFrame(BYE, []);
    assert BYE.ftype == T_BYE;
    hide FrameBytes, Front;
    var r' := Do(cfg, r, Next(0, Luck([], 1)));
    assert 1 in r'.live && r'.obj[1].partner == Some(0) && 0 !in r'.live;
  }

  /** JOIN BREAKS THE MATCHING, from an empty server on. */
  lemma JoinBreaksTheMatching(cfg: Config)
    ensures exists ss, join, bye :: Breaks(cfg, ss, join, bye)
  {
    var ss, r := Arrange(cfg);
    assert Matched(EMPTY);
    PartnersAreMatched(cfg, EMPTY, ss);
    hide Do, Run, After, PoliteRun, Possible, Matched, Dangles;
    JoinHeard(cfg, r);
    ByeHeard(cfg, Do(cfg, r, Next(0, Luck([], 1))));
    assert Breaks(cfg, ss, Next(0, Luck([], 1)), Next(0, Luck([], 1)));
  }
}
