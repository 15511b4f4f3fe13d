/** The theorems about conforming traffic are about something: two consoles that connect
    and say HELLO under two good names are matched. */
module Meeting {
  import opened Bytes
  import opened Framing
  import opened Verdicts
  import opened Relay
  import opened RelayRuns
  import opened RelayPaths
  import opened Fifo
  import opened Pipe

  const NAME_A: Name := [65, 65]
  const NAME_B: Name := [66, 66]

  /** Two consoles matched, each with a name and an empty receive buffer, and nobody else. */
  ghost predicate Met(r: State) {
    && Sane(r) && !r.halted && r.live == [0, 1] && r.obj.Keys == {0, 1} && r.names.Keys == {NAME_A, NAME_B}
    && r.obj[0].partner == Some(1) && r.obj[1].partner == Some(0)
    && r.obj[0].name == Some(NAME_A) && r.obj[1].name == Some(NAME_B)
    && r.obj[0].rx == r.obj[1].rx == []
    && r.obj[0].born == r.obj[1].born == 0 && r.obj[0].ip == 0 && r.obj[1].ip == 1
  }

  lemma FirstJoins(cfg: Config) returns (ss: seq<Step>)
    ensures Leads(cfg, EMPTY, ss, Joined(EMPTY, 0, NAME_A))
  {
    hide Leads;
    assert Open(EMPTY) && GoodName(NAME_A);
    ss := Joins(cfg, EMPTY, 0, NAME_A);
    NobodyWaits(cfg, Joined(EMPTY, 0, NAME_A), 0, 1);
  }

  /** The state the first HELLO leaves. */
  lemma FirstMeans()
    ensures var r := Joined(EMPTY, 0, NAME_A);
      && Sane(r) && !r.halted && r.live == [0] && r.obj.Keys == {0} && r.names == map[NAME_A := 0]
      && r.obj[0] == NEW_CLIENT.(tv := Some(0), name := Some(NAME_A))
  {
    assert [] + [0] == [0];
  }

  lemma SecondMeans(r: State)
    requires Sane(r) && !r.halted && r.live == [0] && r.obj.Keys == {0} && r.names == map[NAME_A := 0]
    requires r.obj[0] == NEW_CLIENT.(tv := Some(0), name := Some(NAME_A))
    ensures Open(r) && NAME_B !in r.names && GoodName(NAME_B)
    ensures var q := Joined(r, 1, NAME_B);
      && Sane(q) && !q.halted && q.live == [0, 1] && q.obj.Keys == {0, 1} && q.names.Keys == {NAME_A, NAME_B}
      && q.obj[0] == r.obj[0] && q.obj[1] == NEW_CLIENT.(ip := 1, tv := Some(0), name := Some(NAME_B))
  {
    assert NAME_A[0] != NAME_B[0];
    assert [0] + [1] == [0, 1];
  }

  lemma MatchUpMet(cfg: Config, q: State)
    requires Sane(q) && !q.halted && q.live == [0, 1] && q.obj.Keys == {0, 1} && q.names.Keys == {NAME_A, NAME_B}
    requires q.obj[0] == NEW_CLIENT.(tv := Some(0), name := Some(NAME_A))
    requires q.obj[1] == NEW_CLIENT.(ip := 1, tv := Some(0), name := Some(NAME_B))
    ensures TryPair(cfg, q, 1, 1) == MatchUp(cfg, q, 0, 1, 1) && Met(MatchUp(cfg, q, 0, 1, 1))
  {
    hide StartMsg, FrameBytes;
    MatchUpKeeps(cfg, q, 0, 1, 1);
    hide MatchUp;
    PairsWith(cfg, q, 1, 0, 1);
    MatchUpGives(cfg, q, 0, 1, 1);
  }

  /** What a match changes of the two players. */
  lemma MatchUpGives(cfg: Config, r: State, host: Id, guest: Id, seed: nat)
    requires host in r.obj && guest in r.obj && host != guest
    ensures var r' := MatchUp(cfg, r, host, guest, seed);
      && r'.live == r.live && r'.names == r.names && r'.halted == r.halted && r'.obj.Keys == r.obj.Keys
      && r'.obj[host] == r.obj[host].(partner := Some(guest), role := Some(0),
                                      side := r'.obj[host].side, tx := r'.obj[host].tx)
      && r'.obj[guest] == r.obj[guest].(partner := Some(host), role := Some(1),
                                        side := r'.obj[guest].side, tx := r'.obj[guest].tx)
      && (forall x :: x in r.obj && x != host && x != guest ==> r'.obj[x] == r.obj[x])
      && |r'.obj[host].tx| == |r.obj[host].tx| + 15
  {
  }

  lemma Meets(cfg: Config) returns (ss: seq<Step>, r: State)
    ensures Leads(cfg, EMPTY, ss, r) && Met(r)
  {
    hide Leads, TryPair, MatchUp, Joined, Open, Met, Sane;
    var q := Joined(EMPTY, 0, NAME_A);
    var s1 := FirstJoins(cfg);
    FirstMeans();
    SecondMeans(q);
    var s2 := Joins(cfg, q, 1, NAME_B);
    MatchUpMet(cfg, Joined(q, 1, NAME_B));
    r := TryPair(cfg, Joined(q, 1, NAME_B), 1, 1);
    Chain(cfg, EMPTY, s1, q, s2, r);
    ss := s1 + s2;
  }

  /** A conforming run of the relay is one of the relay with its history. */
  lemma {:induction false} Traced(cfg: Config, t: Trace, ss: seq<Step>, r': State)
    requires Leads(cfg, t.r, ss, r')
    ensures TraceRun(cfg, t, ss) && TraceAfter(cfg, t, ss).r == r'
    decreases |ss|
  {
    hide Do, Possible, Polite, Hist1;
    if ss != [] {
      Traced(cfg, TDo(cfg, t, ss[0]), ss[1..], r');
    }
  }

  /** TWO CONSOLES MEET. There is a state conforming consoles bring the relay to in which
      two live clients are partners. */
  lemma TwoConsolesMeet(cfg: Config)
    ensures exists t :: Arises(cfg, t) && 0 in t.r.live && 0 in t.r.obj && t.r.obj[0].partner == Some(1)
  {
    hide Leads, TraceRun, TraceAfter;
    var ss, r := Meets(cfg);
    Traced(cfg, START_TRACE, ss, r);
    assert Arises(cfg, TraceAfter(cfg, START_TRACE, ss));
  }
}
