/** What the relay does with each event, as functions on its state. A connection is known
    by an identity that is never used again, as a Python object is. */
module Relay {
  import opened Bytes
  import opened Framing
  import opened Verdicts

  type Id = nat
  type Name = seq<u8>

  const T_HELLO: u8 := 1
  const T_LIST: u8 := 2
  const T_LOBBY: u8 := 3
  const T_JOIN: u8 := 4
  const T_START: u8 := 5
  const T_INPUT: u8 := 6
  const T_CRC: u8 := 7
  const T_STATE: u8 := 8
  const T_RESYNC: u8 := 9
  const T_BYE: u8 := 10
  const T_PEER_LEFT: u8 := 11
  const T_PING: u8 := 12
  const T_PONG: u8 := 13

  const PROTO: u8 := 2
  const GAME_PAYLOAD := 6
  const MAX_BACKLOG := 65536
  const RECV_SIZE := 4096
  const MAX_CLIENTS := 64
  const MAX_PER_IP := 8
  const LOBBY_LIMIT := 8

  predicate IsRelayed(ftype: u8) {
    ftype == T_INPUT || ftype == T_CRC || ftype == T_STATE || ftype == T_RESYNC
  }

  datatype Client = Client(
    rx: seq<u8>,              // received, not yet framed
    tx: seq<u8>,              // to be sent
    name: Option<Name>,
    tv: Option<u8>,
    partner: Option<Id>,
    role: Option<u8>,
    born: int,
    ip: int,
    side: Side)               // crc, lap, last_tick

  datatype Stats = Stats(matches: nat, crcOk: nat, crcBad: nat, badFrames: nat, txDrops: nat,
                         helloTimeouts: nat, ipRejects: nat)

  datatype State = State(
    obj: map<Id, Client>,     // every client object there ever was
    live: seq<Id>,            // self.clients, in accept order
    names: map<Name, Id>,     // self.by_name
    stats: Stats,
    halted: bool)             // an uncaught exception, or a name search that goes on

  datatype Config = Config(delay: u8, variation: u8)

  /** What the random module yields while one frame is handled. */
  datatype Luck = Luck(digits: seq<u8>, seed: nat)

  const NEW_CLIENT := Client([], [], None, None, None, None, 0, 0, NEW_SIDE)
  const EMPTY := State(map[], [], map[], Stats(0, 0, 0, 0, 0, 0, 0), false)

  ghost predicate NoRepeat(s: seq<Id>) {
    forall i, j :: 0 <= i < j < |s| ==> s[i] != s[j]
  }

  /** What the object graph always satisfies; no function below looks a stranger up. */
  ghost predicate Sane(r: State) {
    && (forall c :: c in r.live ==> c in r.obj)
    && NoRepeat(r.live)
    && (forall c :: c in r.obj && r.obj[c].partner.Some? ==>
        r.obj[c].partner.value in r.obj && r.obj[c].partner.value != c)
  }

  // -------------------------------------------------------------- small parts

  function Update(r: State, c: Id, x: Client): State {
    r.(obj := r.obj[c := x])
  }

  function Send(r: State, c: Id, bytes: seq<u8>): State
    requires c in r.obj
  {
    Update(r, c, r.obj[c].(tx := r.obj[c].tx + bytes))
  }

  /** `payload.ljust(n, b"\0")`: pads, never truncates. */
  function Ljust(s: seq<u8>, n: nat): (r: seq<u8>)
    ensures |r| == (if |s| < n then n else |s|) && r[..|s|] == s
    ensures forall i :: |s| <= i < |r| ==> r[i] == 0
  {
    if |s| < n then s + seq(n - |s|, _ => 0) else s
  }

  function Without(s: seq<Id>, c: Id): (r: seq<Id>)
    ensures forall x :: x in r ==> x in s && x != c
    ensures forall x :: x in s && x != c ==> x in r
    ensures NoRepeat(s) ==> NoRepeat(r)
  {
    WithoutTail(s, c);
    if s == [] then [] else if s[0] == c then Without(s[1..], c) else [s[0]] + Without(s[1..], c)
  }

  lemma WithoutTail(s: seq<Id>, c: Id)
    ensures s != [] && NoRepeat(s) ==> NoRepeat(s[1..]) && s[0] !in s[1..]
  {
  }

  const PEER_LEFT: Msg := Msg(T_PEER_LEFT, [0, 0, 0, 0, 0, 0])

  function PeerLeftBytes(): seq<u8> {
    FrameBytes(PEER_LEFT)
  }

  // -------------------------------------------------------------- drop

  /** The by_name table once `c` has left it. */
  function Unname(r: State, c: Id): map<Name, Id>
    requires c in r.obj
  {
    var n := r.obj[c].name;
    if n.Some? && n.value in r.names && r.names[n.value] == c then r.names - {n.value} else r.names
  }

  /** `drop`: nothing for a client already gone. The survivor loses its link and is told;
      the dropped object keeps its own link. */
  function Drop(r: State, c: Id): State
    requires Sane(r) && c in r.obj
  {
    if c !in r.live then r
    else
      var p := r.obj[c].partner;
      var r1 := r.(names := Unname(r, c), live := Without(r.live, c));
      if p.None? then r1
      else Update(r1, p.value, r.obj[p.value].(partner := None, tx := r.obj[p.value].tx + PeerLeftBytes()))
  }

  // -------------------------------------------------------------- pairing

  predicate Idle(r: State, o: Id) {
    o in r.obj && r.obj[o].name.Some? && r.obj[o].partner.None?
  }

  /** `[o for o in self.idle() if o is not c]`. */
  function Others(r: State, ids: seq<Id>, c: Id): (s: seq<Id>)
    ensures forall o :: o in s <==> o in ids && Idle(r, o) && o != c
  {
    if ids == [] then []
    else if Idle(r, ids[0]) && ids[0] != c then [ids[0]] + Others(r, ids[1..], c)
    else Others(r, ids[1..], c)
  }

  /** `min(others, key=born)`: the first of the oldest. */
  function Oldest(r: State, s: seq<Id>): (o: Id)
    requires s != [] && forall x :: x in s ==> x in r.obj
    ensures o in s
    ensures forall x :: x in s ==> r.obj[o].born <= r.obj[x].born
  {
    if |s| == 1 then s[0]
    else
      var o := Oldest(r, s[1..]);
      if r.obj[s[0]].born <= r.obj[o].born then s[0] else o
  }

  function StartMsg(cfg: Config, role: u8, seed: nat, opponent: Name): Msg
    requires |opponent| <= 8
  {
    Msg(T_START, [role, seed % 256, seed / 256 % 256, cfg.delay, cfg.variation] + Ljust(opponent, 8))
  }

  /** The name a client is shown under; only a HELLO sets it, never longer than eight. */
  function Shown(x: Client): (n: Name)
    ensures |n| <= 8
  {
    if x.name.Some? && |x.name.value| <= 8 then x.name.value else []
  }

  /** `try_pair`. The waiting console becomes host, the caller guest. */
  function TryPair(cfg: Config, r: State, c: Id, seed: nat): State
    requires Sane(r) && c in r.obj
  {
    var others := Others(r, r.live, c);
    if others == [] then r
    else if r.obj[c].name.None? then Raise(r, Oldest(r, others), c)
    else MatchUp(cfg, r, Oldest(r, others), c, seed)
  }

  function MatchUp(cfg: Config, r: State, host: Id, guest: Id, seed: nat): State
    requires host in r.obj && guest in r.obj
  {
    var h, g := r.obj[host], r.obj[guest];
    var h' := h.(partner := Some(guest), role := Some(0), side := h.side.(log := []),
                 tx := h.tx + FrameBytes(StartMsg(cfg, 0, seed, Shown(g))));
    var g' := g.(partner := Some(host), role := Some(1), side := g.side.(log := []),
                 tx := g.tx + FrameBytes(StartMsg(cfg, 1, seed, Shown(h))));
    Update(Update(r, host, h'), guest, g').(stats := r.stats.(matches := r.stats.matches + 1))
  }

  /** A caller without a name (an unexpected JOIN) makes the Python raise while it builds
      the host's START: links and roles are made by then, and the host's log is cleared. */
  function Raise(r: State, host: Id, guest: Id): State
    requires host in r.obj && guest in r.obj
  {
    var h, g := r.obj[host], r.obj[guest];
    var h' := h.(partner := Some(guest), role := Some(0), side := h.side.(log := []));
    var g' := g.(partner := Some(host), role := Some(1));
    Update(Update(r, host, h'), guest, g').(halted := true)
  }

  // -------------------------------------------------------------- HELLO

  predicate Blank(b: u8) {
    b == 0 || b == 32
  }

  /** `.strip("\0 ")`. */
  function Strip(s: seq<u8>): seq<u8> {
    if s == [] then []
    else if Blank(s[0]) then Strip(s[1..])
    else if Blank(s[|s| - 1]) then Strip(s[..|s| - 1])
    else s
  }

  function UpperByte(b: u8): u8 {
    if 97 <= b <= 122 then b - 32 else b
  }

  function Upper(s: seq<u8>): seq<u8> {
    seq(|s|, i requires 0 <= i < |s| => UpperByte(s[i]))
  }

  predicate NameByte(b: u8) {
    65 <= b <= 90 || 48 <= b <= 57
  }

  predicate GoodName(n: Name) {
    2 <= |n| <= 8 && forall i :: 0 <= i < |n| ==> NameByte(n[i])
  }

  function Variant(name: Name, digit: u8): Name {
    (if |name| > 7 then name[..7] else name) + [48 + digit % 10]
  }

  /** `while name in self.by_name`: the name found, or none while the digits drawn so far
      all led to taken names. */
  function FreeName(name: Name, names: map<Name, Id>, digits: seq<u8>): Option<Name>
    decreases |digits|
  {
    if name !in names then Some(name)
    else if digits == [] then None
    else FreeName(Variant(name, digits[0]), names, digits[1..])
  }

  /** A HELLO that is not refused for what it says. */
  predicate WellFormed(payload: seq<u8>) {
    |payload| >= 3 && payload[0] == PROTO && payload[1] <= 1 && GoodName(Upper(Strip(payload[2..])))
  }

  function OnHello(cfg: Config, r: State, c: Id, payload: seq<u8>, luck: Luck): State
    requires Sane(r) && c in r.obj
  {
    if |payload| < 3 || payload[0] != PROTO then Drop(r, c)
    else
      var r1 := Update(r, c, r.obj[c].(tv := Some(payload[1])));
      var name := Upper(Strip(payload[2..]));
      if payload[1] > 1 || !GoodName(name) then Drop(r1, c) else Register(cfg, r1, c, name, luck)
  }

  /** The accepted half of `on_hello`: a free name, the table entry, and a try at pairing. */
  function Register(cfg: Config, r: State, c: Id, name: Name, luck: Luck): State
    requires Sane(r) && c in r.obj
  {
    var free := FreeName(name, r.names, luck.digits);
    if free.None? then r.(halted := true)
    else TryPair(cfg, Claim(r, c, free.value), c, luck.seed)
  }

  function Claim(r: State, c: Id, name: Name): State
    requires c in r.obj
  {
    Update(r, c, r.obj[c].(name := Some(name))).(names := r.names[name := c])
  }

  // -------------------------------------------------------------- the lobby

  function LobbyEntry(x: Client): (e: seq<u8>)
    ensures |e| == 9
  {
    Ljust(Shown(x), 8) + [if x.partner.Some? then 1 else 0]
  }

  function Named(r: State, ids: seq<Id>): (s: seq<Id>)
    ensures forall x :: x in s ==> x in r.obj
  {
    if ids == [] then []
    else if ids[0] in r.obj && r.obj[ids[0]].name.Some? then [ids[0]] + Named(r, ids[1..])
    else Named(r, ids[1..])
  }

  function FirstNamed(r: State): (s: seq<Id>)
    ensures |s| <= LOBBY_LIMIT && forall x :: x in s ==> x in r.obj
  {
    Firsts(Named(r, r.live))
  }

  function Entries(r: State, ids: seq<Id>): (e: seq<u8>)
    requires forall x :: x in ids ==> x in r.obj
    ensures |e| == 9 * |ids|
  {
    if ids == [] then [] else LobbyEntry(r.obj[ids[0]]) + Entries(r, ids[1..])
  }

  function LobbyMsg(r: State): Msg {
    Msg(T_LOBBY, [|FirstNamed(r)|] + Entries(r, FirstNamed(r)))
  }

  function Firsts(s: seq<Id>): (f: seq<Id>)
    ensures |f| <= LOBBY_LIMIT && forall x :: x in f ==> x in s
  {
    if |s| > LOBBY_LIMIT then s[..LOBBY_LIMIT] else s
  }

  lemma LobbyNone(r: State)
    ensures Named(r, []) == [] && Entries(r, []) == []
  {
  }

  lemma {:induction false} NamedSnoc(r: State, ids: seq<Id>, x: Id)
    requires x in r.obj
    ensures Named(r, ids + [x]) == Named(r, ids) + (if r.obj[x].name.Some? then [x] else [])
    decreases |ids|
  {
    if ids == [] {
      assert ids + [x] == [x] && [x][1..] == [];
    } else {
      assert (ids + [x])[1..] == ids[1..] + [x];
      NamedSnoc(r, ids[1..], x);
    }
  }

  lemma {:induction false} EntriesSnoc(r: State, ids: seq<Id>, x: Id)
    requires x in r.obj && forall y :: y in ids ==> y in r.obj
    ensures forall y :: y in ids + [x] ==> y in r.obj
    ensures Entries(r, ids + [x]) == Entries(r, ids) + LobbyEntry(r.obj[x])
    decreases |ids|
  {
    if ids == [] {
      assert ids + [x] == [x] && [x][1..] == [];
    } else {
      assert (ids + [x])[1..] == ids[1..] + [x];
      EntriesSnoc(r, ids[1..], x);
    }
  }

  // -------------------------------------------------------------- checksums

  function Count(s: Stats, v: Verdict): Stats {
    match v
    case Unpaired => s
    case Agree => s.(crcOk := s.crcOk + 1)
    case Mismatch => s.(crcBad := s.crcBad + 1)
  }

  function LogCrc(r: State, c: Id, tick: u8, crc: u8): State
    requires Sane(r) && c in r.obj
  {
    var p := r.obj[c].partner;
    var o := Report(r.obj[c].side, if p.Some? then Some(r.obj[p.value].side) else None, tick, crc);
    var r1 := Update(r, c, r.obj[c].(side := o.mine)).(stats := Count(r.stats, o.verdict));
    if p.Some? && o.theirs.Some? then Update(r1, p.value, r.obj[p.value].(side := o.theirs.value)) else r1
  }

  // -------------------------------------------------------------- one frame

  /** What a game frame becomes on its way to the partner. */
  function Padded(m: Msg): Msg {
    Msg(m.ftype, Ljust(m.payload, GAME_PAYLOAD))
  }

  function Forward(r: State, c: Id, m: Msg): State
    requires Sane(r) && c in r.obj
  {
    if r.obj[c].partner.Some? then Send(r, r.obj[c].partner.value, FrameBytes(Padded(m))) else r
  }

  function Handle(cfg: Config, r: State, c: Id, m: Msg, luck: Luck): State
    requires Sane(r) && c in r.obj
  {
    if IsRelayed(m.ftype) then
      var r1 := Forward(r, c, m);
      if m.ftype == T_INPUT && |m.payload| >= 6 then LogCrc(r1, c, m.payload[0], m.payload[4]) else r1
    else if m.ftype == T_HELLO then OnHello(cfg, r, c, m.payload, luck)
    else if m.ftype == T_LIST then Send(r, c, FrameBytes(LobbyMsg(r)))
    else if m.ftype == T_JOIN then TryPair(cfg, r, c, luck.seed)
    else if m.ftype == T_PING then Send(r, c, FrameBytes(Msg(T_PONG, [])))
    else if m.ftype == T_BYE then Drop(r, c)
    else r
  }

  // -------------------------------------------------------------- events

  function Draw(lucks: seq<Luck>): Luck {
    if lucks == [] then Luck([], 1) else lucks[0]
  }

  /** `service`: there is no check that the client still lives after a frame. */
  function Service(cfg: Config, r: State, c: Id, lucks: seq<Luck>): State
    requires Sane(r) && c in r.obj
    decreases |r.obj[c].rx|
  {
    if r.halted then r
    else
      match Front(r.obj[c].rx)
      case Short => r
      case Bad => Drop(r.(stats := r.stats.(badFrames := r.stats.badFrames + 1)), c)
      case Whole(m, rest) =>
        var r1 := Update(r, c, r.obj[c].(rx := rest));
        HandleKeeps(cfg, r1, c, m, Draw(lucks));
        Service(cfg, Handle(cfg, r1, c, m, Draw(lucks)), c, if lucks == [] then [] else lucks[1..])
  }

  function SameIp(r: State, ids: seq<Id>, ip: int): nat {
    if ids == [] then 0
    else (if ids[0] in r.obj && r.obj[ids[0]].ip == ip then 1 else 0) + SameIp(r, ids[1..], ip)
  }

  function Accept(r: State, c: Id, ip: int, now: int): State {
    if |r.live| >= MAX_CLIENTS then r
    else if SameIp(r, r.live, ip) >= MAX_PER_IP then r.(stats := r.stats.(ipRejects := r.stats.ipRejects + 1))
    else Update(r, c, NEW_CLIENT.(ip := ip, born := now)).(live := r.live + [c])
  }

  /** Bytes from the socket; none at all is its end. */
  function Receive(cfg: Config, r: State, c: Id, data: seq<u8>, lucks: seq<Luck>): State
    requires Sane(r) && c in r.obj
  {
    if data == [] then Drop(r, c)
    else Service(cfg, Update(r, c, r.obj[c].(rx := r.obj[c].rx + data)), c, lucks)
  }

  /** What one `send` on the socket did. */
  datatype Sent = Took(k: nat) | WouldBlock | Broken

  /** `del c.tx[:sent]`. */
  function Cut(r: State, c: Id, s: Sent): State
    requires c in r.obj
  {
    var tx := r.obj[c].tx;
    Update(r, c, r.obj[c].(tx := if s.Took? && s.k <= |tx| then tx[s.k..] else tx))
  }

  function Flush(r: State, c: Id, s: Sent): State
    requires Sane(r) && c in r.obj
  {
    if r.obj[c].tx == [] then r
    else if s.Broken? then Drop(r, c)
    else
      var r1 := Cut(r, c, s);
      UpdateKeeps(r, c, r1.obj[c]);
      if |r1.obj[c].tx| > MAX_BACKLOG then Drop(r1.(stats := r.stats.(txDrops := r.stats.txDrops + 1)), c) else r1
  }

  /** `sweep` on one connection that never said HELLO. */
  function Expire(r: State, c: Id): State
    requires Sane(r) && c in r.obj
  {
    if r.obj[c].name.None? then Drop(r.(stats := r.stats.(helloTimeouts := r.stats.helloTimeouts + 1)), c) else r
  }

  // -------------------------------------------------------------- the object graph is kept

  /** What every step keeps of the objects: none disappears, the graph stays sane, and
      only the receive path of a client touches its receive buffer. */
  ghost predicate Keeps(r: State, r': State) {
    && Sane(r')
    && r'.obj.Keys == r.obj.Keys
    && (forall c :: c in r.obj ==> r'.obj[c].rx == r.obj[c].rx)
  }

  lemma DropKeeps(r: State, c: Id)
    requires Sane(r) && c in r.obj
    ensures Keeps(r, Drop(r, c))
  {
  }

  lemma MatchUpKeeps(cfg: Config, r: State, host: Id, guest: Id, seed: nat)
    requires Sane(r) && host in r.obj && guest in r.obj && host != guest
    ensures Keeps(r, MatchUp(cfg, r, host, guest, seed))
  {
    hide FrameBytes, StartMsg;
  }

  lemma RaiseKeeps(r: State, host: Id, guest: Id)
    requires Sane(r) && host in r.obj && guest in r.obj && host != guest
    ensures Keeps(r, Raise(r, host, guest))
  {
  }

  lemma TryPairKeeps(cfg: Config, r: State, c: Id, seed: nat)
    requires Sane(r) && c in r.obj
    ensures Keeps(r, TryPair(cfg, r, c, seed))
  {
    hide MatchUp, Raise;
    var others := Others(r, r.live, c);
    if others != [] && r.obj[c].name.Some? {
      MatchUpKeeps(cfg, r, Oldest(r, others), c, seed);
    } else if others != [] {
      RaiseKeeps(r, Oldest(r, others), c);
    }
  }

  lemma UpdateKeeps(r: State, c: Id, x: Client)
    requires Sane(r) && c in r.obj && x.partner == r.obj[c].partner && x.rx == r.obj[c].rx
    ensures Keeps(r, Update(r, c, x))
  {
  }

  lemma RegisterKeeps(cfg: Config, r: State, c: Id, name: Name, luck: Luck)
    requires Sane(r) && c in r.obj
    ensures Keeps(r, Register(cfg, r, c, name, luck))
  {
    hide TryPair, FreeName;
    var free := FreeName(name, r.names, luck.digits);
    if free.Some? {
      UpdateKeeps(r, c, r.obj[c].(name := free));
      TryPairKeeps(cfg, Claim(r, c, free.value), c, luck.seed);
    }
  }

  lemma OnHelloKeeps(cfg: Config, r: State, c: Id, payload: seq<u8>, luck: Luck)
    requires Sane(r) && c in r.obj
    ensures Keeps(r, OnHello(cfg, r, c, payload, luck))
  {
    hide Drop, Register, Strip, Upper, GoodName;
    DropKeeps(r, c);
    if |payload| >= 3 {
      var r1 := Update(r, c, r.obj[c].(tv := Some(payload[1])));
      UpdateKeeps(r, c, r1.obj[c]);
      DropKeeps(r1, c);
      RegisterKeeps(cfg, r1, c, Upper(Strip(payload[2..])), luck);
    }
  }

  lemma LogCrcKeeps(r: State, c: Id, tick: u8, crc: u8)
    requires Sane(r) && c in r.obj
    ensures Keeps(r, LogCrc(r, c, tick, crc))
  {
    hide Report;
  }

  lemma ForwardKeeps(r: State, c: Id, m: Msg)
    requires Sane(r) && c in r.obj
    ensures Keeps(r, Forward(r, c, m))
  {
    hide FrameBytes;
  }

  lemma HandleKeeps(cfg: Config, r: State, c: Id, m: Msg, luck: Luck)
    requires Sane(r) && c in r.obj
    ensures Keeps(r, Handle(cfg, r, c, m, luck))
  {
    hide Drop, TryPair, OnHello, LogCrc, Forward, LobbyMsg, FrameBytes;
    if IsRelayed(m.ftype) {
      ForwardKeeps(r, c, m);
      if m.ftype == T_INPUT && |m.payload| >= 6 {
        LogCrcKeeps(Forward(r, c, m), c, m.payload[0], m.payload[4]);
      }
    } else if m.ftype == T_HELLO {
      OnHelloKeeps(cfg, r, c, m.payload, luck);
    } else if m.ftype == T_LIST {
      UpdateKeeps(r, c, r.obj[c].(tx := r.obj[c].tx + FrameBytes(LobbyMsg(r))));
    } else if m.ftype == T_JOIN {
      TryPairKeeps(cfg, r, c, luck.seed);
    } else if m.ftype == T_PING {
      UpdateKeeps(r, c, r.obj[c].(tx := r.obj[c].tx + FrameBytes(Msg(T_PONG, []))));
    } else if m.ftype == T_BYE {
      DropKeeps(r, c);
    }
  }

  lemma PartnerSane(r: State, c: Id, x: Client)
    requires Sane(r) && c in r.obj && (x.partner.Some? ==> x.partner.value in r.obj && x.partner.value != c)
    ensures Sane(Update(r, c, x))
  {
  }

  lemma JoinSane(r: State, c: Id, x: Client)
    requires Sane(r) && c !in r.obj && x.partner.None?
    ensures Sane(Update(r, c, x).(live := r.live + [c]))
  {
  }

  lemma SaneWithout(r: State, c: Id)
    requires Sane(r)
    ensures Sane(r.(live := Without(r.live, c)))
  {
  }
}
