/** The Python relay as it runs: connections that are updated in place and refer to each
    other, a server that holds them in accept order, and the loops of its methods, each
    proved to do what the functions of Relay.dfy say. */
module PyRelay {
  import opened Bytes
  import opened Framing
  import opened Verdicts
  import opened Relay

  class Connection {
    ghost const id: Id            // object identity, as Relay.dfy names it
    const born: int
    const ip: int
    var rx: seq<u8>
    var tx: seq<u8>
    var name: Option<Name>
    var tv: Option<u8>
    var partner: Connection?
    var role: Option<u8>
    var crc: Log
    var lap: nat
    var lastTick: Option<u8>

    constructor (ghost id: Id, ip: int, born: int)
      ensures this.id == id && View() == NEW_CLIENT.(ip := ip, born := born) && partner == null
    {
      this.id, this.ip, this.born := id, ip, born;
      rx, tx, name, tv, partner, role := [], [], None, None, null, None;
      crc, lap, lastTick := [], 0, None;
    }

    ghost function View(): Client
      reads this
    {
      var p := if partner == null then None else Some(partner.id);
      Client(rx, tx, name, tv, p, role, born, ip, Side(crc, lap, lastTick))
    }

    method Send(data: seq<u8>)
      modifies this`tx
      ensures tx == old(tx) + data
    {
      tx := tx + data;
    }
  }

  /** `del self.clients[c.sock]`. */
  function Removed(cs: seq<Connection>, c: Connection): (r: seq<Connection>)
    ensures forall x :: x in r ==> x in cs
  {
    if cs == [] then [] else if cs[0] == c then Removed(cs[1..], c) else [cs[0]] + Removed(cs[1..], c)
  }

  ghost function Ids(cs: seq<Connection>): seq<Id> {
    seq(|cs|, k requires 0 <= k < |cs| => cs[k].id)
  }

  lemma {:induction false} RemovedIds(cs: seq<Connection>, c: Connection)
    requires forall x :: x in cs && x.id == c.id ==> x == c
    ensures Ids(Removed(cs, c)) == Without(Ids(cs), c.id)
    decreases |cs|
  {
    if cs != [] {
      RemovedIds(cs[1..], c);
      assert Ids(cs)[1..] == Ids(cs[1..]);
    }
  }

  lemma IdsHave(cs: seq<Connection>, c: Connection)
    requires forall x :: x in cs && x.id == c.id ==> x == c
    ensures c.id in Ids(cs) <==> c in cs
  {
    if c in cs {
      var k :| 0 <= k < |cs| && cs[k] == c;
      assert Ids(cs)[k] == c.id;
    }
  }

  class Server {
    const cfg: Config
    var clients: seq<Connection>
    var byName: map<Name, Connection>
    var stats: Stats
    var halted: bool
    ghost var objs: set<Connection>         // every connection there ever was
    ghost var model: State                  // what all of this stands for

    constructor (cfg: Config)
      ensures Valid() && model == EMPTY && this.cfg == cfg
    {
      this.cfg := cfg;
      clients, byName, stats, halted := [], map[], EMPTY.stats, false;
      objs, model := {}, EMPTY;
    }

    ghost predicate Known(c: Connection)
      reads this
    {
      c in objs && c.id in model.obj
    }

    /** A connection is what the model says it is, and its partner is known. */
    ghost predicate Mirrored(c: Connection)
      reads this, c
    {
      && c.id in model.obj && c.View() == model.obj[c.id]
      && (c.partner != null ==> c.partner in objs)
    }

    ghost predicate Valid()
      reads this, objs
    {
      && (forall c {:trigger Mirrored(c)} :: c in objs ==> Mirrored(c))
      && (forall c, d {:trigger Same(c, d)} :: c in objs && d in objs ==> Same(c, d))
      && (forall c :: c in clients ==> c in objs) && Ids(clients) == model.live
      && byName.Keys == model.names.Keys
      && (forall n :: n in byName ==> byName[n] in objs && byName[n].id == model.names[n])
      && stats == model.stats && halted == model.halted
      && Sane(model)
    }

    ghost predicate Same(c: Connection, d: Connection) {
      c.id == d.id ==> c == d
    }

    /** After some statements that touched only connection `c`. */
    twostate lemma Settled(c: Connection)
      requires old(Valid()) && old(Known(c))
      requires objs == old(objs) && clients == old(clients) && byName == old(byName)
      requires stats == old(stats) && halted == old(halted)
      requires unchanged(objs - {c})
      requires c.partner == null || (c.partner in objs && c.partner != c)
      requires model == Update(old(model), c.id, c.View())
      ensures Valid()
    {
      forall x | x in objs ensures Mirrored(x) {
        assert old(Mirrored(x)) && Same(x, c);
      }
      var o := c.partner;
      if o != null {
        assert old(Mirrored(o)) && Same(o, c);
      }
      PartnerSane(old(model), c.id, c.View());
    }

    /** After some statements that touched no connection. */
    twostate lemma Noted()
      requires old(Valid()) && objs == old(objs) && unchanged(objs)
      requires model.obj == old(model.obj) && NoRepeat(model.live) && (forall x :: x in model.live ==> x in model.obj)
      requires (forall c :: c in clients ==> c in objs) && Ids(clients) == model.live
      requires byName.Keys == model.names.Keys
      requires forall n :: n in byName ==> byName[n] in objs && byName[n].id == model.names[n]
      requires stats == model.stats && halted == model.halted
      ensures Valid()
    {
      forall x | x in objs ensures Mirrored(x) {
        assert old(Mirrored(x));
      }
    }

    method ForgetName(c: Connection)
      requires Valid() && Known(c)
      modifies this`byName, this`model
      ensures Valid() && model == old(model).(names := Unname(old(model), c.id))
    {
      assert Mirrored(c);
      if c.name.Some? && c.name.value in byName {
        assert Same(byName[c.name.value], c);
        if byName[c.name.value] == c {
          byName := byName - {c.name.value};
        }
      }
      model := model.(names := Unname(model, c.id));
      hide Mirrored;
      Noted();
    }

    method Forget(c: Connection)
      requires Valid() && Known(c)
      modifies this`clients, this`model
      ensures Valid() && model == old(model).(live := Without(old(model).live, c.id))
    {
      assert forall x :: x in clients ==> Same(x, c);
      RemovedIds(clients, c);
      clients := Removed(clients, c);
      model := model.(live := Without(model.live, c.id));
      hide Mirrored;
      Noted();
    }

    /** `drop`. */
    method Drop(c: Connection)
      requires Valid() && Known(c)
      modifies this`clients, this`byName, this`model, objs
      ensures Valid() && model == Relay.Drop(old(model), c.id)
      ensures c.rx == old(c.rx)
    {
      hide Valid, Sane, Unname, PeerLeftBytes;
      LiveIsListed(c);
      if c !in clients {
        return;
      }
      ForgetName(c);
      label Unnamed:
      PartnerKnown(c);
      var p := c.partner;
      if p != null {
        p.partner := null;
        p.Send(PeerLeftBytes());
        model := Update(model, p.id, p.View());
        Settled@Unnamed(p);
      }
      Forget(c);
    }

    /** `[o for o in self.idle() if o is not c]`. */
    method IdleOthers(c: Connection) returns (others: seq<Connection>)
      requires Valid() && Known(c)
      ensures forall o :: o in others ==> o in objs
      ensures Ids(others) == Others(model, model.live, c.id)
    {
      hide Valid, Others, Ids;
      others := [];
      ghost var ids := Ids(clients);
      ListedIds();
      var i := 0;
      assert ids[0..] == ids;
      IdsEmpty();
      while i < |clients|
        invariant 0 <= i <= |clients|
        invariant forall o :: o in others ==> o in objs
        invariant Ids(others) + Others(model, ids[i..], c.id) == Others(model, ids, c.id)
      {
        var o := clients[i];
        IdleMeans(o, c);
        OthersStep(model, ids[i..], c.id);
        assert ids[i..][1..] == ids[i + 1..] && ids[i..][0] == o.id;
        ghost var rest := Others(model, ids[i + 1..], c.id);
        if o.name.Some? && o.partner == null && o != c {
          IdsSnoc(others, o);
          Regroup(Ids(others), [o.id], rest);
          others := others + [o];
        }
        i := i + 1;
      }
      OthersNone(model, ids[i..], c.id);
    }

    lemma ListedIds()
      requires Valid()
      ensures Ids(clients) == model.live && |Ids(clients)| == |clients|
      ensures forall k :: 0 <= k < |clients| ==> Ids(clients)[k] == clients[k].id
    {
    }

    lemma IdleMeans(o: Connection, c: Connection)
      requires Valid() && Known(c) && o in clients
      ensures o in objs && o.id in model.obj
      ensures Idle(model, o.id) && o.id != c.id <==> o.name.Some? && o.partner == null && o != c
    {
      assert Mirrored(o) && Same(o, c);
    }

    /** `min(others, key=born)`. */
    method Eldest(others: seq<Connection>) returns (other: Connection)
      requires Valid() && others != [] && forall o :: o in others ==> o in objs
      ensures other in others && (forall x :: x in Ids(others) ==> x in model.obj)
      ensures other.id == Oldest(model, Ids(others))
    {
      var best := 0;
      var k := 1;
      while k < |others|
        invariant 1 <= k <= |others| && 0 <= best < k
        invariant forall j :: 0 <= j < k ==> others[best].born <= others[j].born
        invariant forall j :: 0 <= j < best ==> others[best].born < others[j].born
      {
        if others[k].born < others[best].born {
          best := k;
        }
        k := k + 1;
      }
      ghost var ids := Ids(others);
      forall j | 0 <= j < |ids| ensures ids[j] in model.obj && model.obj[ids[j]].born == others[j].born {
        assert others[j] in others && Mirrored(others[j]);
      }
      hide Valid;
      OldestIs(model, ids, best);
      return others[best];
    }

    method FindWaiting(c: Connection) returns (other: Connection?)
      requires Valid() && Known(c)
      ensures var others := Others(model, model.live, c.id);
        if others == [] then other == null
        else other != null && Known(other) && other != c && other.id == Oldest(model, others)
    {
      var others := IdleOthers(c);
      if others == [] {
        return null;
      }
      other := Eldest(others);
      assert Mirrored(other);
      assert other.id in Ids(others);
    }

    /** One turn of the loop over both players. */
    method StartOne(me: Connection, them: Connection, role: u8, seed: nat, name: Name)
      requires Valid() && Known(me) && Known(them) && me != them && |name| <= 8
      modifies this`model, me
      ensures Valid() && Known(them)
      ensures model == Update(old(model), me.id, old(model).obj[me.id].(partner := Some(them.id), role := Some(role),
        side := old(model).obj[me.id].side.(log := []),
        tx := old(model).obj[me.id].tx + FrameBytes(StartMsg(cfg, role, seed, name))))
      ensures me.rx == old(me.rx)
    {
      PartnerKnown(me);
      hide Valid, Sane, StartMsg, FrameBytes;
      label Before:
      me.partner, me.role, me.crc := them, Some(role), [];
      me.Send(FrameBytes(StartMsg(cfg, role, seed, name)));
      model := Update(model, me.id, me.View());
      Settled@Before(me);
    }

    /** `try_pair`, from the point where there is somebody to play. */
    method MatchUp(host: Connection, guest: Connection, seed: nat)
      requires Valid() && Known(host) && Known(guest) && host != guest
      modifies this`stats, this`model, objs
      ensures Valid() && model == Relay.MatchUp(cfg, old(model), host.id, guest.id, seed)
      ensures host.rx == old(host.rx) && guest.rx == old(guest.rx)
    {
      hide Valid, Sane, StartMsg, FrameBytes;
      PartnerKnown(host);
      PartnerKnown(guest);
      Distinguishes(host, guest);
      var hostName, guestName := NameOf(host), NameOf(guest);
      StartOne(host, guest, 0, seed, guestName);
      StartOne(guest, host, 1, seed, hostName);
      Distinguishes(host, guest);
      label Counted:
      stats := stats.(matches := stats.matches + 1);
      model := model.(stats := stats);
      Tally@Counted();
    }

    twostate lemma Tally()
      requires old(Valid()) && objs == old(objs) && clients == old(clients) && byName == old(byName) && unchanged(objs)
      requires model == old(model).(stats := stats, halted := halted)
      ensures Valid()
    {
      Noted();
    }

    lemma Distinguishes(c: Connection, d: Connection)
      requires Valid() && Known(c) && Known(d)
      ensures c.id == d.id ==> c == d
      ensures stats == model.stats && halted == model.halted
    {
      assert Same(c, d);
    }

    function NameOf(c: Connection): (n: Name)
      reads c
      ensures |n| <= 8
    {
      if c.name.Some? && |c.name.value| <= 8 then c.name.value else []
    }

    method Link(me: Connection, them: Connection, role: u8, log: Log)
      requires Valid() && Known(me) && Known(them) && me != them
      modifies this`model, me
      ensures Valid() && Known(them) && me.rx == old(me.rx)
      ensures model == Update(old(model), me.id, old(model).obj[me.id].(partner := Some(them.id), role := Some(role),
        side := old(model).obj[me.id].side.(log := log)))
    {
      PartnerKnown(me);
      hide Valid, Sane;
      label Before:
      me.partner, me.role, me.crc := them, Some(role), log;
      model := Update(model, me.id, me.View());
      Settled@Before(me);
    }

    /** `try_pair` for a caller without a name, up to the exception. */
    method Raise(host: Connection, guest: Connection)
      requires Valid() && Known(host) && Known(guest) && host != guest
      modifies this`halted, this`model, objs
      ensures Valid() && model == Relay.Raise(old(model), host.id, guest.id)
      ensures host.rx == old(host.rx) && guest.rx == old(guest.rx)
    {
      hide Valid, Sane;
      PartnerKnown(host);
      PartnerKnown(guest);
      Distinguishes(host, guest);
      Link(host, guest, 0, []);
      PartnerKnown(guest);
      Link(guest, host, 1, guest.crc);
      Distinguishes(host, guest);
      label Raised:
      halted := true;
      model := model.(halted := true);
      Tally@Raised();
    }

    /** `try_pair`. */
    method TryPair(c: Connection, seed: nat)
      requires Valid() && Known(c)
      modifies this`stats, this`halted, this`model, objs
      ensures Valid() && model == Relay.TryPair(cfg, old(model), c.id, seed)
      ensures c.rx == old(c.rx)
    {
      PartnerKnown(c);
      var other := FindWaiting(c);
      hide Valid, Sane, Relay.MatchUp;
      if other == null {
        return;
      }
      if c.name.None? {
        Raise(other, c);
        return;
      }
      MatchUp(other, c, seed);
    }

    /** `log_crc` up to `c.crc[key] = crc`. */
    method Remember(c: Connection, tick: u8, crc: u8) returns (key: nat)
      requires Valid() && Known(c)
      modifies this`model, c
      ensures Valid() && Known(c) && key == KeyOf(old(model).obj[c.id].side, tick)
      ensures var side := old(model).obj[c.id].side;
        model == Update(old(model), c.id,
            old(model).obj[c.id].(side := Side(Put(side.log, key, crc), NextLap(side, tick), Some(tick))))
      ensures c.rx == old(c.rx) && c.partner == old(c.partner)
    {
      hide Valid, Sane, Put;
      PartnerKnown(c);
      label Start:
      if c.lastTick.Some? && 0 < (tick - c.lastTick.value) % 256 < 128 && tick < c.lastTick.value {
        c.lap := c.lap + 1;
      }
      c.lastTick := Some(tick);
      key := c.lap * 256 + tick;
      c.crc := Put(c.crc, key, crc);
      model := Update(model, c.id, c.View());
      Settled@Start(c);
    }

    /** `while len(c.crc) > 8`: the oldest goes. */
    method Age(c: Connection)
      requires Valid() && Known(c)
      modifies this`model, c
      ensures Valid()
      ensures var x := old(model).obj[c.id];
        model == Update(old(model), c.id, x.(side := x.side.(log := Evict(x.side.log))))
      ensures c.rx == old(c.rx)
    {
      hide Valid, Sane;
      PartnerKnown(c);
      label Start:
      while |c.crc| > 8
        invariant Evict(c.crc) == Evict(old(c.crc))
        modifies c`crc
      {
        c.crc := c.crc[1..];
      }
      model := Update(model, c.id, c.View());
      Settled@Start(c);
    }

    /** `log_crc` once both consoles have reported the tick. */
    method Compare(p: Connection, i: nat, key: nat, crc: u8)
      requires Valid() && Known(p) && i < |p.crc| && Find(p.crc, key) == i
      modifies this`model, this`stats, p
      ensures Valid()
      ensures var x := old(model).obj[p.id];
        && x.side.log == old(p.crc)
        && model == Update(old(model), p.id, x.(side := x.side.(log := Pop(x.side.log, key))))
             .(stats := Count(old(model).stats, if old(p.crc)[i].crc != crc then Mismatch else Agree))
      ensures p.rx == old(p.rx)
    {
      hide Valid, Sane, Pop;
      PartnerKnown(p);
      Distinguishes(p, p);
      label Start:
      var theirs := p.crc[i].crc;
      p.crc := Pop(p.crc, key);
      model := Update(model, p.id, p.View());
      Settled@Start(p);
      label Counted:
      if theirs != crc {
        stats := stats.(crcBad := stats.crcBad + 1);
      } else {
        stats := stats.(crcOk := stats.crcOk + 1);
      }
      model := model.(stats := stats);
      Tally@Counted();
    }

    /** `log_crc`. */
    method LogCrc(c: Connection, tick: u8, crc: u8)
      requires Valid() && Known(c)
      modifies this`stats, this`model, objs
      ensures Valid() && model == Relay.LogCrc(old(model), c.id, tick, crc)
      ensures c.rx == old(c.rx)
    {
      PartnerKnown(c);
      hide Valid, Sane, Put, Pop, Find, Evict, KeyOf, NextLap;
      var key := Remember(c, tick, crc);
      PartnerKnown(c);
      var p := c.partner;
      var i := if p != null then Find(p.crc, key) else -1;
      if i < 0 {
        Age(c);
        return;
      }
      Compare(p, i, key, crc);
    }

    method Tell(c: Connection, data: seq<u8>)
      requires Valid() && Known(c)
      modifies this`model, c
      ensures Valid() && model == Relay.Send(old(model), c.id, data)
      ensures c.rx == old(c.rx)
    {
      hide Valid, Sane;
      PartnerKnown(c);
      label Start:
      c.Send(data);
      model := Update(model, c.id, c.View());
      Settled@Start(c);
    }

    /** `on_hello` once the name is good: the search, the table, a try at pairing. */
    method Register(c: Connection, wanted: Name, luck: Luck)
      requires Valid() && Known(c)
      modifies this`byName, this`stats, this`halted, this`model, objs
      ensures Valid() && model == Relay.Register(cfg, old(model), c.id, wanted, luck)
      ensures c.rx == old(c.rx)
    {
      PartnerKnown(c);
      Distinguishes(c, c);
      NamesAgree();
      hide Valid, Sane, Relay.TryPair;
      var name := wanted;
      var k := 0;
      assert luck.digits[0..] == luck.digits;
      while name in byName && k < |luck.digits|
        invariant 0 <= k <= |luck.digits|
        invariant FreeName(name, model.names, luck.digits[k..]) == FreeName(wanted, model.names, luck.digits)
      {
        assert luck.digits[k..][1..] == luck.digits[k + 1..];
        name := Variant(name, luck.digits[k]);
        k := k + 1;
      }
      label Found:
      if name in byName {
        halted := true;
        model := model.(halted := true);
        Tally@Found();
        return;
      }
      c.name := Some(name);
      model := Update(model, c.id, c.View());
      Settled@Found(c);
      ClaimName(c, name);
      TryPair(c, luck.seed);
    }

    method ClaimName(c: Connection, name: Name)
      requires Valid() && Known(c)
      modifies this`byName, this`model
      ensures Valid() && model == old(model).(names := old(model).names[name := c.id])
    {
      byName := byName[name := c];
      model := model.(names := model.names[name := c.id]);
      hide Mirrored;
      Noted();
    }

    lemma NamesAgree()
      requires Valid()
      ensures byName.Keys == model.names.Keys
      ensures forall n :: n in byName <==> n in model.names
    {
    }

    /** `on_hello`. */
    method OnHello(c: Connection, payload: seq<u8>, luck: Luck)
      requires Valid() && Known(c)
      modifies this`clients, this`byName, this`stats, this`halted, this`model, objs
      ensures Valid() && model == Relay.OnHello(cfg, old(model), c.id, payload, luck)
      ensures c.rx == old(c.rx)
    {
      hide Valid, Sane, Relay.Register, Relay.Drop, Strip, Upper, GoodName;
      if |payload| < 3 || payload[0] != PROTO {
        Drop(c);
        return;
      }
      PartnerKnown(c);
      label Start:
      c.tv := Some(payload[1]);
      model := Update(model, c.id, c.View());
      Settled@Start(c);
      if payload[1] == 2 {
        Drop(c);
        return;
      }
      if payload[1] != 0 && payload[1] != 1 {
        Drop(c);
        return;
      }
      var name := Upper(Strip(payload[2..]));
      if !GoodName(name) {
        Drop(c);
        return;
      }
      Register(c, name, luck);
    }

    /** `send_lobby`. */
    method SendLobby(c: Connection)
      requires Valid() && Known(c)
      modifies this`model, c
      ensures Valid() && model == Relay.Send(old(model), c.id, FrameBytes(LobbyMsg(old(model))))
      ensures c.rx == old(c.rx)
    {
      hide Valid, Sane, Named, Entries, LobbyEntry;
      ListedIds();
      ghost var ids := Ids(clients);
      ghost var picked: seq<Id> := [];
      var entries: seq<u8> := [];
      var n := 0;
      var i := 0;
      LobbyNone(model);
      assert ids[..0] == [];
      while i < |clients|
        invariant 0 <= i <= |clients|
        invariant n == |picked| <= LOBBY_LIMIT && (forall x :: x in picked ==> x in model.obj)
        invariant picked == Firsts(Named(model, ids[..i]))
        invariant entries == Entries(model, picked)
        modifies {}
      {
        var o := clients[i];
        NamedMeans(o);
        NamedSnoc(model, ids[..i], o.id);
        assert ids[..i] + [o.id] == ids[..i + 1];
        if o.name.Some? && n < LOBBY_LIMIT {
          EntriesSnoc(model, picked, o.id);
          entries := entries + (Ljust(NameOf(o), 8) + [if o.partner != null then 1 else 0]);
          picked := picked + [o.id];
          n := n + 1;
        }
        i := i + 1;
      }
      assert ids[..i] == ids;
      assert picked == FirstNamed(model);
      Tell(c, FrameBytes(Msg(T_LOBBY, [n] + entries)));
    }

    lemma NamedMeans(o: Connection)
      requires Valid() && o in clients
      ensures o.id in model.obj
      ensures o.name.Some? <==> model.obj[o.id].name.Some?
      ensures LobbyEntry(model.obj[o.id]) == Ljust(NameOf(o), 8) + [if o.partner != null then 1 else 0]
    {
      assert Mirrored(o);
    }

    /** `handle`. */
    method Handle(c: Connection, ftype: u8, payload: seq<u8>, luck: Luck)
      requires Valid() && Known(c) && |payload| <= 254
      modifies this`clients, this`byName, this`stats, this`halted, this`model, objs
      ensures Valid() && model == Relay.Handle(cfg, old(model), c.id, Msg(ftype, payload), luck)
      ensures c.rx == old(c.rx)
    {
      hide Valid, Sane, Relay.OnHello, Relay.Drop, Relay.TryPair, Relay.LogCrc, FrameBytes, LobbyMsg;
      if IsRelayed(ftype) {
        PartnerKnown(c);
        if c.partner != null {
          Tell(c.partner, FrameBytes(Msg(ftype, Ljust(payload, GAME_PAYLOAD))));
        }
        if ftype == T_INPUT && |payload| >= 6 {
          LogCrc(c, payload[0], payload[4]);
        }
        return;
      }
      if ftype == T_HELLO {
        OnHello(c, payload, luck);
      } else if ftype == T_LIST {
        SendLobby(c);
      } else if ftype == T_JOIN {
        TryPair(c, luck.seed);
      } else if ftype == T_PING {
        Tell(c, FrameBytes(Msg(T_PONG, [])));
      } else if ftype == T_BYE {
        Drop(c);
      }
    }

    /** `service`: every whole frame in the buffer, whatever becomes of the client. */
    method Service(c: Connection, lucks: seq<Luck>)
      requires Valid() && Known(c)
      modifies this`clients, this`byName, this`stats, this`halted, this`model, objs
      ensures Valid() && Known(c) && model == Relay.Service(cfg, old(model), c.id, lucks)
    {
      hide Valid, Sane, Relay.Handle, Relay.Drop, Keeps;
      var rest := lucks;
      SaneModel(c);
      while true
        invariant Valid() && Known(c) && Sane(model)
        invariant Relay.Service(cfg, model, c.id, rest) == Relay.Service(cfg, old(model), c.id, lucks)
        decreases |c.rx|
      {
        PartnerKnown(c);
        Distinguishes(c, c);
        if halted || |c.rx| < 1 {
          return;
        }
        var n := c.rx[0];
        if n < 1 || n > MAX_BODY {
          label Bad:
          stats := stats.(badFrames := stats.badFrames + 1);
          model := model.(stats := stats);
          Tally@Bad();
          Drop(c);
          SaneModel(c);
          return;
        }
        if |c.rx| < n + 1 {
          return;
        }
        var body := c.rx[1..n + 1];
        label Framed:
        c.rx := c.rx[n + 1..];
        model := Update(model, c.id, c.View());
        Settled@Framed(c);
        var luck := Draw(rest);
        rest := if rest == [] then [] else rest[1..];
        SaneModel(c);
        HandleKeeps(cfg, model, c.id, Msg(body[0], body[1..]), luck);
        Handle(c, body[0], body[1..], luck);
        SaneModel(c);
      }
    }

    lemma SaneModel(c: Connection)
      requires Valid() && c in objs
      ensures Sane(model) && Known(c)
    {
      assert Mirrored(c);
    }

    /** What the event loop does with a readable socket. */
    method Receive(c: Connection, data: seq<u8>, lucks: seq<Luck>)
      requires Valid() && Known(c)
      modifies this`clients, this`byName, this`stats, this`halted, this`model, objs
      ensures Valid() && model == Relay.Receive(cfg, old(model), c.id, data, lucks)
    {
      hide Valid, Sane, Relay.Service, Relay.Drop;
      if data == [] {
        Drop(c);
        return;
      }
      PartnerKnown(c);
      label Start:
      c.rx := c.rx + data;
      model := Update(model, c.id, c.View());
      Settled@Start(c);
      Service(c, lucks);
    }

    /** `del c.tx[:sent]`, or nothing when the socket would block. */
    method CutSent(c: Connection, sent: Sent)
      requires Valid() && Known(c)
      modifies this`model, c
      ensures Valid() && Known(c) && model == Cut(old(model), c.id, sent) && c.tx == model.obj[c.id].tx
    {
      PartnerKnown(c);
      hide Valid, Sane;
      label Start:
      if sent.Took? && sent.k <= |c.tx| {
        c.tx := c.tx[sent.k..];
      }
      model := Update(model, c.id, c.View());
      Settled@Start(c);
    }

    /** `flush`, with what the socket did. */
    method Flush(c: Connection, sent: Sent)
      requires Valid() && Known(c)
      modifies this`clients, this`byName, this`stats, this`model, objs
      ensures Valid() && model == Relay.Flush(old(model), c.id, sent)
    {
      PartnerKnown(c);
      hide Valid, Sane, Relay.Drop, Cut;
      if c.tx == [] {
        return;
      }
      if sent.Broken? {
        Drop(c);
        return;
      }
      Distinguishes(c, c);
      CutSent(c, sent);
      if |c.tx| > MAX_BACKLOG {
        Distinguishes(c, c);
        label Backed:
        stats := stats.(txDrops := stats.txDrops + 1);
        model := model.(stats := stats);
        Tally@Backed();
        Drop(c);
      }
    }

    method CountIp(ip: int) returns (same: nat)
      requires Valid()
      ensures same == SameIp(model, model.live, ip)
    {
      hide Valid, Ids;
      ListedIds();
      ghost var ids := Ids(clients);
      same := 0;
      var i := 0;
      assert ids[0..] == ids;
      while i < |clients|
        invariant 0 <= i <= |clients|
        invariant same + SameIp(model, ids[i..], ip) == SameIp(model, ids, ip)
      {
        IpMeans(clients[i]);
        assert ids[i..][1..] == ids[i + 1..] && ids[i..][0] == clients[i].id;
        if clients[i].ip == ip {
          same := same + 1;
        }
        i := i + 1;
      }
      assert ids[i..] == [];
    }

    lemma IpMeans(o: Connection)
      requires Valid() && o in clients
      ensures o.id in model.obj && model.obj[o.id].ip == o.ip
    {
      assert Mirrored(o);
    }

    /** `accept`: full, crowded, or one more connection at the end of the line. */
    method Accept(ghost id: Id, ip: int, now: int)
      requires Valid() && id !in model.obj
      modifies this`clients, this`stats, this`objs, this`model
      ensures Valid() && model == Relay.Accept(old(model), id, ip, now)
    {
      hide Relay.SameIp;
      assert |Ids(clients)| == |clients|;
      if |clients| >= MAX_CLIENTS {
        return;
      }
      var same := CountIp(ip);
      if same >= MAX_PER_IP {
        label Crowded:
        Tallies();
        hide Valid;
        stats := stats.(ipRejects := stats.ipRejects + 1);
        model := model.(stats := stats);
        Tally@Crowded();
        return;
      }
      var c := new Connection(id, ip, now);
      Join(c, ip, now);
    }

    lemma Tallies()
      requires Valid()
      ensures stats == model.stats && halted == model.halted
    {
    }

    method Join(c: Connection, ghost ip: int, ghost now: int)
      requires Valid() && c !in objs && c.id !in model.obj && c.partner == null
      requires c.View() == NEW_CLIENT.(ip := ip, born := now)
      modifies this`clients, this`objs, this`model
      ensures Valid()
      ensures model
           == Update(old(model), c.id, NEW_CLIENT.(ip := ip, born := now)).(live := old(model).live + [c.id])
    {
      IdsSnoc(clients, c);
      forall x | x in objs ensures x.id in model.obj {
        assert Mirrored(x);
      }
      JoinSane(model, c.id, c.View());
      hide Sane, Ids;
      clients := clients + [c];
      objs := objs + {c};
      model := Update(model, c.id, c.View()).(live := model.live + [c.id]);
      forall x | x in objs ensures Mirrored(x) {
        if x != c {
          assert old(Mirrored(x));
        }
      }
    }

    lemma LiveIsListed(c: Connection)
      requires Valid() && Known(c)
      ensures c in clients <==> c.id in model.live
      ensures Mirrored(c)
    {
      assert Mirrored(c);
      assert forall x :: x in clients ==> Same(x, c);
      IdsHave(clients, c);
    }

    lemma PartnerKnown(c: Connection)
      requires Valid() && Known(c)
      ensures Mirrored(c) && c.View() == model.obj[c.id]
      ensures c.partner != null ==> c.partner != c && Known(c.partner) && Mirrored(c.partner)
    {
      assert Mirrored(c);
      if c.partner != null {
        assert Mirrored(c.partner);
      }
    }
  }

  /** `min` keeps the first of the smallest. */
  lemma {:induction false} OldestIs(r: State, s: seq<Id>, k: nat)
    requires k < |s| && forall x :: x in s ==> x in r.obj
    requires forall j :: 0 <= j < |s| ==> r.obj[s[k]].born <= r.obj[s[j]].born
    requires forall j :: 0 <= j < k ==> r.obj[s[k]].born < r.obj[s[j]].born
    ensures Oldest(r, s) == s[k]
    decreases |s|
  {
    if |s| > 1 {
      var rest := s[1..];
      if k == 0 {
        assert Oldest(r, rest) in rest;
        var j :| 0 <= j < |rest| && rest[j] == Oldest(r, rest);
        assert s[j + 1] == rest[j];
      } else {
        assert rest[k - 1] == s[k];
        forall j | 0 <= j < |rest| ensures r.obj[s[k]].born <= r.obj[rest[j]].born {
          assert rest[j] == s[j + 1];
        }
        OldestIs(r, rest, k - 1);
      }
    }
  }

  lemma IdsSnoc(cs: seq<Connection>, c: Connection)
    ensures Ids(cs + [c]) == Ids(cs) + [c.id]
  {
  }

  lemma IdsEmpty()
    ensures Ids([]) == []
  {
  }

  lemma OthersNone(r: State, ids: seq<Id>, c: Id)
    requires ids == []
    ensures Others(r, ids, c) == []
  {
  }

  lemma OthersStep(r: State, ids: seq<Id>, c: Id)
    requires ids != []
    ensures Others(r, ids, c) == (if Idle(r, ids[0]) && ids[0] != c then [ids[0]] else []) + Others(r, ids[1..], c)
  {
  }
}
