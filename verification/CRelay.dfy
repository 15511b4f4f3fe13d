/** The C relay on its slots. A client is an index into a fixed array; a slot dropped
    inside an iteration is freed at its end and used again; a partner is a bare index; a
    transmit buffer is so many bytes of an array. Every method is proved to be its step of
    CSpec.dfy, each occupant of a slot being a different client, and so is every sequence
    of events. */
module CRelay {
  import opened Bytes
  import opened Framing
  import opened Verdicts
  import opened Relay
  import opened CTables
  import opened CSpec
  import RelayRuns

  /** `client_t`, with its transmit array. */
  class Slot {
    var inUse: bool
    var dead: bool
    var gen: nat
    var rx: seq<u8>
    var txbuf: seq<u8>
    var txLen: nat
    var name: Name
    var hasName: bool
    var tv: int
    var partner: int
    var role: int
    var born: int
    var ip: int
    const crc: CrcTable
    var haveLastTick: bool
    var lastTick: u8
    var lap: nat

    constructor ()
      ensures !inUse && gen == 0 && partner == -1 && Roomy() && crc.Valid() && fresh(crc) && fresh(crc.ents)
    {
      inUse, dead, gen, rx, txbuf, txLen := false, false, 0, [], seq(TX_CAP, _ => 0), 0;
      name, hasName, tv, partner, role, born, ip := [], false, -1, -1, -1, 0, 0;
      haveLastTick, lastTick, lap := false, 0, 0;
      crc := new CrcTable();
    }

    ghost function SideOf(): Side
      reads this, crc
    {
      Side(crc.log, lap, if haveLastTick then Some(lastTick) else None)
    }

    /** The buffers are within their arrays. */
    ghost predicate Roomy()
      reads this
    {
      |rx| <= RX_CAP && |txbuf| == TX_CAP && txLen <= TX_CAP
    }

    /** What waits to be sent, and what the array holds beyond it. */
    function Tx(): seq<u8>
      reads this
    {
      if txLen <= |txbuf| then txbuf[..txLen] else []
    }

    ghost function Rest(): seq<u8>
      reads this
    {
      if txLen <= |txbuf| then txbuf[txLen..] else []
    }

    /** `client_send`. */
    method Send(data: seq<u8>)
      requires Roomy()
      modifies this`txbuf, this`txLen
      ensures Roomy() && Tx() == Saturate(old(Tx()), data, old(Rest()))
    {
      if txLen + |data| > TX_CAP {
        assert txbuf == txbuf[..txLen] + Fill(txbuf[txLen..], TX_CAP - txLen);
        txLen := TX_CAP;
        return;
      }
      txbuf := txbuf[..txLen] + data + txbuf[txLen + |data|..];
      txLen := txLen + |data|;
    }

    /** `memmove(txbuf, txbuf + k, tx_len - k)`. */
    method Cut(k: nat)
      requires Roomy() && k <= txLen
      modifies this`txbuf, this`txLen
      ensures Roomy() && Tx() == old(Tx())[k..]
    {
      txbuf := txbuf[k..txLen] + txbuf[txLen - k..];
      txLen := txLen - k;
    }

    /** `client_alloc`: every field but the generation, and not the arrays. */
    method Open(ip: int, now: int)
      requires crc.Valid() && Roomy()
      modifies this, crc
      ensures inUse && !dead && gen == old(gen) && partner == -1 && crc.Valid() && Roomy()
      ensures rx == [] && Tx() == [] && !hasName && tv == -1 && role == -1 && born == now && this.ip == ip
        && SideOf() == NEW_SIDE
    {
      crc.Clear();
      inUse, dead := true, false;
      rx, txLen := [], 0;
      name, hasName := [], false;
      tv, partner, role := -1, -1, -1;
      haveLastTick, lastTick, lap := false, 0, 0;
      this.ip, born := ip, now;
    }

    method Bury()
      modifies this`dead
      ensures dead
    {
      dead := true;
    }

    /** What `try_pair` assigns to each player. */
    method Link(them: int, role: u8)
      requires crc.Valid()
      modifies this`partner, this`role, crc
      ensures partner == them && this.role == role && crc.Valid()
      ensures SideOf() == old(SideOf()).(log := [])
    {
      partner, this.role := them, role;
      crc.Clear();
    }

    /** The lap, in `log_crc`. */
    method Lap(tick: u8) returns (key: nat)
      modifies this`haveLastTick, this`lastTick, this`lap
      ensures key == KeyOf(old(SideOf()), tick)
      ensures SideOf() == Side(crc.log, NextLap(old(SideOf()), tick), Some(tick))
    {
      if haveLastTick {
        var delta := (tick - lastTick) % 256;
        if delta > 0 && delta < 128 && tick < lastTick {
          lap := lap + 1;
        }
      }
      haveLastTick, lastTick := true, tick;
      key := lap * 256 + tick;
    }
  }

  /** The slot a method touched, and another. */
  datatype Two = Two(touched: nat, other: nat)

  ghost function Tags(ids: seq<nat>, gens: seq<nat>): seq<nat>
    requires forall k :: 0 <= k < |ids| ==> ids[k] < |gens|
  {
    seq(|ids|, k requires 0 <= k < |ids| => Tag(ids[k], gens[ids[k]]))
  }

  class Server {
    const cfg: Config
    const clients: seq<Slot>
    const order: OrderTable
    const byName: NameTable
    var stats: Stats
    ghost var model: State

    /** Start-up: the static array, every slot free. */
    constructor (cfg: Config, slots: seq<Slot>)
      requires |slots| == MAX_CLIENTS
      requires forall a, b :: 0 <= a < b < |slots| ==>
        slots[a] != slots[b] && slots[a].crc != slots[b].crc && slots[a].crc.ents != slots[b].crc.ents
      requires forall a :: 0 <= a < |slots| ==>
        !slots[a].inUse && slots[a].partner == -1 && slots[a].crc.Valid() && slots[a].Roomy()
      ensures Valid() && model == EMPTY && this.cfg == cfg && clients == slots
      ensures Slots() == seq(MAX_CLIENTS, _ => None) && Table() == []
    {
      this.cfg, clients, stats := cfg, slots, EMPTY.stats;
      order := new OrderTable();
      byName := new NameTable();
      model := EMPTY;
    }

    /** The one and only client that ever sits in this slot at this generation. */
    ghost function T(ci: nat): nat
      requires ci < |clients|
      reads clients[ci]
    {
      Tag(ci, clients[ci].gen)
    }

    ghost function View(ci: nat): Client
      requires ci < |clients|
      reads clients, clients[ci].crc
    {
      var s := clients[ci];
      Client(s.rx, s.Tx(),
             if s.hasName then Some(s.name) else None,
             if 0 <= s.tv < 256 then Some(s.tv) else None,
             if 0 <= s.partner < |clients| then Some(T(s.partner)) else None,
             if 0 <= s.role < 256 then Some(s.role) else None,
             s.born, s.ip, s.SideOf())
    }

    /** A slot in use is what the model says its occupant is; a partner is an occupant. */
    ghost predicate Occupied(ci: nat)
      requires ci < |clients|
      reads this, clients, clients[ci].crc, clients[ci].crc.ents, order
    {
      && clients[ci].crc.Valid() && clients[ci].Roomy() && clients[ci].partner < |clients|
      && (clients[ci].inUse ==>
            && T(ci) in model.obj && View(ci) == model.obj[T(ci)]
            && (clients[ci].partner >= 0 ==> clients[ci].partner != ci && clients[clients[ci].partner].inUse))
      && (ci in order.ids <==> clients[ci].inUse && !clients[ci].dead)
    }

    /** No client still to come has the tag of one that has been. */
    ghost predicate FreshTags(ci: nat)
      requires ci < |clients|
      reads this, clients[ci]
    {
      forall g: nat :: (g > clients[ci].gen || (g == clients[ci].gen && !clients[ci].inUse)) ==>
        Tag(ci, g) !in model.obj
    }

    ghost predicate Apart(a: nat, b: nat)
      requires a < |clients| && b < |clients|
    {
      a != b ==>
        clients[a] != clients[b] && clients[a].crc != clients[b].crc && clients[a].crc.ents != clients[b].crc.ents
    }

    ghost function Gens(): (g: seq<nat>)
      reads clients
      ensures |g| == |clients|
    {
      seq(|clients|, k requires 0 <= k < |clients| reads clients => clients[k].gen)
    }

    ghost predicate Valid()
      reads this, clients, order, order.a, byName, byName.ents
      reads set s | s in clients :: s.crc
      reads set s | s in clients :: s.crc.ents
    {
      && |clients| == MAX_CLIENTS
      && (forall a: nat, b: nat {:trigger Apart(a, b)} :: a < |clients| && b < |clients| ==> Apart(a, b))
      && (forall ci: nat {:trigger Occupied(ci)} :: ci < |clients| ==> Occupied(ci))
      && (forall ci: nat {:trigger FreshTags(ci)} :: ci < |clients| ==> FreshTags(ci))
      && order.Valid() && (forall k :: 0 <= k < |order.ids| ==> order.ids[k] < |clients|) && NoRepeat(order.ids)
      && model.live == Tags(order.ids, Gens())
      && byName.Valid() && (forall e :: e in byName.es ==> e.ci < MAX_CLIENTS)
      && model.names == Dict(byName.es)
      && stats == model.stats && !model.halted
      && Sane(model)
    }

    // ------------------------------------------------------------ what CSpec.dfy sees

    /** Who sits where. */
    ghost function Slots(): (s: seq<Option<Id>>)
      reads clients
      ensures |s| == |clients|
    {
      seq(|clients|, k requires 0 <= k < |clients| reads clients =>
        if clients[k].inUse then Some(Tag(k, clients[k].gen)) else None)
    }

    ghost function Table(): seq<Name>
      reads byName
    {
      NamesOf(byName.es)
    }

    ghost function Now(): CState
      reads this, clients, byName
    {
      CState(model, Slots(), Table())
    }

    /** What the transmit arrays hold beyond the buffers. */
    ghost function Rests(): (g: Stale)
      reads clients
      ensures |g| == |clients|
    {
      seq(|clients|, k requires 0 <= k < |clients| reads clients => clients[k].Rest())
    }

    lemma RestAt(ci: nat)
      requires ci < |clients| == MAX_CLIENTS
      ensures At(Rests(), T(ci)) == clients[ci].Rest()
    {
      assert T(ci) % MAX_CLIENTS == ci;
    }

    /** Only slot `ci` and its checksum table have changed, and it is in use as it was. */
    twostate predicate OnlySlot(ci: nat)
      requires ci < |clients|
      reads this, clients, order, order.a, byName, byName.ents
      reads set s | s in clients :: s.crc
      reads set s | s in clients :: s.crc.ents
    {
      && stats == old(stats)
      && unchanged(order) && unchanged(order.a) && unchanged(byName) && unchanged(byName.ents)
      && (forall x: nat {:trigger Apart(x, x)} :: x < |clients| && x != ci ==>
            unchanged(clients[x]) && unchanged(clients[x].crc) && unchanged(clients[x].crc.ents))
      && old(clients[ci].inUse) && clients[ci].inUse
      && clients[ci].gen == old(clients[ci].gen) && clients[ci].dead == old(clients[ci].dead)
      && clients[ci].crc.Valid() && clients[ci].Roomy() && clients[ci].partner < |clients|
      && (var p := clients[ci].partner; p >= 0 ==> p != ci && old(clients[p].inUse))
    }

    /** No slot has changed, and no order. */
    twostate lemma Noted()
      requires old(Valid())
      requires unchanged(order) && unchanged(order.a)
      requires forall x: nat :: x < |clients| ==>
        unchanged(clients[x]) && unchanged(clients[x].crc) && unchanged(clients[x].crc.ents)
      requires model == old(model).(names := model.names, stats := model.stats)
      requires byName.Valid() && (forall e :: e in byName.es ==> e.ci < MAX_CLIENTS) && model.names == Dict(byName.es)
      requires stats == model.stats
      ensures Valid()
    {
      assert Gens() == old(Gens());
      forall b: nat | b < |clients| ensures Occupied(b) {
        assert old(Occupied(b)) && Apart(b, b);
      }
      forall b: nat | b < |clients| ensures FreshTags(b) {
        assert old(FreshTags(b)) && Apart(b, b);
      }
    }

    /** After some statements that touched only slot `ci`. */
    twostate lemma Settled(ci: nat)
      requires old(Valid()) && ci < |clients| && OnlySlot(ci)
      requires model == Update(old(model), T(ci), View(ci))
      ensures Valid()
    {
      hide Occupied, FreshTags, Apart;
      SettledSane(ci);
      SettledSlots(ci);
      SettledTags(ci);
    }

    twostate lemma SettledSlots(ci: nat)
      requires old(Valid()) && ci < |clients| && OnlySlot(ci)
      requires model == Update(old(model), T(ci), View(ci))
      ensures forall b: nat :: b < |clients| ==> Occupied(b)
    {
      hide Occupied;
      forall b: nat | b < |clients| ensures Occupied(b) {
        OthersOccupied(Two(ci, b));
      }
    }

    twostate lemma SettledTags(ci: nat)
      requires old(Valid()) && ci < |clients| && OnlySlot(ci)
      requires model == Update(old(model), T(ci), View(ci))
      ensures forall b: nat :: b < |clients| ==> FreshTags(b)
      ensures Gens() == old(Gens())
    {
      assert old(Occupied(ci));
      forall b: nat | b < |clients| ensures FreshTags(b) && clients[b].gen == old(clients[b].gen) {
        assert old(FreshTags(b)) && Apart(b, b);
      }
    }

    twostate lemma SettledSane(ci: nat)
      requires old(Valid()) && ci < |clients| && OnlySlot(ci)
      requires model == Update(old(model), T(ci), View(ci))
      ensures Sane(model)
    {
      assert old(Occupied(ci));
      if clients[ci].partner >= 0 {
        var p := clients[ci].partner;
        assert old(Occupied(p)) && Apart(p, p);
        TagsDiffer(ci, clients[ci].gen, p, clients[p].gen);
      }
      PartnerSane(old(model), T(ci), View(ci));
    }

    /** The slot touched and another. */
    twostate lemma OthersOccupied(two: Two)
      requires old(Valid()) && two.touched < |clients| && two.other < |clients| && OnlySlot(two.touched)
      requires model == Update(old(model), T(two.touched), View(two.touched))
      ensures Occupied(two.other)
    {
      var ci, b := two.touched, two.other;
      assert old(Occupied(b)) && Apart(b, b);
      TagsDiffer(ci, clients[ci].gen, b, clients[b].gen);
      var p := clients[b].partner;
      if p >= 0 {
        assert Apart(p, p);
      }
    }

    /** Every slot has the occupant it had. */
    twostate predicate Kept()
      reads clients
    {
      forall x: nat {:trigger clients[x]} :: x < |clients| ==>
        && clients[x].inUse == old(clients[x].inUse) && clients[x].gen == old(clients[x].gen)
        && (old(clients[x].dead) ==> clients[x].dead)
    }

    /** Nothing has been sent or cut. */
    twostate predicate Unsent()
      reads clients
    {
      forall x: nat {:trigger clients[x]} :: x < |clients| ==>
        clients[x].txbuf == old(clients[x].txbuf) && clients[x].txLen == old(clients[x].txLen)
    }

    twostate lemma UnsentRests()
      requires Unsent()
      ensures Rests() == old(Rests())
    {
    }

    twostate lemma KeptSlots()
      requires Kept()
      ensures Slots() == old(Slots())
    {
    }

    /** The table of names is in the order its dict does not show. */
    lemma TableMeans()
      requires Valid()
      ensures byName.Valid() && model.names == Dict(byName.es) && Retable(Table(), model.names) == Table()
    {
      NamesListed(byName.es);
    }

    /** Where the table is not touched. */
    twostate lemma TableStays()
      requires old(Valid()) && Valid() && unchanged(byName)
      ensures Table() == Retable(old(Table()), model.names) && model.names == old(model).names
    {
      TableMeans();
    }

    ghost predicate Known(ci: nat)
      reads this, clients
    {
      ci < |clients| && clients[ci].inUse && T(ci) in model.obj
    }

    /** A slot in use and its partner's, as the model has them. */
    lemma Occupant(ci: nat)
      requires Valid() && Known(ci)
      ensures clients[ci].partner < |clients| == MAX_CLIENTS && clients[ci].crc.Valid() && clients[ci].Roomy()
      ensures T(ci) in model.obj && View(ci) == model.obj[T(ci)] && Sane(model)
      ensures var p := clients[ci].partner; p >= 0 ==> Known(p) && p != ci && T(p) != T(ci) && T(p) in model.obj
      ensures T(ci) in model.live <==> !clients[ci].dead
      ensures stats == model.stats && !model.halted
    {
      assert Occupied(ci);
      var p := clients[ci].partner;
      if p >= 0 {
        assert Occupied(p);
        TagsDiffer(ci, clients[ci].gen, p, clients[p].gen);
      }
      TagsHave(order.ids, Gens(), ci);
    }

    /** `name_del_if_is`, from `drop`. */
    method ForgetName(ci: nat)
      requires Valid() && Known(ci)
      modifies this`model, byName, byName.ents
      ensures Valid() && Known(ci) && model == old(model).(names := Unname(old(model), T(ci)))
      ensures Table() == Retable(old(Table()), model.names)
    {
      Occupant(ci);
      TableMeans();
      if clients[ci].hasName {
        byName.DelIfIs(clients[ci].name, ci, clients[ci].gen);
      }
      model := model.(names := Unname(model, T(ci)));
      hide Occupied, FreshTags, Apart, Sane, Tag;
      Noted();
    }

    /** Slot `ci` is dead now and out of the order; nothing else has changed. */
    twostate predicate Retires(ci: nat)
      requires ci < |clients|
      reads this, clients, order, order.a, byName, byName.ents
      reads set s | s in clients :: s.crc
      reads set s | s in clients :: s.crc.ents
    {
      && old(clients[ci].inUse) && clients[ci].dead && stats == old(stats)
      && unchanged(byName) && unchanged(byName.ents)
      && clients[ci].inUse && clients[ci].gen == old(clients[ci].gen) && clients[ci].Roomy()
      && clients[ci].partner == old(clients[ci].partner)
      && (forall x: nat {:trigger Apart(x, x)} :: x < |clients| ==>
            && (x != ci ==> unchanged(clients[x]))
            && unchanged(clients[x].crc) && unchanged(clients[x].crc.ents))
      && order.Valid() && order.ids == Without(old(order.ids), ci)
      && View(ci) == old(View(ci))
      && model == old(model).(live := Without(old(model).live, old(T(ci))))
    }

    twostate lemma RetiredSlot(two: Two)
      requires old(Valid()) && two.touched < |clients| && two.other < |clients| && Retires(two.touched)
      ensures Occupied(two.other) && FreshTags(two.other) && clients[two.other].gen == old(clients[two.other].gen)
    {
      var ci, b := two.touched, two.other;
      assert old(Occupied(b)) && old(FreshTags(b)) && Apart(b, b) && Apart(ci, ci);
      ghost var was := old(order.ids);
      WithoutHas(was, ci, b);
      var p := clients[b].partner;
      if p >= 0 {
        assert Apart(p, p);
      }
    }

    twostate lemma RetiredSlots(ci: nat)
      requires old(Valid()) && ci < |clients| && Retires(ci)
      ensures forall b: nat :: b < |clients| ==> Occupied(b)
      ensures forall b: nat :: b < |clients| ==> FreshTags(b)
      ensures Gens() == old(Gens())
    {
      hide Occupied, FreshTags, Retires, Tag;
      forall b: nat | b < |clients| ensures Occupied(b) && FreshTags(b) && clients[b].gen == old(clients[b].gen) {
        RetiredSlot(Two(ci, b));
      }
    }

    twostate lemma Retired(ci: nat)
      requires old(Valid()) && ci < |clients| && Retires(ci)
      ensures Valid()
    {
      hide Occupied, FreshTags, Apart, Tag, Without, Tags;
      RetiredSlots(ci);
      WithoutTags(old(order.ids), Gens(), ci);
      SaneWithout(old(model), old(T(ci)));
    }

    /** `c->dead = 1` and `order_del`. */
    method Retire(ci: nat)
      requires Valid() && Known(ci) && !clients[ci].dead
      modifies this`model, clients[ci], order, order.a
      ensures Known(ci) && clients[ci].dead
      ensures Valid() && model == old(model).(live := Without(old(model).live, old(T(ci))))
      ensures clients[ci].gen == old(clients[ci].gen)
    {
      Occupant(ci);
      Separate(ci);
      OrderMeans();
      assert NoRepeat(order.ids);
      hide Valid, Occupied, FreshTags, Sane, Tag, Without, NoRepeat, Dict, NamesDistinct, Gens, Tags;
      label Before:
      clients[ci].Bury();
      order.Del(ci);
      model := model.(live := Without(model.live, T(ci)));
      Retired@Before(ci);
    }

    /** `drop`. */
    method Drop(ci: nat)
      requires Valid() && Known(ci)
      modifies this`model, clients, order, order.a, byName, byName.ents
      ensures Valid() && Known(ci) && model == CDrop(old(model), old(T(ci)), old(Rests()))
      ensures Kept() && Table() == Retable(old(Table()), model.names)
    {
      hide Valid, Sane, Unname, PeerLeftBytes, Tag, Saturate, Retable, At;
      Occupant(ci);
      TableMeans();
      if clients[ci].dead {
        return;
      }
      var p := clients[ci].partner;
      if p >= 0 {
        RestAt(p);
      }
      ForgetName(ci);
      Occupant(ci);
      if p >= 0 {
        Unlink(p);
      }
      Occupant(ci);
      Retire(ci);
    }

    method Unlink(p: nat)
      requires Valid() && Known(p)
      modifies this`model, clients[p]
      ensures Valid() && clients[p].inUse == old(clients[p].inUse) && clients[p].dead == old(clients[p].dead)
        && clients[p].gen == old(clients[p].gen)
      ensures model == CUnlink(old(model), old(T(p)), old(Rests()))
      ensures Kept()
    {
      hide Valid, Sane, Tag, Saturate, PeerLeftBytes, At;
      label Before:
      ClearPartner(p);
      UnsentRests@Before();
      Tell(p, PeerLeftBytes());
    }

    method ClearPartner(p: nat)
      requires Valid() && Known(p)
      modifies this`model, {clients[p]}`partner
      ensures Valid() && Known(p) && Kept()
      ensures model == Update(old(model), T(p), old(model).obj[T(p)].(partner := None))
    {
      Occupant(p);
      Separate(p);
      hide Valid, Tag, Sane, Occupied, FreshTags;
      label Before:
      clients[p].partner := -1;
      model := Update(model, T(p), View(p));
      Settled@Before(p);
    }

    /** No other slot shares anything with this one. */
    lemma Separate(ci: nat)
      requires Valid() && ci < |clients|
      ensures forall x: nat {:trigger clients[x]} :: x < |clients| && x != ci ==>
        clients[x] != clients[ci] && clients[x].crc != clients[ci].crc && clients[x].crc.ents != clients[ci].crc.ents
    {
      forall x: nat | x < |clients| && x != ci
        ensures clients[x] != clients[ci] && clients[x].crc != clients[ci].crc
          && clients[x].crc.ents != clients[ci].crc.ents
      {
        assert Apart(x, ci);
      }
    }

    // ------------------------------------------------------------ pairing

    /** The scan of `try_pair`: one pass in accept order, strictly older wins. */
    method FindWaiting(ci: nat) returns (other: int)
      requires Valid() && Known(ci)
      ensures -1 <= other < |clients|
      ensures var others := Others(model, model.live, T(ci));
        if others == [] then other == -1
        else other >= 0 && other != ci && Known(other) && T(other) == Oldest(model, others)
    {
      hide Valid, Others, Oldest, Tags, Tag, Sane, Idle, View;
      other := -1;
      ghost var live := model.live;
      ghost var seen: seq<Id> := [];
      OrderMeans();
      OthersEmpty(model, T(ci));
      assert live[..0] == [];
      var i := 0;
      while i < order.n
        invariant 0 <= i <= order.n == |live| && -1 <= other < |clients|
        invariant seen == Others(model, live[..i], T(ci)) && (forall x :: x in seen ==> x in model.obj)
        invariant if seen == [] then other == -1
          else other >= 0 && other != ci && Known(other) && T(other) == Oldest(model, seen)
      {
        var o := order.a[i];
        OrderEntry(i);
        IdleMeans(o, ci);
        OthersSnoc(model, live[..i], live[i], T(ci));
        assert live[..i] + [live[i]] == live[..i + 1];
        if !(o == ci || !clients[o].hasName || clients[o].partner >= 0) {
          if seen != [] {
            IdleMeans(other, ci);
            OldestSnoc(model, seen, live[i]);
          } else {
            OldestOne(model, live[i]);
            assert seen + [live[i]] == [live[i]];
          }
          if other < 0 || clients[o].born < clients[other].born {
            other := o;
          }
          seen := seen + [live[i]];
        } else {
          assert seen + [] == seen;
        }
        i := i + 1;
      }
      assert live[..i] == live;
    }

    lemma OrderMeans()
      requires Valid()
      ensures order.n == |model.live| && order.n <= order.a.Length && order.Valid()
      ensures forall x :: x in model.live ==> x in model.obj
    {
    }

    lemma OrderEntry(i: nat)
      requires Valid() && i < order.n
      ensures i < order.a.Length && i < |model.live|
      ensures Known(order.a[i]) && model.live[i] == T(order.a[i]) && !clients[order.a[i]].dead
    {
      var o := order.a[i];
      assert order.ids[i] == o && o in order.ids;
      assert Occupied(o);
    }

    lemma SameTag(a: nat, b: nat)
      requires Valid() && Known(a) && Known(b)
      ensures T(a) == T(b) <==> a == b
    {
      TagsDiffer(a, clients[a].gen, b, clients[b].gen);
    }

    /** The test of the scan is Python's test for an idle other. */
    lemma IdleMeans(o: nat, ci: nat)
      requires Valid() && Known(o) && Known(ci)
      ensures T(o) in model.obj && model.obj[T(o)].born == clients[o].born
      ensures Idle(model, T(o)) && T(o) != T(ci) <==> !(o == ci || !clients[o].hasName || clients[o].partner >= 0)
    {
      Occupant(o);
      SameTag(o, ci);
    }

    function NameOf(ci: nat): (n: Name)
      requires ci < |clients|
      reads clients[ci]
      ensures |n| <= 8
    {
      if clients[ci].hasName && |clients[ci].name| <= 8 then clients[ci].name else []
    }

    /** One player's half of a match. */
    method StartOne(me: nat, them: nat, role: u8, seed: nat, name: Name)
      requires Valid() && Known(me) && Known(them) && me != them && |name| <= 8
      modifies this`model, clients[me], clients[me].crc, clients[me].crc.ents
      ensures Valid() && Known(me) && Known(them)
      ensures T(me) == old(T(me)) && T(them) == old(T(them))
      ensures model
        == CStartOne(old(model), T(me), T(them), role, FrameBytes(StartMsg(cfg, role, seed, name)), old(Rests()))
      ensures Kept()
    {
      hide Valid, Sane, Tag, Saturate, StartMsg, FrameBytes, At;
      label Before:
      Link(me, them, role);
      UnsentRests@Before();
      Tell(me, FrameBytes(StartMsg(cfg, role, seed, name)));
      StillKnown(them);
    }

    method Link(me: nat, them: nat, role: u8)
      requires Valid() && Known(me) && Known(them) && me != them
      modifies this`model, {clients[me]}`partner, {clients[me]}`role, clients[me].crc
      ensures Valid() && Known(me) && Known(them) && Kept()
      ensures var x := old(model).obj[T(me)];
        model == Update(old(model), T(me), x.(partner := Some(T(them)), role := Some(role), side := x.side.(log := [])))
    {
      Occupant(me);
      Occupant(them);
      Separate(me);
      assert Apart(them, them);
      hide Valid, Tag, Sane, Occupied, FreshTags, Update, Slot.Tx;
      label Before:
      clients[me].Link(them, role);
      model := Update(model, T(me), View(me));
      Settled@Before(me);
    }

    method CountMatch()
      requires Valid()
      modifies this`model, this`stats
      ensures Valid() && model == old(model).(stats := old(model).stats.(matches := old(model).stats.matches + 1))
    {
      stats := stats.(matches := stats.matches + 1);
      model := model.(stats := stats);
      hide Occupied, FreshTags, Apart, Sane, Tag;
      Noted();
    }

    // ------------------------------------------------------------ the rest of a frame's work

    /** `client_send`. */
    method Tell(ci: nat, data: seq<u8>)
      requires Valid() && Known(ci)
      modifies this`model, {clients[ci]}`txbuf, {clients[ci]}`txLen
      ensures Valid() && Known(ci) && model == CSend(old(model), old(T(ci)), data, old(Rests()))
      ensures Kept()
    {
      Occupant(ci);
      Separate(ci);
      RestAt(ci);
      hide Valid, Tag, Sane, Occupied, FreshTags;
      label Before:
      clients[ci].Send(data);
      model := Update(model, T(ci), View(ci));
      Settled@Before(ci);
    }

    /** `send_lobby`. */
    method SendLobby(ci: nat)
      requires Valid() && Known(ci)
      modifies this`model, {clients[ci]}`txbuf, {clients[ci]}`txLen
      ensures Valid() && model == CSend(old(model), old(T(ci)), FrameBytes(LobbyMsg(old(model))), old(Rests()))
      ensures Kept()
    {
      hide Valid, Sane, Named, Entries, LobbyEntry, Tag;
      OrderMeans();
      ghost var live := model.live;
      ghost var picked: seq<Id> := [];
      var entries: seq<u8> := [];
      var n := 0;
      var i := 0;
      LobbyNone(model);
      assert live[..0] == [];
      while i < order.n
        invariant 0 <= i <= order.n == |live|
        invariant n == |picked| <= LOBBY_LIMIT && (forall x :: x in picked ==> x in model.obj)
        invariant picked == Firsts(Named(model, live[..i]))
        invariant entries == Entries(model, picked)
        modifies {}
      {
        var o := order.a[i];
        OrderEntry(i);
        EntryOf(o);
        NamedSnoc(model, live[..i], live[i]);
        assert live[..i] + [live[i]] == live[..i + 1];
        if clients[o].hasName && n < LOBBY_LIMIT {
          EntriesSnoc(model, picked, live[i]);
          entries := entries + (Ljust(NameOf(o), 8) + [if clients[o].partner >= 0 then 1 else 0]);
          picked := picked + [live[i]];
          n := n + 1;
        }
        i := i + 1;
      }
      assert live[..i] == live;
      assert picked == FirstNamed(model);
      Tell(ci, FrameBytes(Msg(T_LOBBY, [n] + entries)));
    }

    lemma EntryOf(o: nat)
      requires Valid() && Known(o)
      ensures clients[o].hasName <==> model.obj[T(o)].name.Some?
      ensures LobbyEntry(model.obj[T(o)]) == Ljust(NameOf(o), 8) + [if clients[o].partner >= 0 then 1 else 0]
    {
      Occupant(o);
    }

    method Lap(ci: nat, tick: u8) returns (key: nat)
      requires Valid() && Known(ci)
      modifies this`model, clients[ci]
      ensures Valid() && Known(ci) && T(ci) == old(T(ci)) && clients[ci].partner == old(clients[ci].partner)
      ensures key == KeyOf(old(model).obj[old(T(ci))].side, tick)
      ensures var t := old(T(ci)); var side := old(model).obj[t].side;
        model == Update(old(model), t, old(model).obj[t].(side := Side(side.log, NextLap(side, tick), Some(tick))))
      ensures Kept()
    {
      Occupant(ci);
      Separate(ci);
      hide Valid, Tag, Sane, Occupied, FreshTags, KeyOf, NextLap, Update;
      label Before:
      key := clients[ci].Lap(tick);
      model := Update(model, T(ci), View(ci));
      Settled@Before(ci);
    }

    /** `crc_set`, in `log_crc`. */
    method Enter(ci: nat, key: nat, crc: u8)
      requires Valid() && Known(ci)
      modifies this`model, clients[ci].crc, clients[ci].crc.ents
      ensures Valid() && Known(ci)
      ensures var t := old(T(ci)); var x := old(model).obj[t];
        model == Update(old(model), t, x.(side := x.side.(log := CPut(x.side.log, key, crc))))
      ensures Kept()
    {
      Occupant(ci);
      Separate(ci);
      hide Valid, Tag, Sane, Occupied, FreshTags, CPut;
      label Before:
      clients[ci].crc.Set(key, crc);
      model := Update(model, T(ci), View(ci));
      Settled@Before(ci);
    }

    /** `log_crc` up to and including `crc_set`. */
    method Remember(ci: nat, tick: u8, crc: u8) returns (key: nat)
      requires Valid() && Known(ci)
      modifies this`model, clients[ci], clients[ci].crc, clients[ci].crc.ents
      ensures Valid() && Known(ci) && T(ci) == old(T(ci)) && clients[ci].partner == old(clients[ci].partner)
      ensures key == KeyOf(old(model).obj[old(T(ci))].side, tick)
      ensures var t := old(T(ci)); var side := old(model).obj[t].side;
        model == Update(old(model), t,
            old(model).obj[t].(side := Side(CPut(side.log, key, crc), NextLap(side, tick), Some(tick))))
      ensures Kept()
    {
      hide Valid, Sane, CPut, KeyOf, NextLap, Tag;
      ghost var r, t := model, T(ci);
      key := Lap(ci, tick);
      Enter(ci, key, crc);
      assert model == Update(r, t, model.obj[t]);
    }

    method Age(ci: nat)
      requires Valid() && Known(ci)
      modifies this`model, clients[ci].crc, clients[ci].crc.ents
      ensures Valid()
      ensures var t := old(T(ci)); var x := old(model).obj[t];
        model == Update(old(model), t, x.(side := x.side.(log := Evict(x.side.log))))
      ensures Kept()
    {
      Occupant(ci);
      Separate(ci);
      hide Valid, Tag, Sane, Occupied, FreshTags, Evict;
      label Before:
      clients[ci].crc.Age();
      model := Update(model, T(ci), View(ci));
      Settled@Before(ci);
    }

    /** `crc_del_at` on the partner's table. */
    method Take(p: nat, i: nat, key: nat)
      requires Valid() && Known(p) && clients[p].crc.Valid() && i < clients[p].crc.n
        && Find(clients[p].crc.log, key) == i
      modifies this`model, clients[p].crc, clients[p].crc.ents
      ensures Valid()
      ensures var t := old(T(p)); var x := old(model).obj[t];
        model == Update(old(model), t, x.(side := x.side.(log := Pop(x.side.log, key))))
      ensures Kept()
    {
      hide Pop, Find, Valid, Tag, Sane, Occupied, FreshTags;
      Occupant(p);
      Separate(p);
      label Before:
      clients[p].crc.Take(i, key);
      model := Update(model, T(p), View(p));
      Settled@Before(p);
    }

    method CountVerdict(v: Verdict)
      requires Valid()
      modifies this`model, this`stats
      ensures Valid() && model == old(model).(stats := Count(old(model).stats, v))
    {
      if v == Mismatch {
        stats := stats.(crcBad := stats.crcBad + 1);
      } else if v == Agree {
        stats := stats.(crcOk := stats.crcOk + 1);
      }
      model := model.(stats := stats);
      hide Occupied, FreshTags, Apart, Sane, Tag;
      Noted();
    }

    /** `log_crc` once the partner's entry is found. */
    method Compare(p: nat, pi: nat, key: nat, crc: u8)
      requires Valid() && Known(p) && clients[p].crc.Valid() && pi < clients[p].crc.n
        && Find(clients[p].crc.log, key) == pi
      modifies this`model, this`stats, clients[p].crc, clients[p].crc.ents
      ensures Valid()
      ensures var t := old(T(p)); var x := old(model).obj[t];
        && x.side.log == old(clients[p].crc.log)
        && model == Update(old(model), t, x.(side := x.side.(log := Pop(x.side.log, key))))
             .(stats := Count(old(model).stats, if x.side.log[pi].crc != crc then Mismatch else Agree))
    {
      hide Valid, Sane, Pop, Find, Tag;
      Occupant(p);
      var other := clients[p].crc.ents[pi].crc;
      Take(p, pi, key);
      CountVerdict(if other != crc then Mismatch else Agree);
    }

    /** `log_crc`. */
    method LogCrc(ci: nat, tick: u8, crc: u8)
      requires Valid() && Known(ci)
      modifies this`model, this`stats, clients, (set s | s in clients :: s.crc), (set s | s in clients :: s.crc.ents)
      ensures Valid() && model == CLogCrc(old(model), old(T(ci)), tick, crc)
      ensures Kept()
    {
      hide Valid, Sane, CPut, Pop, Find, Evict, KeyOf, NextLap, Tag, Update, CLogCrc;
      Occupant(ci);
      CLogCrcIs(model, T(ci), tick, crc);
      var key := Remember(ci, tick, crc);
      Occupant(ci);
      var p := clients[ci].partner;
      var pi := -1;
      if p >= 0 {
        Occupant(p);
        pi := clients[p].crc.Lookup(key);
      }
      if pi < 0 {
        Age(ci);
        return;
      }
      Compare(p, pi, key, crc);
    }

    // ------------------------------------------------------------ HELLO

    /** The trimming and upper-casing loops of `on_hello`. */
    method CleanName(raw: seq<u8>) returns (name: seq<u8>)
      ensures name == Upper(Strip(raw))
    {
      var nm := raw;
      while |nm| > 0 && Blank(nm[0])
        invariant Strip(nm) == Strip(raw)
      {
        nm := nm[1..];
      }
      while |nm| > 0 && Blank(nm[|nm| - 1])
        invariant Strip(nm) == Strip(raw) && (nm != [] ==> !Blank(nm[0]))
      {
        nm := nm[..|nm| - 1];
      }
      name := [];
      var i := 0;
      while i < |nm|
        invariant 0 <= i <= |nm| && name == Upper(nm[..i])
      {
        name := name + [UpperByte(nm[i])];
        i := i + 1;
      }
      assert nm[..i] == nm;
    }

    method GoodChars(name: seq<u8>) returns (ok: bool)
      ensures ok == GoodName(name)
    {
      ok := 2 <= |name| <= 8;
      var i := 0;
      while ok && i < |name|
        invariant 0 <= i <= |name|
        invariant ok ==> 2 <= |name| <= 8 && forall j :: 0 <= j < i ==> NameByte(name[j])
        invariant !ok ==> !GoodName(name)
      {
        if !NameByte(name[i]) {
          ok := false;
        }
        i := i + 1;
      }
    }

    method SetTv(ci: nat, tv: u8)
      requires Valid() && Known(ci)
      modifies this`model, {clients[ci]}`tv
      ensures Valid() && Known(ci) && T(ci) == old(T(ci))
      ensures model == Update(old(model), old(T(ci)), old(model).obj[old(T(ci))].(tv := Some(tv)))
      ensures Kept()
    {
      Occupant(ci);
      Separate(ci);
      hide Valid, Tag, Sane, Occupied, FreshTags;
      label Before:
      clients[ci].tv := tv;
      model := Update(model, T(ci), View(ci));
      Settled@Before(ci);
    }

    method SetName(ci: nat, name: Name)
      requires Valid() && Known(ci)
      modifies this`model, {clients[ci]}`name, {clients[ci]}`hasName
      ensures Valid() && Known(ci) && T(ci) == old(T(ci))
      ensures model == Update(old(model), old(T(ci)), old(model).obj[old(T(ci))].(name := Some(name)))
      ensures Kept()
    {
      Occupant(ci);
      Separate(ci);
      hide Valid, Tag, Sane, Occupied, FreshTags;
      label Before:
      clients[ci].name, clients[ci].hasName := name, true;
      model := Update(model, T(ci), View(ci));
      Settled@Before(ci);
    }

    /** `name_set`, for a name not in the table. */
    method SetInTable(ci: nat, name: Name)
      requires Valid() && Known(ci) && name !in model.names
      modifies this`model, byName, byName.ents
      ensures Valid() && Known(ci)
      ensures model == old(model).(names := Forget(old(model).names, Loses(old(Table())))[name := T(ci)])
      ensures Table() == Retable(old(Table()), model.names)
    {
      Occupant(ci);
      ghost var lost := Loses(Table());
      byName.Set(name, ci, clients[ci].gen);
      model := model.(names := Forget(model.names, lost)[name := T(ci)]);
      hide Occupied, FreshTags, Apart, Sane, Tag;
      Noted();
    }

    /** The search, at most a thousand digits long. */
    method Search(wanted: Name, digits: seq<u8>) returns (found: bool, name: Name)
      requires Valid() && |digits| == SEARCH_LIMIT
      ensures found == FreeName(wanted, model.names, digits).Some?
      ensures found ==> FreeName(wanted, model.names, digits) == Some(name)
    {
      TableMeans();
      hide Valid, Dict;
      name := wanted;
      var guard := 0;
      assert digits[0..] == digits;
      var taken := byName.Taken(name);
      while taken
        invariant 0 <= guard <= SEARCH_LIMIT && taken == (name in model.names)
        invariant FreeName(name, model.names, digits[guard..]) == FreeName(wanted, model.names, digits)
        decreases SEARCH_LIMIT - guard
      {
        if guard == SEARCH_LIMIT {
          break;
        }
        assert digits[guard..][1..] == digits[guard + 1..];
        name := Variant(name, digits[guard]);
        guard := guard + 1;
        taken := byName.Taken(name);
      }
      found := !taken;
    }

    /** The name, once found, and its entry in the table. */
    method Claim(ci: nat, name: Name)
      requires Valid() && Known(ci) && name !in model.names
      modifies this`model, clients, byName, byName.ents
      ensures Valid() && Known(ci) && T(ci) == old(T(ci))
      ensures model == CClaim(old(model), old(T(ci)), name, Loses(old(Table())))
      ensures Table() == Retable(old(Table()), model.names)
      ensures Kept() && Rests() == old(Rests())
    {
      hide Valid, Sane, Tag, Retable;
      Occupant(ci);
      SetName(ci, name);
      SetInTable(ci, name);
      UnsentRests();
    }

    /** The search and what follows it. */
    method Register(ci: nat, wanted: Name, luck: Luck)
      requires Valid() && Known(ci) && |luck.digits| == SEARCH_LIMIT
      modifies this`model, this`stats, clients, order, order.a, byName, byName.ents
      modifies set s | s in clients :: s.crc
      modifies set s | s in clients :: s.crc.ents
      ensures Valid() && model
        == CRegister(cfg, old(model), old(T(ci)), wanted, Fate(luck, Loses(old(Table())), old(Rests())))
      ensures Table() == Retable(old(Table()), model.names)
      ensures Kept()
    {
      hide Valid, Sane, CTryPair, CDrop, Tag, FreeName, Retable;
      Occupant(ci);
      var found, name := Search(wanted, luck.digits);
      FoundIsFree(wanted, model.names, luck.digits);
      if !found {
        Drop(ci);
        return;
      }
      Claim(ci, name);
      label Claimed:
      TryPair(ci, luck.seed);
      TableStays@Claimed();
    }

    /** `on_hello`. */
    method OnHello(ci: nat, payload: seq<u8>, luck: Luck)
      requires Valid() && Known(ci) && |luck.digits| == SEARCH_LIMIT
      modifies this`model, this`stats, clients, order, order.a, byName, byName.ents
      modifies set s | s in clients :: s.crc
      modifies set s | s in clients :: s.crc.ents
      ensures Valid() && model
        == COnHello(cfg, old(model), old(T(ci)), payload, Fate(luck, Loses(old(Table())), old(Rests())))
      ensures Table() == Retable(old(Table()), model.names)
      ensures Kept()
    {
      hide Valid, Sane, CGreet, CDrop, Tag, Update, Retable, Table, Rests, Loses;
      Occupant(ci);
      if |payload| < 3 || payload[0] != PROTO {
        Drop(ci);
        return;
      }
      label Read:
      SetTv(ci, payload[1]);
      UnsentRests@Read();
      Greet(ci, payload, luck);
    }

    /** The rest of it. */
    method Greet(ci: nat, payload: seq<u8>, luck: Luck)
      requires Valid() && Known(ci) && |luck.digits| == SEARCH_LIMIT && |payload| >= 3
      modifies this`model, this`stats, clients, order, order.a, byName, byName.ents
      modifies set s | s in clients :: s.crc
      modifies set s | s in clients :: s.crc.ents
      ensures Valid()
      ensures model == CGreet(cfg, old(model), old(T(ci)), payload, Fate(luck, Loses(old(Table())), old(Rests())))
      ensures Table() == Retable(old(Table()), model.names)
      ensures Kept()
    {
      hide Valid, Sane, CRegister, CDrop, Strip, Upper, GoodName, Tag, Retable, Table, Rests, Loses;
      Occupant(ci);
      if payload[1] == 2 {
        Drop(ci);
        return;
      }
      if payload[1] != 0 && payload[1] != 1 {
        Drop(ci);
        return;
      }
      var name := CleanName(payload[2..]);
      var ok := GoodChars(name);
      if !ok {
        Drop(ci);
        return;
      }
      Register(ci, name, luck);
    }

    /** `handle`. */
    method Handle(ci: nat, ftype: u8, payload: seq<u8>, luck: Luck)
      requires Valid() && Known(ci) && |luck.digits| == SEARCH_LIMIT && |payload| <= 254
      modifies this`model, this`stats, clients, order, order.a, byName, byName.ents
      modifies set s | s in clients :: s.crc
      modifies set s | s in clients :: s.crc.ents
      ensures Valid() && model
        == CHandle(cfg, old(model), old(T(ci)), Msg(ftype, payload), Fate(luck, Loses(old(Table())), old(Rests())))
      ensures Table() == Retable(old(Table()), model.names)
      ensures Kept()
    {
      hide Valid, Sane, COnHello, CDrop, CTryPair, CLogCrc, FrameBytes, LobbyMsg, Tag, Retable, CSend;
      Occupant(ci);
      TableMeans();
      label Before:
      if IsRelayed(ftype) {
        var p := clients[ci].partner;
        if p >= 0 {
          Separate(ci);
          Tell(p, FrameBytes(Msg(ftype, Ljust(payload, GAME_PAYLOAD))));
          StillKnown(ci);
        }
        if ftype == T_INPUT && |payload| >= 6 {
          LogCrc(ci, payload[0], payload[4]);
        }
        TableStays@Before();
        return;
      }
      if ftype == T_HELLO {
        OnHello(ci, payload, luck);
      } else if ftype == T_LIST {
        SendLobby(ci);
        TableStays@Before();
      } else if ftype == T_JOIN {
        TryPair(ci, luck.seed);
        TableStays@Before();
      } else if ftype == T_PING {
        Tell(ci, FrameBytes(Msg(T_PONG, [])));
        TableStays@Before();
      } else if ftype == T_BYE {
        Drop(ci);
      }
    }

    lemma StillKnown(ci: nat)
      requires Valid() && ci < |clients| && clients[ci].inUse
      ensures Known(ci)
    {
      assert Occupied(ci);
    }

    // ------------------------------------------------------------ sockets

    method SetRx(ci: nat, rx: seq<u8>)
      requires Valid() && Known(ci) && |rx| <= RX_CAP
      modifies this`model, {clients[ci]}`rx
      ensures Valid() && Known(ci) && clients[ci].rx == rx
      ensures model == Update(old(model), old(T(ci)), old(model).obj[old(T(ci))].(rx := rx))
      ensures Kept()
    {
      Occupant(ci);
      Separate(ci);
      hide Valid, Tag, Sane, Occupied, FreshTags;
      label Before:
      clients[ci].rx := rx;
      model := Update(model, T(ci), View(ci));
      Settled@Before(ci);
    }

    method CountBad()
      requires Valid()
      modifies this`model, this`stats
      ensures Valid() && model == old(model).(stats := old(model).stats.(badFrames := old(model).stats.badFrames + 1))
    {
      stats := stats.(badFrames := stats.badFrames + 1);
      model := model.(stats := stats);
      hide Occupied, FreshTags, Apart, Sane, Tag;
      Noted();
    }

    method DropGarbled(ci: nat)
      requires Valid() && Known(ci)
      modifies this`model, this`stats, clients, order, order.a, byName, byName.ents
      ensures Valid() && Sane(old(model)) && old(T(ci)) in old(model).obj
      ensures model == CGarble(old(model), old(T(ci)), old(Rests()))
      ensures Kept() && Table() == Retable(old(Table()), model.names)
    {
      Occupant(ci);
      hide Valid, Sane, CDrop, Retable;
      CountBad();
      Drop(ci);
    }

    lemma SlotAt(ci: nat)
      requires Valid() && Known(ci)
      ensures Served(Now(), T(ci)) && HasSeat(Slots(), T(ci)) && model.obj[T(ci)].rx == clients[ci].rx
      ensures |clients[ci].rx| <= RX_CAP && Now().r == model
    {
      Occupant(ci);
      assert Slots()[ci] == Some(T(ci));
    }

    /** One whole frame: out of the buffer, and handled. */
    method TakeOne(ci: nat, luck: Luck)
      requires Valid() && Known(ci) && |luck.digits| == SEARCH_LIMIT
      requires Front(clients[ci].rx).Whole?
      modifies this`model, this`stats, clients, order, order.a, byName, byName.ents
      modifies set s | s in clients :: s.crc
      modifies set s | s in clients :: s.crc.ents
      ensures Valid() && Known(ci) && Kept() && Table() == Retable(old(Table()), model.names)
      ensures Sane(old(model)) && old(T(ci)) in old(model).obj && old(model).obj[old(T(ci))].rx == old(clients[ci].rx)
      ensures model == CTakeOne(cfg, old(model), old(T(ci)), Fate(luck, Loses(old(Table())), old(Rests())))
    {
      hide Valid, CHandle, Tag, Keeps, Retable, Loses;
      Occupant(ci);
      ghost var r, t := model, T(ci);
      var rx := clients[ci].rx;
      var need := rx[0] + 1;
      label Before:
      SetRx(ci, rx[need..]);
      UnsentRests@Before();
      assert model == RelayRuns.Popped(r, t);
      Handle(ci, rx[1], rx[2..need], luck);
      StillKnown(ci);
    }

    /** One turn of the framing loop, `done` being what came of the earlier ones. */
    method TakeNext(ci: nat, luck: Luck, ghost s: CState, ghost done: seq<Moment>) returns (ghost ms: seq<Moment>)
      requires Valid() && Known(ci) && |luck.digits| == SEARCH_LIMIT && Front(clients[ci].rx).Whole?
      requires CTakes(cfg, s, T(ci), done, Now())
      modifies this`model, this`stats, clients, order, order.a, byName, byName.ents
      modifies set s | s in clients :: s.crc
      modifies set s | s in clients :: s.crc.ents
      ensures Valid() && Known(ci) && Kept() && T(ci) == old(T(ci))
      ensures |clients[ci].rx| < |old(clients[ci].rx)|
      ensures |ms| == |done| + 1 && ms[..|done|] == done && ms[|done|].luck == luck
      ensures CTakes(cfg, s, T(ci), ms, Now())
    {
      hide Valid, Sane, CTakeOne, CTakes, Tag, Retable, Front, Loses;
      SlotAt(ci);
      ghost var m := Moment(luck, Rests());
      CTakesMore(cfg, s, T(ci), done, Now(), m);
      TakesFrame(cfg, Now(), T(ci), m);
      ms := done + [m];
      label Before:
      TakeOne(ci, luck);
      KeptSlots@Before();
      assert Now() == old(CTakeNext(cfg, Now(), T(ci), m));
      SlotAt(ci);
    }

    /** The tests at the head of that loop. */
    method Head(ci: nat) returns (bad: bool, whole: bool)
      requires ci < |clients|
      ensures bad <==> Front(clients[ci].rx).Bad?
      ensures whole <==> Front(clients[ci].rx).Whole?
      ensures bad || whole ==> |clients[ci].rx| > 0
    {
      if |clients[ci].rx| < 1 {
        return false, false;
      }
      var lenb := clients[ci].rx[0];
      if lenb < 1 || lenb > MAX_BODY {
        return true, false;
      }
      return false, |clients[ci].rx| >= lenb + 1;
    }

    /** The framing loop of `service`; `ms` is what the environment and the arrays brought
        to each of its frames. */
    method Service(ci: nat, lucks: seq<Luck>) returns (ghost ms: seq<Moment>)
      requires Valid() && Known(ci)
      requires |clients[ci].rx| <= |lucks| && forall l :: l in lucks ==> |l.digits| == SEARCH_LIMIT
      modifies this`model, this`stats, clients, order, order.a, byName, byName.ents
      modifies set s | s in clients :: s.crc
      modifies set s | s in clients :: s.crc.ents
      ensures Valid() && Known(ci) && Kept()
      ensures Served(old(Now()), old(T(ci))) && Now() == CService(cfg, old(Now()), old(T(ci)), ms)
      ensures |ms| <= |lucks| && forall k :: 0 <= k < |ms| ==> ms[k].luck == lucks[k]
    {
      hide Valid, Sane, CService, CTakes, CDo, Tag, Front, Retable, Now, Rests, Served;
      SlotAt(ci);
      ms := [];
      ghost var s, t := Now(), T(ci);
      TakesNone(cfg, s, t);
      var k := 0;
      var more := true;
      while more
        invariant Valid() && Known(ci) && Kept() && T(ci) == t && 0 <= k
        invariant more ==> |ms| == k && k + |clients[ci].rx| <= |lucks| && CTakes(cfg, s, t, ms, Now())
        invariant |ms| <= |lucks| && forall j :: 0 <= j < |ms| ==> ms[j].luck == lucks[j]
        invariant !more ==> Served(s, t) && Now() == CService(cfg, s, t, ms)
        decreases more, |clients[ci].rx|
      {
        if |clients[ci].rx| < 1 {
          more := false;
          Empties(ci, s, ms);
        } else {
          more, ms := Again(ci, lucks[k], s, ms);
          k := k + 1;
        }
      }
    }

    /** Nothing left at all. */
    lemma Empties(ci: nat, s: CState, done: seq<Moment>)
      requires Valid() && Known(ci) && |clients[ci].rx| < 1 && CTakes(cfg, s, T(ci), done, Now())
      ensures Served(s, T(ci)) && Now() == CService(cfg, s, T(ci), done)
    {
      hide Valid, Sane, CService, CTakes, CDo, Tag, Slots, Table, Retable;
      SlotAt(ci);
      CTakesIsService(cfg, s, T(ci), done, Now(), Moment(Luck([], 1), []));
    }

    /** The rest of a turn of that loop. */
    method Again(ci: nat, luck: Luck, ghost s: CState, ghost done: seq<Moment>)
      returns (more: bool, ghost ms: seq<Moment>)
      requires Valid() && Known(ci) && |luck.digits| == SEARCH_LIMIT && CTakes(cfg, s, T(ci), done, Now())
      modifies this`model, this`stats, clients, order, order.a, byName, byName.ents
      modifies set s | s in clients :: s.crc
      modifies set s | s in clients :: s.crc.ents
      ensures Valid() && Known(ci) && Kept() && T(ci) == old(T(ci))
      ensures more ==> CTakes(cfg, s, T(ci), ms, Now()) && |ms| == |done| + 1
      ensures more ==> |clients[ci].rx| < |old(clients[ci].rx)|
      ensures !more ==> Served(s, T(ci)) && Now() == CService(cfg, s, T(ci), ms)
      ensures |done| <= |ms| <= |done| + 1 && ms[..|done|] == done && (|ms| > |done| ==> ms[|done|].luck == luck)
    {
      hide Valid, Sane, CService, CTakes, CDo, Tag, Front, Retable, Now, Rests, Served;
      var bad, whole := Head(ci);
      more := whole;
      if whole {
        ms := TakeNext(ci, luck, s, done);
      } else {
        ms := Ends(ci, bad, luck, s, done);
      }
    }

    /** The loop ends, at part of a frame or at a bad length. */
    method Ends(ci: nat, bad: bool, ghost luck: Luck, ghost s: CState, ghost done: seq<Moment>)
      returns (ghost ms: seq<Moment>)
      requires Valid() && Known(ci) && CTakes(cfg, s, T(ci), done, Now())
      requires !Front(clients[ci].rx).Whole? && (bad <==> Front(clients[ci].rx).Bad?)
      modifies this`model, this`stats, clients, order, order.a, byName, byName.ents
      ensures Valid() && Known(ci) && Kept()
      ensures Served(s, old(T(ci))) && Now() == CService(cfg, s, old(T(ci)), ms)
      ensures ms == if bad then done + [Moment(luck, old(Rests()))] else done
    {
      hide Valid, Sane, CService, CTakes, CDo, Tag, Front, Retable, Rests;
      SlotAt(ci);
      ghost var last := Moment(luck, Rests());
      CTakesIsService(cfg, s, T(ci), done, Now(), last);
      ms := done;
      if bad {
        ms := done + [last];
        Garbled(ci);
      }
    }

    /** A bad length, as a step. */
    method Garbled(ci: nat)
      requires Valid() && Known(ci) && Front(clients[ci].rx).Bad?
      modifies this`model, this`stats, clients, order, order.a, byName, byName.ents
      ensures Valid() && Known(ci) && Kept()
      ensures Sane(old(model)) && CPossible(old(Now()), Does(RelayRuns.Garbled(old(T(ci))), old(Rests())))
      ensures Now() == CDo(cfg, old(Now()), Does(RelayRuns.Garbled(old(T(ci))), old(Rests())))
    {
      hide Valid, Sane, CGarble, Tag, Front, Retable;
      SlotAt(ci);
      label Before:
      DropGarbled(ci);
      KeptSlots@Before();
      StillKnown(ci);
    }

    /** The receive: append, or drop what would overflow the array. */
    method Append(ci: nat, data: seq<u8>)
      requires Valid() && Known(ci)
      modifies this`model, clients, order, order.a, byName, byName.ents
      ensures Valid() && Known(ci) && Kept() && Table() == Retable(old(Table()), model.names)
      ensures Sane(old(model)) && old(T(ci)) in old(model).obj
      ensures model == CChunk(old(model), old(T(ci)), data, old(Rests()))
      ensures |old(clients[ci].rx)| + |data| <= RX_CAP ==> clients[ci].rx == old(clients[ci].rx) + data
    {
      hide Valid, Sane, CDrop, Tag, Retable;
      SlotAt(ci);
      Occupant(ci);
      label Before:
      if |clients[ci].rx| + |data| > RX_CAP {
        Drop(ci);
        return;
      }
      SetRx(ci, clients[ci].rx + data);
      TableStays@Before();
    }

    /** Between receives a live client's buffer holds part of a frame. */
    ghost predicate AtRest(ci: nat)
      requires ci < |clients|
      reads clients
    {
      clients[ci].inUse && !clients[ci].dead ==> Front(clients[ci].rx).Short?
    }

    ghost predicate AllAtRest()
      reads clients
    {
      forall ci: nat {:trigger AtRest(ci)} :: ci < |clients| ==> AtRest(ci)
    }

    /** Where no receive buffer has changed. */
    twostate lemma RestsOn()
      requires old(Valid()) && Valid() && Kept() && old(AllAtRest())
      requires forall x :: x in old(model).obj ==> x in model.obj && model.obj[x].rx == old(model).obj[x].rx
      ensures AllAtRest()
    {
      forall b: nat | b < |clients| ensures AtRest(b) {
        assert old(AtRest(b)) && old(Occupied(b)) && Occupied(b);
      }
    }

    /** Where only one client's has, and is at rest again. */
    twostate lemma RestsBut(ci: nat)
      requires old(Valid()) && Valid() && Kept() && old(AllAtRest()) && ci < |clients| && AtRest(ci)
      requires forall x :: x in old(model).obj && x != old(T(ci)) ==>
        x in model.obj && model.obj[x].rx == old(model).obj[x].rx
      ensures AllAtRest()
    {
      forall b: nat | b < |clients| ensures AtRest(b) {
        assert old(AtRest(b)) && old(Occupied(b)) && Occupied(b);
        TagsDiffer(b, clients[b].gen, ci, clients[ci].gen);
      }
    }

    lemma ServedAtRest(ci: nat)
      requires Valid() && Known(ci) && (T(ci) in model.live ==> Front(model.obj[T(ci)].rx).Short?)
      ensures AtRest(ci)
    {
      Occupant(ci);
    }

    /** `service`: the receive and the loop. Nothing received is the end of the stream. */
    method Receive(ci: nat, data: seq<u8>, lucks: seq<Luck>) returns (ghost ms: seq<Moment>)
      requires Valid() && Known(ci) && !clients[ci].dead && AllAtRest() && 0 < |data| <= RECV_SIZE
      requires |lucks| >= RX_CAP && forall l :: l in lucks ==> |l.digits| == SEARCH_LIMIT
      modifies this`model, this`stats, clients, order, order.a, byName, byName.ents
      modifies set s | s in clients :: s.crc
      modifies set s | s in clients :: s.crc.ents
      ensures Valid() && Known(ci) && Kept() && AllAtRest()
      ensures var s, e := old(Now()), Does(RelayRuns.Chunk(old(T(ci)), data), old(Rests()));
        Sane(s.r) && CPossible(s, e) && Served(CDo(cfg, s, e), old(T(ci)))
        && Now() == CService(cfg, CDo(cfg, s, e), old(T(ci)), ms)
      ensures |ms| <= |lucks| && forall k :: 0 <= k < |ms| ==> ms[k].luck == lucks[k]
    {
      hide Valid, Sane, CService, CDo, CPossible, Tag, Front, Slots, Table;
      label Before:
      Fetch(ci, data);
      ghost var s1, t := Now(), T(ci);
      ms := Service(ci, lucks);
      CServiceLeavesPartial(cfg, s1, t, ms);
      ServedAtRest(ci);
      RestsBut@Before(ci);
    }

    /** The receive, as a step. */
    method Fetch(ci: nat, data: seq<u8>)
      requires Valid() && Known(ci) && !clients[ci].dead && AtRest(ci) && 0 < |data| <= RECV_SIZE
      modifies this`model, clients, order, order.a, byName, byName.ents
      ensures Valid() && Known(ci) && Kept() && T(ci) == old(T(ci)) && |clients[ci].rx| <= RX_CAP
      ensures var s, e := old(Now()), Does(RelayRuns.Chunk(old(T(ci)), data), old(Rests()));
        Sane(s.r) && CPossible(s, e) && Now() == CDo(cfg, s, e) && Served(Now(), T(ci))
      ensures forall x :: x in old(model).obj && x != old(T(ci)) ==>
        x in model.obj && model.obj[x].rx == old(model).obj[x].rx
    {
      hide Valid, Sane, CChunk, Tag, Front, Retable;
      SlotAt(ci);
      Occupant(ci);
      ReceiveFits(model, T(ci), data);
      ChunkRx(model, T(ci), data, Rests());
      label Before:
      Append(ci, data);
      KeptSlots@Before();
      SlotAt(ci);
    }

    lemma ChunkRx(r: State, c: Id, data: seq<u8>, stale: Stale)
      requires Sane(r) && c in r.obj && |r.obj[c].rx| + |data| <= RX_CAP
      ensures CChunk(r, c, data, stale) == Update(r, c, r.obj[c].(rx := r.obj[c].rx + data))
    {
    }

    /** The socket's end. */
    method Close(ci: nat)
      requires Valid() && Known(ci) && !clients[ci].dead && AllAtRest()
      modifies this`model, clients, order, order.a, byName, byName.ents
      ensures Valid() && Kept() && AllAtRest()
      ensures Sane(old(model)) && CPossible(old(Now()), Does(RelayRuns.Lost(old(T(ci))), old(Rests())))
      ensures Now() == CDo(cfg, old(Now()), Does(RelayRuns.Lost(old(T(ci))), old(Rests())))
    {
      hide Valid, Sane, CDrop, Tag, Retable;
      SlotAt(ci);
      Occupant(ci);
      label Before:
      CActKeepsRx(cfg, model, RelayRuns.Lost(T(ci)), None, Rests());
      Drop(ci);
      KeptSlots@Before();
      RestsOn@Before();
    }

    /** `sweep` on one client overdue with its HELLO. */
    method Expire(ci: nat)
      requires Valid() && Known(ci) && !clients[ci].dead && AllAtRest()
      modifies this`model, this`stats, clients, order, order.a, byName, byName.ents
      ensures Valid() && Kept() && AllAtRest()
      ensures Sane(old(model)) && CPossible(old(Now()), Does(RelayRuns.Expired(old(T(ci))), old(Rests())))
      ensures Now() == CDo(cfg, old(Now()), Does(RelayRuns.Expired(old(T(ci))), old(Rests())))
    {
      hide Valid, Sane, CDrop, Tag, Retable;
      SlotAt(ci);
      Occupant(ci);
      TableMeans();
      label Before:
      CActKeepsRx(cfg, model, RelayRuns.Expired(T(ci)), None, Rests());
      if !clients[ci].hasName {
        DropOverdue(ci);
      }
      KeptSlots@Before();
      RestsOn@Before();
    }

    method DropOverdue(ci: nat)
      requires Valid() && Known(ci)
      modifies this`model, this`stats, clients, order, order.a, byName, byName.ents
      ensures Valid() && Kept() && Table() == Retable(old(Table()), model.names)
      ensures var r := old(model).(stats := old(model).stats.(helloTimeouts := old(model).stats.helloTimeouts + 1));
        Sane(r) && old(T(ci)) in r.obj && model == CDrop(r, old(T(ci)), old(Rests()))
    {
      Occupant(ci);
      hide Valid, Sane, CDrop, Retable;
      CountTimeout();
      Occupant(ci);
      Drop(ci);
    }

    method CountTimeout()
      requires Valid()
      modifies this`model, this`stats
      ensures Valid()
      ensures model == old(model).(stats := old(model).stats.(helloTimeouts := old(model).stats.helloTimeouts + 1))
    {
      stats := stats.(helloTimeouts := stats.helloTimeouts + 1);
      model := model.(stats := stats);
      hide Occupied, FreshTags, Apart, Sane, Tag;
      Noted();
    }

    /** `flush`, with what the socket did. */
    method Flush(ci: nat, sent: Sent)
      requires Valid() && Known(ci)
      modifies this`model, this`stats, clients, order, order.a, byName, byName.ents
      ensures Valid() && Kept() && Table() == Retable(old(Table()), model.names)
      ensures Sane(old(model)) && old(T(ci)) in old(model).obj
      ensures model == CFlush(old(model), old(T(ci)), sent, old(Rests()))
    {
      hide Valid, Sane, CDrop, CFlush, Tag, Update, Retable, At;
      Occupant(ci);
      TableMeans();
      ghost var r, t, rests, p := model, T(ci), Rests(), clients[ci].partner;
      CFlushIs(r, t, sent, rests);
      if p >= 0 {
        RestAt(p);
      }
      label Before:
      if clients[ci].txLen == 0 {
        return;
      }
      if sent.Broken? {
        Drop(ci);
        return;
      }
      var k := if sent.Took? && sent.k <= clients[ci].txLen then sent.k else 0;
      CutTx(ci, k);
      if p >= 0 {
        RestAt(p);
      }
      if clients[ci].txLen > MAX_BACKLOG {
        CDropReads(model.(stats := model.stats.(txDrops := model.stats.txDrops + 1)), t, Rests(), rests);
        DropBacklog(ci);
      } else {
        TableStays@Before();
      }
    }

    method DropBacklog(ci: nat)
      requires Valid() && Known(ci)
      modifies this`model, this`stats, clients, order, order.a, byName, byName.ents
      ensures Valid() && Kept() && Table() == Retable(old(Table()), model.names)
      ensures var r := old(model).(stats := old(model).stats.(txDrops := old(model).stats.txDrops + 1));
        Sane(r) && old(T(ci)) in r.obj && model == CDrop(r, old(T(ci)), old(Rests()))
    {
      Occupant(ci);
      hide Valid, Sane, CDrop, Retable;
      CountDrop();
      Occupant(ci);
      Drop(ci);
    }

    method CutTx(ci: nat, k: nat)
      requires Valid() && Known(ci) && clients[ci].Roomy() && k <= clients[ci].txLen
      modifies this`model, {clients[ci]}`txbuf, {clients[ci]}`txLen
      ensures Valid() && Known(ci) && clients[ci].txLen == old(clients[ci].txLen) - k
      ensures model == Update(old(model), old(T(ci)), old(model).obj[old(T(ci))].(tx := old(clients[ci].Tx())[k..]))
      ensures Kept() && forall x: nat :: x < |clients| && x != ci ==> clients[x].Rest() == old(clients[x].Rest())
    {
      Occupant(ci);
      Separate(ci);
      hide Valid, Tag, Sane, Occupied, FreshTags;
      label Before:
      clients[ci].Cut(k);
      model := Update(model, T(ci), View(ci));
      Settled@Before(ci);
    }

    method CountDrop()
      requires Valid()
      modifies this`model, this`stats
      ensures Valid() && model == old(model).(stats := old(model).stats.(txDrops := old(model).stats.txDrops + 1))
    {
      stats := stats.(txDrops := stats.txDrops + 1);
      model := model.(stats := stats);
      hide Occupied, FreshTags, Apart, Sane, Tag;
      Noted();
    }

    /** `flush`, as a step. */
    method Write(ci: nat, sent: Sent)
      requires Valid() && Known(ci) && !clients[ci].dead && AllAtRest()
      modifies this`model, this`stats, clients, order, order.a, byName, byName.ents
      ensures Valid() && Kept() && AllAtRest()
      ensures Sane(old(model)) && CPossible(old(Now()), Does(RelayRuns.Flushed(old(T(ci)), sent), old(Rests())))
      ensures Now() == CDo(cfg, old(Now()), Does(RelayRuns.Flushed(old(T(ci)), sent), old(Rests())))
    {
      hide Valid, Sane, CFlush, Tag, Retable;
      SlotAt(ci);
      Occupant(ci);
      label Before:
      CActKeepsRx(cfg, model, RelayRuns.Flushed(T(ci), sent), None, Rests());
      Flush(ci, sent);
      KeptSlots@Before();
      RestsOn@Before();
    }

    // ------------------------------------------------------------ slots

    /** Every dead slot is free now and one generation on; nothing else has changed. */
    twostate predicate Reaps()
      reads this, clients, order, order.a, byName, byName.ents
      reads set s | s in clients :: s.crc
      reads set s | s in clients :: s.crc.ents
    {
      && stats == old(stats)
      && unchanged(order) && unchanged(order.a) && unchanged(byName) && unchanged(byName.ents)
      && (forall x: nat {:trigger Apart(x, x)} :: x < |clients| ==>
            && unchanged(clients[x].crc) && unchanged(clients[x].crc.ents)
            && clients[x].Roomy() == old(clients[x].Roomy())
            && (if old(clients[x].inUse && clients[x].dead)
                then !clients[x].inUse && clients[x].gen == old(clients[x].gen) + 1 && clients[x].dead
                    && clients[x].partner == old(clients[x].partner)
                else unchanged(clients[x])))
    }

    twostate lemma OldOccupant(b: nat)
      requires old(Valid()) && b < |clients| && old(clients[b].inUse)
      ensures old(clients[b].partner) < |clients|
      ensures old(T(b)) in old(model).obj && old(View(b)) == old(model).obj[old(T(b))]
      ensures old(T(b)) in old(model).live <==> !old(clients[b].dead)
      ensures var p := old(clients[b].partner); p >= 0 ==> old(clients[p].inUse)
    {
      assert old(Occupied(b));
      TagsHave(old(order.ids), old(Gens()), b);
    }

    /** A slot in use is its occupant as `r` has it. */
    ghost predicate Faithful(ci: nat, r: State)
      requires ci < |clients|
      reads clients, clients[ci].crc
    {
      clients[ci].inUse ==> T(ci) in r.obj && View(ci) == r.obj[T(ci)]
    }

    /** After the sweep the slots stand for the clients as they are with every index that
        denoted a dead client denoting the next one to sit there. */
    twostate lemma ReapedFaithful(two: Two)
      requires old(Valid()) && Reaps() && two.touched < |clients|
      ensures Faithful(two.touched, Relinked(old(model)))
      ensures Slots()[two.touched] == Swept(old(Slots()), old(model).live)[two.touched]
      ensures two.touched in order.ids ==> clients[two.touched].gen == old(clients[two.touched].gen)
    {
      var b := two.touched;
      assert old(Occupied(b)) && Apart(b, b);
      if old(clients[b].inUse) {
        OldOccupant(b);
      }
      if clients[b].inUse {
        var p := clients[b].partner;
        if p >= 0 {
          assert Apart(p, p);
          OldOccupant(p);
          assert Tag(p, old(clients[p].gen) + 1) == Heir(old(T(p)));
        }
      }
    }

    /** Slot `b` refers to a slot whose occupant is gone from `r`. */
    ghost predicate Refers(b: nat, r: State)
      requires b < |clients|
      reads clients
    {
      clients[b].inUse && T(b) in r.obj && r.obj[T(b)].partner.Some? && r.obj[T(b)].partner.value !in r.live
    }

    /** After the sweep such a slot's index denotes a client nobody has met. */
    twostate lemma StrangerInherits(b: nat)
      requires old(Valid()) && Reaps() && b < |clients| && Refers(b, old(model))
      ensures View(b).partner.Some? && View(b).partner.value !in old(model).obj && !Faithful(b, old(model))
      ensures !Valid()
    {
      assert Apart(b, b);
      OldOccupant(b);
      var p := clients[b].partner;
      assert Apart(p, p);
      OldOccupant(p);
      assert old(FreshTags(p));
      assert !clients[p].inUse;
      assert !Occupied(b);
    }

    /** The slot of a live client whose partner lives no longer. */
    twostate lemma Dangler() returns (b: nat)
      requires old(Valid()) && !NoneDangling(old(model)) && Reaps()
      ensures b < |clients| && Refers(b, old(model))
    {
      var c :| c in old(model).live && c in old(model).obj && old(model).obj[c].partner.Some?
        && old(model).obj[c].partner.value !in old(model).live;
      var k :| 0 <= k < |old(model).live| && old(model).live[k] == c;
      b := old(order.ids)[k];
      assert old(Occupied(b)) && Apart(b, b);
      assert b in old(order.ids);
    }

    twostate lemma ReapedSlot(b: nat)
      requires old(Valid()) && NoneDangling(old(model)) && Reaps() && model == old(model) && b < |clients|
      ensures Occupied(b) && FreshTags(b)
      ensures b in order.ids ==> clients[b].gen == old(clients[b].gen)
    {
      assert old(Occupied(b)) && old(FreshTags(b)) && Apart(b, b);
      if clients[b].inUse {
        OldOccupant(b);
        var p := clients[b].partner;
        if p >= 0 {
          assert Apart(p, p);
          OldOccupant(p);
        }
      }
    }

    twostate lemma Reaped()
      requires old(Valid()) && NoneDangling(old(model)) && Reaps() && model == old(model)
      ensures Valid()
    {
      hide Occupied, FreshTags;
      forall b: nat | b < |clients|
        ensures Occupied(b) && FreshTags(b) && (b in order.ids ==> clients[b].gen == old(clients[b].gen)) {
        ReapedSlot(b);
      }
      SameTags(order.ids, old(Gens()), Gens());
    }

    /** The sweep as the model has it, and when it is nothing to the clients: exactly when no
        live one referred to a dead one, and only then can the class go on. */
    twostate lemma ReapedIff()
      requires old(Valid()) && Reaps() && model == Relinked(old(model))
      ensures Now() == CState(Relinked(old(model)), Swept(old(Slots()), old(model).live), old(Table()))
      ensures forall ci: nat {:trigger Faithful(ci, model)} :: ci < |clients| ==> Faithful(ci, model)
      ensures (forall ci: nat {:trigger Faithful(ci, old(model))} :: ci < |clients| ==> Faithful(ci, old(model)))
        <==> NoneDangling(old(model))
      ensures Valid() <==> NoneDangling(old(model))
    {
      var was := old(model);
      assert Sane(was);
      hide Valid, Faithful, Refers, Reaps, Relinked, Slots, Sane;
      RelinkedIff(was);
      forall ci: nat | ci < |clients|
        ensures Faithful(ci, model) && Slots()[ci] == Swept(old(Slots()), was.live)[ci]
      {
        ReapedFaithful(Two(ci, ci));
      }
      assert Slots() == Swept(old(Slots()), was.live);
      assert Table() == old(Table()) by { ReapKeepsTable(); }
      if NoneDangling(was) {
        Reaped();
      } else {
        var b := Dangler();
        StrangerInherits(b);
      }
    }

    twostate lemma ReapKeepsTable()
      requires Reaps()
      ensures Table() == old(Table())
    {
    }

    /** `reap`: every dead slot is free again, its occupant a client no longer. The slots
        still stand for the clients of the abstract relay exactly when no live client
        referred to a dead one. */
    method Reap()
      requires Valid()
      modifies this`model, clients
      ensures Reaps() && Sane(old(model)) && CPossible(old(Now()), Sweep)
      ensures Now() == CDo(cfg, old(Now()), Sweep)
      ensures forall ci: nat {:trigger Faithful(ci, model)} :: ci < |clients| ==> Faithful(ci, model)
      ensures (forall ci: nat {:trigger Faithful(ci, old(model))} :: ci < |clients| ==> Faithful(ci, old(model)))
        <==> NoneDangling(old(model))
      ensures Valid() <==> NoneDangling(old(model))
    {
      label Before:
      FreeDead();
      hide Valid, Faithful, Slots, Relinked, Swept, Reaps;
      ReapedIff@Before();
    }

    method FreeDead()
      requires Valid()
      modifies this`model, clients
      ensures Reaps() && model == Relinked(old(model))
    {
      hide Relinked;
      Disjoint();
      var i := 0;
      while i < |clients|
        invariant 0 <= i <= |clients| && model == old(model)
        invariant forall x: nat {:trigger clients[x]} :: x < i && old(clients[x].inUse && clients[x].dead) ==>
          !clients[x].inUse && clients[x].gen == old(clients[x].gen) + 1 && clients[x].dead
          && clients[x].partner == old(clients[x].partner) && clients[x].Roomy() == old(clients[x].Roomy())
        invariant forall x: nat {:trigger clients[x]} ::
          x < |clients| && (x >= i || !old(clients[x].inUse && clients[x].dead)) ==> unchanged(clients[x])
      {
        if clients[i].inUse && clients[i].dead {
          clients[i].inUse := false;
          clients[i].gen := clients[i].gen + 1;
        }
        i := i + 1;
      }
      model := Relinked(model);
    }

    lemma Disjoint()
      requires Valid()
      ensures forall a: nat, b: nat {:trigger clients[a], clients[b]} :: a < b < |clients| ==> clients[a] != clients[b]
    {
      forall a: nat, b: nat | a < b < |clients| ensures clients[a] != clients[b] {
        assert Apart(a, b);
      }
    }

    /** Slot `ci`, free before, seats a new client at the end of the order. */
    twostate predicate Seats(ci: nat)
      requires ci < |clients|
      reads this, clients, order, order.a, byName, byName.ents
      reads set s | s in clients :: s.crc
      reads set s | s in clients :: s.crc.ents
    {
      && !old(clients[ci].inUse) && clients[ci].inUse && !clients[ci].dead
      && clients[ci].gen == old(clients[ci].gen) && clients[ci].partner == -1
      && clients[ci].crc.Valid() && clients[ci].Roomy()
      && stats == old(stats) && unchanged(byName) && unchanged(byName.ents)
      && (forall x: nat {:trigger Apart(x, x)} :: x < |clients| && x != ci ==>
            unchanged(clients[x]) && unchanged(clients[x].crc) && unchanged(clients[x].crc.ents))
      && order.Valid() && order.ids == old(order.ids) + [ci]
      && model == Update(old(model), T(ci), View(ci)).(live := old(model).live + [T(ci)])
    }

    twostate lemma SeatedSlot(two: Two)
      requires old(Valid()) && two.touched < |clients| && two.other < |clients| && Seats(two.touched)
      ensures Occupied(two.other) && FreshTags(two.other) && clients[two.other].gen == old(clients[two.other].gen)
    {
      hide Tag;
      var ci, b := two.touched, two.other;
      assert old(Occupied(b)) && old(FreshTags(b)) && old(FreshTags(ci)) && Apart(b, b);
      assert Tag(ci, clients[ci].gen) !in old(model).obj;
      assert T(ci) == Tag(ci, clients[ci].gen);
      assert model == Update(old(model), T(ci), View(ci)).(live := old(model).live + [T(ci)]);
      assert model.obj.Keys == old(model).obj.Keys + {T(ci)};
      forall g: nat | (g > clients[b].gen || (g == clients[b].gen && !clients[b].inUse))
        ensures Tag(b, g) !in model.obj {
        TagsDiffer(b, g, ci, clients[ci].gen);
        assert Tag(b, g) !in old(model).obj;
      }
      TagsDiffer(b, clients[b].gen, ci, clients[ci].gen);
      var p := clients[b].partner;
      if p >= 0 {
        assert Apart(p, p);
      }
    }

    twostate lemma Seated(ci: nat)
      requires old(Valid()) && ci < |clients| && Seats(ci)
      ensures Valid()
    {
      assert old(FreshTags(ci)) && old(Occupied(ci));
      assert old(Tag(ci, clients[ci].gen)) !in old(model).obj;
      hide Occupied, FreshTags, Tag;
      forall b: nat | b < |clients| ensures Occupied(b) && FreshTags(b) && clients[b].gen == old(clients[b].gen) {
        SeatedSlot(Two(ci, b));
      }
      assert Gens() == old(Gens());
      TagsSnoc(old(order.ids), Gens(), ci);
      JoinSane(old(model), T(ci), View(ci));
    }

    /** The first free slot, or -1. */
    method FreeSlot() returns (ci: int)
      ensures -1 <= ci < |clients|
      ensures if ci >= 0 then !clients[ci].inUse && forall x: nat :: x < ci ==> clients[x].inUse
              else forall x: nat :: x < |clients| ==> clients[x].inUse
    {
      ci := 0;
      while ci < |clients|
        invariant 0 <= ci <= |clients|
        invariant forall x: nat :: x < ci ==> clients[x].inUse
      {
        if !clients[ci].inUse {
          return;
        }
        ci := ci + 1;
      }
      return -1;
    }

    method CountIp(ip: int) returns (same: nat)
      requires Valid()
      ensures same == SameIp(model, model.live, ip)
    {
      hide Valid, Sane, Tag, Tags;
      OrderMeans();
      ghost var live := model.live;
      same := 0;
      var i := 0;
      assert live[0..] == live;
      while i < order.n
        invariant 0 <= i <= order.n == |live|
        invariant same + SameIp(model, live[i..], ip) == SameIp(model, live, ip)
      {
        OrderEntry(i);
        Occupant(order.a[i]);
        assert live[i..][1..] == live[i + 1..] && live[i..][0] == live[i];
        if clients[order.a[i]].ip == ip {
          same := same + 1;
        }
        i := i + 1;
      }
      assert live[i..] == [];
    }

    method CountReject()
      requires Valid()
      modifies this`model, this`stats
      ensures Valid() && model == old(model).(stats := old(model).stats.(ipRejects := old(model).stats.ipRejects + 1))
    {
      stats := stats.(ipRejects := stats.ipRejects + 1);
      model := model.(stats := stats);
      hide Occupied, FreshTags, Apart, Sane, Tag;
      Noted();
    }

    /** `client_alloc` in a slot found free. */
    method Seat(ci: nat, ip: int, now: int)
      requires Valid() && ci < |clients| && !clients[ci].inUse && order.n < MAX_CLIENTS
      modifies this`model, clients[ci], clients[ci].crc, order, order.a
      ensures Valid() && Known(ci) && old(T(ci)) !in old(model).obj && T(ci) == old(T(ci))
      ensures model == Update(old(model), T(ci), NEW_CLIENT.(ip := ip, born := now)).(live := old(model).live + [T(ci)])
      ensures Slots() == old(Slots())[ci := Some(T(ci))] && clients[ci].rx == []
    {
      assert Occupied(ci) && FreshTags(ci);
      assert T(ci) !in model.obj && clients[ci].crc.Valid() && clients[ci].Roomy();
      Separate(ci);
      OrderMeans();
      hide Valid, Occupied, FreshTags, Sane, Tag, Apart, NoRepeat, Tags, Dict, NamesDistinct, Gens, View;
      label Before:
      Place(ci, ip, now);
      model := Update(model, T(ci), View(ci)).(live := model.live + [T(ci)]);
      hide Update;
      Seated@Before(ci);
    }

    method Place(ci: nat, ip: int, now: int)
      requires ci < |clients| && clients[ci].crc.Valid() && clients[ci].Roomy()
      requires order.Valid() && |order.ids| < MAX_CLIENTS
      modifies clients[ci], clients[ci].crc, order, order.a
      ensures clients[ci].inUse && !clients[ci].dead && clients[ci].gen == old(clients[ci].gen)
      ensures clients[ci].partner == -1 && clients[ci].crc.Valid() && clients[ci].Roomy()
      ensures View(ci) == NEW_CLIENT.(ip := ip, born := now)
      ensures order.Valid() && order.ids == old(order.ids) + [ci]
    {
      hide View, OrderTable.Valid;
      OpenAt(ci, ip, now);
      order.Add(ci);
    }

    method OpenAt(ci: nat, ip: int, now: int)
      requires ci < |clients| && clients[ci].crc.Valid() && clients[ci].Roomy()
      modifies clients[ci], clients[ci].crc
      ensures clients[ci].inUse && !clients[ci].dead && clients[ci].gen == old(clients[ci].gen)
      ensures clients[ci].partner == -1 && clients[ci].crc.Valid() && clients[ci].Roomy()
      ensures View(ci) == NEW_CLIENT.(ip := ip, born := now)
    {
      hide View, Slot.SideOf, CrcTable.Valid;
      clients[ci].Open(ip, now);
      OpenedView(ci, ip, now);
    }

    lemma OpenedView(ci: nat, ip: int, now: int)
      requires ci < |clients|
      requires var s := clients[ci];
        && s.partner == -1 && s.rx == [] && s.Tx() == [] && !s.hasName && s.tv == -1 && s.role == -1
        && s.born == now && s.ip == ip && s.SideOf() == NEW_SIDE
      ensures View(ci) == NEW_CLIENT.(ip := ip, born := now)
    {
    }

    /** Where a free slot is looked for. */
    lemma FreeIs(ci: int)
      requires -1 <= ci < |clients|
      requires if ci >= 0 then !clients[ci].inUse && forall x: nat :: x < ci ==> clients[x].inUse
               else forall x: nat :: x < |clients| ==> clients[x].inUse
      ensures Full(Slots()) <==> ci < 0
      ensures ci >= 0 ==> FirstFree(Slots()) == ci
    {
      var s := Slots();
      if ci >= 0 {
        assert s[ci].None?;
        var k := FirstFree(s);
        assert k < |s| && s[k].None?;
      } else {
        forall k | 0 <= k < |s| ensures s[k].Some? {
          assert clients[k].inUse;
        }
      }
    }

    /** An identity no client has had or will have before the slot's next but one. */
    lemma Unmet() returns (c: Id)
      requires Valid()
      ensures c !in model.obj
    {
      assert FreshTags(0);
      c := Tag(0, clients[0].gen + 1);
    }

    /** `accept_client`: as the Python while there is a free slot. A dead slot that waits
        for `reap` is not free, and then a connection Python would take is closed. `c` is
        who sits in the slot `ci`, or anyone. */
    method Accept(ip: int, now: int) returns (ci: int, ghost c: Id)
      requires Valid()
      modifies this`model, this`stats, clients, (set s | s in clients :: s.crc), order, order.a
      ensures Valid() && -1 <= ci < |clients|
      ensures Sane(old(model)) && CPossible(old(Now()), Does(RelayRuns.Arrive(c, ip, now), old(Rests())))
      ensures Now() == CDo(cfg, old(Now()), Does(RelayRuns.Arrive(c, ip, now), old(Rests())))
      ensures ci >= 0 ==> c == T(ci)
      ensures old(AllAtRest()) ==> AllAtRest()
    {
      c := Unmet();
      OrderMeans();
      var same := CountIp(ip);
      assert !model.halted && Sane(model);
      hide Sane, Occupied, FreshTags, Apart, SameIp, Tag, Valid, Slots, Table, FirstFree, Full, CDo, CPossible, Update;
      ghost var s, rests := Now(), Rests();
      label Before:
      ArriveIs(cfg, s, c, ip, now, rests);
      if order.n >= MAX_CLIENTS {
        return -1, c;
      }
      if same >= MAX_PER_IP {
        CountReject();
        KeptSlots@Before();
        return -1, c;
      }
      ci := FreeSlot();
      FreeIs(ci);
      if ci >= 0 {
        c := T(ci);
        ArriveIs(cfg, s, c, ip, now, rests) by { SeatIsNew(ci); }
        TakeSeat(ci, ip, now);
      }
    }

    method TakeSeat(ci: nat, ip: int, now: int)
      requires Valid() && ci < |clients| && !clients[ci].inUse && order.n < MAX_CLIENTS && FirstFree(Slots()) == ci
      modifies this`model, clients[ci], clients[ci].crc, order, order.a
      ensures Valid() && T(ci) == old(T(ci)) && old(T(ci)) !in old(model).obj
      ensures Now() == CState(
          Update(old(model), T(ci), NEW_CLIENT.(ip := ip, born := now)).(live := old(model).live + [T(ci)]),
          Sit(old(Slots()), T(ci)), old(Table()))
      ensures old(AllAtRest()) ==> AllAtRest()
    {
      hide Sane, Occupied, FreshTags, Apart, Tag, Valid, FirstFree, Update, Slots, Table;
      label Before:
      Separate(ci);
      Seat(ci, ip, now);
      SeatedRests@Before(ci);
    }

    lemma SeatIsNew(ci: nat)
      requires Valid() && ci < |clients| && !clients[ci].inUse
      ensures T(ci) !in model.obj
    {
      assert FreshTags(ci);
    }

    // ------------------------------------------------------------ the loop

    /** The test the loop makes before it serves an event. */
    method Listening(ci: nat, gen: nat) returns (b: bool)
      requires Valid()
      ensures b <==> Listens(Now(), ci, gen)
      ensures b ==> Known(ci) && !clients[ci].dead && T(ci) == Tag(ci, gen)
    {
      b := ci < |clients| && clients[ci].inUse && clients[ci].gen == gen && !clients[ci].dead;
      ListensIs(ci, gen);
      if b {
        StillKnown(ci);
      }
    }

    lemma ListensIs(ci: nat, gen: nat)
      requires Valid()
      ensures Listens(Now(), ci, gen)
        <==> ci < |clients| && clients[ci].inUse && clients[ci].gen == gen && !clients[ci].dead
    {
      if ci < |clients| && clients[ci].inUse {
        TagsDiffer(ci, clients[ci].gen, ci, gen);
        StillKnown(ci);
        Occupant(ci);
      }
    }

    /** A readable socket. */
    method Read(ci: nat, data: seq<u8>, lucks: seq<Luck>) returns (ghost es: seq<CStep>)
      requires Valid() && AllAtRest() && Known(ci) && !clients[ci].dead && |data| <= RECV_SIZE
      requires |lucks| >= RX_CAP && forall l :: l in lucks ==> |l.digits| == SEARCH_LIMIT
      modifies this`model, this`stats, clients, order, order.a, byName, byName.ents
      modifies set s | s in clients :: s.crc
      modifies set s | s in clients :: s.crc.ents
      ensures Valid() && AllAtRest()
      ensures CRun(cfg, old(Now()), es) && Now() == CAfter(cfg, old(Now()), es)
      ensures data == [] ==> |es| == 1 && es[0].Does? && es[0].s == RelayRuns.Lost(old(T(ci)))
      ensures data != [] ==> ReadsBuffer(cfg, old(Now()), old(T(ci)), data, lucks, es)
    {
      hide Valid, Sane, CRun, CAfter, CDo, CService, ReadsBuffer, Served, CPossible, Front,
           Slots, Table, Rests, Tag, AllAtRest;
      ghost var s, c, rests := Now(), T(ci), Rests();
      if data == [] {
        Close(ci);
        ghost var e := Does(RelayRuns.Lost(c), rests);
        OneTakes(cfg, s, e);
        es := [e];
        return;
      }
      ghost var ms := Receive(ci, data, lucks);
      ghost var e := Does(RelayRuns.Chunk(c, data), rests);
      ReadTakes(cfg, s, c, data, rests, ms, lucks);
      es := [e] + CServiceSteps(cfg, CDo(cfg, s, e), c, ms);
    }

    /** One event. */
    method Serve(e: Event) returns (ghost es: seq<CStep>)
      requires Valid() && AllAtRest() && Ready(e) && (e.EndOfTurn? ==> NoneDangling(model))
      modifies this`model, this`stats, clients, order, order.a, byName, byName.ents
      modifies set s | s in clients :: s.crc
      modifies set s | s in clients :: s.crc.ents
      ensures Valid() && AllAtRest()
      ensures Takes(cfg, old(Now()), e, es) && Now() == CAfter(cfg, old(Now()), es)
    {
      hide Valid, Sane, CDo, ReadsBuffer, Served, CPossible, Front, Slots, Table, Rests,
           Tag, AllAtRest, Listens, NoneDangling;
      hide CRun, CAfter;
      ghost var s, rests := Now(), Rests();
      es := [];
      RunsNothing(cfg, s);
      match e
      case Connect(ip, now) =>
        ghost var c := Admit(ip, now);
        es := [Does(RelayRuns.Arrive(c, ip, now), rests)];
      case Readable(ci, gen, data, lucks) =>
        var b := Listening(ci, gen);
        if b {
          es := Read(ci, data, lucks);
        }
      case Writable(ci, gen, sent) =>
        var b := Listening(ci, gen);
        if b {
          Write(ci, sent);
          es := [Does(RelayRuns.Flushed(Tag(ci, gen), sent), rests)];
          OneTakes(cfg, s, es[0]);
        }
      case Overdue(ci, gen) =>
        var b := Listening(ci, gen);
        if b {
          Expire(ci);
          es := [Does(RelayRuns.Expired(Tag(ci, gen)), rests)];
          OneTakes(cfg, s, es[0]);
        }
      case EndOfTurn =>
        SweepOut();
        es := [Sweep];
    }

    method Admit(ip: int, now: int) returns (ghost c: Id)
      requires Valid() && AllAtRest()
      modifies this`model, this`stats, clients, (set s | s in clients :: s.crc), order, order.a
      ensures Valid() && AllAtRest()
      ensures var es := [Does(RelayRuns.Arrive(c, ip, now), old(Rests()))];
        CRun(cfg, old(Now()), es) && Now() == CAfter(cfg, old(Now()), es)
    {
      var ci, who := Accept(ip, now);
      c := who;
      OneTakes(cfg, old(Now()), Does(RelayRuns.Arrive(c, ip, now), old(Rests())));
    }

    method SweepOut()
      requires Valid() && AllAtRest() && NoneDangling(model)
      modifies this`model, clients
      ensures Valid() && AllAtRest()
      ensures CRun(cfg, old(Now()), [Sweep]) && Now() == CAfter(cfg, old(Now()), [Sweep])
    {
      hide Valid, CDo, Slots, Table, NoneDangling, Sane, CPossible;
      label Before:
      Reap();
      OneTakes(cfg, old(Now()), Sweep);
      SweptRests@Before();
    }

    twostate lemma SweptRests()
      requires old(AllAtRest()) && Reaps()
      ensures AllAtRest()
    {
      forall b: nat | b < |clients| ensures AtRest(b) {
        assert old(AtRest(b)) && Apart(b, b);
      }
    }

    /** Whether some index would denote a stranger after a sweep. */
    method Dangles() returns (b: bool)
      requires Valid()
      ensures b == !NoneDangling(model)
    {
      OrderMeans();
      ghost var live := model.live;
      hide Valid, Tag, Tags, Sane;
      b := false;
      var i := 0;
      while i < order.n
        invariant 0 <= i <= order.n == |live|
        invariant b ==> !NoneDangling(model)
        invariant !b ==> forall k :: 0 <= k < i && live[k] in model.obj && model.obj[live[k]].partner.Some? ==>
          model.obj[live[k]].partner.value in live
      {
        var o := order.a[i];
        OrderEntry(i);
        Occupant(o);
        if clients[o].partner >= 0 {
          Occupant(clients[o].partner);
          if clients[clients[o].partner].dead {
            b := true;
          }
        }
        i := i + 1;
      }
    }

    /** THE LOOP. Any sequence of events, in any order, is a run of the C relay, slot by slot
        and name by name, as far as the first sweep that would leave an index to a stranger. */
    method Play(events: seq<Event>) returns (k: nat, ghost es: seq<CStep>)
      requires Valid() && AllAtRest() && forall e :: e in events ==> Ready(e)
      modifies this`model, this`stats, clients, order, order.a, byName, byName.ents
      modifies set s | s in clients :: s.crc
      modifies set s | s in clients :: s.crc.ents
      ensures Valid() && AllAtRest() && k <= |events|
      ensures Plays(cfg, old(Now()), events[..k], es)
      ensures CRun(cfg, old(Now()), es) && Now() == CAfter(cfg, old(Now()), es)
      ensures k < |events| ==> events[k].EndOfTurn? && !NoneDangling(model)
    {
      hide Valid, AllAtRest, Plays, CRun, CAfter, Takes, Now, Ready, NoneDangling;
      ghost var s := Now();
      k, es := 0, [];
      PlaysNothing(cfg, s);
      assert events[..0] == [];
      while k < |events|
        invariant 0 <= k <= |events| && Valid() && AllAtRest()
        invariant Plays(cfg, s, events[..k], es) && CRun(cfg, s, es) && Now() == CAfter(cfg, s, es)
      {
        if events[k].EndOfTurn? {
          var d := Dangles();
          if d {
            return;
          }
        }
        ghost var more := Serve(events[k]);
        PlaysMore(cfg, s, events[..k], events[k], es, more);
        assert events[..k] + [events[k]] == events[..k + 1];
        es := es + more;
        k := k + 1;
      }
    }

    twostate lemma SeatedRests(ci: nat)
      requires ci < |clients| && clients[ci].rx == []
      requires forall x: nat {:trigger clients[x]} :: x < |clients| && x != ci ==> unchanged(clients[x])
      ensures old(AllAtRest()) ==> AllAtRest()
    {
      if old(AllAtRest()) {
        forall b: nat | b < |clients| ensures AtRest(b) {
          assert old(AtRest(b));
        }
      }
    }

    method MatchUp(host: nat, guest: nat, seed: nat)
      requires Valid() && Known(host) && Known(guest) && host != guest
      modifies this`model, this`stats, clients, (set s | s in clients :: s.crc), (set s | s in clients :: s.crc.ents)
      ensures Valid() && model == CMatchUp(cfg, old(model), old(T(host)), old(T(guest)), seed, old(Rests()))
      ensures Kept()
    {
      hide Valid, StartMsg, FrameBytes, Tag, Sane, Saturate, At;
      Occupant(host);
      Occupant(guest);
      RestAt(host);
      RestAt(guest);
      SameTag(host, guest);
      var hostName, guestName := NameOf(host), NameOf(guest);
      Separate(host);
      ghost var r, h, g, rests := model, T(host), T(guest), Rests();
      StartOne(host, guest, 0, seed, guestName);
      ghost var r1 := model;
      RestAt(guest);
      StartOne(guest, host, 1, seed, hostName);
      assert model == CStartOne(r1, g, h, 1, FrameBytes(StartMsg(cfg, 1, seed, hostName)), rests);
      CountMatch();
    }

    /** `try_pair`. A caller without a name is paired all the same, under no name. */
    method TryPair(ci: nat, seed: nat)
      requires Valid() && Known(ci)
      modifies this`model, this`stats, clients, (set s | s in clients :: s.crc), (set s | s in clients :: s.crc.ents)
      ensures Valid() && model == CTryPair(cfg, old(model), old(T(ci)), seed, old(Rests()))
      ensures Kept()
    {
      hide Valid, Others, Oldest, CMatchUp, Sane;
      Occupant(ci);
      var host := FindWaiting(ci);
      if host >= 0 {
        MatchUp(host, ci, seed);
      }
    }
  }

  /** `flush`, case by case. What the partner's array holds beyond its buffer does not
      depend on the client's own. */
  lemma CFlushIs(r: State, c: Id, sent: Sent, stale: Stale)
    requires Sane(r) && c in r.obj
    ensures var tx := r.obj[c].tx;
      && (tx == [] ==> CFlush(r, c, sent, stale) == r)
      && (tx != [] && sent.Broken? ==> CFlush(r, c, sent, stale) == CDrop(r, c, stale))
      && (tx != [] && !sent.Broken? ==>
            var rest := if sent.Took? && sent.k <= |tx| then tx[sent.k..] else tx;
            var r1 := Update(r, c, r.obj[c].(tx := rest));
            if |rest| <= MAX_BACKLOG then CFlush(r, c, sent, stale) == r1
            else
              var r2 := r1.(stats := r1.stats.(txDrops := r1.stats.txDrops + 1));
              Sane(r2) && c in r2.obj && r2.obj[c].partner == r.obj[c].partner
              && CFlush(r, c, sent, stale) == CDrop(r2, c, stale))
  {
    hide CDrop;
    UpdateKeeps(r, c, Cut(r, c, sent).obj[c]);
  }

  lemma CDropReads(r: State, c: Id, stale: Stale, stale': Stale)
    requires Sane(r) && c in r.obj
    requires r.obj[c].partner.Some? ==> At(stale, r.obj[c].partner.value) == At(stale', r.obj[c].partner.value)
    ensures CDrop(r, c, stale) == CDrop(r, c, stale')
  {
  }

  /** `log_crc` in C, as its steps: the entry, and then ageing or the comparison. */
  lemma CLogCrcIs(r: State, c: Id, tick: u8, crc: u8)
    requires Sane(r) && c in r.obj
    ensures var x := r.obj[c]; var key := KeyOf(x.side, tick);
      var x1 := x.(side := Side(CPut(x.side.log, key, crc), NextLap(x.side, tick), Some(tick)));
      var r1 := Update(r, c, x1);
      && c in r1.obj && r1.obj[c] == x1 && r1.stats == r.stats
      && (x.partner.Some? ==> x.partner.value in r1.obj && r1.obj[x.partner.value] == r.obj[x.partner.value])
      && (x.partner.None? || Find(r.obj[x.partner.value].side.log, key) < 0 ==>
            CLogCrc(r, c, tick, crc) == Update(r1, c, x1.(side := x1.side.(log := Evict(x1.side.log)))))
      && (x.partner.Some? && Find(r.obj[x.partner.value].side.log, key) >= 0 ==>
            var p, y := x.partner.value, r.obj[x.partner.value];
            CLogCrc(r, c, tick, crc)
               == Update(r1, p, y.(side := y.side.(log := Pop(y.side.log, key))))
                    .(stats := Count(r.stats,
                                     if y.side.log[Find(y.side.log, key)].crc != crc then Mismatch else Agree)))
  {
    hide CPut, KeyOf, NextLap, Evict, Pop, Find;
  }

  lemma PlaysNothing(cfg: Config, s: CState)
    ensures Plays(cfg, s, [], []) && CRun(cfg, s, []) && CAfter(cfg, s, []) == s
  {
  }

  /** An arrival, case by case. */
  lemma ArriveIs(cfg: Config, s: CState, c: Id, ip: int, now: int, stale: Stale)
    requires Sane(s.r) && !s.r.halted && c !in s.r.obj
    ensures CPossible(s, Does(RelayRuns.Arrive(c, ip, now), stale))
    ensures var s' := CDo(cfg, s, Does(RelayRuns.Arrive(c, ip, now), stale)); var same := SameIp(s.r, s.r.live, ip);
      && (|s.r.live| >= MAX_CLIENTS ==> s' == s)
      && (|s.r.live| < MAX_CLIENTS && same >= MAX_PER_IP ==>
            s' == s.(r := s.r.(stats := s.r.stats.(ipRejects := s.r.stats.ipRejects + 1))))
      && (|s.r.live| < MAX_CLIENTS && same < MAX_PER_IP ==>
            if Full(s.slots) then s' == s
            else s' == CState(Update(s.r, c, NEW_CLIENT.(ip := ip, born := now)).(live := s.r.live + [c]),
                              Sit(s.slots, c), s.table))
  {
    hide SameIp, Full, FirstFree;
  }

  lemma RunsNothing(cfg: Config, s: CState)
    ensures CRun(cfg, s, []) && CAfter(cfg, s, []) == s
  {
  }

  lemma TakesNone(cfg: Config, s: CState, c: Id)
    requires Served(s, c)
    ensures CTakes(cfg, s, c, [], s)
  {
  }

  lemma OthersEmpty(r: State, c: Id)
    ensures Others(r, [], c) == []
  {
  }

  lemma {:induction false} OthersSnoc(r: State, ids: seq<Id>, x: Id, c: Id)
    ensures Others(r, ids + [x], c) == Others(r, ids, c) + (if Idle(r, x) && x != c then [x] else [])
    decreases |ids|
  {
    if ids == [] {
      assert ids + [x] == [x] && [x][1..] == [];
    } else {
      assert (ids + [x])[1..] == ids[1..] + [x];
      OthersSnoc(r, ids[1..], x, c);
    }
  }

  lemma OldestOne(r: State, x: Id)
    requires x in r.obj
    ensures Oldest(r, [x]) == x
  {
  }

  lemma {:induction false} OldestSnoc(r: State, s: seq<Id>, x: Id)
    requires s != [] && x in r.obj && forall y :: y in s ==> y in r.obj
    ensures forall y :: y in s + [x] ==> y in r.obj
    ensures Oldest(r, s + [x]) == if r.obj[x].born < r.obj[Oldest(r, s)].born then x else Oldest(r, s)
    decreases |s|
  {
    if |s| > 1 {
      assert (s + [x])[1..] == s[1..] + [x];
      OldestSnoc(r, s[1..], x);
    } else {
      assert (s + [x])[1..] == [x];
    }
  }

  lemma SameTags(ids: seq<nat>, gens: seq<nat>, gens': seq<nat>)
    requires |gens| == |gens'| && forall k :: 0 <= k < |ids| ==> ids[k] < |gens| && gens[ids[k]] == gens'[ids[k]]
    ensures Tags(ids, gens) == Tags(ids, gens')
  {
  }

  lemma TagsSnoc(ids: seq<nat>, gens: seq<nat>, ci: nat)
    requires ci < |gens| && forall k :: 0 <= k < |ids| ==> ids[k] < |gens|
    ensures Tags(ids + [ci], gens) == Tags(ids, gens) + [Tag(ci, gens[ci])]
  {
  }

  lemma WithoutHas(s: seq<nat>, c: nat, x: nat)
    ensures x in Without(s, c) <==> x in s && x != c
    ensures NoRepeat(s) ==> NoRepeat(Without(s, c))
  {
  }

  lemma TagsHave(ids: seq<nat>, gens: seq<nat>, ci: nat)
    requires |gens| == MAX_CLIENTS && ci < |gens| && forall k :: 0 <= k < |ids| ==> ids[k] < |gens|
    ensures Tag(ci, gens[ci]) in Tags(ids, gens) <==> ci in ids
  {
    if ci in ids {
      var k :| 0 <= k < |ids| && ids[k] == ci;
      assert Tags(ids, gens)[k] == Tag(ci, gens[ci]);
    }
    if Tag(ci, gens[ci]) in Tags(ids, gens) {
      var k :| 0 <= k < |ids| && Tags(ids, gens)[k] == Tag(ci, gens[ci]);
      TagsDiffer(ids[k], gens[ids[k]], ci, gens[ci]);
    }
  }

  lemma {:induction false} WithoutTags(ids: seq<nat>, gens: seq<nat>, ci: nat)
    requires |gens| == MAX_CLIENTS && ci < |gens| && forall k :: 0 <= k < |ids| ==> ids[k] < |gens|
    ensures forall k :: 0 <= k < |Without(ids, ci)| ==> Without(ids, ci)[k] < |gens|
    ensures Tags(Without(ids, ci), gens) == Without(Tags(ids, gens), Tag(ci, gens[ci]))
    decreases |ids|
  {
    forall k | 0 <= k < |Without(ids, ci)| ensures Without(ids, ci)[k] < |gens| {
      assert Without(ids, ci)[k] in ids;
    }
    if ids != [] {
      TagsDiffer(ids[0], gens[ids[0]], ci, gens[ci]);
      WithoutTags(ids[1..], gens, ci);
      assert Tags(ids, gens)[1..] == Tags(ids[1..], gens);
    }
  }
}
