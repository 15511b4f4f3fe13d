/** What the relay answers, as the bytes a console gets to read. */
module Answers {
  import opened Bytes
  import opened Framing
  import opened Verdicts
  import opened Relay
  import opened RelayRuns
  import opened Fifo
  import opened FifoProofs
  import Handing

  // -------------------------------------------------------------- the lobby

  predicate HasName(r: State, c: Id) {
    c in r.obj && r.obj[c].name.Some?
  }

  /** How many of these clients have a name. */
  function HowMany(r: State, ids: seq<Id>): nat {
    if ids == [] then 0 else HowMany(r, ids[1..]) + (if HasName(r, ids[0]) then 1 else 0)
  }

  /** Nine bytes about one client: its name, and whether it has a partner. */
  predicate Describes(b: seq<u8>, x: Client) {
    |b| == 9 && x.name.Some? && Handing.Spelled(b[..8], x.name.value) && b[8] == if x.partner.Some? then 1 else 0
  }

  /** The frame of a LOBBY: how many follow, at most eight, and then the first of the live
      named clients, each described at the place its rank in accept order gives it. */
  ghost predicate ListsLobby(r: State, b: seq<u8>) {
    var n := if HowMany(r, r.live) < 8 then HowMany(r, r.live) else 8;
    && |b| == 3 + 9 * n && b[0] as int == 2 + 9 * n && b[1] == 3 && b[2] == n
    && forall k :: 0 <= k < |r.live| && HasName(r, r.live[k]) && HowMany(r, r.live[..k]) < 8 ==>
         var i := HowMany(r, r.live[..k]);
         3 + 9 * i + 9 <= |b| && Describes(b[3 + 9 * i..3 + 9 * i + 9], r.obj[r.live[k]])
  }

  lemma {:induction false} NamedByRank(r: State, ids: seq<Id>, k: nat)
    ensures |Named(r, ids)| == HowMany(r, ids)
    ensures k < |ids| && HasName(r, ids[k]) ==>
      HowMany(r, ids[..k]) < |Named(r, ids)| && Named(r, ids)[HowMany(r, ids[..k])] == ids[k]
    decreases |ids|
  {
    if ids != [] {
      NamedByRank(r, ids[1..], if k == 0 then 0 else k - 1);
      if 0 < k < |ids| {
        assert ids[..k][0] == ids[0] && ids[..k][1..] == ids[1..][..k - 1] && ids[1..][k - 1] == ids[k];
      }
    }
  }

  lemma {:induction false} EntryAt(r: State, ids: seq<Id>, i: nat)
    requires (forall x :: x in ids ==> x in r.obj) && i < |ids|
    ensures 9 * i + 9 <= |Entries(r, ids)| && Entries(r, ids)[9 * i..9 * i + 9] == LobbyEntry(r.obj[ids[i]])
    decreases |ids|
  {
    hide LobbyEntry;
    var head, tail := LobbyEntry(r.obj[ids[0]]), Entries(r, ids[1..]);
    assert Entries(r, ids) == head + tail;
    if i == 0 {
      assert (head + tail)[0..9] == head;
    } else {
      EntryAt(r, ids[1..], i - 1);
      assert (head + tail)[9 * i..9 * i + 9] == tail[9 * (i - 1)..9 * (i - 1) + 9];
    }
  }

  lemma EntryDescribes(x: Client)
    requires x.name.Some? && |x.name.value| <= 8
    ensures Describes(LobbyEntry(x), x)
  {
  }

  lemma LobbyIsListed(r: State)
    requires Sane(r) && NamesOk(r)
    ensures ListsLobby(r, FrameBytes(LobbyMsg(r)))
  {
    hide Named, Entries, Describes, GoodName, LobbyEntry, Sane;
    var ids, m := FirstNamed(r), LobbyMsg(r);
    var b := FrameBytes(m);
    NamedByRank(r, r.live, 0);
    var n := |ids|;
    assert b == [2 + 9 * n, 3, n] + Entries(r, ids);
    forall k | 0 <= k < |r.live| && HasName(r, r.live[k]) && HowMany(r, r.live[..k]) < 8
      ensures var i := HowMany(r, r.live[..k]);
        3 + 9 * i + 9 <= |b| && Describes(b[3 + 9 * i..3 + 9 * i + 9], r.obj[r.live[k]])
    {
      var i := HowMany(r, r.live[..k]);
      NamedByRank(r, r.live, k);
      assert ids[i] == r.live[k];
      EntryAt(r, ids, i);
      assert b[3 + 9 * i..3 + 9 * i + 9] == Entries(r, ids)[9 * i..9 * i + 9];
      NameFits(r, r.live[k]);
      EntryDescribes(r.obj[r.live[k]]);
    }
  }

  lemma NameFits(r: State, c: Id)
    requires NamesOk(r) && HasName(r, c)
    ensures |r.obj[c].name.value| <= 8
  {
  }

  // -------------------------------------------------------------- frame by frame

  /** `b` has been added to what waits for `x`, and nothing else has changed for it. */
  ghost predicate Gets(r: State, r': State, x: Id, b: seq<u8>) {
    x in r.obj && x in r'.obj && r'.obj[x].tx == r.obj[x].tx + b
  }

  /** A record as a console reads it: the length, the type, and at least six bytes, the missing
      ones zero. */
  predicate Reads(b: seq<u8>, ftype: u8, payload: seq<u8>) {
    var n := if |payload| < 6 then 6 else |payload|;
    |b| == 2 + n && b[0] == 1 + n && b[1] == ftype && b[2..2 + |payload|] == payload
    && forall i :: 2 + |payload| <= i < |b| ==> b[i] == 0
  }

  lemma PaddedReads(m: Msg)
    ensures Reads(FrameBytes(Padded(m)), m.ftype, m.payload)
  {
    var p := Padded(m);
    assert FrameBytes(p)[2..] == p.payload;
    assert FrameBytes(p)[2..2 + |m.payload|] == p.payload[..|m.payload|];
  }

  /** WHO IS TOLD WHAT. Types 6 to 9 go to the partner, padded; LIST (2) is answered with the
      lobby and PING (12) with PONG (13); any type not named here or below changes nothing. */
  lemma FramesAreAnswered(cfg: Config, r: State, c: Id, m: Msg, luck: Luck)
    requires Sane(r) && NamesOk(r) && c in r.obj
    ensures var r' := Handle(cfg, r, c, m, luck);
      && (6 <= m.ftype <= 9 && r.obj[c].partner.Some? ==>
            exists b :: Reads(b, m.ftype, m.payload) && Gets(r, r', r.obj[c].partner.value, b))
      && (6 <= m.ftype <= 9 && r.obj[c].partner.None? && (m.ftype != 6 || |m.payload| < 6) ==> r' == r)
      && (m.ftype == 2 ==> exists b :: ListsLobby(r, b) && Gets(r, r', c, b) && r' == Update(r, c, r'.obj[c]))
      && (m.ftype == 12 ==> Gets(r, r', c, [1, 13]) && r' == Update(r, c, r'.obj[c]))
      && (m.ftype == 10 ==> c !in r'.live)
      && (m.ftype != 1 && m.ftype != 2 && m.ftype != 4 && !(6 <= m.ftype <= 9) && m.ftype != 10 && m.ftype != 12 ==>
            r' == r)
  {
    hide OnHello, TryPair, LogCrc, LobbyMsg, FrameBytes, Padded, Reads, ListsLobby, NamesOk, NoteOf;
    var r' := Handle(cfg, r, c, m, luck);
    if 6 <= m.ftype <= 9 && r.obj[c].partner.Some? {
      PaddedReads(m);
      RelayedGets(cfg, r, c, m, luck);
      assert Gets(r, r', r.obj[c].partner.value, FrameBytes(Padded(m)));
    } else if m.ftype == 2 {
      LobbyIsListed(r);
      assert Gets(r, r', c, FrameBytes(LobbyMsg(r)));
    } else if m.ftype == 12 {
      PongBytes();
    }
  }

  lemma RelayedGets(cfg: Config, r: State, c: Id, m: Msg, luck: Luck)
    requires Sane(r) && c in r.obj && IsRelayed(m.ftype) && r.obj[c].partner.Some?
    ensures Gets(r, Handle(cfg, r, c, m, luck), r.obj[c].partner.value, FrameBytes(Padded(m)))
  {
    HandleObeys(cfg, r, c, m, luck, r.obj[c].partner.value);
    hide Handle, FrameBytes, Padded;
  }

  lemma PongBytes()
    ensures FrameBytes(Msg(T_PONG, [])) == [1, 13]
  {
  }

  /** A FAREWELL. Whoever is dropped leaves the line and gives back the name that is its own; its
      partner, if it has one, is told eight bytes and has none; every object is otherwise as
      it was, its own link included. A client that is gone already changes nothing. */
  lemma DropSaysGoodbye(r: State, c: Id)
    requires Sane(r) && c in r.obj
    ensures var r' := Drop(r, c);
      && (c !in r.live ==> r' == r)
      && (c in r.live ==>
            && (forall x :: x in r'.live <==> x in r.live && x != c)
            && r'.names == map n | n in r.names && !(r.names[n] == c && r.obj[c].name == Some(n)) :: r.names[n])
      && (c in r.live && r.obj[c].partner.Some? ==>
            var p := r.obj[c].partner.value;
            Gets(r, r', p, [7, 11, 0, 0, 0, 0, 0, 0]) && r'.obj[p] == r.obj[p].(partner := None, tx := r'.obj[p].tx))
      && r'.obj.Keys == r.obj.Keys
      && (forall x :: x in r.obj && r.obj[c].partner != Some(x) ==> r'.obj[x] == r.obj[x])
  {
    hide FrameBytes;
    FarewellBytes();
  }

  lemma FarewellBytes()
    ensures PeerLeftBytes() == [7, 11, 0, 0, 0, 0, 0, 0]
  {
  }
}
