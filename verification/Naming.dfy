/** What a HELLO may call itself, and what the relay then calls it. */
module Naming {
  import opened Bytes
  import opened Framing
  import opened Verdicts
  import opened Relay

  /** Letters of either case and digits, in ASCII. */
  predicate Alphanumeric(b: u8) {
    ('A' as int <= b <= 'Z' as int) || ('a' as int <= b <= 'z' as int) || ('0' as int <= b <= '9' as int)
  }

  /** `u` is `b`, a letter in capitals. */
  predicate InCapitals(u: u8, b: u8) {
    if 'a' as int <= b <= 'z' as int then 'A' as int <= u <= 'Z' as int && u - 'A' as int == b - 'a' as int else u == b
  }

  predicate Padding(s: seq<u8>) {
    forall i :: 0 <= i < |s| ==> s[i] == 0 || s[i] == ' ' as int
  }

  /** `word` at index k, with nothing but padding around it. */
  predicate At(field: seq<u8>, k: nat, word: seq<u8>) {
    k + |word| <= |field| && field[k..k + |word|] == word && Padding(field[..k]) && Padding(field[k + |word|..])
  }

  /** A name as it may be sent: `word`, between NULs and spaces. */
  predicate SentAs(field: seq<u8>, k: nat, word: seq<u8>) {
    At(field, k, word) && 2 <= |word| <= 8 && forall i :: 0 <= i < |word| ==> Alphanumeric(word[i])
  }

  /** `name` is `word` in capitals. */
  predicate Capitals(name: Name, word: seq<u8>) {
    |name| == |word| && forall i :: 0 <= i < |name| ==> InCapitals(name[i], word[i])
  }

  // -------------------------------------------------------------- trimming

  lemma AtFront(field: seq<u8>, k: nat, word: seq<u8>)
    requires field != [] && k > 0
    ensures At(field, k, word) <==> Blank(field[0]) && At(field[1..], k - 1, word)
  {
    var tail := field[1..];
    if k + |word| <= |field| {
      SliceOfTail(field, k, k + |word|);
      assert field[k + |word|..] == tail[k - 1 + |word|..];
      assert field[..k] == [field[0]] + tail[..k - 1];
      PaddingJoins([field[0]], tail[..k - 1]);
    }
  }

  lemma SliceOfTail(field: seq<u8>, i: nat, j: nat)
    requires 1 <= i <= j <= |field|
    ensures field[i..j] == field[1..][i - 1..j - 1]
  {
    assert forall x :: 0 <= x < j - i ==> field[i..j][x] == field[1..][i - 1..j - 1][x];
  }

  lemma AtBack(field: seq<u8>, k: nat, word: seq<u8>)
    requires field != [] && k + |word| < |field|
    ensures At(field, k, word) <==> Blank(field[|field| - 1]) && At(field[..|field| - 1], k, word)
  {
    var n := |field| - 1;
    var head := field[..n];
    assert field[k..k + |word|] == head[k..k + |word|];
    assert field[..k] == head[..k];
    assert field[k + |word|..] == head[k + |word|..] + [field[n]];
    PaddingJoins(head[k + |word|..], [field[n]]);
  }

  lemma PaddingJoins(s: seq<u8>, t: seq<u8>)
    ensures Padding(s + t) <==> Padding(s) && Padding(t)
  {
    if Padding(s + t) {
      assert forall i :: 0 <= i < |s| ==> (s + t)[i] == s[i];
      assert forall i :: 0 <= i < |t| ==> (s + t)[|s| + i] == t[i];
    }
  }

  lemma AtAll(field: seq<u8>)
    ensures At(field, 0, field)
    ensures forall word :: |word| == |field| && At(field, 0, word) ==> word == field
  {
    assert field[0..|field|] == field && field[..0] == [] && field[|field|..] == [];
  }

  lemma {:induction false} StripFinds(field: seq<u8>, k: nat, word: seq<u8>)
    requires At(field, k, word) && word != [] && !Blank(word[0]) && !Blank(word[|word| - 1])
    ensures Strip(field) == word
    decreases |field|
  {
    assert k == 0 ==> field[0] == word[0];
    hide At;
    if k > 0 {
      AtFront(field, k, word);
      StripFinds(field[1..], k - 1, word);
    } else if |word| < |field| {
      AtBack(field, 0, word);
      StripFinds(field[..|field| - 1], 0, word);
    } else {
      Fits(field, word);
      AtAll(field);
    }
  }

  lemma Fits(field: seq<u8>, word: seq<u8>)
    requires At(field, 0, word) && |word| >= |field|
    ensures |word| == |field|
  {
  }

  /** Trimming takes nothing but padding off the two ends. */
  lemma {:induction false} StripTakes(field: seq<u8>) returns (k: nat)
    ensures At(field, k, Strip(field))
    decreases |field|
  {
    hide At;
    k := 0;
    if field == [] || (!Blank(field[0]) && !Blank(field[|field| - 1])) {
      AtAll(field);
    } else if Blank(field[0]) {
      k := StripTakes(field[1..]);
      k := k + 1;
      AtFront(field, k, Strip(field));
    } else {
      k := StripTakes(field[..|field| - 1]);
      Within(field[..|field| - 1], k, Strip(field));
      AtBack(field, k, Strip(field));
    }
  }

  lemma Within(field: seq<u8>, k: nat, word: seq<u8>)
    requires At(field, k, word)
    ensures k + |word| <= |field|
  {
  }

  // -------------------------------------------------------------- capitals

  lemma UpperIsCapitals(word: seq<u8>)
    ensures Capitals(Upper(word), word)
    ensures 2 <= |word| <= 8 && (forall i :: 0 <= i < |word| ==> Alphanumeric(word[i])) <==> GoodName(Upper(word))
  {
    assert forall i :: 0 <= i < |word| ==> Upper(word)[i] == UpperByte(word[i]);
    assert GoodName(Upper(word)) ==> forall i :: 0 <= i < |word| ==> NameByte(Upper(word)[i]);
  }

  lemma CapitalsOnce(name: Name, name': Name, word: seq<u8>)
    requires Capitals(name, word) && Capitals(name', word)
    ensures name == name'
  {
  }

  /** WHICH NAMES ARE HEARD. A HELLO is well formed exactly when it speaks this protocol, comes
      from a television the server knows, and carries two to eight letters or digits between
      any number of NULs and spaces; the name is then those characters in capitals. */
  lemma WellFormedIff(payload: seq<u8>)
    ensures WellFormed(payload) <==>
      |payload| >= 3 && payload[0] == 2 && (payload[1] == 0 || payload[1] == 1)
      && exists k, word :: SentAs(payload[2..], k, word)
  {
    if |payload| >= 3 {
      var field := payload[2..];
      if exists k, word :: SentAs(field, k, word) {
        var k, word :| SentAs(field, k, word);
        StripFinds(field, k, word);
        UpperIsCapitals(word);
      }
      var k := StripTakes(field);
      UpperIsCapitals(Strip(field));
      if GoodName(Upper(Strip(field))) {
        assert SentAs(field, k, Strip(field));
      }
    }
  }

  /** ... and it claims that name where nobody has it; any other HELLO drops the client. */
  lemma HelloClaims(cfg: Config, r: State, c: Id, payload: seq<u8>, k: nat, word: seq<u8>, luck: Luck)
    requires Sane(r) && c in r.obj && |payload| >= 3 && payload[0] == 2 && payload[1] <= 1
    requires SentAs(payload[2..], k, word)
    requires forall name :: Capitals(name, word) ==> name !in r.names
    ensures var r' := OnHello(cfg, r, c, payload, luck);
      && c in r'.obj && r'.obj[c].tv == Some(payload[1])
      && r'.obj[c].name.Some? && Capitals(r'.obj[c].name.value, word)
      && r'.names.Keys == r.names.Keys + {r'.obj[c].name.value} && r'.names[r'.obj[c].name.value] == c
  {
    hide GoodName, Strip, Upper, TryPair, Capitals;
    UpperIsCapitals(word);
    StripFinds(payload[2..], k, word);
    var name := Upper(word);
    assert WellFormed(payload) by { WellFormedIff(payload); }
    var r1 := Update(r, c, r.obj[c].(tv := Some(payload[1])));
    UpdateKeeps(r, c, r1.obj[c]);
    UpdateKeeps(r1, c, r1.obj[c].(name := Some(name)));
    PairingKeepsNames(cfg, Claim(r1, c, name), c, luck.seed);
  }

  lemma PairingKeepsNames(cfg: Config, r: State, c: Id, seed: nat)
    requires Sane(r) && c in r.obj
    ensures var r' := TryPair(cfg, r, c, seed);
      r'.names == r.names && c in r'.obj && r'.obj[c].name == r.obj[c].name && r'.obj[c].tv == r.obj[c].tv
  {
    hide StartMsg, FrameBytes;
  }

  lemma HelloRefused(cfg: Config, r: State, c: Id, payload: seq<u8>, luck: Luck)
    requires Sane(r) && c in r.obj
    requires !(|payload| >= 3 && payload[0] == 2 && (payload[1] == 0 || payload[1] == 1)
               && exists k, word :: SentAs(payload[2..], k, word))
    ensures var r' := OnHello(cfg, r, c, payload, luck);
      && c !in r'.live && c in r'.obj && r'.obj[c].name == r.obj[c].name && r'.names.Keys <= r.names.Keys
  {
    WellFormedIff(payload);
    hide Strip, Upper, GoodName, Register, FrameBytes, PeerLeftBytes, SentAs;
  }
}
