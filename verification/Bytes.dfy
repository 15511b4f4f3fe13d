/** Eight-bit cells and the comparisons the 6502 code makes with them.

    A tick on the wire is a byte; behind it stands an unbounded tick that only the
    proofs know. The lemmas here say how far apart two unbounded ticks may be for
    the byte arithmetic to decide as if it saw them. */
module Bytes {

  type u8 = x: int | 0 <= x < 256

  function Wrap(n: int): u8 {
    n % 256
  }

  /** `LDA a / SEC / SBC b / BPL`: the one signed comparison of the netcode. */
  predicate NotBefore(a: u8, b: u8) {
    (a - b) % 256 < 128
  }

  /** Within half a lap, the signed comparison of two wrapped ticks decides the
      unbounded order. */
  lemma SignedCompare(a: int, b: int)
    requires -128 <= a - b < 128
    ensures NotBefore(Wrap(a), Wrap(b)) <==> a >= b
  {
    var qa, qb := a / 256, b / 256;
    assert Wrap(a) - Wrap(b) == a - b + 256 * (qb - qa);
    ModShift(a - b, qb - qa);
  }

  /** Which distances are decided right: those whose residue has the sign they have. At any
      other distance every pair is decided wrongly. */
  lemma DistanceIsExact(d: int)
    ensures (forall a, b {:trigger Wrap(a), Wrap(b)} :: a - b == d ==> (NotBefore(Wrap(a), Wrap(b)) <==> a >= b))
      <==> (d >= 0 <==> d % 256 < 128)
    ensures (forall a, b {:trigger Wrap(a), Wrap(b)} :: a - b == d ==> !(NotBefore(Wrap(a), Wrap(b)) <==> a >= b))
      <==> !(d >= 0 <==> d % 256 < 128)
  {
    forall a, b | a - b == d ensures NotBefore(Wrap(a), Wrap(b)) <==> d % 256 < 128 {
      assert Wrap(a) - Wrap(b) == d + 256 * (b / 256 - a / 256);
      ModShift(d, b / 256 - a / 256);
    }
    assert Wrap(d) == d % 256 && Wrap(0) == 0 && d - 0 == d;
  }

  /** The half lap is exact: no larger interval around zero is decided right throughout. */
  lemma HalfLapIsExact(lo: int, hi: int)
    requires lo <= 0 <= hi
    ensures (forall a, b {:trigger Wrap(a), Wrap(b)} :: lo <= a - b <= hi ==> (NotBefore(Wrap(a), Wrap(b)) <==> a >= b))
      <==> (-128 <= lo && hi < 128)
  {
    if -128 <= lo && hi < 128 {
      forall a, b | lo <= a - b <= hi ensures NotBefore(Wrap(a), Wrap(b)) <==> a >= b {
        SignedCompare(a, b);
      }
    } else if hi >= 128 {
      assert Wrap(128) == 128 && Wrap(0) == 0 && 128 - 0 == 128;
      assert !NotBefore(Wrap(128), Wrap(0));
    } else {
      assert Wrap(-129) == 127 && Wrap(0) == 0 && -129 - 0 == -129;
      assert NotBefore(Wrap(-129), Wrap(0));
    }
  }

  lemma ModShift(n: int, k: int)
    ensures (n + 256 * k) % 256 == n % 256
  {
  }

  /** Two ticks less than a lap of the remote ring apart share a slot only if equal. */
  lemma RemoteSlots(t: int, u: int)
    requires -8 < t - u < 8
    ensures t % 8 == u % 8 <==> t == u
  {
  }

  /** The same for the four-slot local ring. */
  lemma LocalSlots(t: int, u: int)
    requires -4 < t - u < 4
    ensures t % 4 == u % 4 <==> t == u
  {
  }

  lemma WrapOfByte(b: u8)
    ensures Wrap(b) == b
  {
  }

  lemma MaskOfWrapped(n: int)
    ensures Wrap(n) % 8 == n % 8
    ensures Wrap(n) % 4 == n % 4
  {
    var q := n / 256;
    Mod8(Wrap(n), 32 * q);
    Mod4(Wrap(n), 64 * q);
  }

  lemma Mod8(r: int, k: int)
    ensures (r + 8 * k) % 8 == r % 8
  {
  }

  lemma Mod4(r: int, k: int)
    ensures (r + 4 * k) % 4 == r % 4
  {
  }

  /** Offsetting a wrapped tick and masking it names the slot of the unbounded tick. */
  lemma SlotOfWrapped(t: int, k: int)
    ensures Wrap(Wrap(t) + k) == Wrap(t + k)
    ensures Wrap(t + k) % 8 == (t + k) % 8
    ensures Wrap(t + k) % 4 == (t + k) % 4
  {
    ModShift(t + k, -(t / 256));
    assert Wrap(t) + k == t + k + 256 * -(t / 256);
    MaskOfWrapped(t + k);
  }
}
