/** The modes a copy sets: those of the source, but never set-user-ID or set-group-ID. */
module Modes {
  import opened Bytes
  import opened Files
  import opened Walk
  import opened Course
  import opened Receive
  import opened Landing
  import opened Ends
  import opened Converge
  import opened Cut

  /** Whether bit `k` of `mode` is set. */
  predicate Bit(mode: nat, k: nat) {
    if k == 0 then mode % 2 == 1 else Bit(mode / 2, k - 1)
  }

  const SET_USER := 11
  const SET_GROUP := 10

  /** `mode` is `source`'s, its permissions and the sticky bit, but for the two bits. */
  ghost predicate Safely(mode: nat, source: nat) {
    !Bit(mode, SET_USER) && !Bit(mode, SET_GROUP) && forall k :: 0 <= k < SET_GROUP ==> (Bit(mode, k) <==> Bit(source, k))
  }

  function Power(n: nat): (p: nat)
    ensures p > 0
  {
    if n == 0 then 1 else 2 * Power(n - 1)
  }

  /** A number below a power of two has no bits from there on, and adding multiples of the power leaves those before. */
  lemma {:induction false} LowBits(high: nat, low: nat, n: nat, k: nat)
    requires low < Power(n)
    ensures k >= n ==> !Bit(low, k)
    ensures k < n ==> (Bit(high * Power(n) + low, k) <==> Bit(low, k))
    decreases n
  {
    if n == 0 {
      NoBits(k);
    } else {
      var t := high * Power(n - 1);
      assert high * Power(n) == 2 * t by { Doubled(high, Power(n - 1)); }
      assert (2 * t + low) / 2 == t + low / 2 && (2 * t + low) % 2 == low % 2;
      if k > 0 { LowBits(high, low / 2, n - 1, k - 1); }
    }
  }

  lemma Doubled(a: nat, b: nat)
    ensures a * (2 * b) == 2 * (a * b)
  {
  }

  lemma {:induction false} NoBits(k: nat)
    ensures !Bit(0, k)
  {
    if k > 0 { NoBits(k - 1); }
  }

  lemma LandsSafely(mode: nat)
    ensures Safely(Landed(mode), mode)
  {
    hide Bit;
    assert Power(10) == 0x400 by {
      assert Power(8) == 0x100 by { assert Power(6) == 0x40 by { assert Power(4) == 0x10; } }
    }
    forall k: nat
      ensures k >= 10 ==> !Bit(Landed(mode), k)
      ensures k < 10 ==> (Bit(Landed(mode), k) <==> Bit(mode, k))
    {
      LowBits(mode / 0x400, Landed(mode), 10, k);
    }
  }

  /** In every run, at any time, whatever has come anywhere but in a part has the mode of the source's entry without the
      two bits; or is a directory not yet closed, open to its owner alone. */
  lemma NoneSetsId(copy: Copy, acts: seq<Act>, p: Path)
    requires Starts(copy) && Play(copy, acts).Some? && Plain(p)
    ensures var now := Get(FilesNow(Play(copy, acts).value), p);
            && (now.Some? && now.value.File? && now != Get(copy.there, p) ==>
                  SentFile(copy, p) && Safely(now.value.mode, Look(copy, p).value.mode))
            && (now.Some? && now.value.Dir? && now != Get(copy.there, p) ==>
                  SentDir(copy, p) && (Safely(now.value.mode, Look(copy, p).value.mode) || now.value.mode == 0x1c0))
  {
    hide Play, FilesNow, Safely, Dropped;
    CutSafe(copy, acts, p);
    if Sent(copy, p) && (SentFile(copy, p) || SentDir(copy, p)) { LandsSafely(Look(copy, p).value.mode); }
  }
}
