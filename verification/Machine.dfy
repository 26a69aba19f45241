/** The 32-bit arithmetic of the target and the few sequence notions that every component uses. */
module Machine {

  /** One more than the largest `unsigned long`. */
  const U32: nat := 0x1_0000_0000

  newtype byte = b: int | 0 <= b < 256

  type Bytes = seq<byte>

  datatype Option<+T> = None | Some(value: T)

  /** What an `unsigned long` holds after an assignment of `x`. */
  function Wrap(x: int): nat {
    x % U32
  }

  /** The numbers 0, 1, ..., n - 1 in order. */
  function Range(n: nat): seq<nat> {
    seq(n, i => i)
  }

  /** Every number below `n` occurs once in `Range(n)` and no other number does. */
  lemma RangeCounts(n: nat, t: nat)
    ensures multiset(Range(n))[t] == if t < n then 1 else 0
  {
    if n != 0 {
      assert Range(n) == Range(n - 1) + [n - 1];
      RangeCounts(n - 1, t);
    }
  }

  lemma RangeGrows(n: nat)
    ensures multiset(Range(n + 1)) == multiset(Range(n)) + multiset{n}
  {
    assert Range(n + 1) == Range(n) + [n];
  }

  ghost predicate Increasing(s: seq<nat>) {
    forall i, j :: 0 <= i < j < |s| ==> s[i] < s[j]
  }

  function Without<T>(s: seq<T>, i: nat): seq<T>
    requires i < |s|
  {
    s[..i] + s[i + 1..]
  }

  /** `s` with its first bytes replaced by `b`, as memcpy leaves it. */
  function Overlay(s: Bytes, b: Bytes): (r: Bytes)
    requires |b| <= |s|
    ensures |r| == |s| && r[..|b|] == b && r[|b|..] == s[|b|..]
  {
    b + s[|b|..]
  }
}
