/** Public handle numbers: a wrapping 32-bit counter (mode2.go). */
module Handles {
  const WIDTH: int := 0x1_0000_0000
  const MAX_HANDLE: int := 0x7FFF_FFFF

  /** The counter after its n-th increment. */
  function Id(n: nat): nat {
    n % WIDTH
  }

  /** registerSession refuses the numbers that do not fit a positive int32. */
  predicate Usable(id: nat) {
    0 < id <= MAX_HANDLE
  }

  /** The conversion of a counter value to a signed 32-bit handle. */
  function ToHandle(id: nat): int {
    if id <= MAX_HANDLE then id else id - WIDTH
  }

  /** The handle a session gets from the n-th allocation, if any. */
  function Issued(n: nat): (h: int)
    ensures h == -1 || 1 <= h <= MAX_HANDLE
  {
    if Usable(Id(n)) then ToHandle(Id(n)) else -1
  }

  /** The key of a raw listener handle: its bitwise complement. */
  function RawKey(raw: int): int {
    -raw - 1
  }

  lemma MultipleIff(q: int, d: int)
    requires -WIDTH < d < WIDTH
    ensures (q * WIDTH + d) % WIDTH == 0 <==> d == 0
  {
  }

  lemma SameResidue(m: nat, n: nat)
    requires m <= n
    ensures Id(m) == Id(n) <==> (n - m) % WIDTH == 0
  {
    var q := n / WIDTH - m / WIDTH;
    assert n - m == q * WIDTH + (Id(n) - Id(m));
    MultipleIff(q, Id(n) - Id(m));
  }

  /** Two allocations get the same session handle exactly when both are usable
      and lie a multiple of 2^32 increments apart. */
  lemma HandlesCollideIff(m: nat, n: nat)
    requires m < n
    ensures Issued(m) == Issued(n) != -1 <==> Usable(Id(m)) && (n - m) % WIDTH == 0
  {
    SameResidue(m, n);
  }

  /** So within any window of fewer than 2^32 allocations they are distinct,
      and none of them is the complement key of a raw listener handle. */
  lemma HandlesDistinct(start: nat, m: nat, n: nat, raw: nat)
    requires start <= m < n < start + WIDTH
    requires Usable(Id(m)) && Usable(Id(n))
    ensures Issued(m) != Issued(n)
    ensures Issued(m) != RawKey(raw)
  {
    HandlesCollideIff(m, n);
  }

  /** A listener takes the same counter without the check: its handle is
      negative from the 2^31-th allocation on, and then equals the complement
      key of some raw handle. */
  lemma ListenerHandleCollidesIff(n: nat)
    ensures ToHandle(Id(n)) < 0 <==> Id(n) > MAX_HANDLE
    ensures (exists raw :: 0 <= raw <= MAX_HANDLE && ToHandle(Id(n)) == RawKey(raw)) <==> Id(n) > MAX_HANDLE
  {
    if Id(n) > MAX_HANDLE {
      var raw: nat := RawKey(ToHandle(Id(n)));
      assert 0 <= raw <= MAX_HANDLE && ToHandle(Id(n)) == RawKey(raw);
    }
  }
}
