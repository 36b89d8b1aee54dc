/**
 * Value types shared by the launcher model: optional values (a C pointer that
 * may be NULL), bytes, the 8-bit C `char`, NUL-free C strings, and the
 * little-endian byte encoding used by x86 and x86-64 for integers in memory.
 */
module Types {

  datatype Option<+T> = None | Some(value: T)

  /** The launcher's build: 32-bit (x86) or 64-bit (x86-64). */
  datatype Arch = X86 | X64

  /** `sizeof(void *)` and `sizeof(size_t)` on the build. */
  function PointerSize(arch: Arch): nat
  {
    if arch == X64 then 8 else 4
  }

  /** `size_t` arithmetic wraps modulo this. */
  function WordModulus(arch: Arch): (r: nat)
    ensures r > 0
  {
    Pow256(PointerSize(arch))
  }

  /** One byte of memory (`unsigned char`). */
  type Byte = b: int | 0 <= b < 256

  /** The C `char`: one of the 256 byte values, read as a character. */
  type CChar = c: char | c as int < 256

  /** The contents of a NUL-terminated C string, without its terminator. */
  type CString = s: seq<CChar> | '\0' !in s

  /** `n` copies of `x`, as `memset` writes them. */
  function Repeat<T>(x: T, n: nat): (r: seq<T>)
    ensures |r| == n
    ensures forall i :: 0 <= i < n ==> r[i] == x
  {
    if n == 0 then [] else [x] + Repeat(x, n - 1)
  }

  function Pow256(n: nat): (r: nat)
    ensures r > 0
  {
    if n == 0 then 1 else 256 * Pow256(n - 1)
  }

  /** The `n` bytes that hold `x` in memory on a little-endian machine, low byte first. */
  function LeBytes(x: nat, n: nat): (r: seq<Byte>)
    ensures |r| == n
  {
    if n == 0 then [] else [x % 256] + LeBytes(x / 256, n - 1)
  }

  /** The unsigned integer that the bytes `s` hold, read little-endian. */
  function LeValue(s: seq<Byte>): (r: nat)
    ensures r < Pow256(|s|)
  {
    if s == [] then 0 else s[0] + 256 * LeValue(s[1..])
  }

  /** Reading back what was stored gives the stored value, for every value that fits. */
  lemma {:induction false} LeRoundTrip(x: nat, n: nat)
    requires x < Pow256(n)
    ensures LeValue(LeBytes(x, n)) == x
  {
    if n > 0 {
      LeRoundTrip(x / 256, n - 1);
      assert LeBytes(x, n)[1..] == LeBytes(x / 256, n - 1);
    }
  }

  /** Storing what was read gives back the same bytes. */
  lemma {:induction false} LeBytesOfValue(s: seq<Byte>)
    ensures LeBytes(LeValue(s), |s|) == s
  {
    if s != [] {
      LeBytesOfValue(s[1..]);
      var v := LeValue(s[1..]);
      assert (s[0] + 256 * v) % 256 == s[0];
      assert (s[0] + 256 * v) / 256 == v;
    }
  }

  lemma SliceOfConcatLeft<T>(a: seq<T>, b: seq<T>, i: nat, j: nat)
    requires i <= j <= |a|
    ensures (a + b)[i..j] == a[i..j]
  {
  }

  lemma SliceOfConcatRight<T>(a: seq<T>, b: seq<T>, i: nat, j: nat)
    requires |a| <= i <= j <= |a| + |b|
    ensures (a + b)[i..j] == b[i - |a|..j - |a|]
  {
  }

  lemma ConcatAssoc<T>(a: seq<T>, b: seq<T>, c: seq<T>)
    ensures a + b + c == a + (b + c)
  {
  }

  lemma ConcatEmpty<T>(a: seq<T>)
    ensures a + [] == a
  {
  }

  /** A slice of a C string holds no terminator either. */
  lemma SliceIsCString(s: CString, i: nat, j: nat)
    requires i <= j <= |s|
    ensures '\0' !in s[i..j]
  {
  }
}
