/**
 * `StringBuffer<DefaultSize>` (StringBuffer.h): a NUL-terminated string
 * builder that starts in a `DefaultSize`-char array inside the object and
 * moves to a heap array once it outgrows it.
 *
 * `Shape` is what a buffer holds as a value: its template size, whether it
 * lives on the heap, its capacity (`m_bufferSize`) and its text (the
 * `m_pos` chars before the terminator). The class's methods are specified
 * by the functions on `Shape` below, whose properties are proved as their
 * contracts and as lemmas.
 */
module StringBuffers {
  import opened Types

  function Max(a: int, b: int): int
  {
    if a > b then a else b
  }

  function Min(a: int, b: int): int
  {
    if a < b then a else b
  }

  datatype Shape = Shape(defaultSize: nat, onHeap: bool, capacity: nat, text: seq<CChar>)

  /**
   * The invariant every public operation keeps: the text and its terminator
   * fit into the capacity, and the capacity is the size of the array in use
   * (the stack array has `DefaultSize` chars; a heap array is allocated with
   * exactly the capacity, and only for capacities above `DefaultSize`).
   */
  predicate Good(s: Shape)
  {
    && s.defaultSize >= 1
    && |s.text| < s.capacity
    && (if s.onHeap then s.capacity > s.defaultSize else s.capacity == s.defaultSize)
  }

  /** `getAvailableLength`: the chars that can still be appended without growing. */
  function Available(s: Shape): int
  {
    s.capacity - |s.text| - 1
  }

  /**
   * `resize(size)`, with a shrink from the heap onto the stack recording the
   * stack array's size as the capacity (see `ResizedAsWritten` for the code
   * as written). A size of 0 or of the current capacity changes nothing, and
   * neither does a size of at most `DefaultSize` while the buffer is on the
   * stack (the new array would be the one in use). Otherwise the buffer moves
   * to a heap array of `size` chars when `size` exceeds `DefaultSize`, and
   * to the stack array when it does not; a text too long for `size` is cut
   * to its first `size - 1` chars.
   */
  function Resized(s: Shape, size: nat): (r: Shape)
    requires Good(s)
    ensures Good(r)
    ensures r.defaultSize == s.defaultSize
    ensures size == 0 || size == s.capacity ==> r == s
    ensures !s.onHeap && size <= s.defaultSize ==> r == s
    ensures size > s.defaultSize ==> r.onHeap && r.capacity == size
    ensures s.onHeap && 0 < size <= s.defaultSize ==> !r.onHeap && r.capacity == s.defaultSize
    ensures r.text == s.text[..if size == 0 || (!s.onHeap && size <= s.defaultSize) then |s.text| else Min(|s.text|, size - 1)]
  {
    if size == 0 || size == s.capacity then s
    else if !s.onHeap && size <= s.defaultSize then s
    else Shape(s.defaultSize, size > s.defaultSize, Max(size, s.defaultSize), if |s.text| >= size then s.text[..size - 1] else s.text)
  }

  /**
   * `makeSpaceFor(length)`: grows, only when `length` exceeds the available
   * room, to the larger of what is needed and twice the capacity; afterwards
   * `length` chars fit and the text is unchanged.
   */
  function SpaceMade(s: Shape, length: nat): (r: Shape)
    requires Good(s)
    ensures Good(r) && r.defaultSize == s.defaultSize && r.text == s.text
    ensures Available(r) >= length
    ensures length <= Available(s) ==> r == s
    ensures length > Available(s) ==> r.capacity == Max(|s.text| + length + 1, 2 * s.capacity)
  {
    if length > Available(s) then Resized(s, Max(|s.text| + length + 1, 2 * s.capacity)) else s
  }

  /** `append`: make space for the data, then copy it after the text. */
  function Appended(s: Shape, data: seq<CChar>): (r: Shape)
    requires Good(s)
    ensures Good(r) && r.defaultSize == s.defaultSize
    ensures r.text == s.text + data
    ensures r.capacity >= s.capacity
  {
    var t := SpaceMade(s, |data|);
    t.(text := t.text + data)
  }

  /** `pop(length)`: removes the last `length` chars, or all of them when there are fewer. */
  function Popped(s: Shape, length: nat): (r: Shape)
    requires Good(s)
    ensures Good(r)
    ensures r.capacity == s.capacity && r.onHeap == s.onHeap
    ensures |r.text| == |s.text| - Min(length, |s.text|)
    ensures r.text == s.text[..|r.text|]
  {
    s.(text := s.text[..|s.text| - Min(length, |s.text|)])
  }

  /** Appending in two steps yields the same text as appending at once. */
  lemma AppendedTwice(s: Shape, a: seq<CChar>, b: seq<CChar>)
    requires Good(s)
    ensures Appended(Appended(s, a), b).text == Appended(s, a + b).text
  {
    assert s.text + a + b == s.text + (a + b);
  }

  /** Popping what was just appended gives the text back. */
  lemma PopUndoesAppend(s: Shape, data: seq<CChar>)
    requires Good(s)
    ensures Popped(Appended(s, data), |data|).text == s.text
  {
    var r := Appended(s, data);
    assert r.text[..|s.text|] == s.text;
  }

  // ---------------------------------------------------------------------------
  // resize and makeSpaceFor as written

  /** `getAvailableLength` as written: a `size_t` subtraction, which wraps below zero. */
  function AvailableAsWritten(s: Shape, arch: Arch): nat
  {
    (s.capacity - |s.text| - 1) % WordModulus(arch)
  }

  /** The word size is at least 32 bits. */
  lemma WordModulusAtLeast32Bits(arch: Arch)
    ensures WordModulus(arch) >= 0x1_0000_0000
  {
    assert Pow256(4) == 0x1_0000_0000;
    if arch == X64 {
      assert Pow256(8) == Pow256(4) * Pow256(4);
    }
  }

  /** Below zero, the available length as written wraps around to the top of the word. */
  lemma AvailableAsWrittenWraps(s: Shape, arch: Arch)
    requires 0 <= Available(s) + WordModulus(arch) && Available(s) < WordModulus(arch)
    ensures AvailableAsWritten(s, arch) == if Available(s) >= 0 then Available(s) else WordModulus(arch) + Available(s)
  {
    var x, m := Available(s), WordModulus(arch);
    if x >= 0 {
      assert x % m == x;
    } else {
      assert x == -1 * m + (x + m);
    }
  }

  /**
   * `resize` as written: when the requested size is at most `DefaultSize` and
   * the buffer is already on the stack, the new and the old buffer are the
   * same array and the function returns before recording the new size.
   */
  function ResizedAsWritten(s: Shape, size: nat): Shape
  {
    if size == 0 || size == s.capacity then s
    else if !s.onHeap && size <= s.defaultSize then s
    else Shape(s.defaultSize, size > s.defaultSize, size, if |s.text| >= size then s.text[..size - 1] else s.text)
  }

  function SpaceMadeAsWritten(s: Shape, length: nat, arch: Arch): Shape
  {
    if length > AvailableAsWritten(s, arch) then ResizedAsWritten(s, Max(|s.text| + length + 1, 2 * s.capacity)) else s
  }

  function AppendedAsWritten(s: Shape, data: seq<CChar>, arch: Arch): Shape
  {
    var t := SpaceMadeAsWritten(s, |data|, arch);
    t.(text := t.text + data)
  }

  /** The write of the terminator at index `|text|` stays inside the array in use. */
  predicate TerminatorInBounds(s: Shape)
  {
    |s.text| < (if s.onHeap then s.capacity else s.defaultSize)
  }

  /**
   * Outside a shrink from the heap onto the stack, `resize` as written is the
   * corrected one; in particular a resize of a stack buffer to at most
   * `DefaultSize` changes nothing in both.
   */
  lemma ResizeAsWrittenAgrees(s: Shape, size: nat)
    requires Good(s)
    requires !s.onHeap || size > s.defaultSize || size == 0
    ensures ResizedAsWritten(s, size) == Resized(s, size)
    ensures !s.onHeap && size <= s.defaultSize ==> ResizedAsWritten(s, size) == s
  {
  }

  /**
   * The one place the two differ: as written, a shrink from the heap onto the
   * stack records `size` as the capacity, below the stack array's size.
   */
  lemma ResizeAsWrittenShrinksCapacity(s: Shape, size: nat)
    requires Good(s) && s.onHeap && 0 < size <= s.defaultSize
    ensures ResizedAsWritten(s, size).capacity == size
    ensures Resized(s, size).capacity == s.defaultSize
    ensures ResizedAsWritten(s, size).text == Resized(s, size).text
    ensures size < s.defaultSize <==> ResizedAsWritten(s, size) != Resized(s, size)
  {
  }

  /**
   * While a stack buffer has capacity `DefaultSize`, which only a shrink from
   * the heap as written breaks, `makeSpaceFor` as written is the corrected one.
   */
  lemma {:induction false} SpaceMadeAsWrittenAgrees(s: Shape, length: nat, arch: Arch)
    requires Good(s)
    requires s.capacity < WordModulus(arch)
    ensures SpaceMadeAsWritten(s, length, arch) == SpaceMade(s, length)
  {
    assert Available(s) % WordModulus(arch) == Available(s);
    if length > Available(s) {
      ResizeAsWrittenAgrees(s, Max(|s.text| + length + 1, 2 * s.capacity));
    }
  }

  /**
   * A 4-char buffer that grew to the heap for "abcde" and was then resized to
   * 2 moves back to the stack with capacity 2. Appending 'b' asks for a
   * resize to 4, which as written does nothing, so the text reaches the
   * capacity; the available length then wraps to SIZE_MAX, no later append
   * grows the buffer, and after two more appends the terminator is written
   * one past the 4-char stack array.
   */
  lemma ShrunkStackBufferOverflows(arch: Arch)
    ensures var s1 := AppendedAsWritten(Shape(4, false, 4, []), "abcde", arch);
            var s2 := ResizedAsWritten(s1, 2);
            var s3 := AppendedAsWritten(s2, "b", arch);
            var s5 := AppendedAsWritten(AppendedAsWritten(s3, "c", arch), "d", arch);
            && Good(s1) && s2 == Shape(4, false, 2, "a") && !Good(s2)
            && !Good(s3) && |s3.text| == s3.capacity
            && AvailableAsWritten(s3, arch) == WordModulus(arch) - 1
            && s5 == Shape(4, false, 2, "abcd") && !TerminatorInBounds(s5)
  {
    WordModulusAtLeast32Bits(arch);
    var s0 := Shape(4, false, 4, []);
    AvailableAsWrittenWraps(s0, arch);
    var s1 := AppendedAsWritten(s0, "abcde", arch);
    assert s1 == Shape(4, true, 8, "abcde");
    var s2 := ResizedAsWritten(s1, 2);
    assert s2 == Shape(4, false, 2, "a");
    AvailableAsWrittenWraps(s2, arch);
    var s3 := AppendedAsWritten(s2, "b", arch);
    assert s3 == Shape(4, false, 2, "ab");
    AvailableAsWrittenWraps(s3, arch);
    var s4 := AppendedAsWritten(s3, "c", arch);
    assert s4 == Shape(4, false, 2, "abc");
    AvailableAsWrittenWraps(s4, arch);
    var s5 := AppendedAsWritten(s4, "d", arch);
    assert s5 == Shape(4, false, 2, "abcd");
  }

  /**
   * With `resize` corrected, the shrink of `ShrunkStackBufferOverflows` gives
   * the stack buffer its full capacity, and the appends grow it back to the
   * heap.
   */
  lemma ShrunkStackBufferGrows()
    ensures var s2 := Resized(Appended(Shape(4, false, 4, []), "abcde"), 2);
            var t := Appended(s2, "bcd");
            && s2 == Shape(4, false, 4, "a")
            && Good(t) && t.text == "abcd" && t.onHeap && TerminatorInBounds(t)
  {
    var s1 := Appended(Shape(4, false, 4, []), "abcde");
    assert s1 == Shape(4, true, 8, "abcde");
    var s2 := Resized(s1, 2);
    assert s2 == Shape(4, false, 4, "a");
    assert Appended(s2, "bcd") == Shape(4, true, 8, "abcd");
  }

  // ---------------------------------------------------------------------------
  // The class

  class StringBuffer {
    /** The template parameter `DefaultSize`. */
    const defaultSize: nat
    /** `m_stackBuffer`. */
    const stack: array<CChar>
    /** `m_buffer`: the stack array or a heap array. */
    var buffer: array<CChar>
    /** `m_bufferSize`. */
    var bufferSize: nat
    /** `m_pos`: the length of the text, and the index of its terminator. */
    var pos: nat
    ghost var Repr: set<object>

    ghost predicate Valid()
      reads this, Repr
    {
      && Repr == {this, stack, buffer}
      && stack.Length == defaultSize
      && (buffer != stack ==> buffer.Length == bufferSize)
      && bufferSize <= buffer.Length
      && Good(View())
      && buffer[pos] == '\0'
    }

    ghost function View(): Shape
      reads this, buffer
    {
      Shape(defaultSize, buffer != stack, bufferSize, buffer[..Min(pos, buffer.Length)])
    }

    /** A new buffer holds "" in its stack array, with capacity `DefaultSize`. */
    constructor (defaultSize: nat)
      requires defaultSize >= 1
      ensures Valid() && fresh(Repr)
      ensures View() == Shape(defaultSize, false, defaultSize, [])
    {
      this.defaultSize := defaultSize;
      var a := new CChar[defaultSize](_ => '\0');
      stack := a;
      buffer := a;
      bufferSize := defaultSize;
      pos := 0;
      Repr := {this, a};
    }

    predicate IsHeap()
      reads this
    {
      buffer != stack
    }

    function GetLength(): (r: nat)
      requires Valid()
      reads Repr
      ensures r == |View().text|
    {
      pos
    }

    function IsEmpty(): (r: bool)
      requires Valid()
      reads Repr
      ensures r <==> View().text == []
    {
      pos == 0
    }

    function GetCapacity(): (r: nat)
      requires Valid()
      reads Repr
      ensures r == View().capacity
    {
      bufferSize
    }

    /** `getAvailableLength`: with the invariant, never below zero. */
    function GetAvailableLength(): (r: nat)
      requires Valid()
      reads Repr
      ensures r == Available(View())
      ensures r + GetLength() + 1 == GetCapacity()
    {
      bufferSize - pos - 1
    }

    /** `get`: the text followed by its terminator. */
    function Get(): (r: seq<CChar>)
      requires Valid()
      reads Repr
      ensures r == View().text + ['\0']
    {
      buffer[..pos + 1]
    }

    /** `operator[]`, for the indices that hold the text or its terminator. */
    function At(index: nat): (r: CChar)
      requires Valid()
      requires index <= GetLength()
      reads Repr
      ensures r == (View().text + ['\0'])[index]
    {
      buffer[index]
    }

    /** `getLast`: the last char, or the terminator when the text is empty. */
    function GetLast(): (r: CChar)
      requires Valid()
      reads Repr
      ensures View().text != [] ==> r == View().text[|View().text| - 1]
      ensures View().text == [] ==> r == '\0'
    {
      if pos > 0 then buffer[pos - 1] else buffer[0]
    }

    method Pop(length: nat)
      requires Valid()
      modifies this, buffer
      ensures Valid() && Repr == old(Repr)
      ensures View() == Popped(old(View()), length)
    {
      pos := pos - (if length < pos then length else pos);
      buffer[pos] := '\0';
    }

    method Resize(size: nat)
      requires Valid()
      modifies Repr
      ensures Valid() && fresh(Repr - old(Repr))
      ensures View() == Resized(old(View()), size)
    {
      if size == 0 || size == bufferSize {
        return;
      }
      var oldBuffer := buffer;
      var newBuffer: array<CChar>;
      if size > defaultSize {
        newBuffer := new CChar[size](_ => '\0');
      } else {
        newBuffer := stack;
      }

      if newBuffer == oldBuffer {
        return;
      }

      if pos >= size {
        pos := size - 1;
        oldBuffer[pos] := '\0';
      }

      forall i | 0 <= i <= pos {
        newBuffer[i] := oldBuffer[i];
      }
      buffer := newBuffer;
      // the stack array always holds DefaultSize chars
      bufferSize := if size > defaultSize then size else defaultSize;
      Repr := {this, stack, buffer};
    }

    method MakeSpaceFor(length: nat)
      requires Valid()
      modifies Repr
      ensures Valid() && fresh(Repr - old(Repr))
      ensures View() == SpaceMade(old(View()), length)
    {
      if length > GetAvailableLength() {
        var requiredSize := GetLength() + length + 1;
        var minimalSize := GetCapacity() * 2;
        var newSize := if requiredSize > minimalSize then requiredSize else minimalSize;
        Resize(newSize);
      }
    }

    method AppendChar(c: CChar)
      requires Valid()
      modifies Repr
      ensures Valid() && fresh(Repr - old(Repr))
      ensures View() == Appended(old(View()), [c])
    {
      MakeSpaceFor(1);
      buffer[pos] := c;
      pos := pos + 1;
      buffer[pos] := '\0';
    }

    /** `append(string, length)`: a NULL string or a length of 0 appends nothing. */
    method AppendChars(s: Option<seq<CChar>>, length: nat)
      requires Valid()
      requires s.Some? ==> length <= |s.value|
      modifies Repr
      ensures Valid() && fresh(Repr - old(Repr))
      ensures View() == if s.None? || length == 0 then old(View()) else Appended(old(View()), s.value[..length])
    {
      if s.None? || length == 0 {
        return;
      }
      MakeSpaceFor(length);
      var data := s.value;
      forall i | 0 <= i < length {
        buffer[pos + i] := data[i];
      }
      pos := pos + length;
      buffer[pos] := '\0';
    }

    /** `append(string)`: a NULL string appends nothing. */
    method AppendCStr(s: Option<CString>)
      requires Valid()
      modifies Repr
      ensures Valid() && fresh(Repr - old(Repr))
      ensures View() == if s.None? || s.value == [] then old(View()) else Appended(old(View()), s.value)
    {
      if s.None? {
        return;
      }
      AppendChars(Some(s.value), |s.value|);
    }

    /** `append(other)`: appends the text of another buffer. */
    method AppendBuffer(other: StringBuffer)
      requires Valid() && other.Valid() && Repr !! other.Repr
      modifies Repr
      ensures Valid() && fresh(Repr - old(Repr))
      ensures other.View() == old(other.View())
      ensures View() == if other.View().text == [] then old(View()) else Appended(old(View()), other.View().text)
    {
      var text := other.buffer[..other.pos];
      AppendChars(Some(text), other.GetLength());
    }
  }
}
