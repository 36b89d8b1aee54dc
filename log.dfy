/**
 * `WriteToFile` (Log.cpp): a log line is written with its control characters
 * removed and CR LF appended. The `WriteFile` call is the method's result:
 * the chars it would write, or None when nothing is written.
 */
module Logging {
  import opened Types
  import opened StringBuffers

  /** `LogBuffer` is `StringBuffer<2048>`. */
  const LogBufferSize: nat := 2048

  /** A NULL handle. */
  const NullHandle: int := 0
  /** `INVALID_HANDLE_VALUE`, the handle `(HANDLE) -1`. */
  const InvalidHandleValue: int := -1

  /** A `char` read as a number: MSVC's `char` is signed, so 0x80-0xFF are negative. */
  function SignedChar(c: CChar): (r: int)
    ensures -128 <= r < 128
    ensures r % 256 == c as int
  {
    if c as int >= 128 then c as int - 256 else c as int
  }

  /** The chars `WriteToFile` keeps: all but codes below 32 and 127 as signed chars, which is printable ASCII. */
  predicate Kept(c: CChar)
    ensures Kept(c) <==> 32 <= c as int <= 126
  {
    !(SignedChar(c) < 32 || SignedChar(c) == 127)
  }

  /** The text without the chars `WriteToFile` drops, in its original order. */
  function Printable(s: seq<CChar>): (r: seq<CChar>)
    ensures |r| <= |s|
    ensures forall i :: 0 <= i < |r| ==> Kept(r[i])
  {
    if s == [] then [] else Printable(s[..|s| - 1]) + (if Kept(s[|s| - 1]) then [s[|s| - 1]] else [])
  }

  /** Text made of kept chars passes through unchanged. */
  lemma {:induction false} PrintableOfKept(s: seq<CChar>)
    requires forall i :: 0 <= i < |s| ==> Kept(s[i])
    ensures Printable(s) == s
  {
    if s != [] {
      PrintableOfKept(s[..|s| - 1]);
    }
  }

  /** Filtering twice is filtering once. */
  lemma PrintableIdempotent(s: seq<CChar>)
    ensures Printable(Printable(s)) == Printable(s)
  {
    PrintableOfKept(Printable(s));
  }

  /** The filter works char by char: the filtered concatenation is the concatenation of the filtered parts. */
  lemma {:induction false} PrintableAppend(a: seq<CChar>, b: seq<CChar>)
    ensures Printable(a + b) == Printable(a) + Printable(b)
    decreases |b|
  {
    if b == [] {
      assert a + b == a;
    } else {
      assert (a + b)[..|a + b| - 1] == a + b[..|b| - 1];
      PrintableAppend(a, b[..|b| - 1]);
    }
  }

  /** Every kept char occurs in the output as often as in the input; a dropped one does not occur. */
  lemma {:induction false} PrintableCounts(s: seq<CChar>, c: CChar)
    ensures multiset(Printable(s))[c] == if Kept(c) then multiset(s)[c] else 0
  {
    if s != [] {
      PrintableCounts(s[..|s| - 1], c);
      assert s == s[..|s| - 1] + [s[|s| - 1]];
    }
  }

  /** One round of the loop of `WriteToFile`: the char at `i`, appended when it is kept. */
  method CopyIfKept(buffer: StringBuffer, i: nat, tempBuffer: StringBuffer)
    requires buffer.Valid() && tempBuffer.Valid()
    requires i < |buffer.View().text|
    requires buffer.Repr !! tempBuffer.Repr
    modifies tempBuffer.Repr
    ensures tempBuffer.Valid() && fresh(tempBuffer.Repr - old(tempBuffer.Repr))
    ensures tempBuffer.View().text == old(tempBuffer.View().text) + Printable([buffer.View().text[i]])
  {
    var c := buffer.At(i);
    assert Printable([c]) == Printable([c][..0]) + if Kept(c) then [c] else [];
    if SignedChar(c) < 32 || SignedChar(c) == 127 {
      // skip control characters
    } else {
      tempBuffer.AppendChar(c);
    }
  }

  /** The loop of `WriteToFile`: the kept chars of the buffer, copied into a fresh `LogBuffer`. */
  method CopyPrintable(buffer: StringBuffer) returns (tempBuffer: StringBuffer)
    requires buffer.Valid()
    ensures tempBuffer.Valid() && fresh(tempBuffer.Repr)
    ensures tempBuffer.View().text == Printable(buffer.View().text)
  {
    tempBuffer := new StringBuffer(LogBufferSize);
    ghost var text := buffer.View().text;
    var length := buffer.GetLength();
    var i := 0;
    while i < length
      invariant 0 <= i <= length == |text|
      invariant tempBuffer.Valid() && fresh(tempBuffer.Repr)
      invariant tempBuffer.View().text == Printable(text[..i])
    {
      CopyIfKept(buffer, i, tempBuffer);
      assert text[..i + 1] == text[..i] + [text[i]];
      PrintableAppend(text[..i], [text[i]]);
      i := i + 1;
    }
    assert text[..i] == text;
  }

  /**
   * `WriteToFile`: nothing for a NULL or invalid handle; otherwise the kept
   * chars of the buffer, copied into a fresh `LogBuffer`, followed by CR LF.
   */
  method WriteToFile(hFile: int, buffer: StringBuffer) returns (written: Option<seq<CChar>>)
    requires buffer.Valid()
    ensures hFile == NullHandle || hFile == InvalidHandleValue ==> written == None
    ensures hFile != NullHandle && hFile != InvalidHandleValue ==>
              written == Some(Printable(buffer.View().text) + "\r\n")
  {
    if hFile == NullHandle || hFile == InvalidHandleValue {
      return None;
    }

    var tempBuffer := CopyPrintable(buffer);
    tempBuffer.AppendCStr(Some("\r\n"));
    written := Some(tempBuffer.Get()[..tempBuffer.GetLength()]);
  }

  /** The written line has the kept count plus two chars, and ends with CR LF. */
  lemma WrittenLength(text: seq<CChar>)
    ensures var line := Printable(text) + "\r\n";
            && |line| == |Printable(text)| + 2
            && line[|line| - 2..] == "\r\n"
            && Printable(line[..|line| - 2]) == line[..|line| - 2]
  {
    var line := Printable(text) + "\r\n";
    assert line[..|line| - 2] == Printable(text);
    PrintableIdempotent(text);
  }
}
