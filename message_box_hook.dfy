/**
 * MessageBoxHook.cpp: the engine's message boxes are redirected to standard
 * error. `Hook` overwrites the start of `MessageBoxIndirectA`/`W` in
 * user32.dll with a jump to a replacement that logs the text on one line,
 * with its control characters escaped, and answers IDOK.
 */
module MessageBoxHooks {
  import opened Types
  import opened Util

  const Prefix: CString := "MessageBox: "

  /** The value of `IDOK`. */
  const IDOK: int := 1

  /** C's `'\b'`, `'\f'` and `'\v'`. */
  const Backspace: CChar := 8 as char
  const FormFeed: CChar := 12 as char
  const VerticalTab: CChar := 11 as char

  /** The control chars `LogText` escapes, each with the letter of its C escape sequence. */
  function EscapeLetter(c: CChar): Option<CChar>
  {
    if c == Backspace then Some('b')
    else if c == FormFeed then Some('f')
    else if c == '\n' then Some('n')
    else if c == '\r' then Some('r')
    else if c == '\t' then Some('t')
    else if c == VerticalTab then Some('v')
    else None
  }

  /** The control char an escape letter stands for. */
  function ControlOf(letter: CChar): Option<CChar>
  {
    match letter
    case 'b' => Some(Backspace)
    case 'f' => Some(FormFeed)
    case 'n' => Some('\n')
    case 'r' => Some('\r')
    case 't' => Some('\t')
    case 'v' => Some(VerticalTab)
    case _ => None
  }

  lemma EscapeLetterInverse(c: CChar)
    ensures EscapeLetter(c).Some? ==> ControlOf(EscapeLetter(c).value) == Some(c)
  {
  }

  function EscapeChar(c: CChar): (r: seq<CChar>)
    ensures EscapeLetter(c).None? ==> r == [c]
    ensures EscapeLetter(c).Some? ==> r == ['\\', EscapeLetter(c).value]
  {
    match EscapeLetter(c)
    case None => [c]
    case Some(letter) => ['\\', letter]
  }

  /** The text with each escaped control char replaced by a backslash and its letter. */
  function Escape(s: seq<CChar>): (r: seq<CChar>)
    ensures |s| <= |r| <= 2 * |s|
    ensures forall i :: 0 <= i < |r| ==> EscapeLetter(r[i]).None?
  {
    if s == [] then [] else Escape(s[..|s| - 1]) + EscapeChar(s[|s| - 1])
  }

  lemma {:induction false} EscapeAppend(a: seq<CChar>, b: seq<CChar>)
    ensures Escape(a + b) == Escape(a) + Escape(b)
    decreases |b|
  {
    if b == [] {
      assert a + b == a;
    } else {
      assert (a + b)[..|a + b| - 1] == a + b[..|b| - 1];
      EscapeAppend(a, b[..|b| - 1]);
    }
  }

  lemma EscapeStep(s: seq<CChar>, i: nat)
    requires i < |s|
    ensures Escape(s[..i + 1]) == Escape(s[..i]) + EscapeChar(s[i])
  {
    assert s[..i + 1][..i] == s[..i];
  }

  /** Reading escapes back: a backslash followed by an escape letter becomes the control char. */
  function Unescape(s: seq<CChar>): seq<CChar>
  {
    if s == [] then []
    else if |s| >= 2 && s[0] == '\\' && ControlOf(s[1]).Some? then [ControlOf(s[1]).value] + Unescape(s[2..])
    else [s[0]] + Unescape(s[1..])
  }

  /** The escaping is undone by `Unescape` for every text without a backslash of its own. */
  lemma {:induction false} UnescapeEscape(s: seq<CChar>)
    requires '\\' !in s
    ensures Unescape(Escape(s)) == s
  {
    if s != [] {
      assert s == [s[0]] + s[1..];
      EscapeAppend([s[0]], s[1..]);
      assert Escape([s[0]]) == EscapeChar(s[0]) by {
        assert [s[0]][..0] == [];
      }
      UnescapeEscape(s[1..]);
      var e := Escape(s[1..]);
      if EscapeLetter(s[0]).Some? {
        EscapeLetterInverse(s[0]);
        assert (EscapeChar(s[0]) + e)[2..] == e;
      } else {
        assert (EscapeChar(s[0]) + e)[1..] == e;
      }
    }
  }

  /** A text that contains a backslash-letter pair is logged like the control char it spells. */
  lemma EscapeAmbiguous()
    ensures Escape("\\n") == Escape("\n")
  {
    assert Escape("\\n") == Escape("\\") + Escape("n") by {
      EscapeAppend("\\", "n");
      assert "\\" + "n" == "\\n";
    }
  }

  /** The line `LogText` writes for `text`. */
  function LogLine(text: CString): seq<CChar>
  {
    Prefix + Escape(text) + "\r\n"
  }

  /** The logged line starts with the prefix, ends with CR LF, and gives the text back between them. */
  lemma LogLineRoundTrip(text: CString)
    requires '\\' !in text
    ensures var line := LogLine(text);
            && |line| >= |Prefix| + 2
            && line[..|Prefix|] == Prefix
            && line[|line| - 2..] == "\r\n"
            && Unescape(line[|Prefix|..|line| - 2]) == text
  {
    var line := LogLine(text);
    assert line[|Prefix|..|line| - 2] == Escape(text);
    UnescapeEscape(text);
  }

  /** `LogText`: the line written to standard error. */
  method LogText(text: CString) returns (written: seq<CChar>)
    ensures written == LogLine(text)
  {
    var result := Prefix;
    var i := 0;
    while i < |text|
      invariant 0 <= i <= |text|
      invariant result == Prefix + Escape(text[..i])
    {
      var c := text[i];
      var piece: seq<CChar>;
      if c == Backspace {
        piece := "\\b";
      } else if c == FormFeed {
        piece := "\\f";
      } else if c == '\n' {
        piece := "\\n";
      } else if c == '\r' {
        piece := "\\r";
      } else if c == '\t' {
        piece := "\\t";
      } else if c == VerticalTab {
        piece := "\\v";
      } else {
        piece := [c];
      }
      assert piece == EscapeChar(c);
      EscapeStep(text, i);
      assert Prefix + Escape(text[..i]) + piece == Prefix + (Escape(text[..i]) + piece);
      result := result + piece;
      i := i + 1;
    }
    assert text[..i] == text;
    result := result + "\r\n";
    return result;
  }

  /** `MessageBoxIndirectA_Hook`: logs the text and answers as if the user pressed OK. */
  method MessageBoxIndirectAHook(text: CString) returns (rc: int, written: seq<CChar>)
    ensures rc == IDOK
    ensures written == LogLine(text)
  {
    written := LogText(text);
    rc := IDOK;
  }

  /**
   * The code `Hook` writes: `mov rax, target; jmp rax` on 64-bit, `mov eax,
   * target; jmp eax` on 32-bit, the target stored little-endian.
   */
  function Trampoline(arch: Arch, target: nat): (r: seq<Byte>)
    ensures |r| == if arch == X64 then 12 else 7
  {
    if arch == X64 then [0x48, 0xB8] + LeBytes(target, 8) + [0xFF, 0xE0]
    else [0xB8] + LeBytes(target, 4) + [0xFF, 0xE0]
  }

  /** Reading a trampoline back: its target, or None when the bytes are not a trampoline. */
  function TrampolineTarget(arch: Arch, code: seq<Byte>): Option<nat>
  {
    if arch == X64 then
      if |code| == 12 && code[..2] == [0x48, 0xB8] && code[10..] == [0xFF, 0xE0] then Some(LeValue(code[2..10])) else None
    else
      if |code| == 7 && code[..1] == [0xB8] && code[5..] == [0xFF, 0xE0] then Some(LeValue(code[1..5])) else None
  }

  /** Every address the pointer holds is read back from its trampoline. */
  lemma TrampolineRoundTrip(arch: Arch, target: nat)
    requires target < Pow256(PointerSize(arch))
    ensures TrampolineTarget(arch, Trampoline(arch, target)) == Some(target)
  {
    var code := Trampoline(arch, target);
    if arch == X64 {
      assert code[2..10] == LeBytes(target, 8);
      LeRoundTrip(target, 8);
    } else {
      assert code[1..5] == LeBytes(target, 4);
      LeRoundTrip(target, 4);
    }
  }

  /** Every trampoline is the one built for its target. */
  lemma TrampolineOfTarget(arch: Arch, code: seq<Byte>)
    requires TrampolineTarget(arch, code).Some?
    ensures Trampoline(arch, TrampolineTarget(arch, code).value) == code
  {
    if arch == X64 {
      LeBytesOfValue(code[2..10]);
      assert code == code[..2] + code[2..10] + code[10..];
    } else {
      LeBytesOfValue(code[1..5]);
      assert code == code[..1] + code[1..5] + code[5..];
    }
  }

  /**
   * `Hook`: nothing for a NULL function; otherwise the trampoline to
   * `pNewFunc` is written over the function's first bytes with `FillMem`,
   * whose result is ignored.
   */
  method Hook(p: Process, pFunc: Option<nat>, pNewFunc: nat, arch: Arch)
    requires p.Valid()
    requires pNewFunc < Pow256(PointerSize(arch))
    modifies p, p.mem, p.prot
    ensures pFunc.None? ==> p.State() == old(p.State())
    ensures pFunc.Some? ==> p.State() == Fill(old(p.State()), p.grant, pFunc.value, Trampoline(arch, pNewFunc)).0
  {
    if pFunc.None? {
      return;
    }

    var target := LeBytes(pNewFunc, PointerSize(arch));
    var code: array<Byte>;
    if arch == X64 {
      code := new Byte[] [0x48, 0xB8, 0x00, 0x00, 0x00, 0x00, 0x00, 0x00, 0x00, 0x00, 0xFF, 0xE0];
      forall k | 0 <= k < 8 {
        code[2 + k] := target[k];
      }
      assert code[..] == [0x48, 0xB8] + target + [0xFF, 0xE0];
    } else {
      code := new Byte[] [0xB8, 0x00, 0x00, 0x00, 0x00, 0xFF, 0xE0];
      forall k | 0 <= k < 4 {
        code[1 + k] := target[k];
      }
      assert code[..] == [0xB8] + target + [0xFF, 0xE0];
    }

    var _ := p.FillMem(pFunc.value, code[..], code.Length);
    assert code[..][..code.Length] == code[..];
  }

  /**
   * `MessageBoxHook::Init`: when user32.dll loads, both entry points are
   * hooked, A first; a NULL entry point is skipped.
   */
  method Init(p: Process, user32: Option<nat>, messageBoxA: Option<nat>, messageBoxW: Option<nat>,
              hookA: nat, hookW: nat, arch: Arch)
    requires p.Valid()
    requires hookA < Pow256(PointerSize(arch)) && hookW < Pow256(PointerSize(arch))
    modifies p, p.mem, p.prot
    ensures user32.None? ==> p.State() == old(p.State())
    ensures user32.Some? ==>
              var afterA := if messageBoxA.Some? then Fill(old(p.State()), p.grant, messageBoxA.value, Trampoline(arch, hookA)).0
                            else old(p.State());
              p.State() == if messageBoxW.Some? then Fill(afterA, p.grant, messageBoxW.value, Trampoline(arch, hookW)).0
                           else afterA
  {
    if user32.Some? {
      Hook(p, messageBoxA, hookA, arch);
      Hook(p, messageBoxW, hookW, arch);
    }
  }
}
