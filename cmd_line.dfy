/**
 * CmdLine.cpp: reading arguments of the form `-name value` from the process
 * command line. A `const char *` into the command line is an index into it;
 * the index of its length is the terminator.
 */
module CmdLine {
  import opened Types

  /** `isspace` in the C locale. */
  predicate IsSpace(c: CChar)
  {
    c == ' ' || c == '\t' || c == '\n' || c == 11 as char || c == 12 as char || c == '\r'
  }

  predicate IsDigit(c: CChar)
  {
    '0' <= c <= '9'
  }

  /** The chars a scanning loop stops at. */
  datatype Stop = Space | NonSpace | Quote(q: CChar) | NonDigit

  predicate StopsAt(stop: Stop, c: CChar)
  {
    match stop
    case Space => IsSpace(c)
    case NonSpace => !IsSpace(c)
    case Quote(q) => c == q
    case NonDigit => !IsDigit(c)
  }

  /** `tolower` in the C locale: only 'A'-'Z' change. */
  function ToLower(c: CChar): (r: CChar)
    ensures 'A' <= c <= 'Z' ==> r as int == c as int + 32
    ensures !('A' <= c <= 'Z') ==> r == c
  {
    if 'A' <= c <= 'Z' then (c as int + 32) as char else c
  }

  /** The char a pointer `i` chars into `s` reads: the terminator at the end. */
  function At(s: CString, i: nat): CChar
  {
    if i < |s| then s[i] else '\0'
  }

  /** The first index from `i` on whose char satisfies `p`, or the end of `s`. */
  function FirstFrom(s: CString, i: nat, stop: Stop): (r: nat)
    requires i <= |s|
    ensures i <= r <= |s|
    ensures forall k :: i <= k < r ==> !StopsAt(stop, s[k])
    ensures r < |s| ==> StopsAt(stop, s[r])
    decreases |s| - i
  {
    if i == |s| || StopsAt(stop, s[i]) then i else FirstFrom(s, i + 1, stop)
  }

  /** An index that has the defining property of `FirstFrom` is `FirstFrom`. */
  lemma FirstFromUnique(s: CString, i: nat, stop: Stop, r: nat)
    requires i <= r <= |s|
    requires forall k :: i <= k < r ==> !StopsAt(stop, s[k])
    requires r < |s| ==> StopsAt(stop, s[r])
    ensures FirstFrom(s, i, stop) == r
  {
  }

  // ---------------------------------------------------------------------------
  // GetCmdLineWithoutAppName

  /** Where the program name ends: at its closing quote, or at the first space of an unquoted name. */
  function NameEnd(cmd: CString): (r: nat)
    requires |cmd| > 0
    ensures 1 <= r <= |cmd|
  {
    if cmd[0] == '"' then FirstFrom(cmd, 1, Quote('"'))
    else if cmd[0] == '\'' then FirstFrom(cmd, 1, Quote('\''))
    else FirstFrom(cmd, 1, Space)
  }

  /**
   * Where the arguments start: one char past the end of the program name,
   * then past any spaces; the end of the command line when the name runs
   * to it.
   */
  function ArgsStart(cmd: CString): (r: nat)
    requires |cmd| > 0
    ensures 1 <= r <= |cmd|
    ensures r < |cmd| ==> !IsSpace(cmd[r])
  {
    var e := NameEnd(cmd);
    if e < |cmd| then FirstFrom(cmd, e + 1, NonSpace) else e
  }

  /** An unquoted program name, one space, then the arguments. */
  lemma ArgsStartUnquoted(app: CString, args: CString)
    requires app != [] && app[0] != '"' && app[0] != '\''
    requires forall k :: 0 <= k < |app| ==> !IsSpace(app[k])
    requires args != [] ==> !IsSpace(args[0])
    ensures ArgsStart(app + " " + args) == |app| + 1
  {
    var cmd := app + " " + args;
    FirstFromUnique(cmd, 1, Space, |app|);
    FirstFromUnique(cmd, |app| + 1, NonSpace, |app| + 1);
  }

  /** A quoted program name, which may hold spaces, one space, then the arguments. */
  lemma ArgsStartQuoted(app: CString, args: CString)
    requires '"' !in app
    requires args != [] ==> !IsSpace(args[0])
    ensures ArgsStart("\"" + app + "\" " + args) == |app| + 3
  {
    var cmd := "\"" + app + "\" " + args;
    FirstFromUnique(cmd, 1, Quote('"'), |app| + 1);
    FirstFromUnique(cmd, |app| + 2, NonSpace, |app| + 3);
  }

  /**
   * `GetCmdLineWithoutAppName`, on the string `GetCommandLineA` returns; the
   * unquoted branch reads the char after the first one before testing it,
   * so the command line must not be empty.
   */
  method GetCmdLineWithoutAppName(cmd: CString) returns (r: nat)
    requires |cmd| > 0
    ensures r == ArgsStart(cmd)
  {
    var i := 1;
    if cmd[0] == '"' {
      while i < |cmd| && cmd[i] != '"'
        invariant 1 <= i <= |cmd|
        invariant forall k :: 1 <= k < i ==> cmd[k] != '"'
      {
        i := i + 1;
      }
      FirstFromUnique(cmd, 1, Quote('"'), i);
    } else if cmd[0] == '\'' {
      while i < |cmd| && cmd[i] != '\''
        invariant 1 <= i <= |cmd|
        invariant forall k :: 1 <= k < i ==> cmd[k] != '\''
      {
        i := i + 1;
      }
      FirstFromUnique(cmd, 1, Quote('\''), i);
    } else {
      while i < |cmd| && !IsSpace(cmd[i])
        invariant 1 <= i <= |cmd|
        invariant forall k :: 1 <= k < i ==> !IsSpace(cmd[k])
      {
        i := i + 1;
      }
      FirstFromUnique(cmd, 1, Space, i);
    }

    if i < |cmd| {
      i := i + 1;
      var e := i;
      while i < |cmd| && IsSpace(cmd[i])
        invariant e <= i <= |cmd|
        invariant forall k :: e <= k < i ==> IsSpace(cmd[k])
      {
        i := i + 1;
      }
      FirstFromUnique(cmd, e, NonSpace, i);
    }
    return i;
  }

  // ---------------------------------------------------------------------------
  // GetArgValueBegin

  /**
   * From `s[c]` and `arg[a]` on, `n` chars agree up to the case of ASCII
   * letters.
   */
  predicate Agree(s: CString, c: nat, arg: CString, a: nat, n: nat)
    requires c + n <= |s| && a + n <= |arg|
  {
    forall j :: c <= j < c + n ==> ToLower(s[j]) == ToLower(arg[j - c + a])
  }

  /** The name `arg` occurs at `s[i]`, up to the case of ASCII letters. */
  predicate MatchesAt(s: CString, i: nat, arg: CString)
  {
    i + |arg| <= |s| && Agree(s, i, arg, 0, |arg|)
  }

  /**
   * The inner loop of `GetArgValueBegin`: from `s[c]` and `arg[a]` on, the
   * positions where the first case-insensitive mismatch, or the end of
   * either string, stops it.
   */
  function MatchEnd(s: CString, arg: CString, c: nat, a: nat): (r: (nat, nat))
    requires c <= |s| && a <= |arg|
    ensures c <= r.0 <= |s| && a <= r.1 <= |arg| && r.0 - c == r.1 - a
    ensures r.0 < |s| && r.1 < |arg| ==> ToLower(s[r.0]) != ToLower(arg[r.1])
    decreases |s| - c
  {
    if c < |s| && a < |arg| && ToLower(s[c]) == ToLower(arg[a]) then MatchEnd(s, arg, c + 1, a + 1) else (c, a)
  }

  /** The chars the inner loop runs across agree. */
  lemma {:induction false} MatchEndMatches(s: CString, arg: CString, c: nat, a: nat)
    requires c <= |s| && a <= |arg|
    ensures Agree(s, c, arg, a, MatchEnd(s, arg, c, a).0 - c)
    decreases |s| - c
  {
    if c < |s| && a < |arg| && ToLower(s[c]) == ToLower(arg[a]) {
      MatchEndMatches(s, arg, c + 1, a + 1);
    }
  }

  /** Where the name is found: at position `i` or later, the index just after it. */
  function ArgScan(s: CString, arg: CString, i: nat): (r: Option<nat>)
    requires i <= |s|
    ensures r.Some? ==> i < r.value <= |s|
    decreases |s| - i
  {
    if i == |s| then None
    else if ToLower(s[i]) == ToLower(At(arg, 0)) then
      var m := MatchEnd(s, arg, i + 1, 1);
      if m.1 == |arg| && (m.0 == |s| || IsSpace(s[m.0])) then Some(m.0)
      else if m.0 == |s| then None
      else ArgScan(s, arg, m.0 + 1)
    else ArgScan(s, arg, i + 1)
  }

  /** A match of the whole name that starts at `s[i]` ends `|arg|` chars on, and the name occurs there. */
  lemma FullMatch(s: CString, arg: CString, i: nat)
    requires i < |s| && arg != [] && ToLower(s[i]) == ToLower(arg[0])
    requires MatchEnd(s, arg, i + 1, 1).1 == |arg|
    ensures MatchEnd(s, arg, i + 1, 1).0 == i + |arg|
    ensures MatchesAt(s, i, arg)
  {
    MatchEndMatches(s, arg, i + 1, 1);
  }

  /** A found name is really there: it matches case-insensitively and ends at a space or at the end. */
  lemma {:induction false} ArgScanSound(s: CString, arg: CString, i: nat)
    requires i <= |s|
    requires ArgScan(s, arg, i).Some?
    ensures var j := ArgScan(s, arg, i).value;
            && arg != [] && i + |arg| <= j <= |s|
            && MatchesAt(s, j - |arg|, arg)
            && (j == |s| || IsSpace(s[j]))
    decreases |s| - i
  {
    if ToLower(s[i]) == ToLower(At(arg, 0)) {
      assert arg != [];
      var c, a := MatchEnd(s, arg, i + 1, 1).0, MatchEnd(s, arg, i + 1, 1).1;
      if a == |arg| && (c == |s| || IsSpace(s[c])) {
        assert ArgScan(s, arg, i) == Some(c);
        FullMatch(s, arg, i);
      } else if c < |s| {
        assert ArgScan(s, arg, i) == ArgScan(s, arg, c + 1);
        ArgScanSound(s, arg, c + 1);
      }
    } else {
      assert ArgScan(s, arg, i) == ArgScan(s, arg, i + 1);
      ArgScanSound(s, arg, i + 1);
    }
  }

  /** A name at the start of the scan, followed by a space or the end, is found there. */
  lemma ArgScanAtStart(s: CString, arg: CString, i: nat)
    requires arg != [] && MatchesAt(s, i, arg)
    requires i + |arg| == |s| || IsSpace(s[i + |arg|])
    ensures ArgScan(s, arg, i) == Some(i + |arg|)
  {
    assert ToLower(s[i]) == ToLower(arg[i - i + 0]);
    MatchEndAcross(s, arg, i + 1, 1, |arg| - 1);
  }

  /** The name holds no space. */
  predicate SpaceFree(arg: CString)
  {
    forall k :: 0 <= k < |arg| ==> !IsSpace(arg[k])
  }

  /** The inner loop, run against a name without spaces, stops at the next space at the latest. */
  lemma {:induction false} MatchEndStopsAtSpace(s: CString, arg: CString, c: nat, a: nat, p: nat)
    requires c <= p < |s| && a <= |arg|
    requires IsSpace(s[p]) && SpaceFree(arg)
    ensures MatchEnd(s, arg, c, a).0 <= p
    decreases p - c
  {
    if c < p && a < |arg| && ToLower(s[c]) == ToLower(arg[a]) {
      MatchEndStopsAtSpace(s, arg, c + 1, a + 1, p);
    }
  }

  /**
   * A name without spaces that stands as a whole word at or after the scan
   * position (at the position itself or after a space, and followed by a
   * space or the end) is found: no partial match runs across the space in
   * front of it.
   */
  lemma {:induction false} ArgScanFindsWordStart(s: CString, arg: CString, i: nat, j: nat)
    requires arg != [] && SpaceFree(arg)
    requires i <= j && MatchesAt(s, j, arg)
    requires j == i || IsSpace(s[j - 1])
    requires j + |arg| == |s| || IsSpace(s[j + |arg|])
    ensures ArgScan(s, arg, i).Some?
    decreases j - i
  {
    if i == j {
      ArgScanAtStart(s, arg, j);
    } else if i + 1 < j && ToLower(s[i]) == ToLower(At(arg, 0)) {
      var m := MatchEnd(s, arg, i + 1, 1);
      if !(m.1 == |arg| && (m.0 == |s| || IsSpace(s[m.0]))) {
        MatchEndStopsAtSpace(s, arg, i + 1, 1, j - 1);
        ArgScanFindsWordStart(s, arg, m.0 + 1, j);
      }
    } else {
      ArgScanFindsWordStart(s, arg, i + 1, j);
    }
  }

  /** The inner loop runs across `n` chars that agree. */
  lemma {:induction false} MatchEndAcross(s: CString, arg: CString, c: nat, a: nat, n: nat)
    requires c + n <= |s| && a + n == |arg|
    requires Agree(s, c, arg, a, n)
    ensures MatchEnd(s, arg, c, a) == (c + n, a + n)
    decreases n
  {
    if n > 0 {
      assert ToLower(s[c]) == ToLower(arg[c - c + a]);
      MatchEndAcross(s, arg, c + 1, a + 1, n - 1);
    }
  }

  /** `GetArgValueBegin`'s scan as written: it can step past the terminator. */
  datatype ScanOutcome = Found(pos: nat) | NotFound | ReadsPastEnd

  /**
   * The scan as written: after an inner loop that stopped at the terminator
   * with part of the name still unmatched, the outer loop's `cmdLine++`
   * moves past the terminator and the scan goes on reading beyond the string.
   */
  function ArgScanAsWritten(s: CString, arg: CString, i: nat): ScanOutcome
    requires i <= |s|
    decreases |s| - i
  {
    if i == |s| then NotFound
    else if ToLower(s[i]) == ToLower(At(arg, 0)) then
      var m := MatchEnd(s, arg, i + 1, 1);
      if m.1 == |arg| && (m.0 == |s| || IsSpace(s[m.0])) then Found(m.0)
      else if m.0 == |s| then ReadsPastEnd
      else ArgScanAsWritten(s, arg, m.0 + 1)
    else ArgScanAsWritten(s, arg, i + 1)
  }

  /** Wherever the scan as written stays inside the string, it finds what the corrected scan finds. */
  lemma {:induction false} ArgScanAsWrittenAgrees(s: CString, arg: CString, i: nat)
    requires i <= |s|
    requires ArgScanAsWritten(s, arg, i) != ReadsPastEnd
    ensures ArgScanAsWritten(s, arg, i) == if ArgScan(s, arg, i).Some? then Found(ArgScan(s, arg, i).value) else NotFound
    decreases |s| - i
  {
    if i < |s| {
      if ToLower(s[i]) == ToLower(At(arg, 0)) {
        var c, a := MatchEnd(s, arg, i + 1, 1).0, MatchEnd(s, arg, i + 1, 1).1;
        if !(a == |arg| && (c == |s| || IsSpace(s[c]))) && c < |s| {
          ArgScanAsWrittenAgrees(s, arg, c + 1);
        }
      } else {
        ArgScanAsWrittenAgrees(s, arg, i + 1);
      }
    }
  }

  /**
   * The command line `x -p` and the name `-port`: "-p" matches the start of
   * the name and the line ends, so the scan as written reads past the
   * terminator; the corrected scan reports the name missing.
   */
  lemma PrefixAtEndReadsPastEnd()
    ensures ArgsStart("x -p") == 2
    ensures ArgScanAsWritten("x -p", "-port", 2) == ReadsPastEnd
    ensures ArgScan("x -p", "-port", 2) == None
  {
    ArgsStartUnquoted("x", "-p");
    assert MatchEnd("x -p", "-port", 3, 1) == (4, 2);
  }

  /**
   * After a partial match the scan resumes one past the mismatch, so in
   * `x --port` the `-port` at index 3 is not found: the first '-' starts a
   * match that fails on the second, which is then skipped.
   */
  lemma OverlapMissed()
    ensures ArgsStart("x --port") == 2
    ensures "x --port"[3..] == "-port"
    ensures ArgScan("x --port", "-port", 2) == None
  {
    ArgsStartUnquoted("x", "--port");
    assert MatchEnd("x --port", "-port", 3, 1) == (3, 1);
    assert ArgScan("x --port", "-port", 2) == ArgScan("x --port", "-port", 4);
  }

  /** The inner loop of `GetArgValueBegin`, comparing from `cmd[c]` and `arg[a]` on. */
  method MatchFrom(cmd: CString, arg: CString, c: nat, a: nat) returns (c': nat, a': nat)
    requires c <= |cmd| && 1 <= a <= |arg|
    ensures (c', a') == MatchEnd(cmd, arg, c, a)
  {
    c', a' := c, a;
    while c' < |cmd| && a' < |arg|
      invariant c <= c' <= |cmd| && a <= a' <= |arg|
      invariant MatchEnd(cmd, arg, c', a') == MatchEnd(cmd, arg, c, a)
      decreases |cmd| - c'
    {
      if ToLower(cmd[c']) != ToLower(arg[a']) {
        break;
      }
      c' := c' + 1;
      a' := a' + 1;
    }
  }

  /** `GetArgValueBegin`: the index just after the name, or None (NULL). */
  method GetArgValueBegin(cmd: CString, arg: CString) returns (r: Option<nat>)
    requires |cmd| > 0
    ensures r == ArgScan(cmd, arg, ArgsStart(cmd))
  {
    var start := GetCmdLineWithoutAppName(cmd);
    var i := start;
    while i < |cmd|
      invariant start <= i <= |cmd|
      invariant ArgScan(cmd, arg, i) == ArgScan(cmd, arg, start)
      decreases |cmd| - i
    {
      if ToLower(cmd[i]) == ToLower(At(arg, 0)) {
        var a;
        i, a := MatchFrom(cmd, arg, i + 1, 1);
        if a == |arg| {
          // reached end of argument name
          if i == |cmd| || IsSpace(cmd[i]) {
            return Some(i);
          }
        }
        if i == |cmd| {
          // the name's prefix runs to the end of the command line
          return None;
        }
      }
      i := i + 1;
    }
    return None;
  }

  /** `CmdLine::HasArg`. */
  method HasArg(cmd: CString, arg: CString) returns (r: bool)
    requires |cmd| > 0
    ensures r <==> ArgScan(cmd, arg, ArgsStart(cmd)).Some?
  {
    var valueBegin := GetArgValueBegin(cmd, arg);
    return valueBegin.Some?;
  }

  /**
   * What `HasArg` reports: a name without spaces that is a whole word of the
   * arguments (the first one, or one after a space) is present, and a present
   * name occurs in the command line followed by a space or the end.
   */
  lemma HasArgWord(cmd: CString, arg: CString, j: nat)
    requires |cmd| > 0 && arg != [] && SpaceFree(arg)
    requires ArgsStart(cmd) <= j && MatchesAt(cmd, j, arg)
    requires j == ArgsStart(cmd) || IsSpace(cmd[j - 1])
    requires j + |arg| == |cmd| || IsSpace(cmd[j + |arg|])
    ensures ArgScan(cmd, arg, ArgsStart(cmd)).Some?
    ensures var e := ArgScan(cmd, arg, ArgsStart(cmd)).value;
            && ArgsStart(cmd) + |arg| <= e <= |cmd|
            && MatchesAt(cmd, e - |arg|, arg) && (e == |cmd| || IsSpace(cmd[e]))
  {
    ArgScanFindsWordStart(cmd, arg, ArgsStart(cmd), j);
    ArgScanSound(cmd, arg, ArgsStart(cmd));
  }

  // ---------------------------------------------------------------------------
  // GetArgValue and GetArgValueInt

  /**
   * The value that starts at `v`: after any spaces, the text up to the
   * matching quote (or the end) when it starts with a quote, otherwise up to
   * the next space; None when only spaces are left.
   */
  function ValueAt(s: CString, v: nat): Option<CString>
    requires v <= |s|
  {
    var b := FirstFrom(s, v, NonSpace);
    if b == |s| then None
    else if s[b] == '"' then Some(s[b + 1..FirstFrom(s, b + 1, Quote('"'))])
    else if s[b] == '\'' then Some(s[b + 1..FirstFrom(s, b + 1, Quote('\''))])
    else Some(s[b..FirstFrom(s, b, Space)])
  }

  /** The value of argument `arg` on the command line, or None when the name is missing or nothing follows it. */
  function ArgValue(cmd: CString, arg: CString): Option<CString>
    requires |cmd| > 0
  {
    match ArgScan(cmd, arg, ArgsStart(cmd))
    case None => None
    case Some(v) => ValueAt(cmd, v)
  }

  /** An unquoted value has no spaces, and a quoted value has no quote of its kind. */
  lemma ValueAtShape(s: CString, v: nat)
    requires v <= |s| && ValueAt(s, v).Some?
    ensures var b := FirstFrom(s, v, NonSpace);
            var value := ValueAt(s, v).value;
            && (s[b] == '"' ==> '"' !in value)
            && (s[b] == '\'' ==> '\'' !in value)
            && (s[b] != '"' && s[b] != '\'' ==> value != [] && forall k :: 0 <= k < |value| ==> !IsSpace(value[k]))
  {
  }

  /** `name value` after an unquoted program name: the value is read back. */
  lemma {:induction false} ArgValueRoundTrip(app: CString, arg: CString, value: CString)
    requires app != [] && app[0] != '"' && app[0] != '\''
    requires forall k :: 0 <= k < |app| ==> !IsSpace(app[k])
    requires arg != [] && forall k :: 0 <= k < |arg| ==> !IsSpace(arg[k])
    requires value != [] && value[0] != '"' && value[0] != '\''
    requires forall k :: 0 <= k < |value| ==> !IsSpace(value[k])
    ensures ArgValue(app + " " + arg + " " + value, arg) == Some(value)
  {
    var cmd := app + " " + arg + " " + value;
    var i := |app| + 1;
    var v := i + |arg|;
    assert |cmd| == v + 1 + |value|;
    forall k | 0 <= k < |app|
      ensures cmd[k] == app[k]
    {
    }
    FirstFromUnique(cmd, 1, Space, |app|);
    FirstFromUnique(cmd, i, NonSpace, i);
    assert ArgsStart(cmd) == i;

    forall j | i <= j < v
      ensures cmd[j] == arg[j - i + 0]
    {
    }
    ArgScanAtStart(cmd, arg, i);

    forall k | v + 1 <= k < |cmd|
      ensures cmd[k] == value[k - (v + 1)]
    {
    }
    FirstFromUnique(cmd, v, NonSpace, v + 1);
    FirstFromUnique(cmd, v + 1, Space, |cmd|);
    assert cmd[v + 1..|cmd|] == value;
    assert ArgScan(cmd, arg, ArgsStart(cmd)) == Some(v);
    assert ValueAt(cmd, v) == Some(value);
  }

  /** A loop that advances a pointer to the first char satisfying `p`, or to the terminator. */
  method FindFrom(cmd: CString, i: nat, stop: Stop) returns (r: nat)
    requires i <= |cmd|
    ensures r == FirstFrom(cmd, i, stop)
  {
    r := i;
    while r < |cmd| && !StopsAt(stop, cmd[r])
      invariant i <= r <= |cmd|
      invariant forall k :: i <= k < r ==> !StopsAt(stop, cmd[k])
    {
      r := r + 1;
    }
    FirstFromUnique(cmd, i, stop, r);
  }

  /** The second half of `GetArgValue`: reading the value that starts at `v`. */
  method ReadValue(cmd: CString, v: nat) returns (r: Option<CString>)
    requires v <= |cmd|
    ensures r == ValueAt(cmd, v)
  {
    var b := FindFrom(cmd, v, NonSpace);
    if b == |cmd| {
      return None;
    }
    var e;
    if cmd[b] == '"' {
      b := b + 1;
      e := FindFrom(cmd, b, Quote('"'));
    } else if cmd[b] == '\'' {
      b := b + 1;
      e := FindFrom(cmd, b, Quote('\''));
    } else {
      e := FindFrom(cmd, b, Space);
    }
    SliceIsCString(cmd, b, e);
    return Some(cmd[b..e]);
  }

  /** `CmdLine::GetArgValue`: the value, else `defaultValue`, else "". */
  method GetArgValue(cmd: CString, arg: CString, defaultValue: Option<CString>) returns (r: CString)
    requires |cmd| > 0
    ensures ArgValue(cmd, arg).Some? ==> r == ArgValue(cmd, arg).value
    ensures ArgValue(cmd, arg).None? ==> r == if defaultValue.Some? then defaultValue.value else ""
  {
    var valueBegin := GetArgValueBegin(cmd, arg);
    if valueBegin.Some? {
      var value := ReadValue(cmd, valueBegin.value);
      if value.Some? {
        return value.value;
      }
    }
    return if defaultValue.Some? then defaultValue.value else "";
  }

  /** The number a digit string spells in decimal. */
  function DigitsValue(ds: seq<CChar>): nat
    requires forall k :: 0 <= k < |ds| ==> IsDigit(ds[k])
  {
    if ds == [] then 0
    else
      var last := ds[|ds| - 1];
      assert IsDigit(last);
      10 * DigitsValue(ds[..|ds| - 1]) + (last as int - '0' as int)
  }

  /**
   * `atoi`: skips leading spaces, reads an optional sign and then the
   * longest run of decimal digits; 0 when there are none.
   */
  function Atoi(s: CString): int
  {
    var b := FirstFrom(s, 0, NonSpace);
    var d := if b < |s| && (s[b] == '-' || s[b] == '+') then b + 1 else b;
    var e := FirstFrom(s, d, NonDigit);
    var n: int := DigitsValue(s[d..e]);
    if b < |s| && s[b] == '-' then -n else n
  }

  /** The decimal digits of `n`, most significant first. */
  function Decimal(n: nat): (r: CString)
    ensures r != []
    ensures forall k :: 0 <= k < |r| ==> IsDigit(r[k])
  {
    if n < 10 then [('0' as int + n) as char] else Decimal(n / 10) + [('0' as int + n % 10) as char]
  }

  lemma {:induction false} DigitsValueDecimal(n: nat)
    ensures DigitsValue(Decimal(n)) == n
  {
    if n >= 10 {
      DigitsValueDecimal(n / 10);
      assert Decimal(n)[..|Decimal(n)| - 1] == Decimal(n / 10);
    } else {
      assert Decimal(n)[..0] == [];
    }
  }

  /** `atoi` reads back every number written in decimal, with or without a minus sign. */
  lemma AtoiDecimal(n: nat)
    ensures Atoi(Decimal(n)) == n
    ensures Atoi("-" + Decimal(n)) == -(n as int)
  {
    var s := Decimal(n);
    DigitsValueDecimal(n);
    FirstFromUnique(s, 0, NonSpace, 0);
    FirstFromUnique(s, 0, NonDigit, |s|);
    assert s[0..|s|] == s;
    var t := "-" + s;
    FirstFromUnique(t, 0, NonSpace, 0);
    FirstFromUnique(t, 1, NonDigit, |t|);
    assert t[1..|t|] == s;
  }

  /** `CmdLine::GetArgValueInt`: `defaultValue` when the value is missing or empty, otherwise `atoi` of it. */
  method GetArgValueInt(cmd: CString, arg: CString, defaultValue: int) returns (r: int)
    requires |cmd| > 0
    ensures ArgValue(cmd, arg).None? || ArgValue(cmd, arg) == Some([]) ==> r == defaultValue
    ensures ArgValue(cmd, arg).Some? && ArgValue(cmd, arg).value != [] ==> r == Atoi(ArgValue(cmd, arg).value)
  {
    var value := GetArgValue(cmd, arg, None);
    return if value == [] then defaultValue else Atoi(value);
  }

  /** `name <decimal>` after an unquoted program name: `GetArgValueInt` gives the number back. */
  lemma ArgValueIntRoundTrip(app: CString, arg: CString, n: nat)
    requires app != [] && app[0] != '"' && app[0] != '\''
    requires forall k :: 0 <= k < |app| ==> !IsSpace(app[k])
    requires arg != [] && forall k :: 0 <= k < |arg| ==> !IsSpace(arg[k])
    ensures ArgValue(app + " " + arg + " " + Decimal(n), arg) == Some(Decimal(n))
    ensures Atoi(Decimal(n)) == n
  {
    ArgValueRoundTrip(app, arg, Decimal(n));
    AtoiDecimal(n);
  }
}
