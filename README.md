# C1-Headless launcher core in Dafny

The C1-Headless launcher starts a Crysis dedicated server without the game's
own launcher. It loads the engine DLLs (CryGame, CryAction, CryNetwork and
CrySystem), reads the game build number from CrySystem's version resource,
and patches the machine code of the engine in memory. The patches depend on
the build and the architecture. If every patch succeeds, it starts the
engine. Around this core sit a few small pieces of sequential logic:

- a growable string buffer;
- a command-line scanner;
- the log writer's control-character filter;
- the message-box hook that logs the text of a message box;
- the queue of tasks that the main thread drains.

This project models those parts and proves what they promise.

| file | module | models |
|---|---|---|
| `types.dfy` | `Types` | `Option`, `Arch` (x86 or x86-64), bytes, C chars and strings, little-endian encoding |
| `util.dfy` | `Util` | `CalculateAddress`; process memory and page protection as class `Process`; `FillNOP` and `FillMem`; `GetCrysisGameVersion` over the version-resource bytes |
| `patch.dfy` | `Patch` | the patch catalogue (build × architecture → fills) and the four `Patch*` routines |
| `launcher.dfy` | `Launcher` | `InstallMemoryPatches`, `RunServer`'s command-line check and exit status, and `main` |
| `string_buffer.dfy` | `StringBuffers` | `StringBuffer<DefaultSize>` as a class over a stack array and a heap array |
| `cmd_line.dfy` | `CmdLine` | `GetCmdLineWithoutAppName`, `GetArgValueBegin`, `HasArg`, `GetArgValue`, `GetArgValueInt` |
| `log.dfy` | `Logging` | `WriteToFile` |
| `message_box_hook.dfy` | `MessageBoxHooks` | `LogText`, the `MessageBoxIndirectA` replacement, `Hook` and `Init` |
| `task_system.dfy` | `TaskSystems` | `TaskSystem` and its `Impl` queue |

How the model represents the system:

- **Memory.** A process's memory is an array of bytes, with one protection
  value per byte.
- **VirtualProtect.** `VirtualProtect` is an oracle. Call number `k` succeeds
  exactly when `grant(k)` holds and the range lies inside memory.
  `FillNOP` and `FillMem` are methods of `Util.Process`. Each is proved
  equal to the value-level function `Util.Fill`.
- **Patches.** A patch is its list of fills (`Patch.Write`).
  `Patch.RunWrites` performs such a list and stops at the first fill that
  fails. Every routine is proved equal to `RunWrites` of its catalogue
  entry, and the facts about memory are proved of `RunWrites`.
- **Architecture.** The `BUILD_64BIT` switch becomes an `Arch` parameter.
- **StringBuffer.** The string buffer is a class whose `View()` is a
  `StringBuffers.Shape` value: template size, heap or stack, capacity and
  text. Each method is specified by a function on `Shape`, and that
  function's properties are proved.
- **Command line.** A `const char *` into the command line is an index.
  The scanners are loops, each proved equal to a recursive function. The
  properties are proved of those functions.
- **Tasks.** A task is its identity plus the tasks its `Run` adds.
  `ExecuteWaitingTasks` is proved to record exactly `Trace(Drain(queue))`.

## Model

| member | source | states |
|---|---|---|
| Util.CalculateAddressZero | Code/Launcher/Util.h:19-22 | an offset of 0 gives the base back |
| Util.CalculateAddressCompose | Code/Launcher/Util.h:19-27 | adding offset a and then b is adding a+b; one function stands for both overloads, which compute the same byte address |
| Util.VirtualProtectCall | Code/Launcher/Util.cpp:22-23 | a protect call succeeds iff the oracle grants it and the range is in memory; on success it reports the old protection and sets the new one on exactly the range; memory never changes |
| Util.Fill | Code/Launcher/Util.cpp:18-32 | a refused first unlock returns -1 with memory untouched; otherwise the data lands in the range, and the result is 0 iff the restoring call succeeds; on 0 the range gets its old protection back; bytes outside the range never change |
| Util.FillRestoresProtection | Code/Launcher/Util.cpp:26-31 | a successful fill of a range with one protection leaves all protection as it was |
| Util.Process.VirtualProtect | Code/Launcher/Util.cpp:45-46 | changes the protection as `VirtualProtectCall` says and nothing else |
| Util.Process.Memset | Code/Launcher/Util.cpp:26 | writes `length` copies of the value at the address and changes no other byte |
| Util.Process.Memcpy | Code/Launcher/Util.cpp:48 | copies `data[0..length)` to the address and changes no other byte |
| Util.Process.FillNOP | Code/Launcher/Util.cpp:18-32 | new state and result are `Fill` of `length` NOPs (0x90) |
| Util.Process.FillMem | Code/Launcher/Util.cpp:41-54 | new state and result are `Fill` of `data[0..length)` |
| Util.GetCrysisGameVersion | Code/Launcher/Util.cpp:62-85 | the result is -1 or in [0, 0xFFFF], and -1 exactly when the resource is missing or too short, the key at offset 6 is not UTF-16LE `VS_VERSION_INFO` plus NUL, or the signature at 0x28 is not 0xFEEF04BD |
| Util.VersionResourceHasKey | Code/Launcher/Util.cpp:77-78 | a well-formed version resource carries the 0x20-byte key at offset 6 |
| Util.VersionResourceHasSignature | Code/Launcher/Util.cpp:80-82 | a well-formed version resource carries 0xFEEF04BD at offset 0x28 |
| Util.VersionResourceFileVersionLS | Code/Launcher/Util.cpp:80 | `dwFileVersionLS` reads back little-endian at offset 0x28 + 12 |
| Util.ParseVersionResource | Code/Launcher/Util.cpp:77-84 | parsing a well-formed resource returns the low 16 bits of its `dwFileVersionLS` |
| Util.CorruptKeyFails | Code/Launcher/Util.cpp:77-78 | changing any byte of the key makes the parser return -1 |
| Patch.RunWrites | Code/Launcher/Patch.cpp:253-256 | fills run in order and stop at the first failure; the result is 0 or -1; at most two protect calls per fill are made, and on 0 exactly two per fill |
| Patch.RunWritesFrame | Code/Launcher/Patch.cpp:19-324 | a byte that no fill of the list covers keeps its contents and its protection, whether the patch succeeds or fails |
| Patch.Apply | Code/Launcher/Patch.cpp:82-85 | a build the catalogue does not know returns -1 and changes nothing |
| Patch.RunSingle | Code/Launcher/Patch.cpp:34-35 | a patch of one fill is that fill |
| Patch.RunWritesAppend | Code/Launcher/Patch.cpp:253-256 | running a+b is running a and then, only if a succeeded, b |
| Patch.RunWritesSucceeds | Code/Launcher/Patch.cpp:253-256 | a list of fills returns 0 iff every range is in memory and all 2n protect calls are granted |
| Patch.RunWritesContents | Code/Launcher/Patch.cpp:34-36 | after a successful run of non-overlapping fills, each range holds exactly its data |
| Patch.RunWritesFailure | Code/Launcher/Patch.cpp:253-256 | a failed run has a first failing fill k; fills before k succeeded and nothing after k was attempted |
| Patch.RunWritesCons | Code/Launcher/Patch.cpp:253-256 | after a successful first fill the rest runs from the new state |
| Patch.GameplayStatsWrites | Code/Launcher/Patch.cpp:19-89 | there are fills exactly for builds 5767, 5879, 6115 and 6156 |
| Patch.DuplicateCDKeyWrites | Code/Launcher/Patch.cpp:98-160 | there are fills exactly for the four supported builds |
| Patch.Disable3DNowWrites | Code/Launcher/Patch.cpp:169-233 | there are fills exactly for the four supported builds |
| Patch.UnhandledExceptionsWrites | Code/Launcher/Patch.cpp:246-324 | there are fills exactly for the four supported builds |
| Patch.CatalogueWellFormed | Code/Launcher/Patch.cpp:246-324 | the three exception-handler ranges never overlap and lie at or above the DLL base |
| Patch.GameplayStats64Bit6156 | Code/Launcher/Patch.cpp:50-53 | 64-bit build 6156 writes `C3 90 90 90 90` at CryAction + 0x2FA976 |
| Patch.CatalogueShapes | Code/Launcher/Patch.cpp:19-324 | for every supported build: 64-bit writes `ret; nop x4`, 0x47 NOPs, 6/7/0x16 NOPs and byte 0x18; 32-bit writes 7 NOPs, 4 NOPs, 5/0xC/0x13 NOPs and byte 0x18; each at its table offset past the DLL base |
| Patch.PatchGameplayStats | Code/Launcher/Patch.cpp:19-89 | new memory and result are `Apply` of the GameplayStats entry: -1 and nothing written for an unknown build |
| Patch.PatchDuplicateCDKey | Code/Launcher/Patch.cpp:98-160 | the same, for the DuplicateCDKey entry |
| Patch.PatchDisable3DNow | Code/Launcher/Patch.cpp:169-233 | the same, for the Disable3DNow entry |
| Patch.PatchUnhandledExceptions | Code/Launcher/Patch.cpp:246-324 | the same, for the three fills joined by `\|\|`: a failure skips the remaining fills |
| Launcher.InstallWrites | Code/Launcher/Main.cpp:207-234 | there is an install plan exactly for the four supported builds |
| Launcher.InstallOrder | Code/Launcher/Main.cpp:207-231 | the plan is the concatenation of the GameplayStats, DuplicateCDKey and UnhandledExceptions fills, then the Disable3DNow fill only on an AMD CPU without 3DNow!; five or six fills, at these indices |
| Launcher.Install6156X64 | Code/Launcher/Main.cpp:207-231 | the concrete plan for 64-bit build 6156 on a non-AMD CPU |
| Launcher.FailureAbsorbs | Code/Launcher/Main.cpp:211-222 | after a failing prefix, later fills change nothing |
| Launcher.SuccessContinues | Code/Launcher/Main.cpp:211-222 | after a successful prefix, the rest runs from the state it left |
| Launcher.InstallStopsAtGameplayStats | Code/Launcher/Main.cpp:211-212 | if the first patch fails, installing is exactly that failure: no later patch is attempted |
| Launcher.InstallStep | Code/Launcher/Main.cpp:211-230 | running one more patch after a successful prefix extends the run, and a failure there ends the whole plan |
| Launcher.InstallMemoryPatches | Code/Launcher/Main.cpp:207-234 | new memory and result are `Apply` of the install plan |
| Launcher.RunServer | Code/Launcher/Main.cpp:143-205 | the status is 0 or -1; a command line of length ≥ the buffer size gives -1; 0 iff the engine starts, the line fits and the engine exits with 0 |
| Launcher.PatchAndRun | Code/Launcher/Main.cpp:284-313 | an unsupported build exits with 1 and memory untouched; for a supported build memory is the install plan applied, a failed patch exits with 1 without starting the server, and otherwise the exit code is 1 iff `RunServer` fails |
| Launcher.LauncherMain | Code/Launcher/Main.cpp:236-314 | exit code is 0 or 1; a missing DLL, unreadable version or unsupported build exits 1 with memory untouched; otherwise memory is the install plan applied, a failed patch exits 1, and success exits 0 iff `RunServer` returns 0; a read version is stored in the environment |
| StringBuffers.Resized | Code/Launcher/StringBuffer.h:230-260 | corrected (see Findings): 0 or the current capacity changes nothing, and so does a size of at most `DefaultSize` on the stack; a size above `DefaultSize` becomes the heap capacity; a shrink from the heap to the stack gives capacity `DefaultSize`; a text too long for the size is cut to `size - 1` chars; the invariant (a stack buffer has capacity `DefaultSize`) is kept |
| StringBuffers.SpaceMade | Code/Launcher/StringBuffer.h:218-228 | grows only when `length` exceeds the room, to max(len+length+1, 2×capacity); afterwards `length` chars fit and the text is unchanged |
| StringBuffers.Appended | Code/Launcher/StringBuffer.h:127-139 | the text becomes old text + data, the capacity never shrinks and the invariant is kept |
| StringBuffers.Popped | Code/Launcher/StringBuffer.h:90-94 | removes min(n, length) trailing chars and keeps the rest as a prefix |
| StringBuffers.AppendedTwice | Code/Launcher/StringBuffer.h:127-139 | appending a and then b gives the text of appending a+b |
| StringBuffers.PopUndoesAppend | Code/Launcher/StringBuffer.h:90-94 | popping the appended length gives the old text back |
| StringBuffers.ResizeAsWrittenAgrees | Code/Launcher/StringBuffer.h:230-260 | resize as written equals the corrected one except for a shrink from the heap to the stack; on the stack, a size of at most `DefaultSize` leaves the buffer unchanged |
| StringBuffers.ResizeAsWrittenShrinksCapacity | Code/Launcher/StringBuffer.h:238-259 | a shrink from the heap to the stack records `size` as written and `DefaultSize` corrected, with the same text; the two differ iff `size < DefaultSize` |
| StringBuffers.SpaceMadeAsWrittenAgrees | Code/Launcher/StringBuffer.h:218-228 | makeSpaceFor as written equals the corrected one on every buffer that keeps the invariant |
| StringBuffers.AvailableAsWrittenWraps | Code/Launcher/StringBuffer.h:70-73 | the `size_t` available length equals capacity − length − 1 when that is not negative, and wraps to the top of the word when it is |
| StringBuffers.ShrunkStackBufferOverflows | Code/Launcher/StringBuffer.h:238-259 | as written, the call sequence in Findings leaves a stack buffer with capacity 2 below `DefaultSize`, then breaks `m_pos < m_bufferSize`, makes the available length `SIZE_MAX`, and writes the terminator one past the stack array |
| StringBuffers.ShrunkStackBufferGrows | Code/Launcher/StringBuffer.h:218-260 | with the corrected resize the shrink gives the stack buffer capacity `DefaultSize`, and the same appends move the text "abcd" back to the heap and keep the invariant |
| StringBuffers.StringBuffer.constructor | Code/Launcher/StringBuffer.h:34-40 | a new buffer is on the stack with capacity `DefaultSize` and holds "" |
| StringBuffers.StringBuffer.GetLength | Code/Launcher/StringBuffer.h:65-68 | the length of the text |
| StringBuffers.StringBuffer.IsEmpty | Code/Launcher/StringBuffer.h:55-58 | true iff the text is "" |
| StringBuffers.StringBuffer.GetCapacity | Code/Launcher/StringBuffer.h:75-78 | the capacity |
| StringBuffers.StringBuffer.GetAvailableLength | Code/Launcher/StringBuffer.h:70-73 | capacity − length − 1, never below zero under the invariant |
| StringBuffers.StringBuffer.Get | Code/Launcher/StringBuffer.h:60-63 | the text followed by its NUL terminator |
| StringBuffers.StringBuffer.At | Code/Launcher/StringBuffer.h:80-83 | the char at the index, the terminator at index length |
| StringBuffers.StringBuffer.GetLast | Code/Launcher/StringBuffer.h:85-88 | the last char, or the terminator when the text is empty |
| StringBuffers.StringBuffer.Pop | Code/Launcher/StringBuffer.h:90-94 | the buffer becomes `Popped` of its old value |
| StringBuffers.StringBuffer.Resize | Code/Launcher/StringBuffer.h:230-260 | the buffer becomes `Resized` of its old value: a stack buffer resized to at most `DefaultSize` is unchanged, and a shrink from the heap to the stack records capacity `DefaultSize` |
| StringBuffers.StringBuffer.MakeSpaceFor | Code/Launcher/StringBuffer.h:218-228 | the buffer becomes `SpaceMade` of its old value |
| StringBuffers.StringBuffer.AppendChar | Code/Launcher/StringBuffer.h:108-115 | the buffer becomes `Appended` of its old value and [c] |
| StringBuffers.StringBuffer.AppendChars | Code/Launcher/StringBuffer.h:127-139 | a NULL string or length 0 changes nothing; otherwise `Appended` with `string[0..length)` |
| StringBuffers.StringBuffer.AppendCStr | Code/Launcher/StringBuffer.h:117-125 | a NULL string changes nothing; otherwise the whole string is appended |
| StringBuffers.StringBuffer.AppendBuffer | Code/Launcher/StringBuffer.h:141-145 | appends the other buffer's text and leaves the other buffer unchanged |
| CmdLine.ToLower | Code/Launcher/CmdLine.cpp:56 | `tolower`: A-Z map to a-z and every other char is itself |
| CmdLine.FirstFrom | Code/Launcher/CmdLine.cpp:25-33 | the first index at or after i where the scan stops (or the end); no earlier char stops it |
| CmdLine.NameEnd | Code/Launcher/CmdLine.cpp:22-34 | the program name ends at an index in [1, length] |
| CmdLine.ArgsStart | Code/Launcher/CmdLine.cpp:18-47 | the arguments start at an index in [1, length] and never at a space |
| CmdLine.ArgsStartUnquoted | Code/Launcher/CmdLine.cpp:31-44 | for `app args` with an unquoted, space-free name, the arguments start right after the space |
| CmdLine.ArgsStartQuoted | Code/Launcher/CmdLine.cpp:23-44 | for `"app" args`, the arguments start after the closing quote and the space |
| CmdLine.GetCmdLineWithoutAppName | Code/Launcher/CmdLine.cpp:18-47 | the loops return `ArgsStart` |
| CmdLine.MatchEnd | Code/Launcher/CmdLine.cpp:59-65 | the inner loop advances both pointers equally and stops at the end of either or at the first case-insensitive mismatch |
| CmdLine.MatchEndMatches | Code/Launcher/CmdLine.cpp:59-65 | every pair of chars the inner loop passed agrees case-insensitively |
| CmdLine.ArgScan | Code/Launcher/CmdLine.cpp:54-78 | a found position lies after the start and within the line |
| CmdLine.FullMatch | Code/Launcher/CmdLine.cpp:67-72 | when the inner loop consumed the whole name, the name occurs at the start position |
| CmdLine.ArgScanSound | Code/Launcher/CmdLine.cpp:54-78 | a found name really occurs, case-insensitively, just before the returned index, and is followed by the end or a space |
| CmdLine.ArgScanAtStart | Code/Launcher/CmdLine.cpp:54-75 | a name that occurs at the scan position and is followed by a space or the end is found there |
| CmdLine.MatchEndStopsAtSpace | Code/Launcher/CmdLine.cpp:59-65 | against a name without spaces, the inner loop stops at the next space at the latest |
| CmdLine.ArgScanFindsWordStart | Code/Launcher/CmdLine.cpp:54-78 | a name without spaces that is a whole word at or after the scan position (at the position or after a space, and followed by a space or the end) is found |
| CmdLine.MatchEndAcross | Code/Launcher/CmdLine.cpp:59-65 | an inner loop over chars that all agree consumes the rest of the name |
| CmdLine.ArgScanAsWrittenAgrees | Code/Launcher/CmdLine.cpp:54-78 | whenever the scan as written stays inside the string, it finds what the corrected scan finds |
| CmdLine.PrefixAtEndReadsPastEnd | Code/Launcher/CmdLine.cpp:54-65 | on `x -p` with name `-port`, the scan as written steps past the terminator, while the corrected scan reports no match |
| CmdLine.OverlapMissed | Code/Launcher/CmdLine.cpp:54-65 | on `x --port` the name `-port` occurs but is not found, because the outer scan resumes past the mismatch |
| CmdLine.MatchFrom | Code/Launcher/CmdLine.cpp:59-65 | the inner loop returns `MatchEnd` |
| CmdLine.GetArgValueBegin | Code/Launcher/CmdLine.cpp:49-79 | the loops return `ArgScan` from the start of the arguments (None for NULL) |
| CmdLine.HasArg | Code/Launcher/CmdLine.cpp:81-84 | true iff the name is found |
| CmdLine.HasArgWord | Code/Launcher/CmdLine.cpp:49-84 | a space-free name that is a whole word of the arguments (first, later or last) makes `HasArg` true, and the name found occurs followed by a space or the end |
| CmdLine.ValueAtShape | Code/Launcher/CmdLine.cpp:91-126 | a quoted value holds no quote of its kind; an unquoted value is non-empty and holds no space |
| CmdLine.ArgValueRoundTrip | Code/Launcher/CmdLine.cpp:86-131 | `app name value`, with space-free unquoted parts, yields `value` for `name` |
| CmdLine.FindFrom | Code/Launcher/CmdLine.cpp:104-123 | the loop returns `FirstFrom` |
| CmdLine.ReadValue | Code/Launcher/CmdLine.cpp:91-127 | the loops return the value that starts at the index |
| CmdLine.GetArgValue | Code/Launcher/CmdLine.cpp:86-131 | the value of the argument; for a missing argument or one with nothing after it, the default, or "" without one |
| CmdLine.Decimal | Code/Launcher/CmdLine.cpp:136 | the decimal spelling of n is a non-empty digit string |
| CmdLine.DigitsValueDecimal | Code/Launcher/CmdLine.cpp:136 | a digit string read back gives the number it spells |
| CmdLine.AtoiDecimal | Code/Launcher/CmdLine.cpp:136 | `atoi` of n's decimal spelling is n, and of its negative spelling is −n |
| CmdLine.GetArgValueInt | Code/Launcher/CmdLine.cpp:133-137 | the default for a missing or empty value, otherwise `atoi` of the value |
| CmdLine.ArgValueIntRoundTrip | Code/Launcher/CmdLine.cpp:133-137 | `app name 123` yields the digits of 123, which `atoi` reads back as 123 |
| Logging.SignedChar | Code/Launcher/Log.cpp:31 | a `char` read as MSVC's signed char: in [-128, 127] and equal to the byte modulo 256 |
| Logging.Kept | Code/Launcher/Log.cpp:31 | a char survives the filter iff its code is 32..126, so bytes 0x80-0xFF are dropped too |
| Logging.Printable | Code/Launcher/Log.cpp:29-39 | the filtered text is no longer than the input and holds only kept chars |
| Logging.PrintableOfKept | Code/Launcher/Log.cpp:29-39 | text of kept chars passes through unchanged |
| Logging.PrintableIdempotent | Code/Launcher/Log.cpp:29-39 | filtering filtered text changes nothing |
| Logging.PrintableAppend | Code/Launcher/Log.cpp:29-39 | the filter works char by char, so it distributes over concatenation and keeps order |
| Logging.PrintableCounts | Code/Launcher/Log.cpp:29-39 | every kept char occurs as often as in the input, and every dropped char not at all |
| Logging.CopyIfKept | Code/Launcher/Log.cpp:31-38 | one loop step appends the char to the temporary buffer iff it is kept |
| Logging.CopyPrintable | Code/Launcher/Log.cpp:27-39 | the temporary buffer ends up holding the filtered text |
| Logging.WriteToFile | Code/Launcher/Log.cpp:20-46 | a NULL or invalid handle writes nothing; otherwise the filtered text plus CR LF is written |
| Logging.WrittenLength | Code/Launcher/Log.cpp:42-45 | the written line is the kept count plus 2 long, ends with CR LF, and its body passes the filter unchanged |
| MessageBoxHooks.EscapeLetterInverse | Code/Launcher/MessageBoxHook.cpp:23-28 | each escaped control char is recovered from its letter |
| MessageBoxHooks.EscapeChar | Code/Launcher/MessageBoxHook.cpp:21-30 | `\b \f \n \r \t \v` become backslash and letter; every other char is copied |
| MessageBoxHooks.Escape | Code/Launcher/MessageBoxHook.cpp:19-31 | the escaped text is between 1 and 2 times as long and holds none of the six control chars |
| MessageBoxHooks.EscapeAppend | Code/Launcher/MessageBoxHook.cpp:19-31 | escaping works char by char, in order |
| MessageBoxHooks.EscapeStep | Code/Launcher/MessageBoxHook.cpp:19-31 | one loop step appends the escape of the next char |
| MessageBoxHooks.UnescapeEscape | Code/Launcher/MessageBoxHook.cpp:19-31 | for text without backslashes, unescaping the escaped text gives it back |
| MessageBoxHooks.EscapeAmbiguous | Code/Launcher/MessageBoxHook.cpp:21-29 | with backslashes present the escaping is not invertible: a backslash followed by `n` and a newline log the same |
| MessageBoxHooks.LogLineRoundTrip | Code/Launcher/MessageBoxHook.cpp:12-37 | the line starts with "MessageBox: ", ends with CR LF, and the text between them unescapes to the message |
| MessageBoxHooks.LogText | Code/Launcher/MessageBoxHook.cpp:12-37 | the loop writes the prefix, the escaped text and CR LF |
| MessageBoxHooks.MessageBoxIndirectAHook | Code/Launcher/MessageBoxHook.cpp:54-59 | logs the line and always answers IDOK |
| MessageBoxHooks.Trampoline | Code/Launcher/MessageBoxHook.cpp:75-89 | the jump is 12 bytes on x86-64 and 7 on x86 |
| MessageBoxHooks.TrampolineRoundTrip | Code/Launcher/MessageBoxHook.cpp:75-89 | decoding the trampoline gives the target: `48 B8` + 8 LE bytes + `FF E0`, or `B8` + 4 LE bytes + `FF E0` |
| MessageBoxHooks.TrampolineOfTarget | Code/Launcher/MessageBoxHook.cpp:75-89 | every code that decodes to a target is the trampoline for that target |
| MessageBoxHooks.Hook | Code/Launcher/MessageBoxHook.cpp:68-92 | a NULL entry point writes nothing; otherwise memory becomes `Fill` of the trampoline, and the result is ignored |
| MessageBoxHooks.Init | Code/Launcher/MessageBoxHook.cpp:95-104 | without user32 nothing changes; otherwise A and then W are hooked, skipping a NULL entry point |
| TaskSystems.TotalSizeAppend | Code/Launcher/TaskSystem.cpp:108-119 | the work in a+b is the work in a plus the work in b |
| TaskSystems.Drain | Code/Launcher/TaskSystem.cpp:108-119 | draining runs as many tasks as the queue holds, counting the ones they add |
| TaskSystems.DrainRunsQueueFirst | Code/Launcher/TaskSystem.cpp:108-119 | the queued tasks run first, in insertion order |
| TaskSystems.DrainRunsEachOnce | Code/Launcher/TaskSystem.cpp:108-119 | every queued task and every task added while draining runs exactly once |
| TaskSystems.DrainWithoutSpawns | Code/Launcher/TaskSystem.cpp:108-119 | when no task adds another, draining runs exactly the queue, in order |
| TaskSystems.Trace | Code/Launcher/TaskSystem.cpp:113-115 | each run task yields two events |
| TaskSystems.TraceRunThenDelete | Code/Launcher/TaskSystem.cpp:113-115 | the k-th task runs and is deleted right after, before the next task runs |
| TaskSystems.Impl.constructor | Code/Launcher/TaskSystem.cpp:38-44 | the queue starts empty |
| TaskSystems.Impl.PushTask | Code/Launcher/TaskSystem.cpp:51-56 | the task goes to the back of the queue |
| TaskSystems.Impl.PopTask | Code/Launcher/TaskSystem.cpp:58-72 | an empty queue yields NULL and stays empty; otherwise the front task is returned and only it is removed |
| TaskSystems.PopRestores | Code/Launcher/TaskSystem.cpp:58-72 | the popped task put back in front of the rest is the queue that was popped |
| TaskSystems.TaskSystem.constructor | Code/Launcher/TaskSystem.cpp:78-81 | a new system has an empty queue |
| TaskSystems.TaskSystem.AddTask | Code/Launcher/TaskSystem.cpp:96-102 | NULL leaves the queue unchanged; any other task is appended at the back |
| TaskSystems.TaskSystem.Run | Code/Launcher/TaskSystem.cpp:113 | running a task appends the tasks it adds, in order, and records that it ran |
| TaskSystems.TaskSystem.ExecuteWaitingTasks | Code/Launcher/TaskSystem.cpp:108-119 | the queue ends empty, including tasks added while draining; the record grows by `Trace(Drain(queue))`: each task runs, then is deleted |

## Left out

- Win32 calls are not modelled as code.
  - `VirtualProtect` is the `grant` oracle plus one protection value per byte; page granularity is not modelled.
  - `FindResource`, `LoadResource` and `LockResource` become an optional byte string.
  - `LoadLibraryA` and `GetProcAddress` become optional handles.
  - `GetCommandLineA` becomes an input string.
  - `GetStdHandle` becomes a handle parameter.
  - `WriteFile` becomes the method's result.
- `CPU::IsAMD` and `CPU::Has3DNow` are foreign code. They are boolean parameters.
- `RunServer`'s engine calls are left out: `CreateGameStartup`, `Init`, `Run`, `Shutdown`, `ModuleInitISystem` and the user callback. Their outcomes are fields of `Launcher.Engine`. The size of `szSystemCmdLine` is the parameter `cmdLineCapacity`.
- Logging calls (`LogInfo`, `LogError`, `Log`) in `main` and `RunServer` are console output. They are not modelled.
- The `gLauncher` global is passed explicitly as `Launcher.LauncherEnv`. `DLLHandleGuard` unloading is not modelled.
- `PatchServerProfiler` is declared in Patch.h but defined in no file of this model. Its table is not invented.
- `StringBuffer::append_f` and `append_vf` depend on the external `vsnprintf_` formatter. They are not modelled.
- `ConvertUTF16To8` and `MessageBoxIndirectW_Hook` wrap `WideCharToMultiByte`. The W replacement is an address handed to `Init`.
- `CmdLine::Log` and `Log::LogToStdOut`/`LogToStdErr`/`LogToStdOutV`/`LogToStdErrV` are left out: they are output, they format through `append_vf`, and they branch on `IsMainThread`. `WriteToFileTask` is the same `WriteToFile` run later.
- Locking is left out: the `CRITICAL_SECTION` and `LockGuard` in TaskSystem.cpp are concurrency. The model is single-threaded.
- TaskSystems.TaskSystem.Run: `ILauncherTask::Run` is foreign code. It is modelled only as the list of tasks it adds through `AddTask`.
- TaskSystems.TaskSystem.ExecuteWaitingTasks: `delete` is recorded as a `Deleted` event; memory release is not modelled.
- Util.GetCrysisGameVersion: a resource shorter than the bytes read returns -1. The original reads past the end in that case.
- Util.Process.FillMem: requires `length <= |data|`. The caller must supply that many bytes, and the model has no other way to express it.
- Util.Fill: sizes are unbounded. The `size_t` range of an address plus a length is not modelled.
- StringBuffers.SpaceMade: `getLength() + length + 1` and `getCapacity() * 2` are unbounded. `size_t` wrap-around there is not modelled. Only `getAvailableLength` is modelled with wrap-around, in `AvailableAsWritten`.
- StringBuffers.StringBuffer.At: only indices up to the length (the text and its terminator) are allowed. The original reads any index of the array.
- StringBuffers.StringBuffer.AppendBuffer: requires two distinct buffers. Appending a buffer to itself is not modelled.
- StringBuffers.Resized: implements the corrected shrink from the heap to the stack, which records capacity `DefaultSize` where the original records `size` (see Findings). Every other case, the stack no-op included, is the original's; `ResizedAsWritten` models the original.
- StringBuffers.StringBuffer.Resize: implements `Resized`, so the same correction applies.
- CmdLine.GetArgValueBegin: implements the corrected scan, which stops at the terminator (see Findings). `ArgScanAsWritten` models the original.
- CmdLine.GetCmdLineWithoutAppName: requires a non-empty command line. The unquoted branch steps over the first char before testing it.
- CmdLine.IsSpace and CmdLine.ToLower are the C locale's `isspace` and `tolower`.
- CmdLine.Atoi: results are unbounded integers. `atoi`'s overflow on values beyond `int` is not modelled.

## Findings

| source | as written | input that shows it | evidently intended | confidence | as-written member | corrected member |
|---|---|---|---|---|---|---|
| Code/Launcher/StringBuffer.h:238-259 | a shrink from the heap to the stack sets `m_bufferSize` to `size`, below the stack array's `DefaultSize`; a later grow to at most `DefaultSize` then picks the stack array again and returns early at line 240, leaving `m_bufferSize` too small for the text | `StringBuffer<4>`: append "abcde" (heap, capacity 8), `resize(2)` (stack, capacity 2, text "a"), then append 'b', 'c', 'd': `makeSpaceFor` asks for 4 and the stack-to-stack resize does nothing, so `m_pos` reaches `m_bufferSize`, `getAvailableLength` wraps to `SIZE_MAX`, and the terminator of "abcd" is written at index 4 of the 4-char stack array | a shrink onto the stack records the stack array's size, so a stack buffer always has capacity `DefaultSize` and `m_pos < m_bufferSize` keeps holding | medium, not executed; needs a caller of the public `resize` to shrink a heap buffer to `DefaultSize` or less | StringBuffers.ShrunkStackBufferOverflows | StringBuffers.StringBuffer.Resize |
| Code/Launcher/CmdLine.cpp:54-65 | when the inner loop stops at the terminator with part of the name unmatched, the outer loop's `cmdLine++` steps past the terminator and scanning goes on beyond the string | command line `x -p` with name `-port` | the scan stops at the terminator and reports the name as missing | high, not executed | CmdLine.PrefixAtEndReadsPastEnd | CmdLine.GetArgValueBegin |
