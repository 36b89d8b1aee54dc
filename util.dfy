/**
 * The launcher's utilities (namespace `Util`): address arithmetic, the two
 * memory patchers `FillNOP` and `FillMem`, and the parser that reads the game
 * build number out of a DLL's version resource.
 *
 * Process memory is a byte array indexed by address. Every byte also carries
 * a Win32 page-protection value, so that "unlock, write, restore" can be
 * stated. `VirtualProtect` is an oracle: the k-th call made by the process is
 * granted iff `grant(k)` holds and the range lies inside memory.
 */
module Util {
  import opened Types

  /** A Win32 `DWORD` protection value such as `PAGE_READONLY`. */
  newtype Protection = x: int | 0 <= x < 0x1_0000_0000

  const PAGE_EXECUTE_READWRITE: Protection := 0x40

  /** Opcode of the one-byte `nop` instruction, the same on x86 and x86-64. */
  const NOP: Byte := 0x90

  /**
   * Both overloads of `CalculateAddress` (for `void *` and `const void *`)
   * step `offset` bytes forward from `base`; addresses here are plain numbers,
   * so the two overloads are this one function.
   */
  function CalculateAddress(base: nat, offset: nat): (r: nat)
  {
    base + offset
  }

  lemma CalculateAddressZero(base: nat)
    ensures CalculateAddress(base, 0) == base
  {
  }

  lemma CalculateAddressCompose(base: nat, a: nat, b: nat)
    ensures CalculateAddress(CalculateAddress(base, a), b) == CalculateAddress(base, a + b)
  {
  }

  /** The observable state of the process: memory, protection, and how many protection calls were made. */
  datatype Machine = Machine(mem: seq<Byte>, prot: seq<Protection>, calls: nat)

  ghost predicate WellFormed(m: Machine)
  {
    |m.mem| == |m.prot|
  }

  /** `[address, address + length)` is mapped memory. */
  predicate InRange(m: Machine, address: nat, length: nat)
  {
    address < |m.mem| && address + length <= |m.mem|
  }

  /** `s` with `[a, a + n)` set to `v`. */
  function SetRange<T>(s: seq<T>, a: nat, n: nat, v: T): (r: seq<T>)
    ensures |r| == |s|
  {
    seq(|s|, i requires 0 <= i < |s| => if a <= i < a + n then v else s[i])
  }

  /** `s` with `data` copied over it from index `a` on. */
  function WriteRange<T>(s: seq<T>, a: nat, data: seq<T>): (r: seq<T>)
    ensures |r| == |s|
  {
    seq(|s|, i requires 0 <= i < |s| => if a <= i < a + |data| then data[i - a] else s[i])
  }

  datatype Protected = Protected(m: Machine, ok: bool, oldProtection: Protection)

  /**
   * One call of `VirtualProtect(address, length, newProtection, &old)`:
   * granted calls set the protection of the whole range and report the
   * previous protection of its first byte (its first page, in Win32).
   */
  function VirtualProtectCall(m: Machine, grant: nat -> bool, address: nat, length: nat,
                              newProtection: Protection): (r: Protected)
    requires WellFormed(m)
    ensures WellFormed(r.m) && r.m.mem == m.mem && r.m.calls == m.calls + 1
    ensures r.ok <==> grant(m.calls) && InRange(m, address, length)
    ensures r.ok ==> r.oldProtection == m.prot[address]
    ensures r.ok ==> forall i :: address <= i < address + length ==> r.m.prot[i] == newProtection
    ensures forall i :: 0 <= i < |m.prot| && !(r.ok && address <= i < address + length) ==> r.m.prot[i] == m.prot[i]
  {
    if grant(m.calls) && InRange(m, address, length) then
      Protected(Machine(m.mem, SetRange(m.prot, address, length, newProtection), m.calls + 1), true, m.prot[address])
    else
      Protected(m.(calls := m.calls + 1), false, 0)
  }

  /**
   * What `FillMem(address, data, |data|)` does to the process, and its return
   * code; `FillNOP(address, n)` is this with `n` copies of `NOP`.
   */
  function Fill(m: Machine, grant: nat -> bool, address: nat, data: seq<Byte>): (r: (Machine, int))
    requires WellFormed(m)
    ensures WellFormed(r.0) && |r.0.mem| == |m.mem| && (r.1 == 0 || r.1 == -1)
    // a refused unlock writes nothing and changes no protection
    ensures !(grant(m.calls) && InRange(m, address, |data|)) ==> r == (m.(calls := m.calls + 1), -1)
    // a granted unlock writes the data, whether or not the restore is granted
    ensures grant(m.calls) && InRange(m, address, |data|) ==>
              r.0.mem[address..address + |data|] == data && r.0.calls == m.calls + 2
    ensures r.1 == 0 <==> grant(m.calls) && InRange(m, address, |data|) && grant(m.calls + 1)
    // on success the range is back to the protection its first byte had before the call
    ensures r.1 == 0 ==> forall i :: address <= i < address + |data| ==> r.0.prot[i] == m.prot[address]
    // a refused restore leaves the written range unlocked
    ensures grant(m.calls) && InRange(m, address, |data|) && !grant(m.calls + 1) ==>
              forall i :: address <= i < address + |data| ==> r.0.prot[i] == PAGE_EXECUTE_READWRITE
    // nothing outside the range changes
    ensures forall i :: 0 <= i < |m.mem| && !(address <= i < address + |data|) ==>
              r.0.mem[i] == m.mem[i] && r.0.prot[i] == m.prot[i]
  {
    var unlocked := VirtualProtectCall(m, grant, address, |data|, PAGE_EXECUTE_READWRITE);
    if !unlocked.ok then (unlocked.m, -1)
    else
      var written := unlocked.m.(mem := WriteRange(unlocked.m.mem, address, data));
      var restored := VirtualProtectCall(written, grant, address, |data|, unlocked.oldProtection);
      assert restored.m.mem[address..address + |data|] == data;
      (restored.m, if restored.ok then 0 else -1)
  }

  /** When the range had one protection before the call, a successful fill leaves protection exactly as it was. */
  lemma FillRestoresProtection(m: Machine, grant: nat -> bool, address: nat, data: seq<Byte>)
    requires WellFormed(m)
    requires forall i :: address <= i < address + |data| && i < |m.prot| ==> m.prot[i] == m.prot[address]
    requires Fill(m, grant, address, data).1 == 0
    ensures Fill(m, grant, address, data).0.prot == m.prot
  {
    var r := Fill(m, grant, address, data).0;
    assert forall i :: 0 <= i < |m.prot| ==> r.prot[i] == m.prot[i];
  }

  /** The process: its memory, protection, and the oracle that answers `VirtualProtect`. */
  class Process {
    const mem: array<Byte>
    const prot: array<Protection>
    var calls: nat
    const grant: nat -> bool

    ghost predicate Valid()
    {
      mem.Length == prot.Length
    }

    function State(): (s: Machine)
      reads this, mem, prot
      ensures Valid() ==> WellFormed(s)
    {
      Machine(mem[..], prot[..], calls)
    }

    constructor (memory: seq<Byte>, protection: seq<Protection>, grant: nat -> bool)
      requires |memory| == |protection|
      ensures Valid() && State() == Machine(memory, protection, 0) && this.grant == grant
    {
      mem := new Byte[|memory|](i requires 0 <= i < |memory| => memory[i]);
      prot := new Protection[|protection|](i requires 0 <= i < |protection| => protection[i]);
      calls := 0;
      this.grant := grant;
    }

    method VirtualProtect(address: nat, length: nat, newProtection: Protection)
      returns (ok: bool, oldProtection: Protection)
      requires Valid()
      modifies this, prot
      ensures Protected(State(), ok, oldProtection)
              == VirtualProtectCall(old(State()), grant, address, length, newProtection)
    {
      ok := grant(calls) && address < prot.Length && address + length <= prot.Length;
      calls := calls + 1;
      if ok {
        oldProtection := prot[address];
        forall i | address <= i < address + length {
          prot[i] := newProtection;
        }
      } else {
        oldProtection := 0;
      }
      assert prot[..] == old(if ok then SetRange(prot[..], address, length, newProtection) else prot[..]);
    }

    /** `memset`: only memory that has been unlocked for writing is written. */
    method Memset(address: nat, value: Byte, length: nat)
      requires Valid() && address + length <= mem.Length
      requires forall i :: address <= i < address + length ==> prot[i] == PAGE_EXECUTE_READWRITE
      modifies mem
      ensures mem[..] == WriteRange(old(mem[..]), address, Repeat(value, length))
    {
      forall i | address <= i < address + length {
        mem[i] := value;
      }
    }

    /** `memcpy` of `length` bytes of `data`: only memory that has been unlocked for writing is written. */
    method Memcpy(address: nat, data: seq<Byte>, length: nat)
      requires Valid() && address + length <= mem.Length && length <= |data|
      requires forall i :: address <= i < address + length ==> prot[i] == PAGE_EXECUTE_READWRITE
      modifies mem
      ensures mem[..] == WriteRange(old(mem[..]), address, data[..length])
    {
      forall i | address <= i < address + length {
        mem[i] := data[i - address];
      }
    }

    /** `Util::FillNOP`: unlock the range, fill it with `nop`, restore the old protection. */
    method FillNOP(address: nat, length: nat) returns (rc: int)
      requires Valid()
      modifies this, mem, prot
      ensures (State(), rc) == Fill(old(State()), grant, address, Repeat(NOP, length))
    {
      var ok, oldProtection := VirtualProtect(address, length, PAGE_EXECUTE_READWRITE);
      if !ok {
        return -1;
      }
      Memset(address, NOP, length);
      ok, oldProtection := VirtualProtect(address, length, oldProtection);
      if !ok {
        return -1;
      }
      return 0;
    }

    /** `Util::FillMem`: unlock the range, copy `data[0..length)` into it, restore the old protection. */
    method FillMem(address: nat, data: seq<Byte>, length: nat) returns (rc: int)
      requires Valid() && length <= |data|
      modifies this, mem, prot
      ensures (State(), rc) == Fill(old(State()), grant, address, data[..length])
    {
      var ok, oldProtection := VirtualProtect(address, length, PAGE_EXECUTE_READWRITE);
      if !ok {
        return -1;
      }
      Memcpy(address, data, length);
      ok, oldProtection := VirtualProtect(address, length, oldProtection);
      if !ok {
        return -1;
      }
      return 0;
    }
  }

  // ---------------------------------------------------------------------------
  // Version resource (VS_VERSIONINFO followed by VS_FIXEDFILEINFO)

  /** UTF-16LE code units of an 8-bit string, two bytes per character. */
  function Utf16Le(s: seq<CChar>): (r: seq<Byte>)
    ensures |r| == 2 * |s|
  {
    if s == [] then [] else [s[0] as int, 0] + Utf16Le(s[1..])
  }

  /** The key `L"VS_VERSION_INFO"` with its terminating NUL: 0x20 bytes. */
  const VersionInfoKey: seq<Byte> := Utf16Le("VS_VERSION_INFO") + [0, 0]
  const VersionInfoKeyOffset: nat := 0x6
  /** The fixed file info follows the header, the key and one padding word. */
  const FixedFileInfoOffset: nat := 0x6 + 0x20 + 0x2
  const FixedFileInfoSignature: nat := 0xFEEF04BD
  /** `dwFileVersionLS` is the fourth DWORD of VS_FIXEDFILEINFO. */
  const FileVersionLSOffset: nat := FixedFileInfoOffset + 12
  /** The parser reads nothing at or beyond this offset. */
  const ParsedLength: nat := FileVersionLSOffset + 4

  predicate HasVersionInfoKey(blob: seq<Byte>)
    requires |blob| >= ParsedLength
  {
    blob[VersionInfoKeyOffset..VersionInfoKeyOffset + 0x20] == VersionInfoKey
  }

  predicate HasFixedFileInfoSignature(blob: seq<Byte>)
    requires |blob| >= ParsedLength
  {
    LeValue(blob[FixedFileInfoOffset..FixedFileInfoOffset + 4]) == FixedFileInfoSignature
  }

  /**
   * `Util::GetCrysisGameVersion`. `versionRes` is the locked version resource
   * of the DLL, or None when FindResource, LoadResource or LockResource failed.
   */
  function GetCrysisGameVersion(versionRes: Option<seq<Byte>>): (r: int)
    ensures -1 <= r <= 0xFFFF
    ensures r != -1 <==> versionRes.Some? && |versionRes.value| >= ParsedLength
                         && HasVersionInfoKey(versionRes.value) && HasFixedFileInfoSignature(versionRes.value)
  {
    match versionRes
    case None => -1
    case Some(blob) =>
      if |blob| < ParsedLength then -1
      else if blob[VersionInfoKeyOffset..VersionInfoKeyOffset + 0x20] != VersionInfoKey then -1
      else if LeValue(blob[FixedFileInfoOffset..FixedFileInfoOffset + 4]) != FixedFileInfoSignature then -1
      else LeValue(blob[FileVersionLSOffset..FileVersionLSOffset + 4]) % 0x10000
  }

  /**
   * A minimal version resource for a file whose version DWORDs are
   * `fileVersionMS` and `fileVersionLS`: wLength, wValueLength, wType, the key,
   * one padding word, then the 0x34-byte VS_FIXEDFILEINFO.
   */
  /** The header of the resource up to VS_FIXEDFILEINFO: wLength, wValueLength, wType, the key, one padding word. */
  function VersionInfoHeader(): (h: seq<Byte>)
    ensures |h| == FixedFileInfoOffset
    ensures h[VersionInfoKeyOffset..VersionInfoKeyOffset + 0x20] == VersionInfoKey
  {
    var words := LeBytes(FixedFileInfoOffset + 0x34, 2) + LeBytes(0x34, 2) + LeBytes(0, 2);
    assert (words + VersionInfoKey + [0, 0])[6..0x26] == VersionInfoKey;
    words + VersionInfoKey + [0, 0]
  }

  /** VS_FIXEDFILEINFO with the given file version DWORDs; the remaining nine DWORDs are zero. */
  function FixedFileInfo(fileVersionMS: nat, fileVersionLS: nat): (f: seq<Byte>)
    requires fileVersionMS < 0x1_0000_0000 && fileVersionLS < 0x1_0000_0000
    ensures |f| == 0x34
    ensures f[..4] == LeBytes(FixedFileInfoSignature, 4)
    ensures f[12..16] == LeBytes(fileVersionLS, 4)
  {
    var leading := LeBytes(FixedFileInfoSignature, 4) + LeBytes(0x10000, 4) + LeBytes(fileVersionMS, 4);
    assert |leading| == 12;
    leading + LeBytes(fileVersionLS, 4) + Repeat(0, 0x34 - 16)
  }

  /** A minimal version resource for a file whose version DWORDs are `fileVersionMS` and `fileVersionLS`. */
  function VersionResource(fileVersionMS: nat, fileVersionLS: nat): (blob: seq<Byte>)
    requires fileVersionMS < 0x1_0000_0000 && fileVersionLS < 0x1_0000_0000
    ensures |blob| == FixedFileInfoOffset + 0x34
  {
    VersionInfoHeader() + FixedFileInfo(fileVersionMS, fileVersionLS)
  }

  lemma VersionResourceHasKey(fileVersionMS: nat, fileVersionLS: nat)
    requires fileVersionMS < 0x1_0000_0000 && fileVersionLS < 0x1_0000_0000
    ensures HasVersionInfoKey(VersionResource(fileVersionMS, fileVersionLS))
  {
    var h := VersionInfoHeader();
    SliceOfConcatLeft(h, FixedFileInfo(fileVersionMS, fileVersionLS), VersionInfoKeyOffset, VersionInfoKeyOffset + 0x20);
  }

  lemma VersionResourceHasSignature(fileVersionMS: nat, fileVersionLS: nat)
    requires fileVersionMS < 0x1_0000_0000 && fileVersionLS < 0x1_0000_0000
    ensures HasFixedFileInfoSignature(VersionResource(fileVersionMS, fileVersionLS))
  {
    SliceOfConcatRight(VersionInfoHeader(), FixedFileInfo(fileVersionMS, fileVersionLS), FixedFileInfoOffset, FixedFileInfoOffset + 4);
    LeRoundTrip(FixedFileInfoSignature, 4);
  }

  lemma VersionResourceFileVersionLS(fileVersionMS: nat, fileVersionLS: nat)
    requires fileVersionMS < 0x1_0000_0000 && fileVersionLS < 0x1_0000_0000
    ensures LeValue(VersionResource(fileVersionMS, fileVersionLS)[FileVersionLSOffset..FileVersionLSOffset + 4]) == fileVersionLS
  {
    SliceOfConcatRight(VersionInfoHeader(), FixedFileInfo(fileVersionMS, fileVersionLS), FileVersionLSOffset, FileVersionLSOffset + 4);
    LeRoundTrip(fileVersionLS, 4);
  }

  /** The parser reads back the build number (low word of dwFileVersionLS) of a well-formed resource. */
  lemma ParseVersionResource(fileVersionMS: nat, fileVersionLS: nat)
    requires fileVersionMS < 0x1_0000_0000 && fileVersionLS < 0x1_0000_0000
    ensures GetCrysisGameVersion(Some(VersionResource(fileVersionMS, fileVersionLS))) == fileVersionLS % 0x10000
  {
    VersionResourceHasKey(fileVersionMS, fileVersionLS);
    VersionResourceHasSignature(fileVersionMS, fileVersionLS);
    VersionResourceFileVersionLS(fileVersionMS, fileVersionLS);
  }

  /** Any change to the key makes the parser fail, whatever the rest of the resource holds. */
  lemma CorruptKeyFails(blob: seq<Byte>, i: nat, b: Byte)
    requires |blob| >= ParsedLength && HasVersionInfoKey(blob)
    requires VersionInfoKeyOffset <= i < VersionInfoKeyOffset + 0x20 && b != blob[i]
    ensures GetCrysisGameVersion(Some(blob[i := b])) == -1
  {
    assert blob[i := b][VersionInfoKeyOffset..VersionInfoKeyOffset + 0x20][i - VersionInfoKeyOffset] == b;
  }
}
