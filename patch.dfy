/**
 * The patch catalogue: for each of the four supported game builds and each
 * architecture, the bytes each patch overwrites inside an engine DLL, and
 * the four patch routines that apply them through `FillMem` and `FillNOP`.
 *
 * A patch is described by the list of fills it performs (`Write`s, each an
 * absolute address and the bytes placed there); `RunWrites` is what
 * performing such a list does, stopping at the first fill that fails.
 */
module Patch {
  import opened Types
  import opened Util

  /** The only game builds the catalogue knows. */
  predicate IsSupportedVersion(version: int)
  {
    version == 5767 || version == 5879 || version == 6115 || version == 6156
  }

  /** One fill: `data` placed at `address`. */
  datatype Write = Write(address: nat, data: seq<Byte>)

  /** Byte `i` lies inside the range written by `w`. */
  predicate Covers(w: Write, i: int)
  {
    w.address <= i < w.address + |w.data|
  }

  /** No two fills of `ws` overlap. */
  ghost predicate Disjoint(ws: seq<Write>)
  {
    forall j, k :: 0 <= j < k < |ws| ==>
      ws[j].address + |ws[j].data| <= ws[k].address || ws[k].address + |ws[k].data| <= ws[j].address
  }

  /**
   * Performs the fills of `ws` in order and stops at the first one that fails
   * (the `if ( ... < 0 ) return -1;` chains and `||` chains of the patch
   * routines); returns the final process state and 0, or -1 on a failure.
   */
  function RunWrites(m: Machine, grant: nat -> bool, ws: seq<Write>): (r: (Machine, int))
    requires WellFormed(m)
    ensures WellFormed(r.0) && |r.0.mem| == |m.mem| && (r.1 == 0 || r.1 == -1)
    ensures m.calls <= r.0.calls <= m.calls + 2 * |ws|
    ensures r.1 == 0 ==> r.0.calls == m.calls + 2 * |ws|
    decreases |ws|
  {
    if ws == [] then (m, 0)
    else
      var first := Fill(m, grant, ws[0].address, ws[0].data);
      if first.1 < 0 then first
      else RunWrites(first.0, grant, ws[1..])
  }

  /** Bytes that no fill covers keep their contents and their protection, whatever the outcome. */
  lemma {:induction false} RunWritesFrame(m: Machine, grant: nat -> bool, ws: seq<Write>, i: nat)
    requires WellFormed(m) && i < |m.mem|
    requires forall w :: w in ws ==> !Covers(w, i)
    ensures RunWrites(m, grant, ws).0.mem[i] == m.mem[i]
    ensures RunWrites(m, grant, ws).0.prot[i] == m.prot[i]
    decreases |ws|
  {
    if ws != [] {
      var first := Fill(m, grant, ws[0].address, ws[0].data);
      assert ws[0] in ws;
      if first.1 == 0 {
        assert forall w :: w in ws[1..] ==> w in ws;
        RunWritesFrame(first.0, grant, ws[1..], i);
      }
    }
  }

  /** A patch that the catalogue has no entry for fails without doing anything. */
  function Apply(m: Machine, grant: nat -> bool, ws: Option<seq<Write>>): (r: (Machine, int))
    requires WellFormed(m)
    ensures ws.None? ==> r == (m, -1)
    ensures ws.Some? ==> r == RunWrites(m, grant, ws.value)
  {
    match ws
    case None => (m, -1)
    case Some(ws) => RunWrites(m, grant, ws)
  }

  /** A one-element list is a single fill. */
  lemma RunSingle(m: Machine, grant: nat -> bool, w: Write)
    requires WellFormed(m)
    ensures RunWrites(m, grant, [w]) == Fill(m, grant, w.address, w.data)
  {
    assert [w][1..] == [];
  }

  /** Performing `a + b` is performing `a`, then, if that succeeded, `b`. */
  lemma {:induction false} RunWritesAppend(m: Machine, grant: nat -> bool, a: seq<Write>, b: seq<Write>)
    requires WellFormed(m)
    ensures RunWrites(m, grant, a + b)
            == (var ra := RunWrites(m, grant, a); if ra.1 < 0 then ra else RunWrites(ra.0, grant, b))
    decreases |a|
  {
    if a != [] {
      assert (a + b)[0] == a[0];
      assert (a + b)[1..] == a[1..] + b;
      var first := Fill(m, grant, a[0].address, a[0].data);
      if first.1 == 0 {
        RunWritesAppend(first.0, grant, a[1..], b);
      }
    } else {
      assert a + b == b;
    }
  }

  /** Every fill of `ws` lies inside the memory of `m`. */
  ghost predicate AllInRange(m: Machine, ws: seq<Write>)
  {
    forall k :: 0 <= k < |ws| ==> InRange(m, ws[k].address, |ws[k].data|)
  }

  /** The oracle grants the `n` protection calls numbered `from`, `from + 1`, ... */
  ghost predicate AllGranted(grant: nat -> bool, from: nat, n: nat)
  {
    forall j :: from <= j < from + n ==> grant(j)
  }

  /**
   * The result is 0 exactly when every fill was inside memory and all
   * `2 * |ws|` protection calls (unlock and restore for each fill) were granted.
   */
  lemma {:induction false} RunWritesSucceeds(m: Machine, grant: nat -> bool, ws: seq<Write>)
    requires WellFormed(m)
    ensures RunWrites(m, grant, ws).1 == 0 <==> AllInRange(m, ws) && AllGranted(grant, m.calls, 2 * |ws|)
    decreases |ws|
  {
    if ws != [] {
      var first := Fill(m, grant, ws[0].address, ws[0].data);
      if first.1 == 0 {
        var m1 := first.0;
        RunWritesSucceeds(m1, grant, ws[1..]);
        assert RunWrites(m, grant, ws) == RunWrites(m1, grant, ws[1..]);
        assert AllInRange(m, ws) <==> InRange(m, ws[0].address, |ws[0].data|) && AllInRange(m1, ws[1..]) by {
          assert forall k :: 1 <= k < |ws| ==> ws[1..][k - 1] == ws[k];
        }
        assert AllGranted(grant, m.calls, 2 * |ws|) <==>
                 grant(m.calls) && grant(m.calls + 1) && AllGranted(grant, m1.calls, 2 * |ws[1..]|);
      } else if !InRange(m, ws[0].address, |ws[0].data|) {
        assert !AllInRange(m, ws);
      } else {
        assert !AllGranted(grant, m.calls, 2 * |ws|) by {
          assert !grant(m.calls) || !grant(m.calls + 1);
        }
      }
    }
  }

  /** The fills after the first of a non-overlapping list do not overlap either. */
  lemma DisjointTail(ws: seq<Write>)
    requires Disjoint(ws) && ws != []
    ensures Disjoint(ws[1..])
  {
    var rest := ws[1..];
    forall j, l | 0 <= j < l < |rest|
      ensures rest[j].address + |rest[j].data| <= rest[l].address || rest[l].address + |rest[l].data| <= rest[j].address
    {
      assert rest[j] == ws[j + 1] && rest[l] == ws[l + 1];
    }
  }

  /** The fills after the first leave the first fill's range as the first fill left it. */
  lemma LaterFillsKeepFirst(m: Machine, grant: nat -> bool, ws: seq<Write>)
    requires WellFormed(m) && Disjoint(ws) && ws != []
    ensures var first := Fill(m, grant, ws[0].address, ws[0].data);
            var r := RunWrites(first.0, grant, ws[1..]);
            forall i :: ws[0].address <= i < ws[0].address + |ws[0].data| && i < |m.mem| ==> r.0.mem[i] == first.0.mem[i]
  {
    var first := Fill(m, grant, ws[0].address, ws[0].data);
    var rest := ws[1..];
    forall i | ws[0].address <= i < ws[0].address + |ws[0].data| && i < |m.mem|
      ensures RunWrites(first.0, grant, rest).0.mem[i] == first.0.mem[i]
    {
      forall w | w in rest
        ensures !Covers(w, i)
      {
        var j :| 0 <= j < |rest| && rest[j] == w;
        assert ws[j + 1] == w;
      }
      RunWritesFrame(first.0, grant, rest, i);
    }
  }

  /**
   * When a list of non-overlapping fills succeeds, every fill's bytes are in
   * place afterwards: exactly the listed bytes were written.
   */
  lemma {:induction false} RunWritesContents(m: Machine, grant: nat -> bool, ws: seq<Write>, k: nat)
    requires WellFormed(m) && Disjoint(ws) && k < |ws|
    requires RunWrites(m, grant, ws).1 == 0
    ensures ws[k].address + |ws[k].data| <= |m.mem|
    ensures RunWrites(m, grant, ws).0.mem[ws[k].address..ws[k].address + |ws[k].data|] == ws[k].data
    decreases |ws|
  {
    var first := Fill(m, grant, ws[0].address, ws[0].data);
    var rest := ws[1..];
    var r := RunWrites(first.0, grant, rest);
    assert RunWrites(m, grant, ws) == r;
    if k == 0 {
      LaterFillsKeepFirst(m, grant, ws);
      assert r.0.mem[ws[0].address..ws[0].address + |ws[0].data|] == first.0.mem[ws[0].address..ws[0].address + |ws[0].data|];
    } else {
      DisjointTail(ws);
      assert rest[k - 1] == ws[k];
      RunWritesContents(first.0, grant, rest, k - 1);
    }
  }

  /**
   * A failure comes from one fill, number `k`: the fills before it all
   * succeeded, fill `k` failed, and no later fill was attempted (the final
   * state is the state right after fill `k`).
   */
  lemma {:induction false} RunWritesFailure(m: Machine, grant: nat -> bool, ws: seq<Write>) returns (k: nat)
    requires WellFormed(m)
    requires RunWrites(m, grant, ws).1 == -1
    ensures k < |ws|
    ensures RunWrites(m, grant, ws[..k]).1 == 0
    ensures Fill(RunWrites(m, grant, ws[..k]).0, grant, ws[k].address, ws[k].data)
            == RunWrites(m, grant, ws)
    decreases |ws|
  {
    var first := Fill(m, grant, ws[0].address, ws[0].data);
    if first.1 < 0 {
      k := 0;
      assert ws[..0] == [];
    } else {
      var rest := ws[1..];
      assert RunWrites(m, grant, ws) == RunWrites(first.0, grant, rest);
      var j := RunWritesFailure(first.0, grant, rest);
      k := j + 1;
      assert ws[..k] == [ws[0]] + rest[..j];
      RunWritesCons(m, grant, ws[0], rest[..j]);
      assert RunWrites(m, grant, ws[..k]) == RunWrites(first.0, grant, rest[..j]);
      assert rest[j] == ws[k];
    }
  }

  /** After a successful first fill, the rest of the list runs from the state it left. */
  lemma RunWritesCons(m: Machine, grant: nat -> bool, w: Write, rest: seq<Write>)
    requires WellFormed(m) && Fill(m, grant, w.address, w.data).1 == 0
    ensures RunWrites(m, grant, [w] + rest) == RunWrites(Fill(m, grant, w.address, w.data).0, grant, rest)
  {
    assert ([w] + rest)[0] == w && ([w] + rest)[1..] == rest;
  }

  // ---------------------------------------------------------------------------
  // The catalogue (Patch.cpp). Offsets are from the DLL's base address.

  /** PatchGameplayStats, 64-bit: `ret` followed by four `nop`s. */
  const GameplayStatsCode: seq<Byte> := [0xC3, 0x90, 0x90, 0x90, 0x90]
  /** PatchGameplayStats, 32-bit: number of bytes filled with `nop`. */
  const GameplayStatsNopLength: nat := 0x7

  function GameplayStatsOffset(arch: Arch, version: int): Option<nat>
  {
    match (arch, version)
    case (X64, 5767) => Some(0x2F21D6)
    case (X64, 5879) => Some(0x2F59E6)
    case (X64, 6115) => Some(0x2FA686)
    case (X64, 6156) => Some(0x2FA976)
    case (X86, 5767) => Some(0x2016ED)
    case (X86, 5879) => Some(0x203EBD)
    case (X86, 6115) => Some(0x20668D)
    case (X86, 6156) => Some(0x20605D)
    case _ => None
  }

  function DuplicateCDKeyOffset(arch: Arch, version: int): Option<nat>
  {
    match (arch, version)
    case (X64, 5767) => Some(0xE4858)
    case (X64, 5879) => Some(0xE5628)
    case (X64, 6115) => Some(0xE0188)
    case (X64, 6156) => Some(0xE0328)
    case (X86, 5767) => Some(0x608CE)
    case (X86, 5879) => Some(0x5DE79)
    case (X86, 6115) => Some(0x60EF2)
    case (X86, 6156) => Some(0x606A5)
    case _ => None
  }

  function DuplicateCDKeyLength(arch: Arch): nat
  {
    if arch == X64 then 0x47 else 0x4
  }

  /** Default processor feature flags without the 3DNow! flag. */
  const Disable3DNowFlags: Byte := 0x18

  function Disable3DNowOffset(arch: Arch, version: int): Option<nat>
  {
    match (arch, version)
    case (X64, 5767) => Some(0xA1AF)
    case (X64, 5879) => Some(0xA0FF)
    case (X64, 6115) => Some(0xA0BF)
    case (X64, 6156) => Some(0xA0FF)
    case (X86, 5767) => Some(0x9432)
    case (X86, 5879) => Some(0x9472)
    case (X86, 6115) => Some(0x9412)
    case (X86, 6156) => Some(0x93E2)
    case _ => None
  }

  /** The three ranges of PatchUnhandledExceptions, in the order they are filled. */
  datatype Triple = Triple(first: nat, second: nat, third: nat)

  function UnhandledExceptionsOffsets(arch: Arch, version: int): Option<Triple>
  {
    match (arch, version)
    case (X64, 5767) => Some(Triple(0x22986, 0x22992, 0x45C8A))
    case (X64, 5879) => Some(Triple(0x232C6, 0x232D2, 0x4725A))
    case (X64, 6115) => Some(Triple(0x22966, 0x22972, 0x466E9))
    case (X64, 6156) => Some(Triple(0x22946, 0x22952, 0x467A5))
    case (X86, 5767) => Some(Triple(0x182B7, 0x182C2, 0x59F58))
    case (X86, 5879) => Some(Triple(0x18437, 0x18442, 0x5A4D8))
    case (X86, 6115) => Some(Triple(0x18217, 0x18222, 0x5A2B8))
    case (X86, 6156) => Some(Triple(0x17D67, 0x17D72, 0x59DF8))
    case _ => None
  }

  function UnhandledExceptionsLengths(arch: Arch): Triple
  {
    if arch == X64 then Triple(0x6, 0x7, 0x16) else Triple(0x5, 0xC, 0x13)
  }

  /** The fills PatchGameplayStats performs in CryAction, or None for a build it does not know. */
  function GameplayStatsWrites(arch: Arch, version: int, libCryAction: nat): (r: Option<seq<Write>>)
    ensures r.Some? <==> IsSupportedVersion(version)
  {
    match GameplayStatsOffset(arch, version)
    case None => None
    case Some(offset) =>
      var code := if arch == X64 then GameplayStatsCode else Repeat(NOP, GameplayStatsNopLength);
      Some([Write(CalculateAddress(libCryAction, offset), code)])
  }

  /** The fills PatchDuplicateCDKey performs in CryNetwork. */
  function DuplicateCDKeyWrites(arch: Arch, version: int, libCryNetwork: nat): (r: Option<seq<Write>>)
    ensures r.Some? <==> IsSupportedVersion(version)
  {
    match DuplicateCDKeyOffset(arch, version)
    case None => None
    case Some(offset) => Some([Write(CalculateAddress(libCryNetwork, offset), Repeat(NOP, DuplicateCDKeyLength(arch)))])
  }

  /** The fills PatchDisable3DNow performs in CrySystem. */
  function Disable3DNowWrites(arch: Arch, version: int, libCrySystem: nat): (r: Option<seq<Write>>)
    ensures r.Some? <==> IsSupportedVersion(version)
  {
    match Disable3DNowOffset(arch, version)
    case None => None
    case Some(offset) => Some([Write(CalculateAddress(libCrySystem, offset), [Disable3DNowFlags])])
  }

  /** The fills PatchUnhandledExceptions performs in CrySystem, in order. */
  function UnhandledExceptionsWrites(arch: Arch, version: int, libCrySystem: nat): (r: Option<seq<Write>>)
    ensures r.Some? <==> IsSupportedVersion(version)
  {
    match UnhandledExceptionsOffsets(arch, version)
    case None => None
    case Some(offsets) =>
      var lengths := UnhandledExceptionsLengths(arch);
      Some([Write(CalculateAddress(libCrySystem, offsets.first), Repeat(NOP, lengths.first)),
            Write(CalculateAddress(libCrySystem, offsets.second), Repeat(NOP, lengths.second)),
            Write(CalculateAddress(libCrySystem, offsets.third), Repeat(NOP, lengths.third))])
  }

  /** Every patch's fills for a supported build lie at or above the DLL base and do not overlap. */
  lemma CatalogueWellFormed(arch: Arch, version: int, lib: nat)
    requires IsSupportedVersion(version)
    ensures Disjoint(UnhandledExceptionsWrites(arch, version, lib).value)
    ensures forall w :: w in UnhandledExceptionsWrites(arch, version, lib).value ==> lib <= w.address
  {
  }

  /** PatchGameplayStats, 64-bit build 6156: `C3 90 90 90 90` at CryAction + 0x2FA976. */
  lemma GameplayStats64Bit6156(lib: nat)
    ensures GameplayStatsWrites(X64, 6156, lib) == Some([Write(lib + 0x2FA976, [0xC3, 0x90, 0x90, 0x90, 0x90])])
  {
  }

  /**
   * For every supported build, each patch is the fills below at its table
   * offset past the DLL base: 64-bit writes `ret; nop x4`, 0x47 `nop`s and
   * 6, 7 and 0x16 `nop`s; 32-bit writes 7, 4 and 5, 0xC and 0x13 `nop`s; both
   * write the flags byte 0x18.
   */
  lemma CatalogueShapes(arch: Arch, version: int, lib: nat)
    requires IsSupportedVersion(version)
    ensures GameplayStatsWrites(arch, version, lib).value ==
              [Write(lib + GameplayStatsOffset(arch, version).value,
                     if arch == X64 then [0xC3, 0x90, 0x90, 0x90, 0x90] else Repeat(0x90, 7))]
    ensures DuplicateCDKeyWrites(arch, version, lib).value ==
              [Write(lib + DuplicateCDKeyOffset(arch, version).value, Repeat(0x90, if arch == X64 then 0x47 else 4))]
    ensures Disable3DNowWrites(arch, version, lib).value == [Write(lib + Disable3DNowOffset(arch, version).value, [0x18])]
    ensures var ws := UnhandledExceptionsWrites(arch, version, lib).value;
            var o := UnhandledExceptionsOffsets(arch, version).value;
            ws == [Write(lib + o.first, Repeat(0x90, if arch == X64 then 6 else 5)),
                   Write(lib + o.second, Repeat(0x90, if arch == X64 then 7 else 0xC)),
                   Write(lib + o.third, Repeat(0x90, if arch == X64 then 0x16 else 0x13))]
  {
  }

  // ---------------------------------------------------------------------------
  // The patch routines

  /** `PatchGameplayStats`: disables the automatic gameplay-stats dump in CryAction. */
  method PatchGameplayStats(p: Process, libCryAction: nat, gameVersion: int, arch: Arch) returns (rc: int)
    requires p.Valid()
    modifies p, p.mem, p.prot
    ensures (p.State(), rc) == Apply(old(p.State()), p.grant, GameplayStatsWrites(arch, gameVersion, libCryAction))
  {
    var code := GameplayStatsCode;
    match GameplayStatsOffset(arch, gameVersion)
    case None =>
      return -1;
    case Some(offset) =>
      var r;
      ghost var m0 := p.State();
      RunSingle(m0, p.grant, GameplayStatsWrites(arch, gameVersion, libCryAction).value[0]);
      if arch == X64 {
        r := p.FillMem(CalculateAddress(libCryAction, offset), code, |code|);
        assert code[..|code|] == code;
      } else {
        r := p.FillNOP(CalculateAddress(libCryAction, offset), GameplayStatsNopLength);
      }
      if r < 0 {
        return -1;
      }
      return 0;
  }

  /** `PatchDuplicateCDKey`: stops the server from kicking players that share a CD key. */
  method PatchDuplicateCDKey(p: Process, libCryNetwork: nat, gameVersion: int, arch: Arch) returns (rc: int)
    requires p.Valid()
    modifies p, p.mem, p.prot
    ensures (p.State(), rc) == Apply(old(p.State()), p.grant, DuplicateCDKeyWrites(arch, gameVersion, libCryNetwork))
  {
    match DuplicateCDKeyOffset(arch, gameVersion)
    case None =>
      return -1;
    case Some(offset) =>
      RunSingle(p.State(), p.grant, DuplicateCDKeyWrites(arch, gameVersion, libCryNetwork).value[0]);
      var r := p.FillNOP(CalculateAddress(libCryNetwork, offset), DuplicateCDKeyLength(arch));
      if r < 0 {
        return -1;
      }
      return 0;
  }

  /** `PatchDisable3DNow`: makes CrySystem report processor flags without 3DNow!. */
  method PatchDisable3DNow(p: Process, libCrySystem: nat, gameVersion: int, arch: Arch) returns (rc: int)
    requires p.Valid()
    modifies p, p.mem, p.prot
    ensures (p.State(), rc) == Apply(old(p.State()), p.grant, Disable3DNowWrites(arch, gameVersion, libCrySystem))
  {
    var flags: seq<Byte> := [Disable3DNowFlags];
    match Disable3DNowOffset(arch, gameVersion)
    case None =>
      return -1;
    case Some(offset) =>
      RunSingle(p.State(), p.grant, Disable3DNowWrites(arch, gameVersion, libCrySystem).value[0]);
      var r := p.FillMem(CalculateAddress(libCrySystem, offset), flags, 1);
      assert flags[..1] == flags;
      if r < 0 {
        return -1;
      }
      return 0;
  }

  /** `PatchUnhandledExceptions`: three `nop` fills joined by `||`, so a failure skips the rest. */
  method PatchUnhandledExceptions(p: Process, libCrySystem: nat, gameVersion: int, arch: Arch) returns (rc: int)
    requires p.Valid()
    modifies p, p.mem, p.prot
    ensures (p.State(), rc) == Apply(old(p.State()), p.grant, UnhandledExceptionsWrites(arch, gameVersion, libCrySystem))
  {
    ghost var m0 := p.State();
    var lengths := UnhandledExceptionsLengths(arch);
    match UnhandledExceptionsOffsets(arch, gameVersion)
    case None =>
      return -1;
    case Some(offsets) =>
      ghost var ws := UnhandledExceptionsWrites(arch, gameVersion, libCrySystem).value;
      var r := p.FillNOP(CalculateAddress(libCrySystem, offsets.first), lengths.first);
      if r < 0 {
        return -1;
      }
      ghost var m1 := p.State();
      r := p.FillNOP(CalculateAddress(libCrySystem, offsets.second), lengths.second);
      if r < 0 {
        assert RunWrites(m0, p.grant, ws) == RunWrites(m1, p.grant, ws[1..]);
        return -1;
      }
      ghost var m2 := p.State();
      r := p.FillNOP(CalculateAddress(libCrySystem, offsets.third), lengths.third);
      assert RunWrites(m0, p.grant, ws) == RunWrites(m1, p.grant, ws[1..]);
      assert RunWrites(m1, p.grant, ws[1..]) == RunWrites(m2, p.grant, ws[2..]);
      assert RunWrites(m2, p.grant, ws[2..]) == (p.State(), r) by {
        assert ws[2..][1..] == [];
      }
      if r < 0 {
        return -1;
      }
      return 0;
  }
}
