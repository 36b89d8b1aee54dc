/**
 * The launcher's entry point (Main.cpp): load the engine DLLs, read the game
 * build from CrySystem's version resource, refuse unsupported builds, install
 * the memory patches in a fixed order, and start the server only when every
 * patch succeeded.
 */
module Launcher {
  import opened Types
  import opened Util
  import opened Patch

  /**
   * The fills `InstallMemoryPatches` performs, in order: CryAction's
   * gameplay-stats patch, CryNetwork's duplicate-CD-key patch, CrySystem's
   * unhandled-exceptions patch and, only on an AMD processor without 3DNow!,
   * CrySystem's 3DNow! patch. None for a build the catalogue does not know.
   */
  function InstallWrites(arch: Arch, isAMD: bool, has3DNow: bool, version: int,
                         libCryAction: nat, libCryNetwork: nat, libCrySystem: nat): (r: Option<seq<Write>>)
    ensures r.Some? <==> IsSupportedVersion(version)
  {
    if !IsSupportedVersion(version) then None
    else
      Some(GameplayStatsWrites(arch, version, libCryAction).value
           + DuplicateCDKeyWrites(arch, version, libCryNetwork).value
           + UnhandledExceptionsWrites(arch, version, libCrySystem).value
           + (if isAMD && !has3DNow then Disable3DNowWrites(arch, version, libCrySystem).value else []))
  }

  /**
   * The plan is the four patches' fills in module order, one fill each but
   * three for the unhandled-exceptions patch, and the 3DNow! patch is present
   * exactly when the processor is AMD without 3DNow!.
   */
  lemma InstallOrder(arch: Arch, isAMD: bool, has3DNow: bool, version: int,
                     libCryAction: nat, libCryNetwork: nat, libCrySystem: nat)
    requires IsSupportedVersion(version)
    ensures InstallWrites(arch, isAMD, has3DNow, version, libCryAction, libCryNetwork, libCrySystem).value
            == GameplayStatsWrites(arch, version, libCryAction).value
               + DuplicateCDKeyWrites(arch, version, libCryNetwork).value
               + UnhandledExceptionsWrites(arch, version, libCrySystem).value
               + (if isAMD && !has3DNow then Disable3DNowWrites(arch, version, libCrySystem).value else [])
    ensures var ws := InstallWrites(arch, isAMD, has3DNow, version, libCryAction, libCryNetwork, libCrySystem).value;
            && |ws| == (if isAMD && !has3DNow then 6 else 5)
            && [ws[0]] == GameplayStatsWrites(arch, version, libCryAction).value
            && [ws[1]] == DuplicateCDKeyWrites(arch, version, libCryNetwork).value
            && ws[2..5] == UnhandledExceptionsWrites(arch, version, libCrySystem).value
            && (isAMD && !has3DNow ==> [ws[5]] == Disable3DNowWrites(arch, version, libCrySystem).value)
  {
  }

  /** The whole plan for build 6156 on 64-bit without the 3DNow! patch: five fills, in this order. */
  lemma Install6156X64(libCryAction: nat, libCryNetwork: nat, libCrySystem: nat, has3DNow: bool)
    ensures InstallWrites(X64, false, has3DNow, 6156, libCryAction, libCryNetwork, libCrySystem)
            == Some([Write(libCryAction + 0x2FA976, [0xC3, 0x90, 0x90, 0x90, 0x90]),
                     Write(libCryNetwork + 0xE0328, Repeat(NOP, 0x47)),
                     Write(libCrySystem + 0x22946, Repeat(NOP, 0x6)),
                     Write(libCrySystem + 0x22952, Repeat(NOP, 0x7)),
                     Write(libCrySystem + 0x467A5, Repeat(NOP, 0x16))])
  {
    GameplayStats64Bit6156(libCryAction);
    assert DuplicateCDKeyWrites(X64, 6156, libCryNetwork) == Some([Write(libCryNetwork + 0xE0328, Repeat(NOP, 0x47))]);
    assert UnhandledExceptionsWrites(X64, 6156, libCrySystem)
        == Some([Write(libCrySystem + 0x22946, Repeat(NOP, 0x6)),
                 Write(libCrySystem + 0x22952, Repeat(NOP, 0x7)),
                 Write(libCrySystem + 0x467A5, Repeat(NOP, 0x16))]);
    var a := [Write(libCryAction + 0x2FA976, [0xC3, 0x90, 0x90, 0x90, 0x90])];
    var b := [Write(libCryNetwork + 0xE0328, Repeat(NOP, 0x47))];
    var c := [Write(libCrySystem + 0x22946, Repeat(NOP, 0x6)),
              Write(libCrySystem + 0x22952, Repeat(NOP, 0x7)),
              Write(libCrySystem + 0x467A5, Repeat(NOP, 0x16))];
    assert InstallWrites(X64, false, has3DNow, 6156, libCryAction, libCryNetwork, libCrySystem).value == a + b + c + [];
    assert a + b + c + [] == [a[0], b[0], c[0], c[1], c[2]];
  }

  /** Once a prefix of the fills has failed, the fills after it change nothing. */
  lemma FailureAbsorbs(m: Machine, grant: nat -> bool, a: seq<Write>, b: seq<Write>)
    requires WellFormed(m)
    requires RunWrites(m, grant, a).1 < 0
    ensures RunWrites(m, grant, a + b) == RunWrites(m, grant, a)
  {
    RunWritesAppend(m, grant, a, b);
  }

  /** Once a prefix of the fills has succeeded, the next fills start from the state it left. */
  lemma SuccessContinues(m: Machine, grant: nat -> bool, a: seq<Write>, b: seq<Write>)
    requires WellFormed(m)
    requires RunWrites(m, grant, a).1 == 0
    ensures RunWrites(m, grant, a + b) == RunWrites(RunWrites(m, grant, a).0, grant, b)
  {
    RunWritesAppend(m, grant, a, b);
  }

  /** A gameplay-stats patch that fails (including for an unknown build) is the outcome of the whole installation. */
  lemma InstallStopsAtGameplayStats(m: Machine, grant: nat -> bool, arch: Arch, isAMD: bool, has3DNow: bool, version: int,
                                    libCryAction: nat, libCryNetwork: nat, libCrySystem: nat)
    requires WellFormed(m)
    requires Apply(m, grant, GameplayStatsWrites(arch, version, libCryAction)).1 < 0
    ensures Apply(m, grant, InstallWrites(arch, isAMD, has3DNow, version, libCryAction, libCryNetwork, libCrySystem))
            == Apply(m, grant, GameplayStatsWrites(arch, version, libCryAction))
  {
    if IsSupportedVersion(version) {
      var ws := InstallWrites(arch, isAMD, has3DNow, version, libCryAction, libCryNetwork, libCrySystem).value;
      var gs := GameplayStatsWrites(arch, version, libCryAction).value;
      assert ws == gs + ws[|gs|..];
      FailureAbsorbs(m, grant, gs, ws[|gs|..]);
    }
  }

  /**
   * One step of the installation: when the fills `done` succeeded and the next
   * patch, run from where they left memory, ends in (`s`, `rc`), then that is
   * the outcome of `done + next`, and, when it failed, of any longer plan too.
   */
  lemma InstallStep(m0: Machine, grant: nat -> bool, done: seq<Write>, next: seq<Write>, rest: seq<Write>,
                    s: Machine, rc: int)
    requires WellFormed(m0)
    requires RunWrites(m0, grant, done).1 == 0
    requires (s, rc) == RunWrites(RunWrites(m0, grant, done).0, grant, next)
    ensures (s, rc) == RunWrites(m0, grant, done + next)
    ensures rc < 0 ==> (s, rc) == RunWrites(m0, grant, done + next + rest)
  {
    SuccessContinues(m0, grant, done, next);
    if rc < 0 {
      FailureAbsorbs(m0, grant, done + next, rest);
    }
  }

  /** `InstallMemoryPatches`: each patch in turn; the first that fails ends the installation with -1. */
  method InstallMemoryPatches(p: Process, arch: Arch, isAMD: bool, has3DNow: bool, version: int,
                              libCryAction: nat, libCryNetwork: nat, libCrySystem: nat) returns (rc: int)
    requires p.Valid()
    modifies p, p.mem, p.prot
    ensures (p.State(), rc)
            == Apply(old(p.State()), p.grant,
                     InstallWrites(arch, isAMD, has3DNow, version, libCryAction, libCryNetwork, libCrySystem))
  {
    ghost var m0 := p.State();

    // CryAction
    rc := PatchGameplayStats(p, libCryAction, version, arch);
    if rc < 0 {
      InstallStopsAtGameplayStats(m0, p.grant, arch, isAMD, has3DNow, version, libCryAction, libCryNetwork, libCrySystem);
      return -1;
    }
    assert IsSupportedVersion(version);
    ghost var gs := GameplayStatsWrites(arch, version, libCryAction).value;
    ghost var cd := DuplicateCDKeyWrites(arch, version, libCryNetwork).value;
    ghost var ue := UnhandledExceptionsWrites(arch, version, libCrySystem).value;
    ghost var d3 := if isAMD && !has3DNow then Disable3DNowWrites(arch, version, libCrySystem).value else [];
    ghost var plan := gs + cd + ue + d3;
    InstallOrder(arch, isAMD, has3DNow, version, libCryAction, libCryNetwork, libCrySystem);
    assert Apply(m0, p.grant, InstallWrites(arch, isAMD, has3DNow, version, libCryAction, libCryNetwork, libCrySystem))
        == RunWrites(m0, p.grant, plan);

    // CryNetwork
    rc := PatchDuplicateCDKey(p, libCryNetwork, version, arch);
    InstallStep(m0, p.grant, gs, cd, ue + d3, p.State(), rc);
    if rc < 0 {
      ConcatAssoc(gs + cd, ue, d3);
      return -1;
    }

    // CrySystem
    rc := PatchUnhandledExceptions(p, libCrySystem, version, arch);
    InstallStep(m0, p.grant, gs + cd, ue, d3, p.State(), rc);
    if rc < 0 {
      return -1;
    }

    if isAMD && !has3DNow {
      // keeps the processor flags that CrySystem reports consistent with the hardware
      rc := PatchDisable3DNow(p, libCrySystem, version, arch);
      InstallStep(m0, p.grant, gs + cd + ue, d3, [], p.State(), rc);
      ConcatEmpty(plan);
      if rc < 0 {
        return -1;
      }
    } else {
      ConcatEmpty(gs + cd + ue);
    }
    return 0;
  }

  /** What the engine does once the launcher hands over to it; the engine itself is not modelled. */
  datatype Engine = Engine(
    hasEntryPoint: bool,     // CryGame exports CreateGameStartup
    createsStartup: bool,    // CreateGameStartup returns an IGameStartup
    initSucceeds: bool,      // IGameStartup::Init returns a game
    exitStatus: int          // the status IGameStartup::Run returns
  )

  /**
   * `RunServer`: -1 unless the engine starts, the command line fits into
   * SSystemInitParams::szSystemCmdLine (`cmdLineCapacity` bytes, terminator
   * included), and the engine's update loop ends with status 0.
   */
  function RunServer(cmdLine: CString, cmdLineCapacity: nat, engine: Engine): (r: int)
    ensures r == 0 || r == -1
    ensures |cmdLine| >= cmdLineCapacity ==> r == -1
    ensures r == 0 <==> engine.hasEntryPoint && engine.createsStartup && |cmdLine| < cmdLineCapacity
                        && engine.initSucceeds && engine.exitStatus == 0
  {
    if !engine.hasEntryPoint then -1
    else if !engine.createsStartup then -1
    else if !(|cmdLine| < cmdLineCapacity) then -1   // "Command line is too long!"
    else if !engine.initSucceeds then -1
    else if engine.exitStatus != 0 then -1
    else 0
  }

  /** Handles returned by LoadLibraryA for the four engine DLLs (None: the load failed). */
  datatype Libraries = Libraries(cryGame: Option<nat>, cryAction: Option<nat>,
                                 cryNetwork: Option<nat>, crySystem: Option<nat>)
  {
    predicate AllLoaded()
    {
      cryGame.Some? && cryAction.Some? && cryNetwork.Some? && crySystem.Some?
    }
  }

  /** The launcher environment, passed explicitly instead of through a global pointer. */
  class LauncherEnv {
    var gameVersion: int

    constructor ()
      ensures gameVersion == 0
    {
      gameVersion := 0;
    }
  }

  /**
   * The end of `main`: the version `switch`, the patches and the server. An
   * unsupported build exits with 1 before anything is patched; a failed
   * patch exits with 1 without starting the server; otherwise the exit code
   * follows `RunServer`.
   */
  method PatchAndRun(p: Process, arch: Arch, isAMD: bool, has3DNow: bool, gameVersion: int,
                     libCryAction: nat, libCryNetwork: nat, libCrySystem: nat,
                     cmdLine: CString, cmdLineCapacity: nat, engine: Engine) returns (exitCode: int)
    requires p.Valid()
    modifies p, p.mem, p.prot
    ensures exitCode == 0 || exitCode == 1
    ensures !IsSupportedVersion(gameVersion) ==> exitCode == 1 && p.State() == old(p.State())
    ensures IsSupportedVersion(gameVersion) ==>
              var installed := Apply(old(p.State()), p.grant,
                                     InstallWrites(arch, isAMD, has3DNow, gameVersion, libCryAction, libCryNetwork, libCrySystem));
              && p.State() == installed.0
              && (installed.1 < 0 ==> exitCode == 1)
              && (installed.1 == 0 ==> exitCode == (if RunServer(cmdLine, cmdLineCapacity, engine) < 0 then 1 else 0))
  {
    if IsSupportedVersion(gameVersion) {
      var rc := InstallMemoryPatches(p, arch, isAMD, has3DNow, gameVersion, libCryAction, libCryNetwork, libCrySystem);
      if rc < 0 {
        return 1;   // "Unable to apply memory patch!"
      }
    } else {
      return 1;   // "Unsupported version of the game!"
    }

    var status := RunServer(cmdLine, cmdLineCapacity, engine);
    return if status < 0 then 1 else 0;
  }

  /**
   * `main`. `versionRes` is CrySystem's version resource; `isAMD` and
   * `has3DNow` are what the CPU reports. Returns the process exit code.
   */
  method LauncherMain(p: Process, env: LauncherEnv, arch: Arch, libs: Libraries,
                      versionRes: Option<seq<Byte>>, isAMD: bool, has3DNow: bool,
                      cmdLine: CString, cmdLineCapacity: nat, engine: Engine) returns (exitCode: int)
    requires p.Valid()
    modifies p, p.mem, p.prot, env
    ensures exitCode == 0 || exitCode == 1
    // a missing DLL, an unreadable version or an unsupported build: nothing is patched, not even unlocked
    ensures !(libs.AllLoaded() && IsSupportedVersion(GetCrysisGameVersion(versionRes))) ==>
              exitCode == 1 && p.State() == old(p.State())
    ensures libs.AllLoaded() && IsSupportedVersion(GetCrysisGameVersion(versionRes)) ==>
              var installed := Apply(old(p.State()), p.grant,
                                     InstallWrites(arch, isAMD, has3DNow, GetCrysisGameVersion(versionRes),
                                                   libs.cryAction.value, libs.cryNetwork.value, libs.crySystem.value));
              && p.State() == installed.0
              // a failed patch exits with 1 whatever the engine would have done
              && (installed.1 < 0 ==> exitCode == 1)
              && (installed.1 == 0 ==> exitCode == (if RunServer(cmdLine, cmdLineCapacity, engine) < 0 then 1 else 0))
    ensures libs.AllLoaded() && GetCrysisGameVersion(versionRes) >= 0 ==> env.gameVersion == GetCrysisGameVersion(versionRes)
  {
    ghost var m0 := p.State();
    if libs.cryGame.None? {
      return 1;   // "Unable to load the CryGame DLL!"
    }
    if libs.cryAction.None? {
      return 1;
    }
    if libs.cryNetwork.None? {
      return 1;
    }
    if libs.crySystem.None? {
      return 1;
    }

    var gameVersion := GetCrysisGameVersion(versionRes);
    if gameVersion < 0 {
      return 1;   // "Unable to obtain game version from the CrySystem DLL!"
    }
    env.gameVersion := gameVersion;
    assert p.State() == m0;

    exitCode := PatchAndRun(p, arch, isAMD, has3DNow, gameVersion,
                            libs.cryAction.value, libs.cryNetwork.value, libs.crySystem.value,
                            cmdLine, cmdLineCapacity, engine);
  }
}
