/** The installer backend as it runs (installer-backend/app.py): the four
    module globals become the fields of one `Installer` object, and each
    function that changes them becomes a method proved to do exactly what the
    engine's script for it says. Effects go to the oracle `World`; the time
    stamp of a log entry comes from the `Clock`. */
module Backend {
  import opened Wrappers
  import opened Text
  import opened Commands
  import opened Engine
  import opened Admission

  class Installer {
    var active: bool
    var progress: int
    var status: string
    var log: seq<string>
    /** The effects issued so far, and every value progress was given. */
    ghost var issued: seq<Effect>
    ghost var trail: seq<int>

    ghost function View(): Machine
      reads this
    {
      Machine(active, progress, status, log, issued, trail)
    }

    /** The globals at import time. */
    constructor ()
      ensures View() == Machine(false, 0, "Ready", [], [], [])
    {
      active := false;
      progress := 0;
      status := "Ready";
      log := [];
      issued := [];
      trail := [];
    }

    /** `log_message`: one stamped entry appended; nothing else changes. */
    method LogMessage(message: string, ts: string)
      modifies this
      ensures log == old(log) + [Stamp(ts, message)]
      ensures active == old(active) && progress == old(progress) && status == old(status)
      ensures issued == old(issued) && trail == old(trail)
    {
      var entry := "[" + ts + "] " + message;
      log := log + [entry];
    }

    /** One call into the outside world (`subprocess.run`,
        `subprocess.check_output`, `os.makedirs`, `open`, `write`): the
        effect is issued, and the call raises when the world refuses it or,
        with `check`, when the process exits non-zero. */
    method Perform(e: Effect, check: bool, world: World) returns (r: Result<string, string>)
      modifies this
      ensures issued == old(issued) + [e]
      ensures active == old(active) && progress == old(progress) && status == old(status)
      ensures log == old(log) && trail == old(trail)
      ensures r.Err? <==> Fails(Do(e, check), world)
      ensures r.Err? ==> r.error == ErrorOf(Do(e, check), world)
      ensures r.Ok? ==> r.value == StdoutOf(world(e))
    {
      issued := issued + [e];
      match world(e)
      case Done(out) => r := Ok(out);
      case NonZero(error) => r := if check then Err(error) else Ok("");
      case Raised(error) => r := Err(error);
    }

    /** Started from `m0` on script `s`, the installer has `rest` still to
        run: running it from here ends where running all of `s` from `m0`
        ends, with the same exception. */
    ghost predicate Resumes(m0: Machine, s: seq<Instr>, rest: seq<Instr>, world: World, clock: Clock)
      reads this
    {
      Execute(m0, s, world, clock) == Execute(View(), rest, world, clock)
      && ScriptError(s, world) == ScriptError(rest, world)
    }

    /** The installer is `k` instructions into `body`. */
    ghost predicate Tracks(m0: Machine, body: seq<Instr>, k: nat, world: World, clock: Clock)
      reads this
    {
      k <= |body| && Resumes(m0, body, body[k..], world, clock)
    }

    /** `body`, started from `m0`, has run to its end or to its exception. */
    ghost predicate Ended(m0: Machine, body: seq<Instr>, err: Option<string>, world: World, clock: Clock)
      reads this
    {
      View() == Execute(m0, body, world, clock) && err == ScriptError(body, world)
    }

    lemma Starts(s: seq<Instr>, world: World, clock: Clock)
      ensures Resumes(View(), s, s, world, clock)
    {
    }

    lemma TracksStart(body: seq<Instr>, world: World, clock: Clock)
      ensures Tracks(View(), body, 0, world, clock)
    {
      assert body[0..] == body;
    }

    lemma TracksEnd(m0: Machine, body: seq<Instr>, world: World, clock: Clock)
      requires Tracks(m0, body, |body|, world, clock)
      ensures Ended(m0, body, None, world, clock)
    {
      assert body[|body|..] == [];
    }

    /** The effect that is instruction `k` of `body`: either it raises and
        `body` has ended, or the installer is one instruction further. */
    method Issue(e: Effect, check: bool, world: World,
                 ghost clock: Clock, ghost m0: Machine, ghost body: seq<Instr>, ghost k: nat)
      returns (r: Result<string, string>)
      requires k < |body| && body[k] == Do(e, check) && Tracks(m0, body, k, world, clock)
      modifies this
      ensures r.Err? ==> Ended(m0, body, Some(r.error), world, clock)
      ensures r.Ok? ==> Tracks(m0, body, k + 1, world, clock) && r.value == StdoutOf(world(e))
    {
      ghost var m := View();
      r := Perform(e, check, world);
      SliceCons(body, k);
      StepCons(m, body[k], body[k + 1..], world, clock);
    }

    /** A log line at the head of what is still to run. */
    method Say(message: string, ghost world: World, clock: Clock,
               ghost m0: Machine, ghost s: seq<Instr>, ghost rest: seq<Instr>)
      requires Resumes(m0, s, [Log(message)] + rest, world, clock)
      modifies this
      ensures Resumes(m0, s, rest, world, clock)
    {
      ghost var m := View();
      LogMessage(message, clock(|log|));
      StepCons(m, Log(message), rest, world, clock);
    }

    /** The log line that is instruction `k` of `body`. */
    method Announce(message: string, ghost world: World, clock: Clock,
                    ghost m0: Machine, ghost body: seq<Instr>, ghost k: nat)
      requires k < |body| && body[k] == Log(message) && Tracks(m0, body, k, world, clock)
      modifies this
      ensures Tracks(m0, body, k + 1, world, clock)
    {
      SliceCons(body, k);
      Say(message, world, clock, m0, body, body[k + 1..]);
    }

    /** `chroot_command(command, mount_point)`, as instruction `k` of
        `body`. */
    method ChrootCommand(command: Argv, mountPoint: string, world: World,
                         ghost clock: Clock, ghost m0: Machine, ghost body: seq<Instr>, ghost k: nat)
      returns (err: Option<string>)
      requires k < |body| && body[k] == Do(Run(ChrootArgv(mountPoint, command)), true)
      requires Tracks(m0, body, k, world, clock)
      modifies this
      ensures err.Some? ==> Ended(m0, body, err, world, clock)
      ensures err.None? ==> Tracks(m0, body, k + 1, world, clock)
    {
      var fullCommand := ["chroot", mountPoint] + command;
      var r := Issue(Run(fullCommand), true, world, clock, m0, body, k);
      err := if r.Err? then Some(r.error) else None;
    }

    /** `prepare_disk(disk)`. */
    method PrepareDisk(disk: string, world: World, clock: Clock) returns (err: Option<string>)
      modifies this
      ensures View() == Execute(old(View()), PrepareDiskBody(disk), world, clock)
      ensures err == ScriptError(PrepareDiskBody(disk), world)
    {
      ghost var m0 := View();
      ghost var body := PrepareDiskBody(disk);
      TracksStart(body, world, clock);
      Announce("Partitioning disk " + disk, world, clock, m0, body, 0);
      var commands := PartedLines(disk);
      for i := 0 to |commands|
        invariant Tracks(m0, body, 1 + i, world, clock)
      {
        var r := Issue(Run(Split(commands[i])), true, world, clock, m0, body, 1 + i);
        if r.Err? {
          return Some(r.error);
        }
      }
      Announce("Formatting partitions...", world, clock, m0, body, 5);
      var r := Issue(Run(MkfsFatArgv(disk)), true, world, clock, m0, body, 6);
      if r.Err? {
        return Some(r.error);
      }
      r := Issue(Run(MkfsExt4Argv(disk)), true, world, clock, m0, body, 7);
      if r.Err? {
        return Some(r.error);
      }
      TracksEnd(m0, body, world, clock);
      err := None;
    }

    /** `install_base_system(config)`. */
    method InstallBaseSystem(cfg: Config, world: World, clock: Clock) returns (err: Option<string>)
      modifies this
      ensures View() == Execute(old(View()), BaseSystemBody(cfg.disk), world, clock)
      ensures err == ScriptError(BaseSystemBody(cfg.disk), world)
    {
      err := MountAndBootstrap(cfg.disk, world, clock, BaseSystemBody(cfg.disk));
    }

    /** The body of `install_base_system`, instruction by instruction. */
    method MountAndBootstrap(disk: string, world: World, clock: Clock, ghost body: seq<Instr>)
      returns (err: Option<string>)
      requires |body| == 6
      requires body[0] == Do(MakeDirs(MountPoint), true)
      requires body[1] == Do(Run(MountRootArgv(disk)), true)
      requires body[2] == Do(MakeDirs(EfiMountPoint), true)
      requires body[3] == Do(Run(MountEfiArgv(disk)), true)
      requires body[4] == Log("Running debootstrap (this may take several minutes)...")
      requires body[5] == Do(Run(DebootstrapArgv), true)
      modifies this
      ensures Ended(old(View()), body, err, world, clock)
    {
      ghost var m0 := View();
      TracksStart(body, world, clock);
      var r := Issue(MakeDirs(MountPoint), true, world, clock, m0, body, 0);
      if r.Err? {
        return Some(r.error);
      }
      r := Issue(Run(MountRootArgv(disk)), true, world, clock, m0, body, 1);
      if r.Err? {
        return Some(r.error);
      }
      r := Issue(MakeDirs(EfiMountPoint), true, world, clock, m0, body, 2);
      if r.Err? {
        return Some(r.error);
      }
      r := Issue(Run(MountEfiArgv(disk)), true, world, clock, m0, body, 3);
      if r.Err? {
        return Some(r.error);
      }
      Announce("Running debootstrap (this may take several minutes)...", world, clock, m0, body, 4);
      r := Issue(Run(DebootstrapArgv), true, world, clock, m0, body, 5);
      if r.Err? {
        return Some(r.error);
      }
      TracksEnd(m0, body, world, clock);
      err := None;
    }

    /** `configure_system(config)`. */
    method ConfigureSystem(cfg: Config, world: World, clock: Clock) returns (err: Option<string>)
      modifies this
      ensures View() == Execute(old(View()), ConfigureBody(cfg, world), world, clock)
      ensures err == ScriptError(ConfigureBody(cfg, world), world)
    {
      err := ConfigureSteps(cfg, world, clock, ConfigureBody(cfg, world));
    }

    /** The body of `configure_system`, instruction by instruction: the
        fstab, then the target system's settings. */
    method ConfigureSteps(cfg: Config, world: World, clock: Clock, ghost body: seq<Instr>)
      returns (err: Option<string>)
      requires |body| == 12
      requires body[0] == Log("Generating fstab...")
      requires body[1] == Do(Create(FstabPath), true)
      requires body[2] == Do(Run(BlkidArgv(RootPartition(cfg.disk))), true)
      requires body[3] == Do(Run(BlkidArgv(EfiPartition(cfg.disk))), true)
      requires var lines := FstabLines(UuidOf(world, RootPartition(cfg.disk)), UuidOf(world, EfiPartition(cfg.disk)));
               body[4] == Do(Write(FstabPath, lines[0]), true) && body[5] == Do(Write(FstabPath, lines[1]), true)
      requires body[6] == Do(Create(HostnamePath), true)
      requires body[7] == Do(Write(HostnamePath, HostnameText), true)
      requires body[8] == Log("Creating user " + cfg.username + "...")
      requires body[9] == Do(Run(ChrootArgv(MountPoint, UseraddCommand(cfg.username))), true)
      requires body[10] == Do(Run(ChrootArgv(MountPoint, ChpasswdCommand(cfg.username, cfg.password))), true)
      requires body[11] == Do(Run(ChrootArgv(MountPoint, TimezoneCommand(cfg.timezone))), true)
      modifies this
      ensures Ended(old(View()), body, err, world, clock)
    {
      ghost var m0 := View();
      err := GenerateFstab(cfg, world, clock, body);
      if err.Some? {
        return;
      }
      err := ConfigureTarget(cfg, world, clock, m0, body);
    }

    /** The first half of `configure_system`: the fstab file is opened, the
        two UUIDs are read with blkid and stripped, and the two lines are
        written. */
    method GenerateFstab(cfg: Config, world: World, clock: Clock, ghost body: seq<Instr>)
      returns (err: Option<string>)
      requires |body| == 12
      requires body[0] == Log("Generating fstab...")
      requires body[1] == Do(Create(FstabPath), true)
      requires body[2] == Do(Run(BlkidArgv(RootPartition(cfg.disk))), true)
      requires body[3] == Do(Run(BlkidArgv(EfiPartition(cfg.disk))), true)
      requires var lines := FstabLines(UuidOf(world, RootPartition(cfg.disk)), UuidOf(world, EfiPartition(cfg.disk)));
               body[4] == Do(Write(FstabPath, lines[0]), true) && body[5] == Do(Write(FstabPath, lines[1]), true)
      modifies this
      ensures err.Some? ==> Ended(old(View()), body, err, world, clock)
      ensures err.None? ==> Tracks(old(View()), body, 6, world, clock)
    {
      ghost var m0 := View();
      TracksStart(body, world, clock);
      Announce("Generating fstab...", world, clock, m0, body, 0);
      var r := Issue(Create(FstabPath), true, world, clock, m0, body, 1);
      if r.Err? {
        return Some(r.error);
      }
      r := Issue(Run(BlkidArgv(RootPartition(cfg.disk))), true, world, clock, m0, body, 2);
      if r.Err? {
        return Some(r.error);
      }
      var rootUuid := Strip(r.value);
      r := Issue(Run(BlkidArgv(EfiPartition(cfg.disk))), true, world, clock, m0, body, 3);
      if r.Err? {
        return Some(r.error);
      }
      var bootUuid := Strip(r.value);
      var lines := FstabLines(rootUuid, bootUuid);
      r := Issue(Write(FstabPath, lines[0]), true, world, clock, m0, body, 4);
      if r.Err? {
        return Some(r.error);
      }
      r := Issue(Write(FstabPath, lines[1]), true, world, clock, m0, body, 5);
      if r.Err? {
        return Some(r.error);
      }
      err := None;
    }

    /** The second half of `configure_system`: the host name, then the user,
        its password and the time zone inside the target. */
    method ConfigureTarget(cfg: Config, world: World, clock: Clock,
                            ghost m0: Machine, ghost body: seq<Instr>)
      returns (err: Option<string>)
      requires |body| == 12 && Tracks(m0, body, 6, world, clock)
      requires body[6] == Do(Create(HostnamePath), true)
      requires body[7] == Do(Write(HostnamePath, HostnameText), true)
      requires body[8] == Log("Creating user " + cfg.username + "...")
      requires body[9] == Do(Run(ChrootArgv(MountPoint, UseraddCommand(cfg.username))), true)
      requires body[10] == Do(Run(ChrootArgv(MountPoint, ChpasswdCommand(cfg.username, cfg.password))), true)
      requires body[11] == Do(Run(ChrootArgv(MountPoint, TimezoneCommand(cfg.timezone))), true)
      modifies this
      ensures Ended(m0, body, err, world, clock)
    {
      var r := Issue(Create(HostnamePath), true, world, clock, m0, body, 6);
      if r.Err? {
        return Some(r.error);
      }
      r := Issue(Write(HostnamePath, HostnameText), true, world, clock, m0, body, 7);
      if r.Err? {
        return Some(r.error);
      }
      Announce("Creating user " + cfg.username + "...", world, clock, m0, body, 8);
      err := ChrootCommand(UseraddCommand(cfg.username), MountPoint, world, clock, m0, body, 9);
      if err.Some? {
        return;
      }
      err := ChrootCommand(ChpasswdCommand(cfg.username, cfg.password), MountPoint, world, clock, m0, body, 10);
      if err.Some? {
        return;
      }
      err := ChrootCommand(TimezoneCommand(cfg.timezone), MountPoint, world, clock, m0, body, 11);
      if err.Some? {
        return;
      }
      TracksEnd(m0, body, world, clock);
    }

    /** `install_bootloader(disk)`. */
    method InstallBootloader(disk: string, world: World, clock: Clock) returns (err: Option<string>)
      modifies this
      ensures View() == Execute(old(View()), BootloaderBody(disk), world, clock)
      ensures err == ScriptError(BootloaderBody(disk), world)
    {
      ghost var m0 := View();
      ghost var body := BootloaderBody(disk);
      TracksStart(body, world, clock);
      err := ChrootCommand(AptUpdateCommand, MountPoint, world, clock, m0, body, 0);
      if err.Some? {
        return;
      }
      err := ChrootCommand(AptInstallCommand, MountPoint, world, clock, m0, body, 1);
      if err.Some? {
        return;
      }
      err := ChrootCommand(GrubInstallCommand(disk), MountPoint, world, clock, m0, body, 2);
      if err.Some? {
        return;
      }
      err := ChrootCommand(GrubMkconfigCommand, MountPoint, world, clock, m0, body, 3);
      if err.Some? {
        return;
      }
      TracksEnd(m0, body, world, clock);
    }

    /** `finalize_installation()`: the unmounts do not check the exit
        status. */
    method FinalizeInstallation(world: World, clock: Clock) returns (err: Option<string>)
      modifies this
      ensures View() == Execute(old(View()), FinalizeBody, world, clock)
      ensures err == ScriptError(FinalizeBody, world)
    {
      ghost var m0 := View();
      ghost var body := FinalizeBody;
      TracksStart(body, world, clock);
      var r := Issue(Run(UmountEfiArgv), false, world, clock, m0, body, 0);
      if r.Err? {
        return Some(r.error);
      }
      r := Issue(Run(UmountRootArgv), false, world, clock, m0, body, 1);
      if r.Err? {
        return Some(r.error);
      }
      Announce("Installation completed successfully!", world, clock, m0, body, 2);
      TracksEnd(m0, body, world, clock);
      err := None;
    }

    /** A step function has run at the head of what was still to run: when
        it raised, the script has ended with its exception; otherwise what
        follows it is still to run. */
    lemma AfterStep(m0: Machine, s: seq<Instr>, m: Machine, body: seq<Instr>, rest: seq<Instr>,
                    err: Option<string>, world: World, clock: Clock)
      requires Execute(m0, s, world, clock) == Execute(m, body + rest, world, clock)
      requires ScriptError(s, world) == ScriptError(body + rest, world)
      requires View() == Execute(m, body, world, clock) && err == ScriptError(body, world)
      ensures err.Some? ==> Ended(m0, s, err, world, clock)
      ensures err.None? ==> Resumes(m0, s, rest, world, clock)
    {
      ExecuteAppend(m, body, rest, world, clock);
      ErrorAppend(body, rest, world);
    }

    /** The line that opens a step: its status is set. */
    method EnterPhase(st: string, ghost ph: Phase, ghost world: World, ghost clock: Clock,
                      ghost m0: Machine, ghost s: seq<Instr>, ghost tail: seq<Instr>)
      requires ph.status == st && Resumes(m0, s, PhaseScript(ph) + tail, world, clock)
      modifies this
      ensures Resumes(m0, s, ph.body + ([SetProgress(ph.checkpoint)] + tail), world, clock)
    {
      PhaseCons(ph, tail);
      ShowStatus(st, world, clock, m0, s, ph.body + ([SetProgress(ph.checkpoint)] + tail));
    }

    /** A status at the head of what is still to run. */
    method ShowStatus(st: string, ghost world: World, ghost clock: Clock,
                      ghost m0: Machine, ghost s: seq<Instr>, ghost rest: seq<Instr>)
      requires Resumes(m0, s, [SetStatus(st)] + rest, world, clock)
      modifies this
      ensures Resumes(m0, s, rest, world, clock)
    {
      ghost var m := View();
      status := st;
      StepCons(m, SetStatus(st), rest, world, clock);
    }

    /** The two lines that open a production step: its status, then its
        announcement. */
    method BeginStep(st: string, announce: string, ghost body: seq<Instr>, ghost checkpoint: int,
                     ghost world: World, clock: Clock, ghost m0: Machine, ghost s: seq<Instr>, ghost tail: seq<Instr>)
      requires Resumes(m0, s, PhaseScript(Announced(st, announce, body, checkpoint)) + tail, world, clock)
      modifies this
      ensures Resumes(m0, s, body + ([SetProgress(checkpoint)] + tail), world, clock)
    {
      EnterPhase(st, Announced(st, announce, body, checkpoint), world, clock, m0, s, tail);
      ConsAppend(Log(announce), body, [SetProgress(checkpoint)] + tail);
      Say(announce, world, clock, m0, s, body + ([SetProgress(checkpoint)] + tail));
    }

    /** The line that closes a step: progress reaches its checkpoint. */
    method Reach(checkpoint: int, ghost world: World, ghost clock: Clock,
                 ghost m0: Machine, ghost s: seq<Instr>, ghost tail: seq<Instr>)
      requires Resumes(m0, s, [SetProgress(checkpoint)] + tail, world, clock)
      modifies this
      ensures Resumes(m0, s, tail, world, clock)
    {
      ghost var m := View();
      progress := checkpoint;
      trail := trail + [checkpoint];
      StepCons(m, SetProgress(checkpoint), tail, world, clock);
    }

    /** The development branch of `run_installation`: the banner, then each
        entry of the step table sets the status, logs the name and sets the
        progress. Nothing in it can raise. */
    method SimulateInstallation(ghost world: World, clock: Clock, ghost m0: Machine, ghost s: seq<Instr>)
      requires Resumes(m0, s, Prelude(true) + PhasesScript(DevPhases()) + Completion, world, clock)
      modifies this
      ensures Resumes(m0, s, Completion, world, clock)
    {
      ghost var phs := DevPhases();
      ConsAppend(Log(DevBanner), PhasesScript(phs), Completion);
      Say(DevBanner, world, clock, m0, s, PhasesScript(phs) + Completion);
      var steps := DevSteps;
      for i := 0 to |steps|
        invariant Resumes(m0, s, PhasesScript(phs[i..]) + Completion, world, clock)
      {
        var (stepName, checkpoint) := steps[i];
        ghost var tail := PhasesScript(phs[i + 1..]) + Completion;
        PhasesCons(phs[i..], Completion);
        assert phs[i..][1..] == phs[i + 1..];
        EnterPhase(stepName, phs[i], world, clock, m0, s, tail);
        Say(stepName, world, clock, m0, s, [SetProgress(checkpoint)] + tail);
        Reach(checkpoint, world, clock, m0, s, tail);
      }
      assert phs[|steps|..] == [];
      assert PhasesScript(phs[|steps|..]) + Completion == Completion;
    }

    /** The production branch of `run_installation`: the five steps, each
        between its status and announcement and its checkpoint. A body that
        is not an object raises at its first subscript, after the first
        status is set. */
    method PerformInstallation(config: Json, world: World, clock: Clock, ghost m0: Machine, ghost s: seq<Instr>)
      returns (err: Option<string>)
      requires HasRequiredFields(config)
      requires Resumes(m0, s, PhasesScript(InstallPhases(config, world)) + Completion, world, clock)
      modifies this
      ensures err.Some? ==> Ended(m0, s, err, world, clock)
      ensures err.None? ==> Resumes(m0, s, Completion, world, clock)
    {
      var parsed := ConfigOf(config);
      if parsed.Err? {
        FailSubscript(parsed.error, world, clock, m0, s);
        return Some(parsed.error);
      }
      err := InstallSteps(parsed.value, world, clock, m0, s);
    }

    /** The first step of a run whose body cannot be subscripted: the status
        is set, then `config['disk']` raises. */
    method FailSubscript(error: string, ghost world: World, ghost clock: Clock, ghost m0: Machine, ghost s: seq<Instr>)
      requires Resumes(m0, s, PhasesScript([SubscriptFailure(error)]) + Completion, world, clock)
      modifies this
      ensures Ended(m0, s, Some(error), world, clock)
    {
      ghost var ph := SubscriptFailure(error);
      assert PhasesScript([ph]) + Completion == PhaseScript(ph) + Completion;
      ghost var tail := [SetProgress(20)] + Completion;
      PhaseCons(ph, Completion);
      ShowStatus("Preparing disk...", world, clock, m0, s, [Raise(error)] + tail);
      StepCons(View(), Raise(error), tail, world, clock);
    }

    /** The five production steps in order, for a configuration read from
        an object body; the first step that raises ends the try block. */
    method InstallSteps(cfg: Config, world: World, clock: Clock, ghost m0: Machine, ghost s: seq<Instr>)
      returns (err: Option<string>)
      requires Resumes(m0, s, PhasesScript(ProdPhases(cfg, world)) + Completion, world, clock)
      modifies this
      ensures err.Some? ==> Ended(m0, s, err, world, clock)
      ensures err.None? ==> Resumes(m0, s, Completion, world, clock)
    {
      ghost var t4 := PhaseScript(FinalizePhase()) + Completion;
      ghost var t3 := PhaseScript(BootloaderPhase(cfg.disk)) + t4;
      ghost var t2 := PhaseScript(ConfigurePhase(cfg, world)) + t3;
      ghost var t1 := PhaseScript(BaseSystemPhase(cfg.disk)) + t2;
      FivePhasesCons(PreparePhase(cfg.disk), BaseSystemPhase(cfg.disk), ConfigurePhase(cfg, world),
                     BootloaderPhase(cfg.disk), FinalizePhase(), Completion);
      err := PrepareDiskStep(cfg, world, clock, m0, s, t1);
      if err.Some? {
        return;
      }
      err := BaseSystemStep(cfg, world, clock, m0, s, t2);
      if err.Some? {
        return;
      }
      err := ConfigureStep(cfg, world, clock, m0, s, t3);
      if err.Some? {
        return;
      }
      err := BootloaderStep(cfg, world, clock, m0, s, t4);
      if err.Some? {
        return;
      }
      err := FinalizeStep(cfg, world, clock, m0, s, Completion);
    }

    /** Step 1 of the production branch: the disk is partitioned and formatted. */
    method PrepareDiskStep(cfg: Config, world: World, clock: Clock, ghost m0: Machine, ghost s: seq<Instr>, ghost tail: seq<Instr>)
      returns (err: Option<string>)
      requires Resumes(m0, s, PhaseScript(PreparePhase(cfg.disk)) + tail, world, clock)
      modifies this
      ensures err.Some? ==> Ended(m0, s, err, world, clock)
      ensures err.None? ==> Resumes(m0, s, tail, world, clock)
    {
      BeginStep("Preparing disk...", "Starting installation on " + cfg.disk, PrepareDiskBody(cfg.disk), 20, world, clock, m0, s, tail);
      ghost var m := View();
      err := PrepareDisk(cfg.disk, world, clock);
      AfterStep(m0, s, m, PrepareDiskBody(cfg.disk), [SetProgress(20)] + tail, err, world, clock);
      if err.Some? {
        return;
      }
      Reach(20, world, clock, m0, s, tail);
    }

    /** Step 2: the target is mounted and the base system bootstrapped. */
    method BaseSystemStep(cfg: Config, world: World, clock: Clock, ghost m0: Machine, ghost s: seq<Instr>, ghost tail: seq<Instr>)
      returns (err: Option<string>)
      requires Resumes(m0, s, PhaseScript(BaseSystemPhase(cfg.disk)) + tail, world, clock)
      modifies this
      ensures err.Some? ==> Ended(m0, s, err, world, clock)
      ensures err.None? ==> Resumes(m0, s, tail, world, clock)
    {
      BeginStep("Installing base system...", "Installing Debian base system...", BaseSystemBody(cfg.disk), 60, world, clock, m0, s, tail);
      ghost var m := View();
      err := InstallBaseSystem(cfg, world, clock);
      AfterStep(m0, s, m, BaseSystemBody(cfg.disk), [SetProgress(60)] + tail, err, world, clock);
      if err.Some? {
        return;
      }
      Reach(60, world, clock, m0, s, tail);
    }

    /** Step 3: fstab, host name, user, password and time zone. */
    method ConfigureStep(cfg: Config, world: World, clock: Clock, ghost m0: Machine, ghost s: seq<Instr>, ghost tail: seq<Instr>)
      returns (err: Option<string>)
      requires Resumes(m0, s, PhaseScript(ConfigurePhase(cfg, world)) + tail, world, clock)
      modifies this
      ensures err.Some? ==> Ended(m0, s, err, world, clock)
      ensures err.None? ==> Resumes(m0, s, tail, world, clock)
    {
      BeginStep("Configuring system...", "Configuring system settings...", ConfigureBody(cfg, world), 80, world, clock, m0, s, tail);
      ghost var m := View();
      err := ConfigureSystem(cfg, world, clock);
      AfterStep(m0, s, m, ConfigureBody(cfg, world), [SetProgress(80)] + tail, err, world, clock);
      if err.Some? {
        return;
      }
      Reach(80, world, clock, m0, s, tail);
    }

    /** Step 4: GRUB is installed and configured in the target. */
    method BootloaderStep(cfg: Config, world: World, clock: Clock, ghost m0: Machine, ghost s: seq<Instr>, ghost tail: seq<Instr>)
      returns (err: Option<string>)
      requires Resumes(m0, s, PhaseScript(BootloaderPhase(cfg.disk)) + tail, world, clock)
      modifies this
      ensures err.Some? ==> Ended(m0, s, err, world, clock)
      ensures err.None? ==> Resumes(m0, s, tail, world, clock)
    {
      BeginStep("Installing bootloader...", "Installing GRUB bootloader...", BootloaderBody(cfg.disk), 95, world, clock, m0, s, tail);
      ghost var m := View();
      err := InstallBootloader(cfg.disk, world, clock);
      AfterStep(m0, s, m, BootloaderBody(cfg.disk), [SetProgress(95)] + tail, err, world, clock);
      if err.Some? {
        return;
      }
      Reach(95, world, clock, m0, s, tail);
    }

    /** Step 5: the target is unmounted. */
    method FinalizeStep(cfg: Config, world: World, clock: Clock, ghost m0: Machine, ghost s: seq<Instr>, ghost tail: seq<Instr>)
      returns (err: Option<string>)
      requires Resumes(m0, s, PhaseScript(FinalizePhase()) + tail, world, clock)
      modifies this
      ensures err.Some? ==> Ended(m0, s, err, world, clock)
      ensures err.None? ==> Resumes(m0, s, tail, world, clock)
    {
      BeginStep("Finalizing installation...", "Cleaning up and finalizing...", FinalizeBody, 100, world, clock, m0, s, tail);
      ghost var m := View();
      err := FinalizeInstallation(world, clock);
      AfterStep(m0, s, m, FinalizeBody, [SetProgress(100)] + tail, err, world, clock);
      if err.Some? {
        return;
      }
      Reach(100, world, clock, m0, s, tail);
    }

    /** The try block of `run_installation`: the mode's branch, then the
        completion status and log line when nothing raised. */
    method TryInstallation(config: Json, devMode: bool, world: World, clock: Clock, ghost phs: seq<Phase>)
      returns (err: Option<string>)
      requires HasRequiredFields(config) && phs == RunPhases(config, devMode, world)
      modifies this
      ensures Ended(old(View()), TryBlock(devMode, phs), err, world, clock)
    {
      if devMode {
        DevelopmentRun(world, clock, TryBlock(devMode, phs));
        err := None;
      } else {
        err := ProductionRun(config, world, clock, TryBlock(devMode, phs));
      }
    }

    /** The try block in development mode: the simulation, then the
        completion lines. */
    method DevelopmentRun(ghost world: World, clock: Clock, ghost s: seq<Instr>)
      requires s == TryBlock(true, DevPhases())
      modifies this
      ensures Ended(old(View()), s, None, world, clock)
    {
      ghost var m0 := View();
      Starts(s, world, clock);
      SimulateInstallation(world, clock, m0, s);
      Complete(world, clock, m0, s);
    }

    /** The try block of the real installation: the five steps, then the
        completion lines unless a step raised. */
    method ProductionRun(config: Json, world: World, clock: Clock, ghost s: seq<Instr>)
      returns (err: Option<string>)
      requires HasRequiredFields(config) && s == TryBlock(false, InstallPhases(config, world))
      modifies this
      ensures Ended(old(View()), s, err, world, clock)
    {
      ghost var m0 := View();
      ProdTryBlock(InstallPhases(config, world));
      Starts(s, world, clock);
      err := PerformInstallation(config, world, clock, m0, s);
      if err.Some? {
        return;
      }
      Complete(world, clock, m0, s);
    }

    /** The last two lines of the try block: the completed status and the
        success message. */
    method Complete(ghost world: World, clock: Clock, ghost m0: Machine, ghost s: seq<Instr>)
      requires Resumes(m0, s, Completion, world, clock)
      modifies this
      ensures Ended(m0, s, None, world, clock)
    {
      ShowStatus("Installation complete!", world, clock, m0, s, [Log("TwinaOS installation completed successfully!")]);
      Say("TwinaOS installation completed successfully!", world, clock, m0, s, []);
    }

    /** `run_installation(config)`: active set and progress back to 0, the
        try block, then the `except` and `finally` clauses. */
    method RunInstallation(config: Json, devMode: bool, world: World, clock: Clock)
      requires HasRequiredFields(config)
      modifies this
      ensures View() == RunOutcome(old(View()), config, devMode, world, clock)
    {
      ghost var m := View();
      ghost var phs := RunPhases(config, devMode, world);
      ResetRun();
      var err := TryInstallation(config, devMode, world, clock, phs);
      CloseRun(err, m, devMode, phs, world, clock);
    }

    /** The first two statements of `run_installation`: active set, progress
        back to 0. */
    method ResetRun()
      modifies this
      ensures View() == Reset(old(View()))
    {
      active := true;
      progress := 0;
      trail := trail + [0];
    }

    /** The `except` and `finally` clauses of `run_installation`, after a
        try block that started from the reset of `m` and ended with `err`:
        a failure sets the failed status and logs an ERROR line; active is
        cleared on every path. */
    method CloseRun(err: Option<string>, ghost m: Machine, ghost devMode: bool, ghost phs: seq<Phase>,
                    ghost world: World, clock: Clock)
      requires Ended(Reset(m), TryBlock(devMode, phs), err, world, clock)
      modifies this
      ensures View() == Conclude(m, devMode, phs, world, clock)
    {
      if err.Some? {
        status := "Installation failed: " + err.value;
        LogMessage("ERROR: " + err.value, clock(|log|));
      }
      active := false;
    }

    /** `start_installation()`: the answer admission gives; a run only when
        the request is admitted, after which the machine is that of the whole
        run. The run is performed before the answer is returned. */
    method StartInstallation(req: Request, devMode: bool, world: World, clock: Clock) returns (response: Response)
      modifies this
      ensures response == Admit(old(active), req).response
      ensures response.Accepted? ==> HasRequiredFields(req.body) &&
                                     View() == RunOutcome(old(View()), req.body, devMode, world, clock)
      ensures response.Rejected? ==> View() == Refused(old(View()), Admit(old(active), req).logged, clock)
    {
      response := CheckRequest(req, clock);
      if response.Accepted? {
        AcceptedHasFields(old(active), req);
        RunInstallation(req.body, devMode, world, clock);
      }
    }

    /** The machine after a refused start: only the line logged with the
        refusal, if any, is added. */
    ghost function Refused(m: Machine, logged: Option<string>, clock: Clock): Machine {
      match logged
      case None => m
      case Some(line) => m.(log := m.log + [Stamp(clock(|m.log|), line)])
    }

    /** The checks `start_installation` makes before it starts the run
        thread: busy, a readable body, then each required field in turn. */
    method CheckRequest(req: Request, clock: Clock) returns (response: Response)
      modifies this
      ensures response == Admit(old(active), req).response
      ensures response.Accepted? ==> View() == old(View())
      ensures response.Rejected? ==> View() == Refused(old(View()), Admit(old(active), req).logged, clock)
    {
      if active {
        return Busy;
      }
      if req.Unreadable? {
        LogMessage("Error starting installation: " + req.error, clock(|log|));
        return ServerError;
      }
      var data := req.body;
      var requiredFields := RequiredFields;
      for i := 0 to |requiredFields|
        invariant FirstMissing(data, requiredFields) == FirstMissing(data, requiredFields[i..])
        invariant View() == old(View())
      {
        assert requiredFields[i..][1..] == requiredFields[i + 1..];
        var present := Contains(data, requiredFields[i]);
        if present.Err? {
          LogMessage("Error starting installation: " + present.error, clock(|log|));
          return ServerError;
        }
        if !present.value {
          return MissingField(requiredFields[i]);
        }
      }
      assert requiredFields[|requiredFields|..] == [];
      response := Accepted;
    }
  }
}
