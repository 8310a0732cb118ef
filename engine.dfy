/** The installation engine of installer-backend/app.py as a specification:
    what a run does is a script of instructions (status and progress
    updates, log lines, and effects on the machine being installed), executed
    in order until the first one that raises. The shell and the file system
    are an oracle `World` that answers each effect. */
module Engine {
  import opened Wrappers
  import opened Text
  import opened Commands

  /** An effect on the machine being installed. */
  datatype Effect =
    | Run(argv: Argv)                    // subprocess.run / subprocess.check_output
    | MakeDirs(path: string)             // os.makedirs(path, exist_ok=True)
    | Create(path: string)               // open(path, "w")
    | Write(path: string, text: string)  // f.write(text)

  /** What the outside world answers to an effect: it completed (with the
      process's standard output), the process ran and exited with a non-zero
      status, or the effect raised before completing (the program could not
      be started, the file could not be opened, ...). `error` is the text of
      the exception Python raises. */
  datatype Reply = Done(stdout: string) | NonZero(error: string) | Raised(error: string)

  type World = Effect -> Reply

  /** The time stamp of the log entry at each position of the log. */
  type Clock = nat -> string

  datatype Instr =
    | SetStatus(status: string)        // installation_status = ...
    | SetProgress(progress: int)       // installation_progress = ...
    | Log(message: string)             // log_message(...)
    | Do(effect: Effect, check: bool)  // an effect; `check` as subprocess.run's check=
    | Raise(error: string)             // an exception raised by the code itself

  /** The four module globals, plus what the model observes: every effect
      issued (`issued`) and every value given to the progress (`trail`). */
  datatype Machine = Machine(active: bool, progress: int, status: string, log: seq<string>,
                             issued: seq<Effect>, trail: seq<int>)

  /** A log entry: the time stamp in brackets, a blank, the message. */
  function Stamp(ts: string, message: string): string {
    "[" + ts + "] " + message
  }

  /** An instruction raises when the world refuses its effect, when its
      process exits non-zero and the call checks for that, or when it is an
      exception of the code itself. */
  predicate Fails(i: Instr, world: World) {
    match i
    case Do(e, check) => world(e).Raised? || (check && world(e).NonZero?)
    case Raise(_) => true
    case _ => false
  }

  function ErrorOf(i: Instr, world: World): string
    requires Fails(i, world)
  {
    match i
    case Do(e, _) => world(e).error
    case Raise(err) => err
  }

  /** What one instruction does to the machine, whether or not it then
      raises: an effect counts as issued once it is attempted. */
  function Apply(m: Machine, i: Instr, clock: Clock): Machine {
    match i
    case SetStatus(s) => m.(status := s)
    case SetProgress(p) => m.(progress := p, trail := m.trail + [p])
    case Log(message) => m.(log := m.log + [Stamp(clock(|m.log|), message)])
    case Do(e, _) => m.(issued := m.issued + [e])
    case Raise(_) => m
  }

  /** A script runs instruction by instruction and stops after the first
      one that raises. */
  function Execute(m: Machine, s: seq<Instr>, world: World, clock: Clock): Machine
    decreases |s|
  {
    if s == [] then m
    else
      var m1 := Apply(m, s[0], clock);
      if Fails(s[0], world) then m1 else Execute(m1, s[1..], world, clock)
  }

  /** Position of the first instruction that raises, or |s| when none does. */
  function FirstFailure(s: seq<Instr>, world: World): (k: nat)
    ensures k <= |s|
    ensures k < |s| ==> Fails(s[k], world)
    ensures forall j :: 0 <= j < k ==> !Fails(s[j], world)
  {
    if s == [] then 0
    else if Fails(s[0], world) then 0
    else 1 + FirstFailure(s[1..], world)
  }

  /** The exception a script ends with: that of its first failing
      instruction, if any. */
  function ScriptError(s: seq<Instr>, world: World): Option<string> {
    var k := FirstFailure(s, world);
    if k < |s| then Some(ErrorOf(s[k], world)) else None
  }

  /** The instructions that get executed: all of them up to and including
      the first that raises. */
  function Performed(s: seq<Instr>, world: World): seq<Instr> {
    var k := FirstFailure(s, world);
    if k < |s| then s[..k + 1] else s
  }

  /** The effects a list of instructions asks for, in order. */
  function EffectsOf(s: seq<Instr>): seq<Effect> {
    if s == [] then [] else (if s[0].Do? then [s[0].effect] else []) + EffectsOf(s[1..])
  }

  /** `acc` followed by the effects issued when a script runs. */
  function IssuedAfter(acc: seq<Effect>, s: seq<Instr>, world: World): seq<Effect>
    decreases |s|
  {
    if s == [] then acc
    else
      var acc1 := if s[0].Do? then acc + [s[0].effect] else acc;
      if Fails(s[0], world) then acc1 else IssuedAfter(acc1, s[1..], world)
  }

  lemma Associative<T>(a: seq<T>, b: seq<T>, c: seq<T>, d: seq<T>)
    ensures (a + b) + c + d == a + (b + c) + d
  {
  }

  lemma EffectsCons(x: Instr, rest: seq<Instr>)
    ensures EffectsOf([x] + rest) == (if x.Do? then [x.effect] else []) + EffectsOf(rest)
  {
    assert ([x] + rest)[1..] == rest;
  }

  lemma PerformedCons(s: seq<Instr>, world: World)
    requires s != []
    ensures Fails(s[0], world) ==> Performed(s, world) == [s[0]]
    ensures !Fails(s[0], world) ==> Performed(s, world) == [s[0]] + Performed(s[1..], world)
  {
  }

  /** The effects issued are exactly those of the performed instructions:
      nothing after the first failing one is attempted. */
  lemma {:induction false} IssuedAfterPerformed(acc: seq<Effect>, s: seq<Instr>, world: World)
    ensures IssuedAfter(acc, s, world) == acc + EffectsOf(Performed(s, world))
    decreases |s|
  {
    if s == [] {
      assert Performed(s, world) == [];
    } else {
      var x := s[0];
      var e0: seq<Effect> := if x.Do? then [x.effect] else [];
      PerformedCons(s, world);
      if Fails(x, world) {
        EffectsCons(x, []);
        assert [x] + [] == [x];
        assert EffectsOf([]) == [];
        assert e0 + [] == e0;
      } else {
        var p := Performed(s[1..], world);
        EffectsCons(x, p);
        if x.Do? {
          IssuedAfterPerformed(acc + [x.effect], s[1..], world);
          Associative(acc, [x.effect], EffectsOf(p), []);
        } else {
          IssuedAfterPerformed(acc, s[1..], world);
          assert [] + EffectsOf(p) == EffectsOf(p);
        }
      }
    }
  }

  /** Running two scripts one after the other: the second runs only when the
      first raised nothing. */
  lemma {:induction false} ExecuteAppend(m: Machine, a: seq<Instr>, b: seq<Instr>, world: World, clock: Clock)
    ensures Execute(m, a + b, world, clock) ==
            if ScriptError(a, world).Some? then Execute(m, a, world, clock)
            else Execute(Execute(m, a, world, clock), b, world, clock)
    decreases |a|
  {
    if a == [] {
      assert a + b == b;
    } else {
      assert (a + b)[0] == a[0];
      assert (a + b)[1..] == a[1..] + b;
      if !Fails(a[0], world) {
        ExecuteAppend(Apply(m, a[0], clock), a[1..], b, world, clock);
      }
    }
  }

  /** The exception of two scripts one after the other. */
  lemma {:induction false} ErrorAppend(a: seq<Instr>, b: seq<Instr>, world: World)
    ensures ScriptError(a + b, world) ==
            if ScriptError(a, world).Some? then ScriptError(a, world) else ScriptError(b, world)
    decreases |a|
  {
    if a == [] {
      assert a + b == b;
    } else {
      assert (a + b)[0] == a[0];
      assert (a + b)[1..] == a[1..] + b;
      if !Fails(a[0], world) {
        ErrorAppend(a[1..], b, world);
      }
    }
  }

  /** The log is append-only: every script keeps the entries already there. */
  lemma {:induction false} ExecuteKeepsLog(m: Machine, s: seq<Instr>, world: World, clock: Clock)
    ensures var m' := Execute(m, s, world, clock);
            |m.log| <= |m'.log| && forall i :: 0 <= i < |m.log| ==> m'.log[i] == m.log[i]
    decreases |s|
  {
    if s != [] && !Fails(s[0], world) {
      ExecuteKeepsLog(Apply(m, s[0], clock), s[1..], world, clock);
    }
  }

  // ---------------------------------------------------------------------
  // The steps of the installation, as scripts.

  /** Every argument vector run with check=True. */
  function RunAll(argvs: seq<Argv>): (s: seq<Instr>)
    ensures |s| == |argvs|
    ensures forall i :: 0 <= i < |s| ==> s[i] == Do(Run(argvs[i]), true)
  {
    if argvs == [] then [] else [Do(Run(argvs[0]), true)] + RunAll(argvs[1..])
  }

  /** `prepare_disk(disk)`. */
  function PrepareDiskBody(disk: string): seq<Instr> {
    [Log("Partitioning disk " + disk)]
    + RunAll(PartedArgvs(disk))
    + [ Log("Formatting partitions..."),
        Do(Run(MkfsFatArgv(disk)), true),
        Do(Run(MkfsExt4Argv(disk)), true) ]
  }

  /** `install_base_system(config)`. */
  function BaseSystemBody(disk: string): seq<Instr> {
    [ Do(MakeDirs(MountPoint), true),
      Do(Run(MountRootArgv(disk)), true),
      Do(MakeDirs(EfiMountPoint), true),
      Do(Run(MountEfiArgv(disk)), true),
      Log("Running debootstrap (this may take several minutes)..."),
      Do(Run(DebootstrapArgv), true) ]
  }

  function StdoutOf(r: Reply): string {
    if r.Done? then r.stdout else ""
  }

  /** The UUID `configure_system` reads for a partition: blkid's output,
      stripped. Only used once blkid has succeeded. */
  function UuidOf(world: World, device: string): string {
    Strip(StdoutOf(world(Run(BlkidArgv(device)))))
  }

  /** `configure_system(config)`: the fstab file is opened before blkid runs,
      then written with the two UUID lines; then the hostname, the user, its
      password and the time zone. */
  function ConfigureBody(cfg: Config, world: World): seq<Instr> {
    ConfigureScript(cfg, FstabLines(UuidOf(world, RootPartition(cfg.disk)), UuidOf(world, EfiPartition(cfg.disk))))
  }

  /** The instructions of `configure_system`, for the fstab lines it writes. */
  function ConfigureScript(cfg: Config, lines: seq<string>): seq<Instr>
    requires |lines| == 2
  {
    [ Log("Generating fstab..."),
      Do(Create(FstabPath), true),
      Do(Run(BlkidArgv(RootPartition(cfg.disk))), true),
      Do(Run(BlkidArgv(EfiPartition(cfg.disk))), true),
      Do(Write(FstabPath, lines[0]), true),
      Do(Write(FstabPath, lines[1]), true),
      Do(Create(HostnamePath), true),
      Do(Write(HostnamePath, HostnameText), true),
      Log("Creating user " + cfg.username + "..."),
      Do(Run(ChrootArgv(MountPoint, UseraddCommand(cfg.username))), true),
      Do(Run(ChrootArgv(MountPoint, ChpasswdCommand(cfg.username, cfg.password))), true),
      Do(Run(ChrootArgv(MountPoint, TimezoneCommand(cfg.timezone))), true) ]
  }

  /** `install_bootloader(disk)`. */
  function BootloaderBody(disk: string): seq<Instr> {
    [ Do(Run(ChrootArgv(MountPoint, AptUpdateCommand)), true),
      Do(Run(ChrootArgv(MountPoint, AptInstallCommand)), true),
      Do(Run(ChrootArgv(MountPoint, GrubInstallCommand(disk))), true),
      Do(Run(ChrootArgv(MountPoint, GrubMkconfigCommand)), true) ]
  }

  /** `finalize_installation()`: both unmounts with check=False. */
  const FinalizeBody: seq<Instr> :=
    [ Do(Run(UmountEfiArgv), false),
      Do(Run(UmountRootArgv), false),
      Log("Installation completed successfully!") ]

  /** The unmounts are best-effort: a non-zero exit never stops
      `finalize_installation`, which then always logs its message; it fails
      only when an unmount cannot be started at all. */
  lemma FinalizeTolerant(world: World)
    ensures ScriptError(FinalizeBody, world).Some? <==>
            world(Run(UmountEfiArgv)).Raised? || world(Run(UmountRootArgv)).Raised?
    ensures ScriptError(FinalizeBody, world).None? ==> Performed(FinalizeBody, world) == FinalizeBody
  {
    var s := FinalizeBody;
    assert s[1..][1..][1..] == [];
    assert FirstFailure(s[1..][1..], world) == 1;
    assert FirstFailure(s[1..], world) == (if Fails(s[1], world) then 0 else 2);
    assert FirstFailure(s, world) == (if Fails(s[0], world) then 0 else if Fails(s[1], world) then 1 else 3);
  }

  // ---------------------------------------------------------------------
  // Phases: a status, a body, and the checkpoint progress reached after it.

  datatype Phase = Phase(status: string, body: seq<Instr>, checkpoint: int)

  /** The body of a phase sets neither status nor progress. */
  predicate IsBody(s: seq<Instr>) {
    forall i :: 0 <= i < |s| ==> !s[i].SetStatus? && !s[i].SetProgress?
  }

  /** A body only logs and issues effects. */
  lemma {:induction false} ExecuteBody(m: Machine, s: seq<Instr>, world: World, clock: Clock)
    requires IsBody(s)
    ensures var m' := Execute(m, s, world, clock);
            && m'.active == m.active && m'.progress == m.progress && m'.status == m.status
            && m'.trail == m.trail && m'.issued == IssuedAfter(m.issued, s, world)
    decreases |s|
  {
    if s != [] && !Fails(s[0], world) {
      assert IsBody(s[1..]);
      ExecuteBody(Apply(m, s[0], clock), s[1..], world, clock);
    }
  }

  function PhaseScript(ph: Phase): seq<Instr> {
    [SetStatus(ph.status)] + ph.body + [SetProgress(ph.checkpoint)]
  }

  function PhasesScript(phs: seq<Phase>): seq<Instr> {
    if phs == [] then [] else PhaseScript(phs[0]) + PhasesScript(phs[1..])
  }

  function Checkpoints(phs: seq<Phase>): (r: seq<int>)
    ensures |r| == |phs| && forall i :: 0 <= i < |phs| ==> r[i] == phs[i].checkpoint
  {
    if phs == [] then [] else [phs[0].checkpoint] + Checkpoints(phs[1..])
  }

  /** The effects of whole phases, in order. */
  function EffectsOfPhases(phs: seq<Phase>): seq<Effect> {
    if phs == [] then [] else EffectsOf(phs[0].body) + EffectsOfPhases(phs[1..])
  }

  predicate BodyFails(body: seq<Instr>, world: World) {
    FirstFailure(body, world) < |body|
  }

  function BodyError(body: seq<Instr>, world: World): string
    requires BodyFails(body, world)
  {
    ErrorOf(body[FirstFailure(body, world)], world)
  }

  /** Index of the first phase whose body raises, or |phs|. */
  function FailingPhase(phs: seq<Phase>, world: World): (k: nat)
    ensures k <= |phs|
    ensures k < |phs| ==> BodyFails(phs[k].body, world)
    ensures forall j :: 0 <= j < k ==> !BodyFails(phs[j].body, world)
  {
    if phs == [] then 0
    else if BodyFails(phs[0].body, world) then 0
    else 1 + FailingPhase(phs[1..], world)
  }

  /** `acc` followed by the checkpoints of the phases completed before the
      first failing body. */
  function TrailAfter(acc: seq<int>, phs: seq<Phase>, world: World): seq<int>
    decreases |phs|
  {
    if phs == [] || BodyFails(phs[0].body, world) then acc
    else TrailAfter(acc + [phs[0].checkpoint], phs[1..], world)
  }

  /** The progress after a run of phases that started at `p`. */
  function ProgressAfter(p: int, phs: seq<Phase>, world: World): int
    decreases |phs|
  {
    if phs == [] || BodyFails(phs[0].body, world) then p
    else ProgressAfter(phs[0].checkpoint, phs[1..], world)
  }

  /** `acc` followed by the effects a run of phases issues. */
  function PhasesIssuedAfter(acc: seq<Effect>, phs: seq<Phase>, world: World): seq<Effect>
    decreases |phs|
  {
    if phs == [] then acc
    else if BodyFails(phs[0].body, world) then IssuedAfter(acc, phs[0].body, world)
    else PhasesIssuedAfter(IssuedAfter(acc, phs[0].body, world), phs[1..], world)
  }

  /** The status a run of phases leaves: that of the failing phase, else that
      of the last phase, else the one it started with. */
  function StatusAfter(status: string, phs: seq<Phase>, world: World): string
    decreases |phs|
  {
    if phs == [] then status
    else if BodyFails(phs[0].body, world) then phs[0].status
    else StatusAfter(phs[0].status, phs[1..], world)
  }

  /** The exception a run of phases raises: that of the first failing body. */
  function PhasesError(phs: seq<Phase>, world: World): Option<string> {
    var k := FailingPhase(phs, world);
    if k < |phs| then Some(BodyError(phs[k].body, world)) else None
  }

  lemma BodyErrorIs(s: seq<Instr>, world: World)
    ensures ScriptError(s, world).Some? <==> BodyFails(s, world)
    ensures BodyFails(s, world) ==> ScriptError(s, world) == Some(BodyError(s, world))
  {
  }

  /** One phase at the head of a script: its status is set and its body
      runs; only when the body raised nothing is its checkpoint set and the
      rest run. */
  lemma ExecutePhaseHead(m: Machine, ph: Phase, tail: seq<Instr>, world: World, clock: Clock)
    ensures var mb := Execute(m.(status := ph.status), ph.body, world, clock);
            Execute(m, PhaseScript(ph) + tail, world, clock) ==
            if BodyFails(ph.body, world) then mb
            else Execute(mb.(progress := ph.checkpoint, trail := mb.trail + [ph.checkpoint]), tail, world, clock)
  {
    var rest := ph.body + ([SetProgress(ph.checkpoint)] + tail);
    assert PhaseScript(ph) + tail == [SetStatus(ph.status)] + rest;
    assert ([SetStatus(ph.status)] + rest)[1..] == rest;
    ExecuteAppend(m.(status := ph.status), ph.body, [SetProgress(ph.checkpoint)] + tail, world, clock);
    assert ([SetProgress(ph.checkpoint)] + tail)[1..] == tail;
    BodyErrorIs(ph.body, world);
  }

  lemma ErrorPhaseHead(ph: Phase, tail: seq<Instr>, world: World)
    ensures ScriptError(PhaseScript(ph) + tail, world) ==
            if BodyFails(ph.body, world) then Some(BodyError(ph.body, world)) else ScriptError(tail, world)
  {
    var rest := ph.body + ([SetProgress(ph.checkpoint)] + tail);
    assert PhaseScript(ph) + tail == [SetStatus(ph.status)] + rest;
    ErrorAppend([SetStatus(ph.status)], rest, world);
    ErrorAppend(ph.body, [SetProgress(ph.checkpoint)] + tail, world);
    ErrorAppend([SetProgress(ph.checkpoint)], tail, world);
    BodyErrorIs(ph.body, world);
  }

  /** A run of phases, field by field. */
  lemma {:induction false} ExecutePhases(m: Machine, phs: seq<Phase>, world: World, clock: Clock)
    requires forall j :: 0 <= j < |phs| ==> IsBody(phs[j].body)
    ensures var m' := Execute(m, PhasesScript(phs), world, clock);
            && m'.active == m.active
            && m'.status == StatusAfter(m.status, phs, world)
            && m'.progress == ProgressAfter(m.progress, phs, world)
            && m'.trail == TrailAfter(m.trail, phs, world)
            && m'.issued == PhasesIssuedAfter(m.issued, phs, world)
    decreases |phs|
  {
    if phs != [] {
      var ph := phs[0];
      ExecutePhaseHead(m, ph, PhasesScript(phs[1..]), world, clock);
      var m1 := m.(status := ph.status);
      ExecuteBody(m1, ph.body, world, clock);
      if !BodyFails(ph.body, world) {
        var mb := Execute(m1, ph.body, world, clock);
        ExecutePhases(mb.(progress := ph.checkpoint, trail := mb.trail + [ph.checkpoint]), phs[1..], world, clock);
      }
    }
  }

  /** The exception of a run of phases is that of its first failing body. */
  lemma {:induction false} PhasesErrorIs(phs: seq<Phase>, world: World)
    ensures ScriptError(PhasesScript(phs), world) == PhasesError(phs, world)
    decreases |phs|
  {
    if phs != [] {
      ErrorPhaseHead(phs[0], PhasesScript(phs[1..]), world);
      if !BodyFails(phs[0].body, world) {
        PhasesErrorIs(phs[1..], world);
      }
    } else {
      assert ScriptError([], world) == None;
    }
  }

  /** The checkpoints reached are exactly those of the phases before the
      failing one, in order. */
  lemma {:induction false} TrailBeforeFailure(acc: seq<int>, phs: seq<Phase>, world: World)
    ensures TrailAfter(acc, phs, world) == acc + Checkpoints(phs[..FailingPhase(phs, world)])
    decreases |phs|
  {
    var k := FailingPhase(phs, world);
    if phs != [] && !BodyFails(phs[0].body, world) {
      TrailBeforeFailure(acc + [phs[0].checkpoint], phs[1..], world);
      assert phs[1..][..k - 1] == phs[1..k];
      assert phs[..k] == [phs[0]] + phs[1..k];
      assert Checkpoints(phs[..k]) == [phs[0].checkpoint] + Checkpoints(phs[1..k]);
    } else {
      assert phs[..0] == [];
    }
  }

  /** The progress left is the checkpoint of the last completed phase. */
  lemma {:induction false} ProgressBeforeFailure(p: int, phs: seq<Phase>, world: World)
    ensures var k := FailingPhase(phs, world);
            ProgressAfter(p, phs, world) == if k == 0 then p else phs[k - 1].checkpoint
    decreases |phs|
  {
    if phs != [] && !BodyFails(phs[0].body, world) {
      ProgressBeforeFailure(phs[0].checkpoint, phs[1..], world);
    }
  }

  /** The status left is that of the failing phase, or of the last phase when
      none fails. */
  lemma {:induction false} StatusAtFailure(status: string, phs: seq<Phase>, world: World)
    ensures var k := FailingPhase(phs, world);
            StatusAfter(status, phs, world) ==
              if k < |phs| then phs[k].status else if k > 0 then phs[k - 1].status else status
    decreases |phs|
  {
    if phs != [] && !BodyFails(phs[0].body, world) {
      StatusAtFailure(phs[0].status, phs[1..], world);
    }
  }

  lemma EffectsOfPhasesHead(phs: seq<Phase>, k: nat)
    requires 0 < k <= |phs|
    ensures EffectsOfPhases(phs[..k]) == EffectsOf(phs[0].body) + EffectsOfPhases(phs[1..][..k - 1])
  {
    assert phs[..k][0] == phs[0];
    assert phs[..k][1..] == phs[1..][..k - 1];
  }

  /** The effects issued are those of the phases before the failing one,
      followed by what its body performed: no later phase issues anything. */
  lemma {:induction false} IssuedBeforeFailure(acc: seq<Effect>, phs: seq<Phase>, world: World)
    ensures var k := FailingPhase(phs, world);
            PhasesIssuedAfter(acc, phs, world) == acc + EffectsOfPhases(phs[..k])
              + (if k < |phs| then EffectsOf(Performed(phs[k].body, world)) else [])
    decreases |phs|
  {
    var k := FailingPhase(phs, world);
    if phs == [] {
      assert phs[..0] == [];
    } else {
      var body := phs[0].body;
      IssuedAfterPerformed(acc, body, world);
      if BodyFails(body, world) {
        assert phs[..0] == [];
      } else {
        var e := EffectsOf(body);
        assert Performed(body, world) == body;
        IssuedBeforeFailure(acc + e, phs[1..], world);
        EffectsOfPhasesHead(phs, k);
        var x := EffectsOfPhases(phs[1..][..k - 1]);
        var t := if k < |phs| then EffectsOf(Performed(phs[k].body, world)) else [];
        Associative(acc, e, x, t);
      }
    }
  }

  // ---------------------------------------------------------------------
  // The request body and the run.

  /** The parsed JSON body of the start request, as far as the engine looks
      at it: an object (its string-valued fields), an array (its string
      elements), a string, or any other value (its Python type name). */
  datatype Json =
    | JObject(fields: map<string, string>)
    | JArray(items: seq<string>)
    | JString(text: string)
    | JScalar(typeName: string)

  /** The configuration a run reads from an object body. */
  datatype Config = Config(language: string, timezone: string, disk: string,
                           username: string, password: string)

  const RequiredFields: seq<string> := ["language", "timezone", "disk", "username", "password"]

  /** What admission guarantees before a run starts: an object body carries
      every required field. */
  predicate HasRequiredFields(body: Json) {
    body.JObject? ==> forall f :: f in RequiredFields ==> f in body.fields
  }

  /** `config['...']`: an object yields its fields; subscripting anything else
      with a string raises the TypeError Python raises. */
  function ConfigOf(body: Json): (r: Result<Config, string>)
    requires HasRequiredFields(body)
    ensures r.Ok? <==> body.JObject?
    ensures r.Ok? ==> r.value.disk == body.fields["disk"] && r.value.username == body.fields["username"]
                      && r.value.password == body.fields["password"] && r.value.timezone == body.fields["timezone"]
                      && r.value.language == body.fields["language"]
  {
    match body
    case JObject(m) =>
      assert "language" in RequiredFields && "timezone" in RequiredFields && "disk" in RequiredFields
             && "username" in RequiredFields && "password" in RequiredFields;
      Ok(Config(m["language"], m["timezone"], m["disk"], m["username"], m["password"]))
    case JArray(_) => Err("list indices must be integers or slices, not str")
    case JString(_) => Err("string indices must be integers, not 'str'")
    case JScalar(t) => Err("'" + t + "' object is not subscriptable")
  }

  /** The checkpoints: progress after each of the five steps. */
  const Milestones: seq<int> := [20, 60, 80, 95, 100]

  /** A production step: status set, announce message logged, step function
      run, checkpoint reached. */
  function Announced(status: string, announce: string, body: seq<Instr>, checkpoint: int): Phase {
    Phase(status, [Log(announce)] + body, checkpoint)
  }

  function PreparePhase(disk: string): Phase {
    Announced("Preparing disk...", "Starting installation on " + disk, PrepareDiskBody(disk), 20)
  }

  function BaseSystemPhase(disk: string): Phase {
    Announced("Installing base system...", "Installing Debian base system...", BaseSystemBody(disk), 60)
  }

  function ConfigurePhase(cfg: Config, world: World): Phase {
    Announced("Configuring system...", "Configuring system settings...", ConfigureBody(cfg, world), 80)
  }

  function BootloaderPhase(disk: string): Phase {
    Announced("Installing bootloader...", "Installing GRUB bootloader...", BootloaderBody(disk), 95)
  }

  function FinalizePhase(): Phase {
    Announced("Finalizing installation...", "Cleaning up and finalizing...", FinalizeBody, 100)
  }

  /** The real installation: five phases in the order prepare disk, base
      system, configuration, bootloader, finalize. */
  function ProdPhases(cfg: Config, world: World): (phs: seq<Phase>)
    ensures |phs| == 5
  {
    [PreparePhase(cfg.disk), BaseSystemPhase(cfg.disk), ConfigurePhase(cfg, world),
     BootloaderPhase(cfg.disk), FinalizePhase()]
  }

  /** The development-mode table: the same statuses and checkpoints, each
      step only logging its name. */
  const DevSteps: seq<(string, int)> :=
    [ ("Preparing disk...", 20),
      ("Installing base system...", 60),
      ("Configuring system...", 80),
      ("Installing bootloader...", 95),
      ("Finalizing installation...", 100) ]

  function DevPhase(step: (string, int)): Phase {
    Phase(step.0, [Log(step.0)], step.1)
  }

  function DevPhases(): (phs: seq<Phase>)
    ensures |phs| == |DevSteps|
    ensures forall i :: 0 <= i < |phs| ==> phs[i] == DevPhase(DevSteps[i])
  {
    [DevPhase(DevSteps[0]), DevPhase(DevSteps[1]), DevPhase(DevSteps[2]),
     DevPhase(DevSteps[3]), DevPhase(DevSteps[4])]
  }

  const DevBanner: string := "\U{1F527} Development mode - simulating installation"

  /** The phases a run goes through. A body that is not an object cannot be
      subscripted: the real installation raises at the first `config['disk']`,
      right after setting the first status. */
  function RunPhases(body: Json, devMode: bool, world: World): seq<Phase>
    requires HasRequiredFields(body)
  {
    if devMode then DevPhases() else InstallPhases(body, world)
  }

  /** The phases of the real installation. */
  function InstallPhases(body: Json, world: World): seq<Phase>
    requires HasRequiredFields(body)
  {
    match ConfigOf(body)
    case Ok(cfg) => ProdPhases(cfg, world)
    case Err(e) => [SubscriptFailure(e)]
  }

  /** The first phase of a run whose body is not an object: it raises. */
  function SubscriptFailure(error: string): Phase {
    Phase("Preparing disk...", [Raise(error)], 20)
  }

  const Completion: seq<Instr> :=
    [SetStatus("Installation complete!"), Log("TwinaOS installation completed successfully!")]

  /** Development mode announces itself before the first step. */
  function Prelude(devMode: bool): seq<Instr> {
    if devMode then [Log(DevBanner)] else []
  }

  /** The try block of `run_installation`, for the phases it goes through. */
  function TryBlock(devMode: bool, phs: seq<Phase>): seq<Instr> {
    Prelude(devMode) + PhasesScript(phs) + Completion
  }

  /** Outside development mode nothing precedes the phases. */
  lemma ProdTryBlock(phs: seq<Phase>)
    ensures TryBlock(false, phs) == PhasesScript(phs) + Completion
  {
    assert Prelude(false) == [];
  }

  /** The start of `run_installation`: active set, progress back to 0. */
  function Reset(m: Machine): Machine {
    m.(active := true, progress := 0, trail := m.trail + [0])
  }

  /** `run_installation` over its phases: active and progress are reset
      (status and log are not), the try block runs, an exception turns into a
      failed status and an ERROR log line, and active is cleared on every
      path. */
  function Conclude(m: Machine, devMode: bool, phs: seq<Phase>, world: World, clock: Clock): Machine {
    var s := TryBlock(devMode, phs);
    var m1 := Execute(Reset(m), s, world, clock);
    var m2 := match ScriptError(s, world)
              case None => m1
              case Some(e) => m1.(status := "Installation failed: " + e,
                                  log := m1.log + [Stamp(clock(|m1.log|), "ERROR: " + e)]);
    m2.(active := false)
  }

  /** The machine after `run_installation(body)`. */
  function RunOutcome(m: Machine, body: Json, devMode: bool, world: World, clock: Clock): Machine
    requires HasRequiredFields(body)
  {
    Conclude(m, devMode, RunPhases(body, devMode, world), world, clock)
  }

  /** What every run's phases look like: bodies that leave status and
      progress alone, the checkpoints of the table in order, and fewer than
      five phases only when the first one fails. */
  predicate Shaped(phs: seq<Phase>, world: World) {
    && 0 < |phs| <= 5
    && (forall j :: 0 <= j < |phs| ==> phs[j].checkpoint == Milestones[j])
    && (|phs| < 5 ==> FailingPhase(phs, world) == 0)
    && (forall j :: 0 <= j < |phs| ==> IsBody(phs[j].body))
  }

  lemma BodyConcat(a: seq<Instr>, b: seq<Instr>)
    requires IsBody(a) && IsBody(b)
    ensures IsBody(a + b)
  {
    forall i | 0 <= i < |a + b| ensures !(a + b)[i].SetStatus? && !(a + b)[i].SetProgress? {
      if i >= |a| {
        assert (a + b)[i] == b[i - |a|];
      }
    }
  }

  lemma AnnouncedBody(status: string, announce: string, body: seq<Instr>, checkpoint: int)
    requires IsBody(body)
    ensures IsBody(Announced(status, announce, body, checkpoint).body)
  {
    BodyConcat([Log(announce)], body);
  }

  lemma PrepareDiskIsBody(disk: string)
    ensures IsBody(PreparePhase(disk).body)
  {
    var a := RunAll(PartedArgvs(disk));
    BodyConcat([Log("Partitioning disk " + disk)], a);
    BodyConcat([Log("Partitioning disk " + disk)] + a,
               [Log("Formatting partitions..."), Do(Run(MkfsFatArgv(disk)), true), Do(Run(MkfsExt4Argv(disk)), true)]);
    AnnouncedBody("Preparing disk...", "Starting installation on " + disk, PrepareDiskBody(disk), 20);
  }

  lemma BaseSystemIsBody(disk: string)
    ensures IsBody(BaseSystemPhase(disk).body)
  {
    AnnouncedBody("Installing base system...", "Installing Debian base system...", BaseSystemBody(disk), 60);
  }

  lemma ConfigureScriptIsBody(cfg: Config, lines: seq<string>)
    requires |lines| == 2
    ensures IsBody(ConfigureScript(cfg, lines))
  {
  }

  lemma ConfigureIsBody(cfg: Config, world: World)
    ensures IsBody(ConfigurePhase(cfg, world).body)
  {
    ConfigureScriptIsBody(cfg, FstabLines(UuidOf(world, RootPartition(cfg.disk)), UuidOf(world, EfiPartition(cfg.disk))));
    AnnouncedBody("Configuring system...", "Configuring system settings...", ConfigureBody(cfg, world), 80);
  }

  lemma BootloaderIsBody(disk: string)
    ensures IsBody(BootloaderPhase(disk).body)
  {
    AnnouncedBody("Installing bootloader...", "Installing GRUB bootloader...", BootloaderBody(disk), 95);
  }

  lemma FinalizeIsBody()
    ensures IsBody(FinalizePhase().body)
  {
    AnnouncedBody("Finalizing installation...", "Cleaning up and finalizing...", FinalizeBody, 100);
  }

  /** Five phases with the table's checkpoints, whose bodies leave status
      and progress alone, are shaped whatever they do. */
  lemma FivePhasesShaped(p0: Phase, p1: Phase, p2: Phase, p3: Phase, p4: Phase, world: World)
    requires p0.checkpoint == 20 && p1.checkpoint == 60 && p2.checkpoint == 80
    requires p3.checkpoint == 95 && p4.checkpoint == 100
    requires IsBody(p0.body) && IsBody(p1.body) && IsBody(p2.body)
    requires IsBody(p3.body) && IsBody(p4.body)
    ensures Shaped([p0, p1, p2, p3, p4], world)
  {
  }

  lemma ProdShaped(cfg: Config, world: World)
    ensures Shaped(ProdPhases(cfg, world), world)
  {
    PrepareDiskIsBody(cfg.disk);
    BaseSystemIsBody(cfg.disk);
    ConfigureIsBody(cfg, world);
    BootloaderIsBody(cfg.disk);
    FinalizeIsBody();
    FivePhasesShaped(PreparePhase(cfg.disk), BaseSystemPhase(cfg.disk), ConfigurePhase(cfg, world),
                     BootloaderPhase(cfg.disk), FinalizePhase(), world);
  }

  lemma DevShaped(world: World)
    ensures Shaped(DevPhases(), world)
  {
  }

  lemma SubscriptFailureShaped(error: string, world: World)
    ensures Shaped([SubscriptFailure(error)], world)
  {
    assert BodyFails(SubscriptFailure(error).body, world);
  }

  /** The phases of every run have that shape. */
  lemma RunShaped(body: Json, devMode: bool, world: World)
    requires HasRequiredFields(body)
    ensures Shaped(RunPhases(body, devMode, world), world)
  {
    if devMode {
      DevShaped(world);
    } else {
      InstallShaped(body, world);
    }
  }

  lemma InstallShaped(body: Json, world: World)
    requires HasRequiredFields(body)
    ensures Shaped(InstallPhases(body, world), world)
  {
    match ConfigOf(body)
    case Ok(cfg) => ProdShaped(cfg, world);
    case Err(e) => SubscriptFailureShaped(e, world);
  }

  /** The try block splits at the end of the phases: the completion block
      runs only when no phase raised, and the block's exception is that of
      the phases, the completion block never raising. */
  lemma TryBlockSplit(m: Machine, devMode: bool, phs: seq<Phase>, world: World, clock: Clock)
    ensures var mp := Execute(m, Prelude(devMode) + PhasesScript(phs), world, clock);
            && Execute(m, TryBlock(devMode, phs), world, clock) ==
               (if PhasesError(phs, world).Some? then mp else Execute(mp, Completion, world, clock))
            && ScriptError(TryBlock(devMode, phs), world) == PhasesError(phs, world)
  {
    var pre := Prelude(devMode);
    var s := pre + PhasesScript(phs);
    assert ScriptError(pre, world) == None;
    assert ScriptError(Completion, world) == None by {
      assert Completion[1..][1..] == [];
    }
    ExecuteAppend(m, s, Completion, world, clock);
    ErrorAppend(s, Completion, world);
    ErrorAppend(pre, PhasesScript(phs), world);
    PhasesErrorIs(phs, world);
  }

  /** The machine at the end of the phases, field by field. */
  lemma AfterPhases(m: Machine, devMode: bool, phs: seq<Phase>, world: World, clock: Clock)
    requires forall j :: 0 <= j < |phs| ==> IsBody(phs[j].body)
    ensures var mp := Execute(m, Prelude(devMode) + PhasesScript(phs), world, clock);
            && mp.active == m.active
            && mp.trail == TrailAfter(m.trail, phs, world)
            && mp.progress == ProgressAfter(m.progress, phs, world)
            && mp.issued == PhasesIssuedAfter(m.issued, phs, world)
            && |m.log| <= |mp.log| && (forall i :: 0 <= i < |m.log| ==> mp.log[i] == m.log[i])
  {
    var pre := Prelude(devMode);
    assert ScriptError(pre, world) == None;
    ExecuteAppend(m, pre, PhasesScript(phs), world, clock);
    ExecuteBody(m, pre, world, clock);
    ExecutePhases(Execute(m, pre, world, clock), phs, world, clock);
    ExecuteKeepsLog(m, pre + PhasesScript(phs), world, clock);
  }

  /** The progress values a run reaches, from 0 to 100. */
  const Reached: seq<int> := [0, 20, 60, 80, 95, 100]

  lemma MilestonesPrefix(k: nat)
    requires k <= 5
    ensures [0] + Milestones[..k] == Reached[..k + 1]
  {
  }

  /** The checkpoints a shaped run passes are the first ones of the table. */
  lemma ShapedCheckpoints(phs: seq<Phase>, world: World)
    requires Shaped(phs, world)
    ensures Checkpoints(phs[..FailingPhase(phs, world)]) == Milestones[..FailingPhase(phs, world)]
  {
    var k := FailingPhase(phs, world);
    var c := Checkpoints(phs[..k]);
    forall i | 0 <= i < k ensures c[i] == Milestones[i] {
      assert c[i] == phs[i].checkpoint;
    }
  }

  /** The progress values a shaped run goes through: 0, then the checkpoint
      of every completed phase. */
  lemma ShapedTrail(acc: seq<int>, phs: seq<Phase>, world: World)
    requires Shaped(phs, world)
    ensures TrailAfter(acc + [0], phs, world) == acc + Reached[..FailingPhase(phs, world) + 1]
  {
    var k := FailingPhase(phs, world);
    TrailBeforeFailure(acc + [0], phs, world);
    ShapedCheckpoints(phs, world);
    MilestonesPrefix(k);
    Associative(acc, [0], Milestones[..k], []);
  }

  /** Progress ends at the checkpoint of the last completed phase. */
  lemma ShapedProgress(phs: seq<Phase>, world: World)
    requires Shaped(phs, world)
    ensures ProgressAfter(0, phs, world) == Reached[FailingPhase(phs, world)]
  {
    ProgressBeforeFailure(0, phs, world);
  }

  /** A run in which no step fails ends with progress 100, the completion
      status, the completion log line and active cleared; progress went
      through 0, 20, 60, 80, 95, 100 in that order, and the effects issued are
      those of the five steps, in order. */
  lemma RunSucceeds(m: Machine, devMode: bool, phs: seq<Phase>, world: World, clock: Clock)
    requires Shaped(phs, world)
    requires FailingPhase(phs, world) == |phs|
    ensures var r := Conclude(m, devMode, phs, world, clock);
            && !r.active
            && r.progress == 100
            && r.status == "Installation complete!"
            && r.trail == m.trail + Reached
            && r.issued == m.issued + EffectsOfPhases(phs)
            && |m.log| < |r.log| && (forall i :: 0 <= i < |m.log| ==> r.log[i] == m.log[i])
            && r.log[|r.log| - 1] == Stamp(clock(|r.log| - 1), "TwinaOS installation completed successfully!")
  {
    var m0 := Reset(m);
    TryBlockSplit(m0, devMode, phs, world, clock);
    AfterPhases(m0, devMode, phs, world, clock);
    ShapedTrail(m.trail, phs, world);
    ShapedProgress(phs, world);
    IssuedBeforeFailure(m.issued, phs, world);
    assert phs[..|phs|] == phs;
    var mp := Execute(m0, Prelude(devMode) + PhasesScript(phs), world, clock);
    var ms := mp.(status := "Installation complete!");
    assert Completion[1..][1..] == [];
    assert Execute(mp, Completion, world, clock) ==
           ms.(log := ms.log + [Stamp(clock(|ms.log|), "TwinaOS installation completed successfully!")]);
  }

  /** A run in which a step fails stops there: progress stays at the last
      checkpoint reached (0 when the first step fails), the status carries the
      error, one ERROR line is logged, active is cleared, and no effect of a
      later step is issued. */
  lemma RunFails(m: Machine, devMode: bool, phs: seq<Phase>, world: World, clock: Clock)
    requires Shaped(phs, world)
    requires FailingPhase(phs, world) < |phs|
    ensures var k := FailingPhase(phs, world);
            var error := BodyError(phs[k].body, world);
            var r := Conclude(m, devMode, phs, world, clock);
            && !r.active
            && r.progress == Reached[k]
            && r.trail == m.trail + Reached[..k + 1]
            && r.status == "Installation failed: " + error
            && |m.log| < |r.log| && (forall i :: 0 <= i < |m.log| ==> r.log[i] == m.log[i])
            && r.log[|r.log| - 1] == Stamp(clock(|r.log| - 1), "ERROR: " + error)
            && r.issued == m.issued + EffectsOfPhases(phs[..k]) + EffectsOf(Performed(phs[k].body, world))
  {
    var m0 := Reset(m);
    TryBlockSplit(m0, devMode, phs, world, clock);
    AfterPhases(m0, devMode, phs, world, clock);
    ShapedTrail(m.trail, phs, world);
    ShapedProgress(phs, world);
    IssuedBeforeFailure(m.issued, phs, world);
  }

  /** A progress history that starts at 0 and never goes down. */
  predicate Rising(t: seq<int>) {
    |t| > 0 && t[0] == 0 && forall i, j :: 0 <= i <= j < |t| ==> t[i] <= t[j]
  }

  /** Every prefix of the table of progress values is rising. */
  lemma ReachedRising(mt: seq<int>, trail: seq<int>, n: nat)
    requires 0 < n <= |Reached|
    requires trail == mt + Reached[..n]
    ensures |mt| < |trail| && Rising(trail[|mt|..])
  {
    assert trail[|mt|..] == Reached[..n];
  }

  /** Over a whole run, progress starts at 0 and never decreases; it ends at
      100 exactly when no step fails. */
  lemma RunProgressMonotone(m: Machine, devMode: bool, phs: seq<Phase>, world: World, clock: Clock)
    requires Shaped(phs, world)
    ensures |m.trail| < |Conclude(m, devMode, phs, world, clock).trail|
    ensures Rising(Conclude(m, devMode, phs, world, clock).trail[|m.trail|..])
    ensures Conclude(m, devMode, phs, world, clock).progress == 100 <==> FailingPhase(phs, world) == |phs|
  {
    var r := Conclude(m, devMode, phs, world, clock);
    var k := FailingPhase(phs, world);
    if k < |phs| {
      RunFails(m, devMode, phs, world, clock);
      ReachedRising(m.trail, r.trail, k + 1);
    } else {
      RunSucceeds(m, devMode, phs, world, clock);
      assert Reached[..6] == Reached;
      ReachedRising(m.trail, r.trail, 6);
    }
  }

  /** In development mode nothing can fail: the run always completes. */
  lemma DevRunCompletes(world: World)
    ensures FailingPhase(DevPhases(), world) == |DevPhases()|
  {
    var phs := DevPhases();
    forall j | 0 <= j < 5 ensures !BodyFails(phs[j].body, world) {
      assert phs[j].body == [Log(DevSteps[j].0)];
    }
  }

  // ---------------------------------------------------------------------
  // Stepping through a script one instruction, or one sub-script, at a time.

  lemma ConsAppend<T>(x: T, a: seq<T>, b: seq<T>)
    ensures ([x] + a) + b == [x] + (a + b)
  {
  }

  lemma SliceCons<T>(s: seq<T>, i: nat)
    requires i < |s|
    ensures s[i..] == [s[i]] + s[i + 1..]
  {
  }

  /** The first instruction of a script runs; the rest runs only when it
      raised nothing. */
  lemma StepCons(m: Machine, i: Instr, rest: seq<Instr>, world: World, clock: Clock)
    ensures Execute(m, [i] + rest, world, clock) ==
            if Fails(i, world) then Apply(m, i, clock) else Execute(Apply(m, i, clock), rest, world, clock)
    ensures ScriptError([i] + rest, world) ==
            if Fails(i, world) then Some(ErrorOf(i, world)) else ScriptError(rest, world)
  {
    var s := [i] + rest;
    assert s[0] == i && s[1..] == rest;
    if !Fails(i, world) {
      var k := FirstFailure(rest, world);
      assert FirstFailure(s, world) == k + 1;
      if k < |rest| {
        assert s[k + 1] == rest[k];
      }
    }
  }

  /** A phase followed by more: its status, its body, its checkpoint, then
      the rest. */
  lemma PhaseCons(ph: Phase, tail: seq<Instr>)
    ensures PhaseScript(ph) + tail ==
            [SetStatus(ph.status)] + (ph.body + ([SetProgress(ph.checkpoint)] + tail))
  {
  }

  lemma PhasesCons(phs: seq<Phase>, tail: seq<Instr>)
    requires phs != []
    ensures PhasesScript(phs) + tail == PhaseScript(phs[0]) + (PhasesScript(phs[1..]) + tail)
  {
  }
  /** Five phases followed by more, phase by phase. */
  lemma FivePhasesCons(p0: Phase, p1: Phase, p2: Phase, p3: Phase, p4: Phase, tail: seq<Instr>)
    ensures PhasesScript([p0, p1, p2, p3, p4]) + tail ==
            PhaseScript(p0) + (PhaseScript(p1) + (PhaseScript(p2) + (PhaseScript(p3) + (PhaseScript(p4) + tail))))
  {
    var phs := [p0, p1, p2, p3, p4];
    assert phs[1..][1..][1..][1..][1..] == [];
    PhasesCons(phs, tail);
    PhasesCons(phs[1..], tail);
    PhasesCons(phs[1..][1..], tail);
    PhasesCons(phs[1..][1..][1..], tail);
    PhasesCons(phs[1..][1..][1..][1..], tail);
  }
}
