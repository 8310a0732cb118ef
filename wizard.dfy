/** The installer wizard of installer-ui/installer.js: a step index over
    seven pages, the validation that guards moving forward, the selected
    disk, the request the last page sends, and what the page does with the
    snapshots of the progress stream. The DOM, `fetch`, `EventSource`,
    `setTimeout` and `alert` are left out: the form fields are inputs, the
    alert text an output. */
module Ui {
  import opened Wrappers
  import opened Text
  import opened Engine
  import opened Admission
  import opened Stream

  /** The pages, in order. */
  const Steps: seq<string> :=
    ["step-welcome", "step-locale", "step-disk", "step-user", "step-summary", "step-install", "step-complete"]

  /** The index of the last page. */
  const LastStep: int := |Steps| - 1

  /** The values of the form fields as the page reads them (`.value` of an
      input is always a string, empty when nothing was entered). */
  datatype Form = Form(language: string, timezone: string, fullname: string,
                       username: string, password: string, passwordConfirm: string)

  /** What `validateCurrentStep` decides: the page may be left, or it may
      not, with the alert shown first, if any. */
  datatype Check = Pass | Fail(alert: Option<string>)

  const FillAll := "Please fill in all required fields."
  const NoMatch := "Passwords do not match."
  const TooShort := "Password must be at least 6 characters long."

  /** JavaScript's `s.length`: the number of UTF-16 code units, two for a
      character outside the Basic Multilingual Plane. */
  function Utf16Length(s: string): (n: nat)
    ensures |s| <= n <= 2 * |s|
  {
    if s == [] then 0 else (if s[0] as int > 0xFFFF then 2 else 1) + Utf16Length(s[1..])
  }

  /** `validateCurrentStep` on the page `step`. */
  function Validate(step: int, form: Form, disk: Option<string>): (c: Check)
    ensures c.Fail? && c.alert.Some? ==> step == 3
  {
    if step == 1 then
      if form.language != "" && form.timezone != "" then Pass else Fail(None)
    else if step == 2 then
      if disk.Some? then Pass else Fail(None)
    else if step == 3 then
      if form.username == "" || form.password == "" then Fail(Some(FillAll))
      else if form.password != form.passwordConfirm then Fail(Some(NoMatch))
      else if Utf16Length(form.password) < 6 then Fail(Some(TooShort))
      else Pass
    else Pass
  }

  /** The user page may be left exactly when a user name and a password are
      given, the password is confirmed, and it is at least six code units
      long; an empty field is reported before a mismatch, a mismatch before a
      short password. */
  lemma UserStepRule(form: Form, disk: Option<string>)
    ensures Validate(3, form, disk).Pass? <==>
              && form.username != "" && form.password != ""
              && form.password == form.passwordConfirm
              && Utf16Length(form.password) >= 6
    ensures Validate(3, form, disk) == Fail(Some(NoMatch)) <==>
              form.username != "" && form.password != "" && form.password != form.passwordConfirm
    ensures Validate(3, form, disk) == Fail(Some(TooShort)) ==>
              form.password == form.passwordConfirm && 0 < |form.password| < 6
  {
  }

  /** The locale page needs both fields, the disk page a selected disk;
      every other page may always be left. */
  lemma OtherStepsRule(step: int, form: Form, disk: Option<string>)
    requires step != 3
    ensures Validate(step, form, disk).Pass? <==>
              && (step == 1 ==> form.language != "" && form.timezone != "")
              && (step == 2 ==> disk.Some?)
    ensures Validate(step, form, disk) != Fail(Some(FillAll))
  {
  }

  /** A password of six or more characters is never too short; one of fewer
      than six can pass when it holds characters outside the Basic
      Multilingual Plane, which JavaScript counts twice. */
  lemma LengthRule(form: Form, disk: Option<string>)
    ensures |form.password| >= 6 ==> Validate(3, form, disk) != Fail(Some(TooShort))
    ensures Validate(3, form.(password := "\U{1F600}\U{1F600}\U{1F600}",
                              passwordConfirm := "\U{1F600}\U{1F600}\U{1F600}",
                              username := "u"), disk) == Pass
  {
    var p := "\U{1F600}\U{1F600}\U{1F600}";
    assert p[1..][1..][1..] == [];
  }

  /** Where `nextStep` leaves the index: one page on when the page validates
      and is not the last one. */
  function NextIndex(step: int, passes: bool): (r: int)
    ensures r == step || (r == step + 1 && passes && step < LastStep)
    ensures passes && step < LastStep ==> r == step + 1
  {
    if passes && step < LastStep then step + 1 else step
  }

  /** Where `prevStep` leaves the index: one page back unless on the first. */
  function PrevIndex(step: int): (r: int)
    ensures r == step || (r == step - 1 && step > 0)
    ensures step > 0 ==> r == step - 1
  {
    if step > 0 then step - 1 else step
  }

  /** The text of `updateProgressBar`: "Step k of 7" for page k - 1. */
  function ProgressText(step: nat): string {
    "Step " + NatToString(step + 1) + " of " + NatToString(|Steps|)
  }

  /** The progress text names the page number, reads back as it, and
      different pages show different texts. */
  lemma ProgressTextReadsBack(step: nat)
    ensures var t := ProgressText(step);
            && |t| > 10
            && t[..5] == "Step " && t[|t| - 5..] == " of 7"
            && ParseNat(t[5..|t| - 5]) == step + 1
  {
    var t := ProgressText(step);
    var n := NatToString(step + 1);
    assert NatToString(|Steps|) == "7";
    assert t == "Step " + n + " of 7";
    assert t[5..|t| - 5] == n;
    ParseNatToString(step + 1);
  }

  lemma ProgressTextInjective(a: nat, b: nat)
    requires ProgressText(a) == ProgressText(b)
    ensures a == b
  {
    ProgressTextReadsBack(a);
    ProgressTextReadsBack(b);
  }

  /** One action on the wizard. */
  datatype Move = Next(form: Form) | Prev | Select(device: string)

  /** The index and the selected disk after a run of actions. */
  function Navigate(step: int, disk: Option<string>, moves: seq<Move>): (int, Option<string>)
    decreases |moves|
  {
    if moves == [] then (step, disk)
    else match moves[0]
      case Next(form) => Navigate(NextIndex(step, Validate(step, form, disk).Pass?), disk, moves[1..])
      case Prev => Navigate(PrevIndex(step), disk, moves[1..])
      case Select(device) => Navigate(step, Some(device), moves[1..])
  }

  /** However the user moves back and forth, the index stays on a page, and
      it can only be past the disk page once a disk has been chosen. */
  lemma {:induction false} NavigateStaysOnPages(step: int, disk: Option<string>, moves: seq<Move>)
    requires 0 <= step <= LastStep
    requires step > 2 ==> disk.Some?
    ensures var (s, d) := Navigate(step, disk, moves);
            0 <= s <= LastStep && (s > 2 ==> d.Some?)
    decreases |moves|
  {
    if moves != [] {
      match moves[0]
      case Next(form) =>
        NavigateStaysOnPages(NextIndex(step, Validate(step, form, disk).Pass?), disk, moves[1..]);
      case Prev =>
        NavigateStaysOnPages(PrevIndex(step), disk, moves[1..]);
      case Select(device) =>
        NavigateStaysOnPages(step, Some(device), moves[1..]);
    }
  }

  /** The JSON value of `selectedDisk`: the device, or `null`, which the
      backend reads as Python's `None` and writes as "None" in its commands. */
  function DiskValue(disk: Option<string>): string {
    match disk
    case Some(d) => d
    case None => "None"
  }

  /** `installationData` as `startInstallation` sends it. */
  function RequestOf(form: Form, disk: Option<string>): (body: Json)
    ensures body.JObject? && HasRequiredFields(body)
    ensures "fullname" in body.fields && body.fields["fullname"] == form.fullname
  {
    JObject(map["language" := form.language, "timezone" := form.timezone, "disk" := DiskValue(disk),
                "fullname" := form.fullname, "username" := form.username, "password" := form.password])
  }

  /** The request the wizard sends always carries every field the backend
      asks for, so an idle backend accepts it, and the run is configured
      with exactly the values on the form and the selected disk. */
  lemma RequestAccepted(form: Form, disk: Option<string>)
    ensures Admit(false, Parsed(RequestOf(form, disk))).response == Accepted
    ensures ConfigOf(RequestOf(form, disk))
            == Ok(Config(form.language, form.timezone, DiskValue(disk), form.username, form.password))
  {
    CompleteObjectAccepted(RequestOf(form, disk).fields);
  }

  /** The stream delivers a snapshot at progress exactly 100. */
  predicate Completes(events: seq<Snapshot>) {
    exists i :: 0 <= i < |events| && events[i].progress == 100
  }

  /** After a failed run no snapshot the stream sends reaches 100, so the
      page never closes the stream nor moves to the last page. */
  lemma {:induction false} FailedRunKeepsPage(m: Machine, devMode: bool, phs: seq<Phase>, world: World, clock: Clock, n: nat)
    requires Shaped(phs, world)
    requires FailingPhase(phs, world) < |phs|
    ensures !Completes(Stream.Stream(Repeat(Conclude(m, devMode, phs, world, clock), n)).events)
  {
    FailedRunStreamsForever(m, devMode, phs, world, clock, n);
  }

  /** After a run in which every step succeeded, the first snapshot is at
      100, so the page moves on. */
  lemma {:induction false} CompletedRunMovesOn(m: Machine, devMode: bool, phs: seq<Phase>, world: World, clock: Clock,
                            later: seq<Machine>)
    requires Shaped(phs, world)
    requires FailingPhase(phs, world) == |phs|
    ensures Completes(Stream.Stream([Conclude(m, devMode, phs, world, clock)] + later).events)
  {
    CompletedRunEndsStream(m, devMode, phs, world, clock, later);
    assert Stream.Stream([Conclude(m, devMode, phs, world, clock)] + later).events[0] == Final;
  }

  /** The module state of installer.js. */
  class Wizard {
    var currentStep: int
    var selectedDisk: Option<string>

    constructor()
      ensures currentStep == 0 && selectedDisk == None
    {
      currentStep := 0;
      selectedDisk := None;
    }

    /** `nextStep`: validate the page, then move one page on unless it is
        the last. */
    method NextStep(form: Form) returns (alert: Option<string>)
      modifies this
      ensures var c := Validate(old(currentStep), form, old(selectedDisk));
              && currentStep == NextIndex(old(currentStep), c.Pass?)
              && alert == (if c.Fail? then c.alert else None)
      ensures selectedDisk == old(selectedDisk)
    {
      var c := Validate(currentStep, form, selectedDisk);
      alert := None;
      if c.Pass? {
        if currentStep < |Steps| - 1 {
          currentStep := currentStep + 1;
        }
      } else {
        alert := c.alert;
      }
    }

    /** `prevStep`. */
    method PrevStep()
      modifies this
      ensures currentStep == PrevIndex(old(currentStep))
      ensures selectedDisk == old(selectedDisk)
    {
      if currentStep > 0 {
        currentStep := currentStep - 1;
      }
    }

    /** `selectDisk`: the clicked device replaces any earlier choice. */
    method SelectDisk(device: string)
      modifies this
      ensures selectedDisk == Some(device)
      ensures currentStep == old(currentStep)
    {
      selectedDisk := Some(device);
    }

    /** `startInstallation`: move one page on, without a bound check, and
        build the request from the form and the selected disk. */
    method StartInstallation(form: Form) returns (body: Json)
      modifies this
      ensures currentStep == old(currentStep) + 1
      ensures selectedDisk == old(selectedDisk)
      ensures body == RequestOf(form, selectedDisk)
    {
      currentStep := currentStep + 1;
      body := RequestOf(form, selectedDisk);
    }

    /** The `onmessage` handler of `monitorInstallation`: a snapshot at
        progress exactly 100 closes the stream and moves one page on. */
    method Receive(snapshot: Snapshot) returns (close: bool)
      modifies this
      ensures close <==> snapshot.progress == 100
      ensures currentStep == old(currentStep) + (if close then 1 else 0)
      ensures selectedDisk == old(selectedDisk)
    {
      close := false;
      if snapshot.progress == 100 {
        close := true;
        currentStep := currentStep + 1;
      }
    }

    /** `monitorInstallation` over the snapshots the stream sends, until
        the handler closes it: the page moves on exactly once if some
        snapshot reaches 100, and not at all otherwise. */
    method Monitor(events: seq<Snapshot>) returns (closed: bool)
      modifies this
      ensures closed <==> Completes(events)
      ensures currentStep == old(currentStep) + (if closed then 1 else 0)
      ensures selectedDisk == old(selectedDisk)
    {
      closed := false;
      var i := 0;
      while i < |events| && !closed
        invariant 0 <= i <= |events|
        invariant closed ==> Completes(events)
        invariant !closed ==> forall j :: 0 <= j < i ==> events[j].progress != 100
        invariant currentStep == old(currentStep) + (if closed then 1 else 0)
        invariant selectedDisk == old(selectedDisk)
      {
        closed := Receive(events[i]);
        i := i + 1;
      }
    }
  }
}
