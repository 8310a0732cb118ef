# TwinaOS installer: a verified model of the installation engine and the wizard

This project models the two halves of the TwinaOS live installer in Dafny:

- **The backend** (`installer-backend/app.py`) keeps four module globals: `installation_active`, `installation_progress`, `installation_status` and the append-only `installation_log`.
  - `start_installation` admits a request. It refuses while a run is active, refuses a body without one of the five required fields (naming the first missing one), and answers 500 when checking the body raises.
  - `run_installation` resets `active` and `progress`. It then runs five steps in order:
    1. `prepare_disk`;
    2. `install_base_system`;
    3. `configure_system`;
    4. `install_bootloader`;
    5. `finalize_installation`.
  - After each step, progress moves to the checkpoints 20, 60, 80, 95 and 100. The first exception stops the sequence and turns into an "Installation failed: …" status and an "ERROR: …" log line. `active` is cleared on every path.
  - The progress stream sends snapshots of the globals while a run is active or progress is below 100, then a fixed final snapshot.
- **The wizard** (`installer-ui/installer.js`) moves a step index over seven pages, guarded by a validator. It remembers the selected disk, builds the install request, and moves to the last page when the stream reports progress 100.

## How the model is built

- **The outside world is a parameter.**
  - Every shell command, directory creation or file write is an `Effect`. The world answers each effect with `World = Effect -> Reply`: it completed (with its standard output), it exited non-zero, or it raised before completing.
  - `subprocess.run(..., check=False)` tolerates a non-zero exit but not an effect that cannot be started. This is exactly Python's behaviour.
  - Time stamps come from `Clock = nat -> string`, indexed by the position of the log entry being written.
- **Engine (`engine.dfy`) is the specification.**
  - A run is a script of instructions (`SetStatus`, `SetProgress`, `Log`, `Do(effect, check)`, `Raise`). `Execute` runs them in order and stops after the first one that raises.
  - Each step of `app.py` is a script body, and a run is its list of phases (status, body, checkpoint).
  - `Conclude` is the whole of `run_installation`. `RunSucceeds` and `RunFails` state what it leaves in the globals.
- **Backend (`backend.dfy`) is the implementation.**
  - The globals are the fields of the class `Installer`, plus two ghost records: every effect issued, and every value progress took.
  - Each Python function that changes the globals is a method, proved to leave exactly the state the matching Engine script describes.
- **The rest.**
  - Commands (`commands.dfy`) builds the argument vectors and fstab lines.
  - Text (`text.dfy`) gives Python's `str.split()`/`str.strip()` and decimal text.
  - Admission (`admission.dfy`) specifies `start_installation`'s checks.
  - Stream (`stream.dfy`) models the progress generator over the globals as its successive polls find them.
  - Ui (`wizard.dfy`) models `installer.js`.

Three behaviours of the code that a reader might not expect:

- Admission checks only that the fields are present, with Python's `in`. Empty values pass (live-build/config/includes.chroot/tmp/installer-backend/app.py:108-111).
- Because `in` also works on lists and strings, a JSON list holding the five names passes admission, and a production-mode run then fails at its first subscript (a development-mode run completes). A JSON scalar makes `in` raise, which gives the 500 answer (live-build/config/includes.chroot/tmp/installer-backend/app.py:109-125).
- The unmounts in `finalize_installation` tolerate a non-zero exit. An unmount that cannot be started still raises and fails the run (live-build/config/includes.chroot/tmp/installer-backend/app.py:324-325).

## Model

| member | source | states |
|---|---|---|
| `Admission.Contains` | live-build/config/includes.chroot/tmp/installer-backend/app.py:110 | Python's `in` raises exactly on a scalar body; on an object it is key membership |
| `Admission.FirstMissing` | live-build/config/includes.chroot/tmp/installer-backend/app.py:108-111 | the field returned is absent and every field before it is present; `Ok(None)` means all are present; it raises only for a scalar body |
| `Admission.Admit` | live-build/config/includes.chroot/tmp/installer-backend/app.py:97-125 | `start_installation` up to starting the thread: busy 400 first, then 500 with a logged line when reading or checking the body raises, then 400 naming the first missing field, otherwise accepted |
| `Admission.BusyRefused` | live-build/config/includes.chroot/tmp/installer-backend/app.py:101-102 | while a run is active, any request is refused with 400 "Installation already in progress" before the body is read, and nothing is logged |
| `Admission.AcceptedHasFields` | live-build/config/includes.chroot/tmp/installer-backend/app.py:101-121 | an accepted request came while idle, was parsed, and an object body carries all five required fields |
| `Admission.FirstMissingNamed` | live-build/config/includes.chroot/tmp/installer-backend/app.py:108-111 | an object body lacking a field is refused with 400 naming the first missing field in the order language, timezone, disk, username, password |
| `Admission.CompleteObjectAccepted` | live-build/config/includes.chroot/tmp/installer-backend/app.py:108-121 | an idle request whose object body has every field is accepted, whatever the values (presence only) |
| `Admission.ListOfNamesAccepted` | live-build/config/includes.chroot/tmp/installer-backend/app.py:108-111 | a list holding the five names is accepted, because only `in` is checked |
| `Admission.ScalarBodyFails` | live-build/config/includes.chroot/tmp/installer-backend/app.py:109-125 | a scalar body gets 500 "Failed to start installation" and the TypeError text is logged |
| `Text.Split` | live-build/config/includes.chroot/tmp/installer-backend/app.py:245 | every field of `str.split()` is non-empty and holds no white space |
| `Text.SplitJoin` | live-build/config/includes.chroot/tmp/installer-backend/app.py:244-245 | splitting words joined by blanks, plus trailing white space, gives back exactly those words |
| `Text.Strip` | live-build/config/includes.chroot/tmp/installer-backend/app.py:277-282 | Python's `str.strip()` with no argument |
| `Text.StripCutsSpace` | live-build/config/includes.chroot/tmp/installer-backend/app.py:277-282 | `strip()` returns a slice of its input and everything cut off is white space |
| `Text.StripEdges` | live-build/config/includes.chroot/tmp/installer-backend/app.py:277-282 | what `strip()` returns neither starts nor ends with white space |
| `Text.ParseNatToString` | live-build/config/includes.chroot/tmp/installer-ui/installer.js:61 | the decimal text of a number reads back as that number |
| `Commands.EfiPartition` | live-build/config/includes.chroot/tmp/installer-backend/app.py:249 | the EFI partition is the disk name followed by '1' |
| `Commands.RootPartition` | live-build/config/includes.chroot/tmp/installer-backend/app.py:250 | the root partition is the disk name followed by '2' |
| `Commands.PartitionsDiffer` | live-build/config/includes.chroot/tmp/installer-backend/app.py:249-250 | the two partitions of a disk are distinct devices |
| `Commands.SplitEach` | live-build/config/includes.chroot/tmp/installer-backend/app.py:244-245 | one argument vector per command line, each the line's `split()` |
| `Commands.PartedArgvsOfPlainDisk` | live-build/config/includes.chroot/tmp/installer-backend/app.py:237-245 | for a disk name without blanks, the four parted argument vectors are mklabel gpt; mkpart fat32 1MiB–513MiB; set 1 esp on; mkpart ext4 513MiB–100%, in that order |
| `Commands.FstabLines` | live-build/config/includes.chroot/tmp/installer-backend/app.py:284-285 | fstab gets exactly two lines |
| `Commands.FstabFields` | live-build/config/includes.chroot/tmp/installer-backend/app.py:284-285 | the first line's fields are the root UUID, `/`, ext4, defaults, 0, 1; the second's are the boot UUID, `/boot/efi`, vfat, defaults, 0, 2 |
| `Commands.ChrootArgv` | live-build/config/includes.chroot/tmp/installer-backend/app.py:329-331 | the command runs as `["chroot", mount_point]` followed by the command unchanged |
| `Engine.Fails` | live-build/config/includes.chroot/tmp/installer-backend/app.py:226-228 | an action raises when the world refuses it, when it exits non-zero under `check=True`, or when it is an exception of the code itself |
| `Engine.Execute` | live-build/config/includes.chroot/tmp/installer-backend/app.py:172-228 | a try body runs action by action; the first action that raises is the last one to take effect |
| `Engine.FirstFailure` | live-build/config/includes.chroot/tmp/installer-backend/app.py:226-228 | the position where the script raises is a failing instruction, and no earlier one fails |
| `Engine.PrepareDiskBody` | live-build/config/includes.chroot/tmp/installer-backend/app.py:232-250 | `prepare_disk`: log, the four checked parted runs, log, then mkfs.fat on partition 1 and mkfs.ext4 on partition 2 |
| `Engine.BaseSystemBody` | live-build/config/includes.chroot/tmp/installer-backend/app.py:252-267 | `install_base_system`: create the mount point, mount partition 2, create `boot/efi`, mount partition 1, log, debootstrap bookworm |
| `Engine.ConfigureBody` | live-build/config/includes.chroot/tmp/installer-backend/app.py:269-305 | `configure_system` with the fstab lines built from blkid's stripped output |
| `Engine.ConfigureScript` | live-build/config/includes.chroot/tmp/installer-backend/app.py:271-305 | the twelve actions of `configure_system` in source order: the fstab file is opened before blkid runs |
| `Engine.BootloaderBody` | live-build/config/includes.chroot/tmp/installer-backend/app.py:307-317 | `install_bootloader`: apt update, apt install, grub-install on the disk, grub-mkconfig, each checked inside the chroot |
| `Engine.FinalizeTolerant` | live-build/config/includes.chroot/tmp/installer-backend/app.py:319-327 | `finalize_installation` raises exactly when an unmount cannot be started; otherwise it performs both unmounts and always logs its message |
| `Engine.FailingPhase` | live-build/config/includes.chroot/tmp/installer-backend/app.py:193-221 | the first step whose body raises; every earlier step completes |
| `Engine.ConfigOf` | live-build/config/includes.chroot/tmp/installer-backend/app.py:195-214 | `config['…']` yields the body's fields for an object and raises for anything else |
| `Engine.ProdPhases` | live-build/config/includes.chroot/tmp/installer-backend/app.py:191-221 | a production run has exactly five steps |
| `Engine.DevPhases` | live-build/config/includes.chroot/tmp/installer-backend/app.py:177-189 | the development loop has one phase per table entry, status then log then checkpoint |
| `Engine.RunShaped` | live-build/config/includes.chroot/tmp/installer-backend/app.py:173-221 | every run's steps keep status and progress to the step boundaries and hit the checkpoints 20, 60, 80, 95, 100 in order |
| `Engine.Conclude` | live-build/config/includes.chroot/tmp/installer-backend/app.py:165-230 | `run_installation`: reset active and progress, run the try block, turn an exception into the failed status and an ERROR line, clear active |
| `Engine.RunSucceeds` | live-build/config/includes.chroot/tmp/installer-backend/app.py:169-230 | when no step raises: active false, progress 100, status "Installation complete!", progress went through 0, 20, 60, 80, 95, 100, the issued effects are the five steps' in order, the log only grew and ends with the completion line |
| `Engine.RunFails` | live-build/config/includes.chroot/tmp/installer-backend/app.py:169-230 | when step k raises: active false, progress frozen at the last checkpoint reached (0, 20, 60, 80 or 95), status "Installation failed: " + error, the log only grew and ends with one "ERROR: " + error line, and no effect of a later step was issued |
| `Engine.RunProgressMonotone` | live-build/config/includes.chroot/tmp/installer-backend/app.py:169-221 | over a run, progress starts at 0 and never decreases; it ends at 100 exactly when no step fails |
| `Engine.DevRunCompletes` | live-build/config/includes.chroot/tmp/installer-backend/app.py:173-189 | in development mode no step can fail |
| `Backend.Installer.constructor` | live-build/config/includes.chroot/tmp/installer-backend/app.py:34-37 | the globals start inactive, at progress 0, status "Ready", with an empty log |
| `Backend.Installer.LogMessage` | live-build/config/includes.chroot/tmp/installer-backend/app.py:39-44 | appends exactly `"[" + ts + "] " + message` and changes nothing else |
| `Backend.Installer.Perform` | live-build/config/includes.chroot/tmp/installer-backend/app.py:245 | records the effect as issued, and raises exactly when the world refuses it or, when checking, it exits non-zero |
| `Backend.Installer.ChrootCommand` | live-build/config/includes.chroot/tmp/installer-backend/app.py:329-332 | runs the chroot-prefixed command with checking, stopping the step when it fails |
| `Backend.Installer.PrepareDisk` | live-build/config/includes.chroot/tmp/installer-backend/app.py:232-250 | the loop over the four parted commands, then both mkfs calls, leaves exactly the state of the prepare-disk script and its first error |
| `Backend.Installer.InstallBaseSystem` | live-build/config/includes.chroot/tmp/installer-backend/app.py:252-267 | leaves exactly the state of the mount-and-debootstrap script and its first error |
| `Backend.Installer.MountAndBootstrap` | live-build/config/includes.chroot/tmp/installer-backend/app.py:254-267 | performs the six actions of the base-system step in order, stopping at the first that raises |
| `Backend.Installer.ConfigureSystem` | live-build/config/includes.chroot/tmp/installer-backend/app.py:269-305 | leaves exactly the state of the configure script (fstab from the stripped blkid UUIDs, hostname, user, password, timezone) and its first error |
| `Backend.Installer.ConfigureSteps` | live-build/config/includes.chroot/tmp/installer-backend/app.py:271-305 | performs the twelve actions of the configure step in order, stopping at the first that raises |
| `Backend.Installer.GenerateFstab` | live-build/config/includes.chroot/tmp/installer-backend/app.py:274-285 | writes the fstab lines built from the two stripped UUIDs, or stops at the first failure |
| `Backend.Installer.ConfigureTarget` | live-build/config/includes.chroot/tmp/installer-backend/app.py:288-305 | hostname, user, password and timezone actions in order, stopping at the first failure |
| `Backend.Installer.InstallBootloader` | live-build/config/includes.chroot/tmp/installer-backend/app.py:307-317 | leaves exactly the state of the four chroot commands and their first error |
| `Backend.Installer.FinalizeInstallation` | live-build/config/includes.chroot/tmp/installer-backend/app.py:319-327 | leaves exactly the state of the two unchecked unmounts and the completion log line |
| `Backend.Installer.SimulateInstallation` | live-build/config/includes.chroot/tmp/installer-backend/app.py:185-189 | the development loop goes through the five phases of the table |
| `Backend.Installer.PerformInstallation` | live-build/config/includes.chroot/tmp/installer-backend/app.py:191-221 | the production branch runs the install phases of the request, stopping at the first error |
| `Backend.Installer.FailSubscript` | live-build/config/includes.chroot/tmp/installer-backend/app.py:194-195 | for a body that is not an object, the run stops at its first subscript with that error |
| `Backend.Installer.InstallSteps` | live-build/config/includes.chroot/tmp/installer-backend/app.py:193-221 | the five steps in order, each with status, log, call and checkpoint, stopping at the first error |
| `Backend.Installer.PrepareDiskStep` | live-build/config/includes.chroot/tmp/installer-backend/app.py:194-197 | step 1 (status, log line, `prepare_disk`, progress 20) either ends the run with its error or hands over to the rest of the run |
| `Backend.Installer.BaseSystemStep` | live-build/config/includes.chroot/tmp/installer-backend/app.py:200-203 | step 2 (status, log line, `install_base_system`, progress 60) either ends the run with its error or hands over to the rest of the run |
| `Backend.Installer.ConfigureStep` | live-build/config/includes.chroot/tmp/installer-backend/app.py:206-209 | step 3 (status, log line, `configure_system`, progress 80) either ends the run with its error or hands over to the rest of the run |
| `Backend.Installer.BootloaderStep` | live-build/config/includes.chroot/tmp/installer-backend/app.py:212-215 | step 4 (status, log line, `install_bootloader`, progress 95) either ends the run with its error or hands over to the rest of the run |
| `Backend.Installer.FinalizeStep` | live-build/config/includes.chroot/tmp/installer-backend/app.py:218-221 | step 5 (status, log line, `finalize_installation`, progress 100) either ends the run with its error or hands over to the completion |
| `Backend.Installer.TryInstallation` | live-build/config/includes.chroot/tmp/installer-backend/app.py:172-224 | the try block leaves exactly the state of its script and raises its first error |
| `Backend.Installer.DevelopmentRun` | live-build/config/includes.chroot/tmp/installer-backend/app.py:173-189 | the development branch, then the completion, never raises |
| `Backend.Installer.ProductionRun` | live-build/config/includes.chroot/tmp/installer-backend/app.py:191-224 | the production branch, then the completion, raises the first step error |
| `Backend.Installer.Complete` | live-build/config/includes.chroot/tmp/installer-backend/app.py:223-224 | sets the completion status and logs the completion line |
| `Backend.Installer.RunInstallation` | live-build/config/includes.chroot/tmp/installer-backend/app.py:165-230 | leaves exactly the globals `Conclude` describes (see `RunSucceeds`/`RunFails`) |
| `Backend.Installer.ResetRun` | live-build/config/includes.chroot/tmp/installer-backend/app.py:169-170 | a run resets only active and progress; status and log are kept |
| `Backend.Installer.CloseRun` | live-build/config/includes.chroot/tmp/installer-backend/app.py:226-230 | an exception becomes the failed status and one ERROR line; active is cleared on both paths |
| `Backend.Installer.StartInstallation` | live-build/config/includes.chroot/tmp/installer-backend/app.py:97-125 | answers as `Admit` decides; an accepted request runs the installation on its body, and a refused one changes nothing but the logged 500 line |
| `Backend.Installer.CheckRequest` | live-build/config/includes.chroot/tmp/installer-backend/app.py:101-111 | the busy check and the field loop answer as `Admit` does, and change no state unless they log |
| `Stream.KeepsStreaming` | live-build/config/includes.chroot/tmp/installer-backend/app.py:133 | the generator's loop condition, `active or progress < 100` |
| `Stream.Stream` | live-build/config/includes.chroot/tmp/installer-backend/app.py:130-150 | what the generator sends over successive polls: one snapshot per poll while the loop condition holds, then the final snapshot |
| `Stream.SnapshotsOf` | live-build/config/includes.chroot/tmp/installer-backend/app.py:135-139 | one snapshot per poll: progress, status, and the last log entry or "Starting..." |
| `Stream.FirstDone` | live-build/config/includes.chroot/tmp/installer-backend/app.py:133 | the first poll at which the run is inactive with progress at least 100; the loop condition holds at every earlier poll |
| `Stream.Generate` | live-build/config/includes.chroot/tmp/installer-backend/app.py:131-148 | the generator's loop sends exactly what `Stream` specifies |
| `Stream.StreamEndsOnlyWhenDone` | live-build/config/includes.chroot/tmp/installer-backend/app.py:133-148 | the stream ends exactly when some poll finds the run inactive at 100 or more; it then ends with the final snapshot, after one snapshot per earlier poll |
| `Stream.StreamOfStill` | live-build/config/includes.chroot/tmp/installer-backend/app.py:133-141 | polling globals that keep the loop going never ends the stream |
| `Stream.FailedRunStreamsForever` | live-build/config/includes.chroot/tmp/installer-backend/app.py:133-141 | after a failed run, every poll sends the frozen progress (below 100) and the failed status, and the stream never ends |
| `Stream.CompletedRunEndsStream` | live-build/config/includes.chroot/tmp/installer-backend/app.py:133-148 | after a completed run, the first poll ends the stream with the final snapshot alone |
| `Stream.IdleStreamsForever` | live-build/config/includes.chroot/tmp/installer-backend/app.py:133-141 | before any run, the stream keeps sending progress 0, "Ready", "Starting..." |
| `Ui.Utf16Length` | live-build/config/includes.chroot/tmp/installer-ui/installer.js:89 | JavaScript's `length` is at least the number of characters and at most twice it |
| `Ui.Validate` | live-build/config/includes.chroot/tmp/installer-ui/installer.js:65-99 | only the user page shows an alert |
| `Ui.UserStepRule` | live-build/config/includes.chroot/tmp/installer-ui/installer.js:74-94 | the user page passes exactly when username and password are non-empty, the password is confirmed and at least 6 long; the mismatch alert comes exactly when both are given and differ; a too-short password is a confirmed one of 1 to 5 characters |
| `Ui.OtherStepsRule` | live-build/config/includes.chroot/tmp/installer-ui/installer.js:65-72 | the locale page needs both fields, the disk page a selected disk, every other page passes |
| `Ui.LengthRule` | live-build/config/includes.chroot/tmp/installer-ui/installer.js:89-92 | six characters are never too short; three characters outside the Basic Multilingual Plane already pass |
| `Ui.NextIndex` | live-build/config/includes.chroot/tmp/installer-ui/installer.js:24-37 | the index moves one on exactly when the page validates and is not the last; otherwise it stays |
| `Ui.PrevIndex` | live-build/config/includes.chroot/tmp/installer-ui/installer.js:39-46 | the index moves one back exactly when it is above 0 |
| `Ui.ProgressText` | live-build/config/includes.chroot/tmp/installer-ui/installer.js:58-61 | the progress label "Step k of 7" for page k - 1 |
| `Ui.ProgressTextReadsBack` | live-build/config/includes.chroot/tmp/installer-ui/installer.js:58-62 | the text is "Step " + number + " of 7", and the number reads back as the index plus one |
| `Ui.ProgressTextInjective` | live-build/config/includes.chroot/tmp/installer-ui/installer.js:61 | different pages show different texts |
| `Ui.Navigate` | live-build/config/includes.chroot/tmp/installer-ui/installer.js:24-46 | the page and disk after a sequence of next, back and disk-choice actions |
| `Ui.NavigateStaysOnPages` | live-build/config/includes.chroot/tmp/installer-ui/installer.js:24-46 | any sequence of next, back and disk choices keeps the index in [0, 6], and past the disk page only with a disk chosen |
| `Ui.RequestOf` | live-build/config/includes.chroot/tmp/installer-ui/installer.js:177-184 | the request is an object with every field the backend requires, plus the full name |
| `Ui.RequestAccepted` | live-build/config/includes.chroot/tmp/installer-ui/installer.js:177-193 | an idle backend accepts the wizard's request and configures the run with exactly the form values and the selected disk |
| `Ui.FailedRunKeepsPage` | live-build/config/includes.chroot/tmp/installer-ui/installer.js:217-225 | after a failed run no snapshot reaches 100, so the page never closes the stream or moves on |
| `Ui.CompletedRunMovesOn` | live-build/config/includes.chroot/tmp/installer-ui/installer.js:217-225 | after a completed run the first snapshot is at 100, so the page moves on |
| `Ui.Wizard.constructor` | live-build/config/includes.chroot/tmp/installer-ui/installer.js:3-4 | the wizard starts on page 0 with no disk |
| `Ui.Wizard.NextStep` | live-build/config/includes.chroot/tmp/installer-ui/installer.js:24-37 | the new index is `NextIndex` of the validation; the alert is the validator's; the disk is kept |
| `Ui.Wizard.PrevStep` | live-build/config/includes.chroot/tmp/installer-ui/installer.js:39-46 | the new index is `PrevIndex`; the disk is kept |
| `Ui.Wizard.SelectDisk` | live-build/config/includes.chroot/tmp/installer-ui/installer.js:142-153 | the selected disk becomes exactly the device, replacing any earlier choice |
| `Ui.Wizard.StartInstallation` | live-build/config/includes.chroot/tmp/installer-ui/installer.js:170-184 | the index moves one on with no bound check; the request is `RequestOf` the form and disk |
| `Ui.Wizard.Receive` | live-build/config/includes.chroot/tmp/installer-ui/installer.js:210-225 | a snapshot closes the stream and moves the page on exactly when its progress is 100 |
| `Ui.Wizard.Monitor` | live-build/config/includes.chroot/tmp/installer-ui/installer.js:207-233 | over the snapshots received, the page moves on exactly once if one reaches 100, and not at all otherwise |

## Left out

- The Flask transport is not modelled: routing, CORS, static files in development mode, `/api/health`, `/api/reboot`, and the JSON encoding of answers and stream events. Answers are the `Response` and `Snapshot` values.
- `get_disks` and `parse_size` (app.py) and `formatBytes` and the bar width (installer.js) are not modelled. They read foreign `lsblk`/`psutil` output or compute with floating point.
- The installation thread is not modelled. `StartInstallation` runs the installation before it answers, so the race between the busy check and the thread setting `active` is not captured.
- The stream is not modelled as concurrent with the run. Each poll sees the globals as the caller gives them, one state per poll. A poll taken between two updates of the same step (for example progress 100 while still active) is an input like any other.
- `time.sleep` and `time.strftime` are not modelled. Time stamps come from the `Clock` parameter.
- Real shell and file-system effects are replaced by the `World` oracle. The model records which effects were issued and the lines written, not what they do to the disk. `print` to the console is dropped.
- Request field values are strings. A JSON `null` disk is modelled as its f-string text "None" everywhere, including the argument list of `grub-install` (app.py:316). There the program passes the `None` itself, and `subprocess.run` raises a TypeError before `grub-install` starts. The model instead issues the command with "None" and lets the world answer. The wizard never sends a null disk past the disk page (`Ui.NavigateStaysOnPages`), and the earlier `parted -s None` commands normally fail first.
- Non-string list elements in a body are not distinguished.
- `Text.NatToString`/`Ui.ProgressText`: only the decimal text of naturals is modelled, which is all the progress text needs.
- `Backend.Installer.InstallBaseSystem`, `ConfigureSystem`, `StartInstallation` and `RunInstallation` delegate to helper methods (`MountAndBootstrap`, `ConfigureSteps`, `GenerateFstab`, `ConfigureTarget`, `CheckRequest`, `TryInstallation`, `CloseRun`), one per part of the Python function. The order of the actions is kept.
- `Ui.Wizard.Receive`: the two-second `setTimeout` before moving on is not modelled. The page moves on when the snapshot arrives.
- The transport of the stream to the page is not modelled. `Ui.FailedRunKeepsPage` and `Ui.CompletedRunMovesOn` assume that each event the generator sends reaches the page's `onmessage` handler. As written, app.py:152 serves the stream as `text/plain`, and a browser `EventSource` (installer.js:208) refuses any content type other than `text/event-stream`. The handler would then never fire.
- The DOM is not modelled: `alert`, `hideCurrentStep`, `showCurrentStep`, `updateSummary`, `loadDisks`, `addLogMessage` and the `onerror` handler. Form values are inputs, and the alert text is an output.
