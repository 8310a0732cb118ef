/** The progress stream of installer-backend/app.py
    (`installation_progress_stream.generate`): at each poll the generator
    sends a snapshot of the globals while a run is active or progress is
    below 100; the first poll that finds neither sends a fixed final snapshot
    and ends the stream. The one-second sleep between polls is left out: the
    globals as each poll finds them are an input. */
module Stream {
  import opened Engine

  /** The `data` object of one event. */
  datatype Snapshot = Snapshot(progress: int, status: string, message: string)

  /** What the stream has sent after some polls, and whether it has ended. */
  datatype Sent = Sent(events: seq<Snapshot>, closed: bool)

  /** The loop condition of the generator. */
  predicate KeepsStreaming(m: Machine) {
    m.active || m.progress < 100
  }

  /** The snapshot sent for the globals as a poll finds them: the last log
      entry is the message, "Starting..." while the log is empty. */
  function SnapshotOf(m: Machine): Snapshot {
    Snapshot(m.progress, m.status, if m.log != [] then m.log[|m.log| - 1] else "Starting...")
  }

  /** The snapshot sent once the loop has ended, whatever the globals hold. */
  const Final: Snapshot := Snapshot(100, "Installation complete", "TwinaOS installation finished successfully!")

  /** The snapshots of a sequence of polls, one per poll. */
  function SnapshotsOf(polls: seq<Machine>): (r: seq<Snapshot>)
    ensures |r| == |polls|
    ensures forall i :: 0 <= i < |polls| ==> r[i] == SnapshotOf(polls[i])
  {
    if polls == [] then [] else [SnapshotOf(polls[0])] + SnapshotsOf(polls[1..])
  }

  /** The first poll at which the loop condition no longer holds, or the
      number of polls when it holds at every one. */
  function FirstDone(polls: seq<Machine>): (k: nat)
    ensures k <= |polls|
    ensures k < |polls| ==> !KeepsStreaming(polls[k])
    ensures forall j :: 0 <= j < k ==> KeepsStreaming(polls[j])
  {
    if polls == [] then 0
    else if !KeepsStreaming(polls[0]) then 0
    else 1 + FirstDone(polls[1..])
  }

  /** What the generator sends over `polls`: a snapshot per poll up to the
      first that ends the loop, then the final snapshot. */
  function Stream(polls: seq<Machine>): Sent {
    var k := FirstDone(polls);
    if k < |polls| then Sent(SnapshotsOf(polls[..k]) + [Final], true)
    else Sent(SnapshotsOf(polls), false)
  }

  /** The generator, over the globals as its successive polls find them. */
  method Generate(polls: seq<Machine>) returns (events: seq<Snapshot>, closed: bool)
    ensures Sent(events, closed) == Stream(polls)
  {
    events := [];
    var i := 0;
    while i < |polls| && KeepsStreaming(polls[i])
      invariant 0 <= i <= |polls|
      invariant forall j :: 0 <= j < i ==> KeepsStreaming(polls[j])
      invariant events == SnapshotsOf(polls[..i])
    {
      events := events + [SnapshotOf(polls[i])];
      i := i + 1;
      assert polls[..i] == polls[..i - 1] + [polls[i - 1]];
      SnapshotsAppend(polls[..i - 1], polls[i - 1]);
    }
    FirstDoneAt(polls, i);
    if i < |polls| {
      events := events + [Final];
      closed := true;
    } else {
      assert polls[..i] == polls;
      closed := false;
    }
  }

  lemma {:induction false} SnapshotsAppend(polls: seq<Machine>, m: Machine)
    ensures SnapshotsOf(polls + [m]) == SnapshotsOf(polls) + [SnapshotOf(m)]
  {
    var a := SnapshotsOf(polls + [m]);
    var b := SnapshotsOf(polls) + [SnapshotOf(m)];
    assert |a| == |b|;
    forall i | 0 <= i < |a| ensures a[i] == b[i] {
      assert (polls + [m])[i] == if i < |polls| then polls[i] else m;
    }
  }

  /** The first poll that ends the loop is determined by where the condition
      first fails. */
  lemma {:induction false} FirstDoneAt(polls: seq<Machine>, i: nat)
    requires i <= |polls|
    requires forall j :: 0 <= j < i ==> KeepsStreaming(polls[j])
    requires i < |polls| ==> !KeepsStreaming(polls[i])
    ensures FirstDone(polls) == i
  {
  }

  /** The stream ends exactly when some poll finds the run inactive with
      progress at 100 or more; it then ends with the final snapshot, right
      after the snapshots of the polls before that one. */
  lemma {:induction false} StreamEndsOnlyWhenDone(polls: seq<Machine>)
    ensures Stream(polls).closed <==> exists j :: 0 <= j < |polls| && !KeepsStreaming(polls[j])
    ensures Stream(polls).closed ==>
              var ev := Stream(polls).events;
              && ev[|ev| - 1] == Final
              && !KeepsStreaming(polls[|ev| - 1])
              && forall j :: 0 <= j < |ev| - 1 ==> KeepsStreaming(polls[j]) && ev[j] == SnapshotOf(polls[j])
  {
    var k := FirstDone(polls);
    if exists j :: 0 <= j < |polls| && !KeepsStreaming(polls[j]) {
      var j :| 0 <= j < |polls| && !KeepsStreaming(polls[j]);
      assert k <= j;
    }
  }

  /** `n` polls that all find the same globals. */
  function Repeat(m: Machine, n: nat): (r: seq<Machine>)
    ensures |r| == n && forall i :: 0 <= i < n ==> r[i] == m
  {
    if n == 0 then [] else [m] + Repeat(m, n - 1)
  }

  /** Polling globals that keep the loop going sends their snapshot at
      every poll and never ends the stream. */
  lemma {:induction false} StreamOfStill(m: Machine, n: nat)
    requires KeepsStreaming(m)
    ensures Stream(Repeat(m, n)).closed == false
    ensures Stream(Repeat(m, n)).events == SnapshotsOf(Repeat(m, n))
  {
    FirstDoneAt(Repeat(m, n), n);
    assert Repeat(m, n)[..n] == Repeat(m, n);
  }

  /** After a failed run, the globals stay as the run left them: inactive,
      progress at the last checkpoint reached (below 100), the failure in the
      status. However many times the stream polls them, it never ends, and
      each event carries that progress and the failed status. */
  lemma {:induction false} FailedRunStreamsForever(m: Machine, devMode: bool, phs: seq<Phase>, world: World, clock: Clock, n: nat)
    requires Shaped(phs, world)
    requires FailingPhase(phs, world) < |phs|
    ensures var r := Conclude(m, devMode, phs, world, clock);
            var sent := Stream(Repeat(r, n));
            && !sent.closed
            && |sent.events| == n
            && forall i :: 0 <= i < n ==>
                 sent.events[i].progress == Reached[FailingPhase(phs, world)] < 100
                 && sent.events[i].status == "Installation failed: " + BodyError(phs[FailingPhase(phs, world)].body, world)
  {
    var r := Conclude(m, devMode, phs, world, clock);
    RunFails(m, devMode, phs, world, clock);
    assert Reached[FailingPhase(phs, world)] < 100;
    StreamOfStill(r, n);
  }

  /** After a run in which every step succeeded, the first poll ends the
      stream with the final snapshot alone. */
  lemma {:induction false} CompletedRunEndsStream(m: Machine, devMode: bool, phs: seq<Phase>, world: World, clock: Clock,
                               later: seq<Machine>)
    requires Shaped(phs, world)
    requires FailingPhase(phs, world) == |phs|
    ensures Stream([Conclude(m, devMode, phs, world, clock)] + later) == Sent([Final], true)
  {
    var polls := [Conclude(m, devMode, phs, world, clock)] + later;
    RunSucceeds(m, devMode, phs, world, clock);
    FirstDoneAt(polls, 0);
    assert polls[..0] == [];
  }

  /** Before any run (the globals as the program starts them) the stream
      keeps sending "Starting..." snapshots at progress 0. */
  lemma IdleStreamsForever(n: nat)
    ensures var idle := Machine(false, 0, "Ready", [], [], []);
            && !Stream(Repeat(idle, n)).closed
            && forall i :: 0 <= i < n ==> Stream(Repeat(idle, n)).events[i] == Snapshot(0, "Ready", "Starting...")
  {
    StreamOfStill(Machine(false, 0, "Ready", [], [], []), n);
  }
}
