/**
 * The bounded-window upload scheduler `manageConcurrency` and the directory
 * upload around it. Both copies share the window: each task is launched in
 * list order and added to the in-flight set `executing`; once that set holds
 * `MaxConcurrentUploads` tasks the loop waits for the first of them to settle.
 * Only a task that fulfils removes itself from `executing` (the removal is a
 * `.then` callback with no rejection handler), so a rejected task stays
 * counted, and a later capacity wait that meets it throws and aborts the loop.
 * After the loop the helper copy waits with `Promise.allSettled`, the
 * controller copy with `Promise.all`, which rejects at the first rejection.
 *
 * Task settlement is an abstract event `Settle(i, s)` that may happen at any
 * time after task `i` is launched; promise scheduling is not modelled.
 */
module Scheduler {
  import opened Wrappers
  import opened Retry

  /** `maxConcurrentUploads` of both files. */
  const MaxConcurrentUploads: nat := 5

  /** How one task's promise settled. */
  datatype Settlement = Fulfilled | Rejected(reason: string)

  /** Where the scheduling loop is. */
  datatype Phase =
    | Launching   // in the `for` loop, about to launch the next task
    | Waiting     // awaiting the capacity `Promise.race`
    | Aborted     // the capacity wait threw: the call rejects
    | Draining    // past the loop, awaiting `allSettled` / `all`

  /** What the call has produced so far. */
  datatype Run = Running | Rejects | Settled(settlements: seq<Settlement>)

  /** The indices 0 .. n - 1 in order. */
  function Range(n: nat): (r: seq<nat>)
    ensures |r| == n && forall i :: 0 <= i < n ==> r[i] == i
  {
    if n == 0 then [] else Range(n - 1) + [n - 1]
  }

  /** The settlements of tasks 0 .. n - 1, in task order. */
  function Collect(m: map<nat, Settlement>, n: nat): (r: seq<Settlement>)
    requires forall i :: 0 <= i < n ==> i in m
    ensures |r| == n && forall i :: 0 <= i < n ==> r[i] == m[i]
  {
    if n == 0 then [] else Collect(m, n - 1) + [m[n - 1]]
  }

  class UploadWindow {
    /** The number of upload tasks. */
    const count: nat
    /** `Promise.all` (controller copy) rather than `Promise.allSettled` (helper copy). */
    const failFast: bool
    /** How many tasks have been started. */
    var launched: nat
    /** The in-flight set: tasks started and not yet removed. */
    var executing: set<nat>
    /** How each settled task settled. */
    var settled: map<nat, Settlement>
    /** The `results` array: the tasks pushed so far, as indices. */
    var results: seq<nat>
    var phase: Phase

    ghost predicate Valid()
      reads this
    {
      && launched <= count
      && (forall i :: i in settled ==> i < launched)
      && (forall i: nat :: i in executing <==> i < launched && (i !in settled || settled[i].Rejected?))
      && |executing| <= MaxConcurrentUploads
      && (phase.Launching? ==> |executing| < MaxConcurrentUploads && launched < count && results == Range(launched))
      && (phase.Waiting? ==> |executing| == MaxConcurrentUploads && 1 <= launched && results == Range(launched - 1))
      && (phase.Draining? ==> launched == count && results == Range(count))
    }

    /** A task settled but still counted: it can only be a rejected one. */
    predicate HoldsRejected()
      reads this
    {
      exists j :: j in executing && j in settled && settled[j].Rejected?
    }

    constructor (count: nat, failFast: bool)
      ensures Valid()
      ensures this.count == count && this.failFast == failFast
      ensures launched == 0 && executing == {} && settled == map[] && results == []
      ensures phase == if count == 0 then Draining else Launching
    {
      this.count := count;
      this.failFast := failFast;
      launched := 0;
      executing := {};
      settled := map[];
      results := [];
      phase := if count == 0 then Draining else Launching;
    }

    /**
     * One turn of the `for` loop: start the next task in list order and add it
     * to `executing`. Below capacity the task is pushed to `results` at once;
     * at capacity the loop waits, and the wait throws straight away when a
     * rejected task is still in the set.
     */
    method Launch()
      requires Valid() && phase.Launching?
      modifies this
      ensures Valid()
      ensures launched == old(launched) + 1
      ensures executing == old(executing) + {old(launched)} && |executing| == |old(executing)| + 1
      ensures settled == old(settled)
      ensures |executing| < MaxConcurrentUploads ==>
        results == old(results) + [old(launched)]
        && phase == (if launched == count then Draining else Launching)
      ensures |executing| == MaxConcurrentUploads ==>
        results == old(results)
        && phase == (if old(HoldsRejected()) then Aborted else Waiting)
    {
      var i := launched;
      assert i !in executing;
      var rejected := HoldsRejected();
      executing := executing + {i};
      launched := launched + 1;
      if |executing| < MaxConcurrentUploads {
        results := results + [i];
        phase := if launched == count then Draining else Launching;
      } else if rejected {
        phase := Aborted;
      } else {
        phase := Waiting;
      }
    }

    /**
     * Task `i` settles. A fulfilled task removes itself from `executing`; a
     * rejected one stays. During a capacity wait the first settlement decides
     * the race: a fulfilment resumes the loop (pushing the awaited task), a
     * rejection aborts it.
     */
    method Settle(i: nat, s: Settlement)
      requires Valid() && i < launched && i !in settled
      modifies this
      ensures Valid()
      ensures settled == old(settled)[i := s]
      ensures executing == if s.Fulfilled? then old(executing) - {i} else old(executing)
      ensures launched == old(launched)
      ensures old(phase).Waiting? && s.Fulfilled? ==>
        results == old(results) + [launched - 1]
        && phase == (if launched == count then Draining else Launching)
      ensures old(phase).Waiting? && s.Rejected? ==> results == old(results) && phase == Aborted
      ensures !old(phase).Waiting? ==> results == old(results) && phase == old(phase)
    {
      assert i in executing;
      settled := settled[i := s];
      if s.Fulfilled? {
        executing := executing - {i};
      }
      if phase.Waiting? {
        if s.Fulfilled? {
          results := results + [launched - 1];
          phase := if launched == count then Draining else Launching;
        } else {
          phase := Aborted;
        }
      }
    }

    /** What the call has produced: a rejection, the settled results, or nothing yet. */
    function Status(): (r: Run)
      reads this
      ensures r.Settled? ==>
        && phase.Draining?
        && |r.settlements| == count
        && forall i :: 0 <= i < count ==> i in settled && r.settlements[i] == settled[i]
      ensures r.Rejects? <==>
        || phase.Aborted?
        || (phase.Draining? && failFast && exists i :: 0 <= i < count && i in settled && settled[i].Rejected?)
      ensures phase.Draining? && (forall i :: 0 <= i < count ==> i in settled)
              && !(failFast && exists i :: 0 <= i < count && i in settled && settled[i].Rejected?) ==>
        r == Settled(Collect(settled, count))
      ensures r.Running? <==>
        || phase.Launching? || phase.Waiting?
        || (phase.Draining? && !(failFast && exists i :: 0 <= i < count && i in settled && settled[i].Rejected?)
            && exists i :: 0 <= i < count && i !in settled)
    {
      if phase.Aborted? then Rejects
      else if !phase.Draining? then Running
      else if failFast && exists i :: 0 <= i < count && i in settled && settled[i].Rejected? then Rejects
      else if forall i :: 0 <= i < count ==> i in settled then Settled(Collect(settled, count))
      else Running
    }
  }

  /**
   * Six tasks. The fifth launch fills the window and the loop waits; task 1
   * fulfils and wins the race, and task 0 rejects before the loop resumes.
   * The sixth launch fills the window again while the rejected task is still
   * counted, so that wait throws although four uploads are still in flight.
   */
  method RejectedTaskAbortsLaterWait() returns (r: Run)
    ensures r == Rejects
  {
    var w := new UploadWindow(6, false);
    w.Launch();
    w.Launch();
    w.Launch();
    w.Launch();
    w.Launch();
    w.Settle(1, Fulfilled);
    w.Settle(0, Rejected("network"));
    assert 0 in w.executing && w.settled[0].Rejected?;
    w.Launch();
    r := w.Status();
  }

  /**
   * Two tasks settling out of order: `allSettled` lists them in task order,
   * while `Promise.all` rejects as soon as one is rejected.
   */
  method ResultsInTaskOrder() returns (r: Run)
    ensures r == Settled([Rejected("network"), Fulfilled])
  {
    var w := new UploadWindow(2, false);
    w.Launch();
    w.Launch();
    w.Settle(1, Fulfilled);
    w.Settle(0, Rejected("network"));
    assert w.settled == map[1 := Fulfilled, 0 := Rejected("network")];
    r := w.Status();
  }

  /** The controller copy: the same rejection makes `Promise.all` reject the call. */
  method FailFastRejects() returns (r: Run)
    ensures r == Rejects
  {
    var v := new UploadWindow(2, true);
    v.Launch();
    v.Launch();
    v.Settle(0, Rejected("network"));
    r := v.Status();
  }

  /** How a helper task's promise settles, given how its `uploadFileWithRetry` call ended. */
  function HelperSettlement(r: Retried): (s: Settlement)
    ensures s.Fulfilled? <==> r.Returned?
    ensures r.Threw? ==> s == Rejected(r.message)
  {
    match r
    case Returned(_) => Fulfilled
    case Threw(_, message) => Rejected(message)
    case ThrewTypeError => Rejected("Cannot read properties of undefined (reading 'message')")
  }

  /** A controller task rethrows its upload's failure under the file's name. */
  function ControllerSettlement(file: string, r: Retried): (s: Settlement)
    ensures s.Fulfilled? <==> !r.Threw?
    ensures r.Threw? ==> s == Rejected(TaskFailure(file, r.message))
  {
    if r.Threw? then Rejected(TaskFailure(file, r.message)) else Fulfilled
  }

  /** The entries of a finished run that were rejected, in order. */
  function FailedUploads(results: seq<Settlement>): (f: seq<Settlement>)
    ensures |f| <= |results|
    ensures forall k :: 0 <= k < |f| ==> f[k].Rejected?
  {
    if results == [] then []
    else if results[0].Rejected? then [results[0]] + FailedUploads(results[1..])
    else FailedUploads(results[1..])
  }

  /** The run fails iff one of its entries is rejected. */
  lemma {:induction false} FailedUploadsIff(results: seq<Settlement>)
    ensures |FailedUploads(results)| > 0 <==> exists i :: 0 <= i < |results| && results[i].Rejected?
  {
    if results != [] {
      FailedUploadsIff(results[1..]);
      if results[0].Fulfilled? && exists i :: 0 <= i < |results[1..]| && results[1..][i].Rejected? {
        var i :| 0 <= i < |results[1..]| && results[1..][i].Rejected?;
        assert results[i + 1].Rejected?;
      }
      if exists i :: 0 <= i < |results| && results[i].Rejected? {
        var i :| 0 <= i < |results| && results[i].Rejected?;
        if i > 0 {
          assert results[1..][i - 1].Rejected?;
        }
      }
    }
  }

  /** One upload per directory entry (helpers/uploadDirToGCS.js). */
  datatype Task = Task(localFilePath: string, remoteFilePath: string)

  function UploadTasks(localDirectory: string, fileId: string, files: seq<string>): (tasks: seq<Task>)
    ensures |tasks| == |files|
    ensures forall k :: 0 <= k < |files| ==>
      tasks[k] == Task(LocalPath(localDirectory, files[k]), RemotePath(fileId, files[k]))
  {
    if files == [] then []
    else
      [Task(LocalPath(localDirectory, files[0]), RemotePath(fileId, files[0]))]
      + UploadTasks(localDirectory, fileId, files[1..])
  }

  /** The catch block's effects, in order. */
  datatype DirEffect = RemoveLocalDirectory | CallErrorCleanup

  function Cleanup(errorCleanupProvided: bool): seq<DirEffect>
  {
    [RemoveLocalDirectory] + (if errorCleanupProvided then [CallErrorCleanup] else [])
  }

  /**
   * The helper's `uploadDirToGCS` once its awaits are over: `listing` is what
   * `readdir` produced and `run` how the scheduler ended. Any failure is caught:
   * the local directory is removed and `errorCleanup` called when provided. The
   * error is never rethrown, so the result is just the effects.
   */
  function UploadDirToGCS(listing: Result<seq<string>, string>, run: Run, errorCleanupProvided: bool): (effects: seq<DirEffect>)
    requires run != Running
    requires run.Settled? && listing.Ok? ==> |run.settlements| == |listing.value|
    ensures effects == [] || effects == Cleanup(errorCleanupProvided)
    ensures effects != [] <==>
      listing.Err? || run.Rejects? || exists i :: 0 <= i < |run.settlements| && run.settlements[i].Rejected?
    ensures CallErrorCleanup in effects ==> errorCleanupProvided
  {
    FailedUploadsIff(if run.Settled? then run.settlements else []);
    if listing.Err? || run.Rejects? || |FailedUploads(run.settlements)| > 0 then Cleanup(errorCleanupProvided)
    else []
  }

  /**
   * An empty directory: `readdir` lists nothing, the scheduler's loop makes
   * no launch and `allSettled([])` yields no entry, so nothing is cleaned up.
   */
  method EmptyDirectoryNoCleanup(errorCleanupProvided: bool) returns (effects: seq<DirEffect>)
    ensures effects == []
  {
    var w := new UploadWindow(0, false);
    var run := w.Status();
    assert run == Settled([]);
    effects := UploadDirToGCS(Ok([]), run, errorCleanupProvided);
  }
}
