/**
 * The shared run record (`state` in the server) and the control operations
 * that act on it: start's seeding, stop, pause, resume, the worker's counter
 * updates and the worker's final teardown.  Every update the server makes
 * under its lock is one method here; the lock itself is not modelled.
 */
module SharedState {
  import opened Wrappers

  /** A `{done, total}` progress entry. */
  datatype Progress = Progress(done: int, total: int)

  /** A `{mobile, reason}` eligibility entry. */
  datatype Eligibility = Eligibility(mobile: bool, reason: string)

  function Min(a: int, b: int): int { if a <= b then a else b }

  /** One clamped step, `done = min(done + 1, total)`. */
  function Advance(p: Progress): (r: Progress)
    ensures r.total == p.total
    ensures p.done < p.total ==> r.done == p.done + 1
    ensures p.done >= p.total ==> r.done == p.total
  {
    p.(done := Min(p.done + 1, p.total))
  }

  /** `n` clamped steps in a row. */
  function AdvanceTimes(p: Progress, n: nat): Progress
  {
    if n == 0 then p else Advance(AdvanceTimes(p, n - 1))
  }

  /**
   * However many steps are taken, a valid entry ends at `min(done + n, total)`:
   * steps past the total are absorbed, and `done` never exceeds `total`.
   */
  lemma {:induction false} AdvanceTimesClamps(p: Progress, n: nat)
    requires 0 <= p.done <= p.total
    ensures AdvanceTimes(p, n) == Progress(Min(p.done + n, p.total), p.total)
  {
    if n > 0 {
      AdvanceTimesClamps(p, n - 1);
    }
  }

  /** Steps compose: `a` steps followed by `b` steps are `a + b` steps. */
  lemma {:induction false} AdvanceTimesAdd(p: Progress, a: nat, b: nat)
    ensures AdvanceTimes(AdvanceTimes(p, a), b) == AdvanceTimes(p, a + b)
  {
    if b > 0 {
      AdvanceTimesAdd(p, a, b - 1);
    }
  }

  /** Every entry of a progress map satisfies `0 <= done <= total`. */
  ghost predicate ProgressValid(m: map<string, Progress>) {
    forall n :: n in m ==> 0 <= m[n].done <= m[n].total
  }

  /**
   * From `before` to `after` the same profiles are tracked with the same
   * totals, and no `done` went down.
   */
  ghost predicate SameTotalsNoLoss(before: map<string, Progress>, after: map<string, Progress>) {
    && before.Keys == after.Keys
    && forall n :: n in before ==> after[n].total == before[n].total && after[n].done >= before[n].done
  }

  /**
   * Like SameTotalsNoLoss, but `after` may also track profiles `before` did
   * not (mobile entries are created as the run goes).
   */
  ghost predicate GrowsNoLoss(before: map<string, Progress>, after: map<string, Progress>) {
    && before.Keys <= after.Keys
    && forall n :: n in before ==> after[n].total == before[n].total && after[n].done >= before[n].done
  }

  /**
   * The desktop counter update: the profile's entry takes one clamped step
   * if the profile is tracked; a profile missing from the map is left alone.
   */
  function AdvanceEntry(m: map<string, Progress>, name: string): (r: map<string, Progress>)
    ensures r.Keys == m.Keys
    ensures forall n :: n in m && n != name ==> r[n] == m[n]
    ensures name in m ==> r[name] == Advance(m[name])
    ensures ProgressValid(m) ==> ProgressValid(r)
    ensures SameTotalsNoLoss(m, r) || !ProgressValid(m)
  {
    if name in m then m[name := Advance(m[name])] else m
  }

  /**
   * The mobile counter update, `setdefault(name, {0, count})` followed by a
   * clamped step.
   */
  function AdvanceOrOpen(m: map<string, Progress>, name: string, count: int): (r: map<string, Progress>)
    ensures r.Keys == m.Keys + {name}
    ensures forall n :: n in m && n != name ==> r[n] == m[n]
    ensures name in m ==> r[name] == Advance(m[name])
    ensures name !in m ==> r[name] == Advance(Progress(0, count))
    ensures ProgressValid(m) && count >= 0 ==> ProgressValid(r) && GrowsNoLoss(m, r)
  {
    m[name := Advance(if name in m then m[name] else Progress(0, count))]
  }

  /**
   * What another thread may have done to the record since the worker last
   * looked: nothing, a pause that was later resumed, a stop, a pause followed
   * by a stop.
   */
  datatype Control = Proceed | PauseThenResume | StopRequest | PauseThenStop

  /** All fields of the record at one moment. */
  datatype Snapshot = Snapshot(
    isRunning: bool,
    status: string,
    currentSearch: string,
    currentProfile: string,
    completed: int,
    total: int,
    isPaused: bool,
    profileProgress: map<string, Progress>,
    profileEligibility: map<string, Eligibility>,
    mobileEnabled: bool,
    mobileProgress: map<string, Progress>)

  /** The teardown's terminal status. */
  function FinalStatus(completed: int, total: int): (s: string)
    ensures s == "Automation completed" <==> completed >= total
    ensures s == "Automation completed" || s == "Automation stopped"
  {
    if completed >= total then "Automation completed" else "Automation stopped"
  }

  class RunState {
    var isRunning: bool
    var status: string
    var currentSearch: string
    var currentProfile: string
    var completed: int        // desktop queries only
    var total: int            // desktop queries only
    var isPaused: bool
    var profileProgress: map<string, Progress>       // desktop, per profile
    var profileEligibility: map<string, Eligibility>
    var mobileEnabled: bool
    var mobileProgress: map<string, Progress>

    /** Both progress maps keep `0 <= done <= total`. */
    ghost predicate Valid()
      reads this
    {
      ProgressValid(profileProgress) && ProgressValid(mobileProgress)
    }

    ghost function Snap(): Snapshot
      reads this
    {
      Snapshot(isRunning, status, currentSearch, currentProfile, completed, total,
               isPaused, profileProgress, profileEligibility, mobileEnabled, mobileProgress)
    }

    /** The record as the server starts: idle, "Ready", nothing tracked. */
    constructor ()
      ensures Valid()
      ensures Snap() == Snapshot(false, "Ready", "", "", 0, 0, false, map[], map[], false, map[])
    {
      isRunning, status, currentSearch, currentProfile := false, "Ready", "", "";
      completed, total, isPaused := 0, 0, false;
      profileProgress, profileEligibility := map[], map[];
      mobileEnabled, mobileProgress := false, map[];
    }

    /**
     * start's `state.update`: seed a new run.  The current search and profile
     * are not part of the update and keep their values.
     */
    method Begin(runTotal: int, desktop: map<string, Progress>, eligibility: map<string, Eligibility>,
                 mobile: bool, mobileEntries: map<string, Progress>)
      modifies this
      ensures Snap() == old(Snap()).(isRunning := true, status := "Starting automation...",
                                     completed := 0, total := runTotal, isPaused := false,
                                     profileProgress := desktop, profileEligibility := eligibility,
                                     mobileEnabled := mobile, mobileProgress := mobileEntries)
    {
      isRunning, status, completed, total, isPaused := true, "Starting automation...", 0, runTotal, false;
      profileProgress, profileEligibility := desktop, eligibility;
      mobileEnabled, mobileProgress := mobile, mobileEntries;
    }

    /** stop: ends a running run; on an idle record it does nothing. */
    method Stop()
      modifies this
      ensures !isRunning
      ensures Snap() == if old(isRunning) then old(Snap()).(isRunning := false, status := "Stopping automation...")
                        else old(Snap())
    {
      if isRunning {
        isRunning := false;
        status := "Stopping automation...";
      }
    }

    /** pause: marks a running run paused; on an idle record it does nothing. */
    method Pause()
      modifies this
      ensures Snap() == if old(isRunning) then old(Snap()).(isPaused := true, status := "Paused")
                        else old(Snap())
    {
      if isRunning {
        isPaused := true;
        status := "Paused";
      }
    }

    /** resume: clears the pause of a running run; on an idle record it does nothing. */
    method Resume()
      modifies this
      ensures Snap() == if old(isRunning) then old(Snap()).(isPaused := false, status := "Resuming...")
                        else old(Snap())
    {
      if isRunning {
        isPaused := false;
        status := "Resuming...";
      }
    }

    /**
     * Apply what the other threads did (see Control).  Only the running,
     * pause and status fields can change, a run is never restarted, and when
     * the run goes on it is not paused: the worker's wait returns only once
     * the run is resumed or stopped.
     */
    method Interleave(c: Control)
      modifies this
      ensures isRunning ==> old(isRunning)
      ensures c == Proceed ==> Snap() == old(Snap())
      ensures c == StopRequest || c == PauseThenStop ==> !isRunning
      ensures old(isRunning) && (c == Proceed || c == PauseThenResume) ==> isRunning
      ensures old(isRunning) && !old(isPaused) ==> !isRunning || !isPaused
      ensures Snap() == old(Snap()).(isRunning := isRunning, isPaused := isPaused, status := status)
    {
      match c
      case Proceed =>
      case PauseThenResume =>
        Pause();
        Resume();
      case StopRequest =>
        Stop();
      case PauseThenStop =>
        Pause();
        Stop();
    }

    /**
     * After one desktop query: `completed` takes the worker's count and the
     * profile's entry takes one clamped step (if the profile is tracked).
     */
    method RecordDesktopQuery(name: string, count: int)
      modifies this
      ensures Snap() == old(Snap()).(completed := count,
                                     profileProgress := AdvanceEntry(old(profileProgress), name))
    {
      completed := count;
      profileProgress := AdvanceEntry(profileProgress, name);
    }

    /** The mobile gate's `if cur is None: mobile_progress[name] = {0, count}`. */
    method OpenMobileEntry(name: string, count: int)
      modifies this
      ensures Snap() == old(Snap()).(mobileProgress :=
                if name in old(mobileProgress) then old(mobileProgress)
                else old(mobileProgress)[name := Progress(0, count)])
    {
      if name !in mobileProgress {
        mobileProgress := mobileProgress[name := Progress(0, count)];
      }
    }

    /** After one mobile query: the profile's mobile entry takes one clamped step. */
    method RecordMobileQuery(name: string, count: int)
      modifies this
      ensures Snap() == old(Snap()).(mobileProgress := AdvanceOrOpen(old(mobileProgress), name, count))
    {
      mobileProgress := AdvanceOrOpen(mobileProgress, name, count);
    }

    /** Show the profile being worked on. */
    method ShowProfile(name: string, message: string)
      modifies this
      ensures Snap() == old(Snap()).(currentProfile := name, status := message)
    {
      currentProfile, status := name, message;
    }

    /** Show the query being worked on. */
    method ShowSearch(query: string, message: string)
      modifies this
      ensures Snap() == old(Snap()).(currentSearch := query, status := message)
    {
      currentSearch, status := query, message;
    }

    method ShowStatus(message: string)
      modifies this
      ensures Snap() == old(Snap()).(status := message)
    {
      status := message;
    }

    /**
     * The worker's `finally`: the run is over, not paused, nothing is
     * current, and the status says "completed" exactly when the desktop
     * count reached the total.  The counters and maps are kept for display.
     */
    method Teardown()
      modifies this
      ensures Snap() == old(Snap()).(isRunning := false, isPaused := false,
                                     status := FinalStatus(old(completed), old(total)),
                                     currentSearch := "", currentProfile := "")
    {
      isRunning := false;
      status := FinalStatus(completed, total);
      currentSearch := "";
      currentProfile := "";
      isPaused := false;
    }
  }
}
