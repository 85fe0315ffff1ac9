/**
 * The bookkeeping of the background worker that drives one run: for each
 * profile a desktop pass, the window cap, then (when due) a mobile pass
 * through a browser-automation session with a mobile-UA window as fallback,
 * and a teardown that always runs.  Every launch, keystroke and page action
 * is opaque: what it does to the outside world is not modelled, only what the
 * worker records about it.
 */
module Worker {
  import opened Wrappers
  import opened SharedState
  import opened ProfileInfo
  import opened RunSetup
  import Queries

  /** Profiles whose windows may stay open before the oldest is closed. */
  const MaxActiveBrowsers := 2

  /** A launched browser process: the launch that produced it and the name it was launched for. */
  datatype Process = Process(launch: nat, name: string)

  /**
   * How a browser-automation session goes: it completes, or opening it
   * raises (before any query).  Nothing later can raise out of the session:
   * errors of single searches are swallowed, and so is every error of the
   * steps that close it.
   */
  datatype MobileSession = Completes | FailsToOpen

  /**
   * The world outside the worker, as a script:
   *  - control(k): what the other threads did before the worker's k-th look
   *    at the running flag (see Control);
   *  - launches(l): whether the l-th browser launch produced a process;
   *  - sessions(i): how the browser-automation session of the i-th profile goes;
   *  - playwright: whether browser automation is installed at all.
   */
  datatype Env = Env(
    control: nat -> Control,
    launches: nat -> bool,
    sessions: nat -> MobileSession,
    playwright: bool)

  /** No stop at any point (pauses that are resumed are fine). */
  ghost predicate Uninterrupted(env: Env) {
    forall k :: env.control(k) == Proceed || env.control(k) == PauseThenResume
  }

  /** The mobile queries used when the topic list yields none. */
  const DefaultMobileQueries := ["weather today", "top news", "sports scores", "nearby restaurants", "time now"]

  /**
   * The window cap after a profile's desktop pass.  `done` already ends with
   * that profile.  Past the cap, the oldest completed profile and the oldest
   * tracked process (if any) are dropped.
   */
  function CapWindows(done: seq<string>, procs: seq<Process>): (r: (seq<string>, seq<Process>))
    ensures |done| > MaxActiveBrowsers ==> r.0 == done[1..] && r.1 == (if procs == [] then [] else procs[1..])
    ensures |done| <= MaxActiveBrowsers ==> r == (done, procs)
  {
    if |done| > MaxActiveBrowsers then (done[1..], if procs == [] then [] else procs[1..])
    else (done, procs)
  }

  /**
   * Appending one profile to a list within the cap and capping keeps the list
   * within the cap, keeps the newest profile, and drops at most one process,
   * the oldest.
   */
  lemma CapKeepsWindowsBounded(done: seq<string>, procs: seq<Process>, name: string)
    requires |done| <= MaxActiveBrowsers
    ensures var r := CapWindows(done + [name], procs);
      && |r.0| <= MaxActiveBrowsers
      && r.0[|r.0| - 1] == name
      && |procs| - 1 <= |r.1| <= |procs|
      && r.1 == procs[|procs| - |r.1|..]
  {
  }

  /** A profile entry after `n` clamped steps; an untracked profile is left alone. */
  function AdvanceEntryTimes(m: map<string, Progress>, name: string, n: nat): map<string, Progress>
  {
    if name in m then m[name := AdvanceTimes(m[name], n)] else m
  }

  /** The desktop quota the worker reads: the tracked total, else the number of topics. */
  function DesktopTotal(pp: map<string, Progress>, name: string, fallback: int): int
  {
    if name in pp then pp[name].total else fallback
  }

  /** The desktop queries a run over `names` issues when nothing interrupts it. */
  function Demand(names: seq<string>, pp: map<string, Progress>, fallback: int): int
  {
    if |names| == 0 then 0
    else Demand(names[..|names| - 1], pp, fallback) + DesktopTotal(pp, names[|names| - 1], fallback)
  }

  /** The fields a pass may touch beside the run flags and the display fields. */
  ghost predicate Preserves(before: Snapshot, after: Snapshot) {
    && after.total == before.total
    && after.profileEligibility == before.profileEligibility
    && after.mobileEnabled == before.mobileEnabled
    && SameTotalsNoLoss(before.profileProgress, after.profileProgress)
    && GrowsNoLoss(before.mobileProgress, after.mobileProgress)
    && (after.isRunning ==> before.isRunning)
  }

  /** A step that only touches the flags, the display fields and the mobile entries, and loses nothing there. */
  lemma PreservesMobileStep(s0: Snapshot, s1: Snapshot)
    requires s1 == s0.(isRunning := s1.isRunning, isPaused := s1.isPaused, status := s1.status,
                       currentSearch := s1.currentSearch, mobileProgress := s1.mobileProgress)
    requires s1.isRunning ==> s0.isRunning
    requires GrowsNoLoss(s0.mobileProgress, s1.mobileProgress)
    ensures Preserves(s0, s1)
  {
  }

  lemma PreservesTrans(a: Snapshot, b: Snapshot, c: Snapshot)
    requires Preserves(a, b) && Preserves(b, c)
    ensures Preserves(a, c)
  {
  }

  /**
   * One turn of the desktop pass: the worker's look at the running flag
   * (after what `c` says the other threads did), then, if the run goes on,
   * one query: shown as the current search, counted in `completed`, stepped
   * in the profile's entry and added to today's PC count.  The keystrokes
   * themselves are not modelled; a failure among them is swallowed.
   */
  method DesktopTurn(st: RunState, store: ProfileInfoStore, name: string, q: string,
                     completed: int, c: Control, today: string)
    returns (went: bool)
    requires st.Valid()
    modifies st, store
    ensures st.Valid()
    ensures went == st.isRunning && (went ==> old(st.isRunning))
    ensures old(st.isRunning) && (c == Proceed || c == PauseThenResume) ==> went
    ensures went ==> && st.Snap() == old(st.Snap()).(isPaused := st.isPaused, status := "Searching for: " + q,
                                                     currentSearch := q, completed := completed,
                                                     profileProgress := AdvanceEntry(old(st.profileProgress), name))
                     && Raised(store.info, old(store.info), today, name, 1, 0)
    ensures !went ==> && st.Snap() == old(st.Snap()).(isRunning := false, isPaused := st.isPaused, status := st.status)
                      && store.info == old(store.info)
  {
    st.Interleave(c);
    went := st.isRunning;
    if went {
      st.ShowSearch(q, "Searching for: " + q);
      st.RecordDesktopQuery(name, completed);
      BumpRaisesOneCount(store.info, name, true, 1, today);
      store.BumpProfileProgress(name, true, 1, today);
    }
  }

  /**
   * One turn of a mobile pass: the look at the running flag, then, if the run
   * goes on, one query: shown as the current search, stepped in the profile's
   * mobile entry and added to today's mobile count.  The search itself is not
   * modelled; a failure inside it is swallowed.
   */
  method MobileTurn(st: RunState, store: ProfileInfoStore, name: string, q: string,
                    count: int, c: Control, today: string)
    returns (went: bool)
    requires st.Valid() && name in st.mobileProgress
    modifies st, store
    ensures st.Valid() && name in st.mobileProgress
    ensures went == st.isRunning && (went ==> old(st.isRunning))
    ensures old(st.isRunning) && (c == Proceed || c == PauseThenResume) ==> went
    ensures went ==> && st.Snap() == old(st.Snap()).(isPaused := st.isPaused, status := "Mobile searching: " + q,
                                                     currentSearch := q + " [m]",
                                                     mobileProgress := AdvanceEntry(old(st.mobileProgress), name))
                     && Raised(store.info, old(store.info), today, name, 0, 1)
    ensures !went ==> && st.Snap() == old(st.Snap()).(isRunning := false, isPaused := st.isPaused, status := st.status)
                      && store.info == old(store.info)
  {
    st.Interleave(c);
    went := st.isRunning;
    if went {
      st.ShowSearch(q + " [m]", "Mobile searching: " + q);
      st.RecordMobileQuery(name, count);
      BumpRaisesOneCount(store.info, name, false, 1, today);
      store.BumpProfileProgress(name, false, 1, today);
    }
  }

  /**
   * The desktop pass over `queries`: before each query the worker waits out a
   * pause and gives up if the run was stopped; every query it goes on with
   * counts once in `completed`, steps the profile's entry and bumps today's
   * PC count, whether or not the keystrokes worked.
   */
  method DesktopPass(st: RunState, store: ProfileInfoStore, name: string, queries: seq<string>,
                     completed0: int, k0: nat, env: Env, today: string)
    returns (completed: int, k: nat, attempted: nat)
    requires st.Valid()
    modifies st, store
    ensures st.Valid()
    ensures attempted <= |queries| && completed == completed0 + attempted && k >= k0
    ensures st.completed == if attempted == 0 then old(st.completed) else completed
    ensures st.profileProgress == AdvanceEntryTimes(old(st.profileProgress), name, attempted)
    ensures st.Snap() == old(st.Snap()).(isRunning := st.isRunning, isPaused := st.isPaused,
                                         status := st.status, currentSearch := st.currentSearch,
                                         completed := st.completed, profileProgress := st.profileProgress)
    ensures st.isRunning ==> old(st.isRunning)
    ensures Uninterrupted(env) && old(st.isRunning) ==> st.isRunning && attempted == |queries|
    ensures Raised(store.info, old(store.info), today, name, attempted, 0)
  {
    completed, k, attempted := completed0, k0, 0;
    var going := true;
    while going && attempted < |queries|
      invariant attempted <= |queries| && completed == completed0 + attempted && k >= k0
      invariant st.Valid()
      invariant st.completed == if attempted == 0 then old(st.completed) else completed
      invariant st.profileProgress == AdvanceEntryTimes(old(st.profileProgress), name, attempted)
      invariant st.Snap() == old(st.Snap()).(isRunning := st.isRunning, isPaused := st.isPaused,
                                             status := st.status, currentSearch := st.currentSearch,
                                             completed := st.completed, profileProgress := st.profileProgress)
      invariant st.isRunning ==> old(st.isRunning)
      invariant Uninterrupted(env) && old(st.isRunning) ==> going && st.isRunning
      invariant Raised(store.info, old(store.info), today, name, attempted, 0)
      decreases |queries| - attempted, if going then 1 else 0
    {
      ghost var info1 := store.info;
      going := DesktopTurn(st, store, name, queries[attempted], completed + 1, env.control(k), today);
      k := k + 1;
      if going {
        completed := completed + 1;
        RaisedTrans(old(store.info), info1, store.info, today, name, attempted, 0, 1, 0);
        AdvanceEntryTimesStep(old(st.profileProgress), name, attempted);
        attempted := attempted + 1;
      }
    }
  }

  /**
   * A mobile pass over `queries` for a profile that has a mobile entry,
   * through a browser-automation session or through the mobile-UA window:
   * before each query the worker waits out a pause and gives up if the run
   * was stopped; every query it goes on with steps the profile's mobile entry
   * and bumps today's mobile count.
   */
  method MobilePass(st: RunState, store: ProfileInfoStore, name: string, queries: seq<string>,
                    count: int, k0: nat, env: Env, today: string)
    returns (k: nat, attempted: nat)
    requires st.Valid() && name in st.mobileProgress
    modifies st, store
    ensures st.Valid()
    ensures attempted <= |queries| && k >= k0
    ensures st.mobileProgress == AdvanceEntryTimes(old(st.mobileProgress), name, attempted)
    ensures st.Snap() == old(st.Snap()).(isRunning := st.isRunning, isPaused := st.isPaused,
                                         status := st.status, currentSearch := st.currentSearch,
                                         mobileProgress := st.mobileProgress)
    ensures st.isRunning ==> old(st.isRunning)
    ensures Uninterrupted(env) && old(st.isRunning) ==> st.isRunning && attempted == |queries|
    ensures Raised(store.info, old(store.info), today, name, 0, attempted)
  {
    k, attempted := k0, 0;
    var going := true;
    while going && attempted < |queries|
      invariant attempted <= |queries| && k >= k0
      invariant st.Valid() && name in st.mobileProgress
      invariant st.mobileProgress == AdvanceEntryTimes(old(st.mobileProgress), name, attempted)
      invariant st.Snap() == old(st.Snap()).(isRunning := st.isRunning, isPaused := st.isPaused,
                                             status := st.status, currentSearch := st.currentSearch,
                                             mobileProgress := st.mobileProgress)
      invariant st.isRunning ==> old(st.isRunning)
      invariant Uninterrupted(env) && old(st.isRunning) ==> going && st.isRunning
      invariant Raised(store.info, old(store.info), today, name, 0, attempted)
      decreases |queries| - attempted, if going then 1 else 0
    {
      ghost var info1 := store.info;
      going := MobileTurn(st, store, name, queries[attempted], count, env.control(k), today);
      k := k + 1;
      if going {
        RaisedTrans(old(store.info), info1, store.info, today, name, 0, attempted, 0, 1);
        AdvanceEntryTimesStep(old(st.mobileProgress), name, attempted);
        attempted := attempted + 1;
      }
    }
  }

  /** The process a launch adds to the tracked list: one if it produced a process, none otherwise. */
  function Launched(env: Env, l: nat, name: string): (r: seq<Process>)
    ensures env.launches(l) <==> r == [Process(l, name)]
    ensures !env.launches(l) <==> r == []
  {
    if env.launches(l) then [Process(l, name)] else []
  }

  /** One more step on the entry. */
  lemma AdvanceEntryTimesStep(m: map<string, Progress>, name: string, a: nat)
    ensures AdvanceEntry(AdvanceEntryTimes(m, name, a), name) == AdvanceEntryTimes(m, name, a + 1)
  {
  }

  /** Steps on one entry compose: `a` steps then `b` steps are `a + b` steps. */
  lemma AdvanceEntryTimesAdd(m: map<string, Progress>, name: string, a: nat, b: nat)
    ensures AdvanceEntryTimes(AdvanceEntryTimes(m, name, a), name, b) == AdvanceEntryTimes(m, name, a + b)
  {
    if name in m {
      AdvanceTimesAdd(m[name], a, b);
    }
  }

  /** Clamped steps on one entry keep the tracked profiles and totals, lose nothing, stay valid. */
  lemma AdvanceEntryTimesNoLoss(m: map<string, Progress>, name: string, n: nat)
    requires ProgressValid(m)
    ensures ProgressValid(AdvanceEntryTimes(m, name, n))
    ensures SameTotalsNoLoss(m, AdvanceEntryTimes(m, name, n))
    ensures GrowsNoLoss(m, AdvanceEntryTimes(m, name, n))
    ensures name in m && n >= m[name].total - m[name].done ==>
              AdvanceEntryTimes(m, name, n)[name].done == m[name].total
  {
    if name in m {
      AdvanceTimesClamps(m[name], n);
    }
  }

  /**
   * The desktop half of one profile: show it, launch its window, run its
   * quota of queries (the tracked total, else one per topic), then record it
   * as completed and apply the window cap.
   */
  method DesktopPhase(st: RunState, store: ProfileInfoStore, fruits: seq<string>, browser: string,
                      name: string, k0: nat, l0: nat, done0: seq<string>, procs0: seq<Process>,
                      completed0: int, env: Env, today: string)
    returns (k: nat, l: nat, done: seq<string>, procs: seq<Process>, completed: int, attempted: nat)
    requires st.Valid() && |done0| <= MaxActiveBrowsers
    modifies st, store
    ensures st.Valid() && Preserves(old(st.Snap()), st.Snap())
    ensures st.Snap() == old(st.Snap()).(isRunning := st.isRunning, isPaused := st.isPaused,
                                         status := st.status, currentSearch := st.currentSearch,
                                         currentProfile := name, completed := st.completed,
                                         profileProgress := AdvanceEntryTimes(old(st.profileProgress), name, attempted))
    ensures completed == completed0 + attempted
    ensures st.completed == if attempted == 0 then old(st.completed) else completed
    ensures attempted <= DesktopTotal(old(st.profileProgress), name, |fruits|)
    ensures k >= k0 && l == l0 + 1
    ensures (done, procs) == CapWindows(done0 + [name], procs0 + Launched(env, l0, name))
    ensures |done| <= MaxActiveBrowsers
    ensures Uninterrupted(env) && old(st.isRunning) && |fruits| > 0 ==>
              && st.isRunning
              && attempted == DesktopTotal(old(st.profileProgress), name, |fruits|)
              && (name in st.profileProgress ==> st.profileProgress[name].done == st.profileProgress[name].total)
    ensures Raised(store.info, old(store.info), today, name, attempted, 0)
  {
    st.ShowProfile(name, "Opening " + browser + " for profile: " + name);
    var quota := DesktopTotal(st.profileProgress, name, |fruits|);
    assert quota >= 0 by {
      if name in st.profileProgress {
        assert 0 <= st.profileProgress[name].done <= st.profileProgress[name].total;
      }
    }
    procs := procs0 + Launched(env, l0, name);
    l := l0 + 1;
    var queries := Queries.BuildQueries(fruits, quota);
    completed, k, attempted := DesktopPass(st, store, name, queries, completed0, k0, env, today);
    AdvanceEntryTimesNoLoss(old(st.profileProgress), name, attempted);
    done := done0 + [name];
    CapKeepsWindowsBounded(done0, procs, name);
    if |done| > MaxActiveBrowsers {
      // the oldest window's process is terminated; failures to do so are swallowed
      done, procs := CapWindows(done, procs).0, CapWindows(done, procs).1;
      st.ShowStatus("Freed memory, continuing with " + name);
    }
  }

  /** The mobile gate: mobile is on for the run, the profile is eligible, and the count is positive. */
  predicate MobileGate(enabled: bool, eligibility: map<string, Eligibility>, name: string, count: int) {
    enabled && name in eligibility && eligibility[name].mobile && count > 0
  }

  /** The mobile gate, read from a snapshot of the record. */
  ghost predicate MobileDue(s: Snapshot, name: string, count: int) {
    MobileGate(s.mobileEnabled, s.profileEligibility, name, count)
  }

  /** No mobile entry asks for more than `count` queries. */
  ghost predicate MobileTotalsWithin(m: map<string, Progress>, count: int) {
    forall n :: n in m ==> m[n].total <= count
  }

  /** The gate's `{done: 0, total: count}` entry for a profile that has none yet. */
  function OpenEntry(m: map<string, Progress>, name: string, count: int): map<string, Progress>
  {
    if name in m then m else m[name := Progress(0, count)]
  }

  /**
   * What the mobile half does to the mobile entries: after the gate's entry
   * and `n` steps, the map is valid, has lost nothing, keeps the totals within
   * the count, and `count` steps or more fill the profile's entry.
   */
  lemma MobileEntryGrowth(m0: map<string, Progress>, name: string, count: int, n: nat)
    requires ProgressValid(m0) && count >= 0
    ensures var m := AdvanceEntryTimes(OpenEntry(m0, name, count), name, n);
      && name in m
      && ProgressValid(m) && GrowsNoLoss(m0, m)
      && (MobileTotalsWithin(m0, count) ==> MobileTotalsWithin(m, count))
      && (n >= count && name in m0 && m0[name].total <= count ==> m[name].done == m[name].total)
      && (n >= count && name !in m0 ==> m[name] == Progress(count, count))
  {
    var m1 := OpenEntry(m0, name, count);
    AdvanceEntryTimesNoLoss(m1, name, n);
  }

  /**
   * The mobile half of one profile.  Past the gate, the profile gets a mobile
   * entry, and its queries (one per topic up to the count, or five stock
   * queries when there are no topics) run through a browser-automation
   * session when one is installed.  When there is none, or opening the
   * session raises, a mobile-UA window is launched and the queries run there
   * instead.  Either way no more queries run than were built.
   */
  method MobilePhase(st: RunState, store: ProfileInfoStore, fruits: seq<string>, browser: string,
                     name: string, count: int, session: MobileSession, k0: nat, l0: nat,
                     procs0: seq<Process>, env: Env, today: string)
    returns (k: nat, l: nat, procs: seq<Process>, viaSession: nat, viaWindow: nat)
    requires st.Valid()
    modifies st, store
    ensures st.Valid() && Preserves(old(st.Snap()), st.Snap())
    ensures st.Snap() == old(st.Snap()).(isRunning := st.isRunning, isPaused := st.isPaused,
                                         status := st.status, currentSearch := st.currentSearch,
                                         mobileProgress := st.mobileProgress)
    ensures k >= k0
    ensures MobileDue(old(st.Snap()), name, count) ==>
              viaSession + viaWindow <= if |fruits| > 0 then count else |DefaultMobileQueries|
    ensures !MobileDue(old(st.Snap()), name, count) ==>
              && st.Snap() == old(st.Snap()) && store.info == old(store.info)
              && k == k0 && l == l0 && procs == procs0 && viaSession == 0 && viaWindow == 0
    ensures MobileDue(old(st.Snap()), name, count) ==>
              && st.mobileProgress == AdvanceEntryTimes(OpenEntry(old(st.mobileProgress), name, count),
                                                        name, viaSession + viaWindow)
              && (viaSession > 0 ==> env.playwright && session == Completes)
              && (env.playwright && session == Completes ==> viaWindow == 0 && l == l0 && procs == procs0)
              && (!(env.playwright && session == Completes) ==>
                    l == l0 + 1 && procs == procs0 + Launched(env, l0, name + " (mobile)"))
    ensures MobileTotalsWithin(old(st.mobileProgress), count) ==> MobileTotalsWithin(st.mobileProgress, count)
    ensures Uninterrupted(env) && old(st.isRunning) && |fruits| > 0 && MobileDue(old(st.Snap()), name, count) ==>
              && st.isRunning
              && viaSession == (if env.playwright && session == Completes then count else 0)
              && viaWindow == (if env.playwright && session == Completes then 0 else count)
              && (name in old(st.mobileProgress) ==> old(st.mobileProgress)[name].total <= count ==>
                    st.mobileProgress[name].done == st.mobileProgress[name].total)
              && (name !in old(st.mobileProgress) ==> st.mobileProgress[name] == Progress(count, count))
    ensures Raised(store.info, old(store.info), today, name, 0, viaSession + viaWindow)
  {
    k, l, procs, viaSession, viaWindow := k0, l0, procs0, 0, 0;
    if MobileGate(st.mobileEnabled, st.profileEligibility, name, count) {
      k, l, procs, viaSession, viaWindow := GatedMobile(st, store, fruits, browser, name, count, session,
                                                        k0, l0, procs0, env, today);
    }
  }

  /** MobilePhase past the gate: open the entry, build the queries, run them. */
  method GatedMobile(st: RunState, store: ProfileInfoStore, fruits: seq<string>, browser: string,
                     name: string, count: int, session: MobileSession, k0: nat, l0: nat,
                     procs0: seq<Process>, env: Env, today: string)
    returns (k: nat, l: nat, procs: seq<Process>, viaSession: nat, viaWindow: nat)
    requires st.Valid() && count > 0
    modifies st, store
    ensures st.Valid() && Preserves(old(st.Snap()), st.Snap())
    ensures st.Snap() == old(st.Snap()).(isRunning := st.isRunning, isPaused := st.isPaused,
                                         status := st.status, currentSearch := st.currentSearch,
                                         mobileProgress := st.mobileProgress)
    ensures k >= k0
    ensures st.mobileProgress == AdvanceEntryTimes(OpenEntry(old(st.mobileProgress), name, count),
                                                   name, viaSession + viaWindow)
    ensures viaSession + viaWindow <= if |fruits| > 0 then count else |DefaultMobileQueries|
    ensures viaSession > 0 ==> env.playwright && session == Completes
    ensures env.playwright && session == Completes ==> viaWindow == 0 && l == l0 && procs == procs0
    ensures !(env.playwright && session == Completes) ==>
              l == l0 + 1 && procs == procs0 + Launched(env, l0, name + " (mobile)")
    ensures MobileTotalsWithin(old(st.mobileProgress), count) ==> MobileTotalsWithin(st.mobileProgress, count)
    ensures Uninterrupted(env) && old(st.isRunning) && |fruits| > 0 ==>
              && st.isRunning
              && viaSession == (if env.playwright && session == Completes then count else 0)
              && viaWindow == (if env.playwright && session == Completes then 0 else count)
              && (name in old(st.mobileProgress) ==> old(st.mobileProgress)[name].total <= count ==>
                    st.mobileProgress[name].done == st.mobileProgress[name].total)
              && (name !in old(st.mobileProgress) ==> st.mobileProgress[name] == Progress(count, count))
    ensures Raised(store.info, old(store.info), today, name, 0, viaSession + viaWindow)
  {
    st.OpenMobileEntry(name, count);
    ghost var withEntry := st.mobileProgress;
    var queries := Queries.BuildQueries(fruits, count);
    if queries == [] {
      queries := DefaultMobileQueries;
    }
    k, l, procs, viaSession, viaWindow := MobileRuns(st, store, browser, name, queries, count, session,
                                                     k0, l0, procs0, env, today);
    MobileEntryGrowth(old(st.mobileProgress), name, count, viaSession + viaWindow);
    PreservesMobileStep(old(st.Snap()), st.Snap());
  }

  /**
   * The mobile queries of a profile past the gate: through a browser-automation
   * session when one is installed and opens, through a mobile-UA window
   * otherwise; never through both.
   */
  method MobileRuns(st: RunState, store: ProfileInfoStore, browser: string, name: string,
                    queries: seq<string>, count: int, session: MobileSession, k0: nat, l0: nat,
                    procs0: seq<Process>, env: Env, today: string)
    returns (k: nat, l: nat, procs: seq<Process>, viaSession: nat, viaWindow: nat)
    requires st.Valid() && name in st.mobileProgress
    modifies st, store
    ensures st.Valid()
    ensures st.Snap() == old(st.Snap()).(isRunning := st.isRunning, isPaused := st.isPaused,
                                         status := st.status, currentSearch := st.currentSearch,
                                         mobileProgress := st.mobileProgress)
    ensures st.mobileProgress == AdvanceEntryTimes(old(st.mobileProgress), name, viaSession + viaWindow)
    ensures st.isRunning ==> old(st.isRunning)
    ensures k >= k0
    ensures viaSession + viaWindow <= |queries|
    ensures viaSession > 0 ==> env.playwright && session == Completes
    ensures env.playwright && session == Completes ==> viaWindow == 0 && l == l0 && procs == procs0
    ensures !(env.playwright && session == Completes) ==>
              viaSession == 0 && l == l0 + 1 && procs == procs0 + Launched(env, l0, name + " (mobile)")
    ensures Uninterrupted(env) && old(st.isRunning) ==>
              && st.isRunning
              && viaSession == (if env.playwright && session == Completes then |queries| else 0)
              && viaWindow == (if env.playwright && session == Completes then 0 else |queries|)
    ensures Raised(store.info, old(store.info), today, name, 0, viaSession + viaWindow)
  {
    k, l, procs, viaSession, viaWindow := k0, l0, procs0, 0, 0;
    if env.playwright {
      st.ShowStatus("Opening Playwright mobile for: " + name);
      if session == Completes {
        k, viaSession := MobilePass(st, store, name, queries, count, k, env, today);
        return;
      }
    }
    ghost var s1 := st.Snap();
    st.ShowStatus("Opening " + browser + " (mobile UA) for profile: " + name);
    procs := procs0 + Launched(env, l0, name + " (mobile)");
    l := l0 + 1;
    k, viaWindow := MobilePass(st, store, name, queries, count, k, env, today);
    assert st.Snap() == s1.(isRunning := st.isRunning, isPaused := st.isPaused, status := st.status,
                            currentSearch := st.currentSearch, mobileProgress := st.mobileProgress);
  }

  /**
   * The worker's window bookkeeping for one profile: the profile is appended
   * to the completed list and its desktop process (if any) to the tracked
   * processes, the cap drops the oldest of each past two profiles, and then
   * the mobile-UA process (if any) is appended.
   */
  function Tracking(done: seq<string>, procs: seq<Process>, name: string,
                    desktop: seq<Process>, mobile: seq<Process>): (seq<string>, seq<Process>)
  {
    var capped := CapWindows(done + [name], procs + desktop);
    (capped.0, capped.1 + mobile)
  }

  /**
   * The cap bounds the completed list, not the processes: each profile adds
   * up to two processes (desktop and mobile-UA window) and the cap removes at
   * most one, so with three profiles that both launch, five are tracked.
   */
  lemma ProcessesOutgrowCap()
    ensures var p := Process(0, "");
      var t1 := Tracking([], [], "a", [p], [p]);
      var t2 := Tracking(t1.0, t1.1, "b", [p], [p]);
      var t3 := Tracking(t2.0, t2.1, "c", [p], [p]);
      |t3.0| == MaxActiveBrowsers && |t3.1| == 5
  {
  }

  /** Bounds for one step of the bookkeeping: the list stays capped and the processes grow by at most two. */
  lemma {:induction false} TrackingBounds(done: seq<string>, procs: seq<Process>, name: string,
                                         desktop: seq<Process>, mobile: seq<Process>)
    requires |done| <= MaxActiveBrowsers && |desktop| <= 1 && |mobile| <= 1
    ensures var t := Tracking(done, procs, name, desktop, mobile);
      && |t.0| <= MaxActiveBrowsers && t.0[|t.0| - 1] == name
      && |procs| + |desktop| + |mobile| - 1 <= |t.1| <= |procs| + |desktop| + |mobile|
  {
    CapKeepsWindowsBounded(done, procs + desktop, name);
  }

  /** One profile: its desktop half, then its mobile half. */
  method RunProfile(st: RunState, store: ProfileInfoStore, fruits: seq<string>, browser: string,
                    name: string, count: int, session: MobileSession, k0: nat, l0: nat,
                    done0: seq<string>, procs0: seq<Process>, completed0: int, env: Env, today: string)
    returns (k: nat, l: nat, done: seq<string>, procs: seq<Process>, completed: int, desktop: nat, mobile: nat)
    requires st.Valid() && |done0| <= MaxActiveBrowsers
    modifies st, store
    ensures st.Valid() && Preserves(old(st.Snap()), st.Snap())
    ensures |done| <= MaxActiveBrowsers
    ensures completed == completed0 + desktop
    ensures st.completed == completed || (desktop == 0 && st.completed == old(st.completed))
    ensures desktop <= DesktopTotal(old(st.profileProgress), name, |fruits|)
    ensures MobileTotalsWithin(old(st.mobileProgress), count) ==> MobileTotalsWithin(st.mobileProgress, count)
    ensures Raised(store.info, old(store.info), today, name, desktop, mobile)
    ensures (done, procs) == Tracking(done0, procs0, name, Launched(env, l0, name),
                                      if MobileDue(old(st.Snap()), name, count) && !(env.playwright && session == Completes)
                                      then Launched(env, l0 + 1, name + " (mobile)") else [])
    ensures Uninterrupted(env) && old(st.isRunning) && |fruits| > 0 &&
            MobileTotalsWithin(old(st.mobileProgress), count) ==>
              && st.isRunning
              && desktop == DesktopTotal(old(st.profileProgress), name, |fruits|)
              && Finished(st.Snap(), name, count)
  {
    k, l, done, procs, completed, desktop :=
      DesktopPhase(st, store, fruits, browser, name, k0, l0, done0, procs0, completed0, env, today);
    ghost var mid := st.Snap();
    ghost var info1 := store.info;
    ghost var capped := procs;
    assert MobileDue(mid, name, count) == MobileDue(old(st.Snap()), name, count);
    var viaSession, viaWindow;
    k, l, procs, viaSession, viaWindow :=
      MobilePhase(st, store, fruits, browser, name, count, session, k, l, procs, env, today);
    assert procs == capped + if MobileDue(old(st.Snap()), name, count) && !(env.playwright && session == Completes)
                             then Launched(env, l0 + 1, name + " (mobile)") else [];
    mobile := viaSession + viaWindow;
    RaisedTrans(old(store.info), info1, store.info, today, name, desktop, 0, 0, mobile);
    PreservesTrans(old(st.Snap()), mid, st.Snap());
  }

  /**
   * One turn of the worker's loop: look at the running flag, read the
   * profile's name, and run the profile.  `stopped` says that the run was
   * found stopped or that the profile has no name (an exception that ends the
   * loop); then nothing else happens.
   */
  method VisitProfile(st: RunState, store: ProfileInfoStore, fruits: seq<string>, browser: string,
                      profile: ProfileTask, count: int, session: MobileSession, k0: nat, l0: nat,
                      done0: seq<string>, procs0: seq<Process>, completed0: int, env: Env, today: string)
    returns (k: nat, l: nat, done: seq<string>, procs: seq<Process>, completed: int,
             stopped: bool, name: string, desktop: nat, mobile: nat)
    requires st.Valid() && |done0| <= MaxActiveBrowsers
    modifies st, store
    ensures st.Valid() && Preserves(old(st.Snap()), st.Snap())
    ensures |done| <= MaxActiveBrowsers
    ensures completed == completed0 + desktop
    ensures st.completed == completed || (desktop == 0 && st.completed == old(st.completed))
    ensures MobileTotalsWithin(old(st.mobileProgress), count) ==> MobileTotalsWithin(st.mobileProgress, count)
    ensures stopped ==> !st.isRunning || profile.name.None?
    ensures !stopped ==> profile.name == Some(name)
    ensures !stopped ==> desktop <= DesktopTotal(old(st.profileProgress), name, |fruits|)
    ensures stopped ==> desktop == 0 && mobile == 0 && store.info == old(store.info)
    ensures Raised(store.info, old(store.info), today, name, desktop, mobile)
    ensures Uninterrupted(env) && old(st.isRunning) && |fruits| > 0 && profile.name.Some? &&
            MobileTotalsWithin(old(st.mobileProgress), count) ==>
              && !stopped && st.isRunning
              && name == profile.name.value
              && desktop == DesktopTotal(old(st.profileProgress), name, |fruits|)
              && Finished(st.Snap(), name, count)
  {
    k, l, done, procs, completed, name, desktop, mobile := k0, l0, done0, procs0, completed0, "", 0, 0;
    st.Interleave(env.control(k));
    k := k + 1;
    stopped := !st.isRunning || profile.name.None?;
    if !stopped {
      name := profile.name.value;
      k, l, done, procs, completed, desktop, mobile :=
        RunProfile(st, store, fruits, browser, name, count, session, k, l, done, procs, completed, env, today);
    }
  }

  /** The profiles the worker runs: the given ones, or the anonymous default when none are given. */
  function WorkerProfiles(profiles: seq<ProfileTask>): (r: seq<ProfileTask>)
    ensures |r| > 0
    ensures |profiles| > 0 ==> r == profiles
    ensures |profiles| == 0 ==> r == [AnonymousDefault]
  {
    if |profiles| == 0 then [AnonymousDefault] else profiles
  }

  /** Every profile carries a name (the worker reads it without a default). */
  predicate AllNamed(profiles: seq<ProfileTask>) {
    forall j :: 0 <= j < |profiles| ==> profiles[j].name.Some?
  }

  /** The names the worker reads from the profiles; an absent name shows as "". */
  function TaskNames(profiles: seq<ProfileTask>): (r: seq<string>)
    ensures |r| == |profiles|
    ensures forall j :: 0 <= j < |profiles| ==> r[j] == profiles[j].name.GetOr("")
  {
    seq(|profiles|, j requires 0 <= j < |profiles| => profiles[j].name.GetOr(""))
  }

  /**
   * A profile's run is over: its desktop entry (if tracked) is full, and if
   * the mobile gate lets it through, its mobile entry exists and is full.
   */
  ghost predicate Finished(s: Snapshot, name: string, count: int) {
    && (name in s.profileProgress ==> s.profileProgress[name].done == s.profileProgress[name].total)
    && (MobileDue(s, name, count) ==>
          name in s.mobileProgress && s.mobileProgress[name].done == s.mobileProgress[name].total)
  }

  /** A finished profile stays finished: entries keep their totals and never go back. */
  lemma FinishedPreserved(s1: Snapshot, s2: Snapshot, name: string, count: int)
    requires Preserves(s1, s2)
    requires ProgressValid(s2.profileProgress) && ProgressValid(s2.mobileProgress)
    requires Finished(s1, name, count)
    ensures Finished(s2, name, count)
  {
  }

  /**
   * When a run goes through to the end: nothing stops it, it was running and
   * has topics, every profile has a name, the desktop count starts at 0 and
   * no mobile entry asks for more than the mobile count.
   */
  ghost predicate RunsThrough(env: Env, s: Snapshot, fruits: seq<string>, profiles: seq<ProfileTask>, count: int) {
    && Uninterrupted(env)
    && s.isRunning
    && |fruits| > 0
    && AllNamed(WorkerProfiles(profiles))
    && s.completed == 0
    && MobileTotalsWithin(s.mobileProgress, count)
  }

  /** Today's counters of `info` are those of `info0` plus the queries logged per profile. */
  ghost predicate Tallied(info: map<string, Entry>, info0: map<string, Entry>, today: string,
                          desktopLog: multiset<string>, mobileLog: multiset<string>) {
    && (forall n :: TodayCount(info, n, today, true) == TodayCount(info0, n, today, true) + desktopLog[n])
    && (forall n :: TodayCount(info, n, today, false) == TodayCount(info0, n, today, false) + mobileLog[n])
  }

  lemma TalliedStep(info0: map<string, Entry>, info1: map<string, Entry>, info2: map<string, Entry>,
                    today: string, desktopLog: multiset<string>, mobileLog: multiset<string>,
                    name: string, desktop: nat, mobile: nat)
    requires Tallied(info1, info0, today, desktopLog, mobileLog)
    requires Raised(info2, info1, today, name, desktop, mobile)
    ensures Tallied(info2, info0, today, desktopLog[name := desktopLog[name] + desktop],
                    mobileLog[name := mobileLog[name] + mobile])
  {
  }

  /**
   * A run going through is on track after `i` profiles: still running, the
   * desktop count is the demand of those profiles, and each of them is finished.
   */
  ghost predicate OnTrack(s: Snapshot, pp0: map<string, Progress>, names: seq<string>, i: nat,
                          completed: int, fruits: seq<string>, count: int)
    requires i <= |names|
  {
    && s.isRunning
    && completed == Demand(names[..i], pp0, |fruits|)
    && forall j :: 0 <= j < i ==> Finished(s, names[j], count)
  }

  lemma OnTrackStep(s0: Snapshot, before: Snapshot, after: Snapshot, names: seq<string>, i: nat,
                    completed: int, desktop: nat, fruits: seq<string>, count: int)
    requires i < |names|
    requires Preserves(s0, before) && Preserves(before, after)
    requires ProgressValid(after.profileProgress) && ProgressValid(after.mobileProgress)
    requires OnTrack(before, s0.profileProgress, names, i, completed, fruits, count)
    requires after.isRunning && Finished(after, names[i], count)
    requires desktop == DesktopTotal(before.profileProgress, names[i], |fruits|)
    ensures OnTrack(after, s0.profileProgress, names, i + 1, completed + desktop, fruits, count)
  {
    forall j | 0 <= j < i
      ensures Finished(after, names[j], count)
    {
      FinishedPreserved(before, after, names[j], count);
    }
    assert names[..i + 1][..i] == names[..i];
  }

  /**
   * automation_worker.  Runs the profiles in order (the anonymous default when
   * none are given), then tears down whatever happened: `terminated` lists
   * the processes the teardown terminates, and the record ends not running,
   * not paused, with nothing current and a status that says "completed"
   * exactly when the desktop count reached the total.  The ghost logs count,
   * per profile, the desktop and mobile queries issued.
   */
  method AutomationWorker(st: RunState, store: ProfileInfoStore, fruits: seq<string>, browser: string,
                          profiles0: seq<ProfileTask>, mobileCount: int, today: string, env: Env)
    returns (terminated: seq<Process>, ghost desktopLog: multiset<string>, ghost mobileLog: multiset<string>)
    requires st.Valid()
    modifies st, store
    ensures st.Valid() && Preserves(old(st.Snap()), st.Snap())
    ensures !st.isRunning && !st.isPaused && st.currentSearch == "" && st.currentProfile == ""
    ensures st.status == FinalStatus(st.completed, st.total)
    ensures st.completed == |desktopLog| || (|desktopLog| == 0 && st.completed == old(st.completed))
    ensures |desktopLog| <= Demand(TaskNames(WorkerProfiles(profiles0)), old(st.profileProgress), |fruits|)
    ensures Tallied(store.info, old(store.info), today, desktopLog, mobileLog)
    ensures RunsThrough(env, old(st.Snap()), fruits, profiles0, mobileCount) ==>
              var names := TaskNames(WorkerProfiles(profiles0));
              && st.completed == Demand(names, old(st.profileProgress), |fruits|)
              && (forall j :: 0 <= j < |names| ==> Finished(st.Snap(), names[j], mobileCount))
              && (st.total <= st.completed ==> st.status == "Automation completed")
  {
    var profiles := WorkerProfiles(profiles0);
    terminated, desktopLog, mobileLog := RunProfiles(st, store, fruits, browser, profiles, mobileCount, today, env);
    ghost var s1 := st.Snap();
    st.Teardown();
    if RunsThrough(env, old(st.Snap()), fruits, profiles0, mobileCount) {
      forall j | 0 <= j < |profiles|
        ensures Finished(st.Snap(), TaskNames(profiles)[j], mobileCount)
      {
        FinishedPreserved(s1, st.Snap(), TaskNames(profiles)[j], mobileCount);
      }
      assert TaskNames(profiles)[..|profiles|] == TaskNames(profiles);
    }
  }

  /**
   * The worker's loop over the profiles, stopping at the first look that
   * finds the run stopped or at a profile without a name (an exception caught
   * by the outermost handler).  When the run goes through, every profile is
   * run and finished.
   */
  method RunProfiles(st: RunState, store: ProfileInfoStore, fruits: seq<string>, browser: string,
                     profiles: seq<ProfileTask>, mobileCount: int, today: string, env: Env)
    returns (procs: seq<Process>, ghost desktopLog: multiset<string>, ghost mobileLog: multiset<string>)
    requires st.Valid()
    modifies st, store
    ensures st.Valid() && Preserves(old(st.Snap()), st.Snap())
    ensures st.completed == |desktopLog| || (|desktopLog| == 0 && st.completed == old(st.completed))
    ensures |desktopLog| <= Demand(TaskNames(profiles), old(st.profileProgress), |fruits|)
    ensures Tallied(store.info, old(store.info), today, desktopLog, mobileLog)
    ensures Uninterrupted(env) && old(st.isRunning) && |fruits| > 0 && AllNamed(profiles) &&
            MobileTotalsWithin(old(st.mobileProgress), mobileCount) ==>
              OnTrack(st.Snap(), old(st.profileProgress), TaskNames(profiles), |profiles|, |desktopLog|,
                      fruits, mobileCount)
  {
    ghost var names := TaskNames(profiles);
    ghost var s0 := st.Snap();
    ghost var through := Uninterrupted(env) && s0.isRunning && |fruits| > 0 && AllNamed(profiles) &&
                         MobileTotalsWithin(s0.mobileProgress, mobileCount);
    var i, k, l := 0, 0, 0;
    var done: seq<string> := [];
    var completed := 0;
    var stopped := false;
    procs := [];
    desktopLog, mobileLog := multiset{}, multiset{};
    while i < |profiles| && !stopped
      invariant 0 <= i <= |profiles|
      invariant st.Valid() && Preserves(s0, st.Snap())
      invariant |done| <= MaxActiveBrowsers
      invariant completed == |desktopLog|
      invariant completed <= Demand(names[..i], s0.profileProgress, |fruits|)
      invariant st.completed == completed || (completed == 0 && st.completed == s0.completed)
      invariant MobileTotalsWithin(s0.mobileProgress, mobileCount) ==> MobileTotalsWithin(st.mobileProgress, mobileCount)
      invariant Tallied(store.info, old(store.info), today, desktopLog, mobileLog)
      invariant through ==> !stopped && OnTrack(st.Snap(), s0.profileProgress, names, i, completed, fruits, mobileCount)
      decreases |profiles| - i, if stopped then 0 else 1
    {
      ghost var before := st.Snap();
      ghost var info1 := store.info;
      ghost var completed1 := completed;
      var name, desktop, mobile;
      k, l, done, procs, completed, stopped, name, desktop, mobile :=
        VisitProfile(st, store, fruits, browser, profiles[i], mobileCount, env.sessions(i), k, l, done, procs,
                     completed, env, today);
      TalliedStep(old(store.info), info1, store.info, today, desktopLog, mobileLog, name, desktop, mobile);
      desktopLog := desktopLog[name := desktopLog[name] + desktop];
      mobileLog := mobileLog[name := mobileLog[name] + mobile];
      PreservesTrans(s0, before, st.Snap());
      if through {
        OnTrackStep(s0, before, st.Snap(), names, i, completed1, desktop, fruits, mobileCount);
      }
      if !stopped {
        DemandStep(names, s0.profileProgress, |fruits|, i);
        i := i + 1;
      }
    }
    DemandPrefixBound(names, s0.profileProgress, |fruits|, i);
  }

  /** The demand of one more name adds that name's desktop quota. */
  lemma DemandStep(names: seq<string>, pp: map<string, Progress>, fallback: int, i: nat)
    requires i < |names|
    ensures Demand(names[..i + 1], pp, fallback) == Demand(names[..i], pp, fallback) + DesktopTotal(pp, names[i], fallback)
  {
    assert names[..i + 1][..i] == names[..i];
  }

  /** With no negative quota, the demand of a prefix is at most the demand of the whole list. */
  lemma {:induction false} DemandPrefixBound(names: seq<string>, pp: map<string, Progress>, fallback: int, i: nat)
    requires i <= |names| && ProgressValid(pp) && fallback >= 0
    ensures Demand(names[..i], pp, fallback) <= Demand(names, pp, fallback)
  {
    if i == |names| {
      assert names[..i] == names;
    } else {
      var m := |names| - 1;
      DemandPrefixBound(names[..m], pp, fallback, i);
      assert names[..m][..i] == names[..i];
      var last := names[m];
      assert DesktopTotal(pp, last, fallback) >= 0 by {
        if last in pp {
          assert 0 <= pp[last].done <= pp[last].total;
        }
      }
    }
  }

  /**
   * Over profiles that start seeded, the worker's demand is the seeded total:
   * each tracked name runs exactly its desktop quota.
   */
  lemma {:induction false} DemandIsSeededTotal(names: seq<string>, pp: map<string, Progress>,
                                               info: map<string, Entry>, all: seq<string>, fallback: int)
    requires DesktopEntries(pp, all, info)
    requires forall j :: 0 <= j < |names| ==> names[j] in all
    ensures Demand(names, pp, fallback) == TotalQuota(names, info)
  {
    if |names| > 0 {
      DemandIsSeededTotal(names[..|names| - 1], pp, info, all, fallback);
    }
  }

  /**
   * A profile whose name is given but empty: start files it under its
   * directory with a desktop total of 10 (level 1), while the worker reads
   * the empty name, finds no entry for it and runs one query per topic; with
   * eleven topics an uninterrupted run issues more desktop queries than the
   * total start recorded.
   */
  lemma EmptyNameOverrunsTotal()
    ensures var profiles := [ProfileTask(Some(""), Some("work"))];
      var pp := map["work" := Progress(0, 10)];
      && Names(profiles) == ["work"]
      && DesktopEntries(pp, Names(profiles), map[])
      && TotalQuota(Names(profiles), map[]) == 10
      && AllNamed(WorkerProfiles(profiles))
      && Demand(TaskNames(WorkerProfiles(profiles)), pp, 11) == 11
  {
    var profiles := [ProfileTask(Some(""), Some("work"))];
    assert Names(profiles) == ["work"];
    assert TaskNames(profiles) == [""];
    assert LevelOf(map[], "work") == 1;
    assert TotalQuota(["work"], map[]) == TotalQuota([], map[]) + 10;
    assert Demand([""], map["work" := Progress(0, 10)], 11) == Demand([], map["work" := Progress(0, 10)], 11) + 11;
  }

  /** With every name given and non-empty, the worker and start read the same names. */
  lemma NamedTasksAgree(profiles: seq<ProfileTask>)
    requires forall j :: 0 <= j < |profiles| ==> profiles[j].name.Some? && profiles[j].name.value != ""
    ensures TaskNames(profiles) == Names(profiles)
  {
  }

  /**
   * start followed by an uninterrupted worker: when start chose named profiles
   * and seeded `pp` from them, the worker's desktop demand equals the total
   * start recorded, so such a run ends at completed == total.
   */
  lemma SeededRunMeetsTotal(profiles: seq<ProfileTask>, pp: map<string, Progress>,
                            info: map<string, Entry>, fallback: int)
    requires |profiles| > 0
    requires forall j :: 0 <= j < |profiles| ==> profiles[j].name.Some? && profiles[j].name.value != ""
    requires DesktopEntries(pp, Names(profiles), info)
    ensures Demand(TaskNames(WorkerProfiles(profiles)), pp, fallback) == TotalQuota(Names(profiles), info)
  {
    NamedTasksAgree(profiles);
    DemandIsSeededTotal(Names(profiles), pp, info, Names(profiles), fallback);
  }
}
