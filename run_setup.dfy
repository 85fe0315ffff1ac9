/**
 * The decision logic of starting a run: the start guard, the choice of
 * profiles, and the per-profile quotas, eligibility and progress entries the
 * run is seeded with.
 */
module RunSetup {
  import opened Wrappers
  import opened SharedState
  import opened ProfileInfo

  /** A browser profile to drive: `{"name", "directory"}`; either may be absent. */
  datatype ProfileTask = ProfileTask(name: Option<string>, directory: Option<string>)

  /** The profile used when nothing else is chosen (no profile directory). */
  const AnonymousDefault := ProfileTask(Some("Default"), None)

  /** The explicit "Default" profile directory, used when the caller asks for it. */
  const DefaultDirectory := ProfileTask(Some("Default"), Some("Default"))

  /** The two browsers whose profiles the server can list and remember. */
  predicate HasProfiles(browser: string) {
    browser == "chrome" || browser == "edge"
  }

  /** A start request, with the server's defaults for absent fields already applied. */
  datatype StartRequest = StartRequest(
    fruits: seq<string>,
    browser: string,
    selectedProfiles: seq<ProfileTask>,
    useDefaultIfNoProfile: bool,
    mobileEnabled: bool)

  /**
   * The start guard: a run that is already going is never restarted, and a
   * run needs at least one topic.  The running check comes first.
   */
  function StartRejection(running: bool, fruits: seq<string>): (err: Option<string>)
    ensures err.None? <==> !running && |fruits| > 0
    ensures running ==> err == Some("Automation is already running")
    ensures !running && |fruits| == 0 ==> err == Some("No fruits provided")
  {
    if running then Some("Automation is already running")
    else if |fruits| == 0 then Some("No fruits provided")
    else None
  }

  /**
   * Which profiles a run uses, and what the server remembers afterwards.
   * For chrome and edge: the requested profiles (which are then remembered),
   * else the remembered ones, else the "Default" directory when asked for.
   * Whatever is left empty becomes the anonymous default profile.
   */
  function ResolveProfiles(browser: string, requested: seq<ProfileTask>,
                           remembered: map<string, seq<ProfileTask>>, useDefault: bool)
    : (r: (seq<ProfileTask>, map<string, seq<ProfileTask>>))
    ensures |r.0| > 0
    ensures HasProfiles(browser) && |requested| > 0 ==>
              r.0 == requested && r.1 == remembered[browser := requested]
    ensures !(HasProfiles(browser) && |requested| > 0) ==> r.1 == remembered
    ensures HasProfiles(browser) && |requested| == 0 && browser in remembered && |remembered[browser]| > 0 ==>
              r.0 == remembered[browser]
    ensures HasProfiles(browser) && |requested| == 0 && (browser !in remembered || |remembered[browser]| == 0) ==>
              r.0 == [if useDefault then DefaultDirectory else AnonymousDefault]
    ensures !HasProfiles(browser) ==> r.0 == [AnonymousDefault]
  {
    if !HasProfiles(browser) then ([AnonymousDefault], remembered)
    else if |requested| > 0 then (requested, remembered[browser := requested])
    else if browser in remembered && |remembered[browser]| > 0 then (remembered[browser], remembered)
    else if useDefault then ([DefaultDirectory], remembered)
    else ([AnonymousDefault], remembered)
  }

  /** `p.get("name") or p.get("directory") or "Default"`: the first non-empty one. */
  function ProfileName(p: ProfileTask): (n: string)
    ensures n != ""
    ensures p.name.Some? && p.name.value != "" ==> n == p.name.value
    ensures (p.name.None? || p.name.value == "") && p.directory.Some? && p.directory.value != "" ==>
              n == p.directory.value
    ensures (p.name.None? || p.name.value == "") && (p.directory.None? || p.directory.value == "") ==>
              n == "Default"
  {
    if p.name.Some? && p.name.value != "" then p.name.value
    else if p.directory.Some? && p.directory.value != "" then p.directory.value
    else "Default"
  }

  function Names(profiles: seq<ProfileTask>): (ns: seq<string>)
    ensures |ns| == |profiles|
    ensures forall i :: 0 <= i < |profiles| ==> ns[i] == ProfileName(profiles[i])
  {
    if |profiles| == 0 then [] else Names(profiles[..|profiles| - 1]) + [ProfileName(profiles[|profiles| - 1])]
  }

  /** Desktop searches per day: 10 at level 1, 32 otherwise. */
  function DesktopQuota(level: int): (q: int)
    ensures level == 1 ==> q == 10
    ensures level != 1 ==> q == 32
  {
    if level == 1 then 10 else 32
  }

  /** Only level 2 unlocks the mobile pass. */
  predicate MobileAllowed(level: int) {
    level == 2
  }

  /** The sum of the desktop quotas over the profile list, one term per list element. */
  function TotalQuota(names: seq<string>, info: map<string, Entry>): int
  {
    if |names| == 0 then 0
    else TotalQuota(names[..|names| - 1], info) + DesktopQuota(LevelOf(info, names[|names| - 1]))
  }

  /** Each profile adds 10 or 32, so the total lies between 10 and 32 per listed profile. */
  lemma {:induction false} TotalQuotaBounds(names: seq<string>, info: map<string, Entry>)
    ensures 10 * |names| <= TotalQuota(names, info) <= 32 * |names|
  {
    if |names| > 0 {
      TotalQuotaBounds(names[..|names| - 1], info);
    }
  }

  /** What a run is seeded with. */
  datatype RunPlan = RunPlan(
    profileProgress: map<string, Progress>,
    eligibility: map<string, Eligibility>,
    mobileProgress: map<string, Progress>,
    total: int)

  /** The plan's per-profile entries for the profiles named in `names`, levels read from `info`. */
  ghost predicate PlanEntries(plan: RunPlan, names: seq<string>, info: map<string, Entry>,
                              mobileEnabled: bool, mobileCount: int)
  {
    && DesktopEntries(plan.profileProgress, names, info)
    && EligibilityEntries(plan.eligibility, names, info)
    && MobileEntries(plan.mobileProgress, names, info, mobileEnabled, mobileCount)
  }

  /** Each listed profile starts at `{done: 0, total: its desktop quota}`. */
  ghost predicate DesktopEntries(m: map<string, Progress>, names: seq<string>, info: map<string, Entry>) {
    && (forall n :: n in m <==> n in names)
    && (forall n :: n in names ==> m[n] == Progress(0, DesktopQuota(LevelOf(info, n))))
  }

  /** Each listed profile is mobile-eligible exactly at level 2. */
  ghost predicate EligibilityEntries(m: map<string, Eligibility>, names: seq<string>, info: map<string, Entry>) {
    && (forall n :: n in m <==> n in names)
    && (forall n :: n in names ==>
          m[n] == Eligibility(MobileAllowed(LevelOf(info, n)),
                              if MobileAllowed(LevelOf(info, n)) then "" else "level < 2"))
  }

  /** A mobile entry exists exactly for the listed, eligible profiles of a mobile run with a positive count. */
  ghost predicate MobileEntries(m: map<string, Progress>, names: seq<string>, info: map<string, Entry>,
                                mobileEnabled: bool, mobileCount: int) {
    && (forall n :: n in m <==> n in names && mobileEnabled && MobileAllowed(LevelOf(info, n)) && mobileCount > 0)
    && (forall n :: n in m ==> m[n] == Progress(0, mobileCount))
  }

  /** The profile store after each of `names` has been normalised for `today`. */
  ghost predicate NormalisedFor(after: map<string, Entry>, before: map<string, Entry>,
                                names: seq<string>, today: string)
  {
    && after.Keys == before.Keys + (set n | n in names)
    && (forall n :: n in names ==> after[n] == Normalise(Lookup(before, n), today))
    && (forall n :: n in before && n !in names ==> after[n] == before[n])
  }

  /** Normalising a record never changes the level any profile runs at. */
  lemma NormaliseKeepsLevels(info: map<string, Entry>, p: string, today: string)
    ensures forall n :: LevelOf(info[p := Normalise(Lookup(info, p), today)], n) == LevelOf(info, n)
  {
  }

  /** One iteration of the quota loop: record the entries of profile `name` at `level`. */
  function AddProfile(plan: RunPlan, name: string, level: int, mobileEnabled: bool, mobileCount: int): RunPlan
  {
    var eligible := MobileAllowed(level);
    RunPlan(plan.profileProgress[name := Progress(0, DesktopQuota(level))],
            plan.eligibility[name := Eligibility(eligible, if eligible then "" else "level < 2")],
            if mobileEnabled && eligible && mobileCount > 0
            then plan.mobileProgress[name := Progress(0, mobileCount)] else plan.mobileProgress,
            plan.total + DesktopQuota(level))
  }

  lemma AddProfileStep(plan: RunPlan, names: seq<string>, name: string, info: map<string, Entry>,
                       mobileEnabled: bool, mobileCount: int)
    requires PlanEntries(plan, names, info, mobileEnabled, mobileCount)
    requires plan.total == TotalQuota(names, info)
    requires ProgressValid(plan.profileProgress)
    requires mobileCount >= 0 ==> ProgressValid(plan.mobileProgress)
    ensures var next := AddProfile(plan, name, LevelOf(info, name), mobileEnabled, mobileCount);
      && PlanEntries(next, names + [name], info, mobileEnabled, mobileCount)
      && next.total == TotalQuota(names + [name], info)
      && ProgressValid(next.profileProgress)
      && (mobileCount >= 0 ==> ProgressValid(next.mobileProgress))
  {
    var next := AddProfile(plan, name, LevelOf(info, name), mobileEnabled, mobileCount);
    assert (names + [name])[..|names|] == names;
    DesktopStep(plan.profileProgress, names, name, info);
    EligibilityStep(plan.eligibility, names, name, info);
    MobileStep(plan.mobileProgress, next.mobileProgress, names, name, info, mobileEnabled, mobileCount);
  }

  lemma DesktopStep(m: map<string, Progress>, names: seq<string>, name: string, info: map<string, Entry>)
    requires DesktopEntries(m, names, info)
    ensures DesktopEntries(m[name := Progress(0, DesktopQuota(LevelOf(info, name)))], names + [name], info)
  {
  }

  lemma EligibilityStep(m: map<string, Eligibility>, names: seq<string>, name: string, info: map<string, Entry>)
    requires EligibilityEntries(m, names, info)
    ensures var eligible := MobileAllowed(LevelOf(info, name));
      EligibilityEntries(m[name := Eligibility(eligible, if eligible then "" else "level < 2")], names + [name], info)
  {
  }

  lemma MobileStep(m: map<string, Progress>, m': map<string, Progress>, names: seq<string>, name: string,
                   info: map<string, Entry>, mobileEnabled: bool, mobileCount: int)
    requires MobileEntries(m, names, info, mobileEnabled, mobileCount)
    requires m' == if mobileEnabled && MobileAllowed(LevelOf(info, name)) && mobileCount > 0
                   then m[name := Progress(0, mobileCount)] else m
    ensures MobileEntries(m', names + [name], info, mobileEnabled, mobileCount)
  {
  }

  lemma NormalisedForStep(after: map<string, Entry>, before: map<string, Entry>,
                          names: seq<string>, name: string, today: string)
    requires NormalisedFor(after, before, names, today)
    ensures NormalisedFor(after[name := Normalise(Lookup(after, name), today)], before, names + [name], today)
  {
    if name in names {
      NormaliseIdempotent(Lookup(before, name), today);
    }
  }

  /**
   * The quota loop of start: normalise each profile's record, then derive its
   * desktop quota, its mobile eligibility and (when the run has mobile on,
   * the profile is eligible and the mobile count is positive) its mobile
   * entry; the total counts every listed profile, repeats included.
   */
  method PlanQuotas(store: ProfileInfoStore, profiles: seq<ProfileTask>, today: string,
                    mobileEnabled: bool, mobileCount: int) returns (plan: RunPlan)
    modifies store
    ensures PlanEntries(plan, Names(profiles), old(store.info), mobileEnabled, mobileCount)
    ensures plan.total == TotalQuota(Names(profiles), old(store.info))
    ensures NormalisedFor(store.info, old(store.info), Names(profiles), today)
    ensures ProgressValid(plan.profileProgress)
    ensures mobileCount >= 0 ==> ProgressValid(plan.mobileProgress)
  {
    ghost var info0 := store.info;
    ghost var names := Names(profiles);
    plan := RunPlan(map[], map[], map[], 0);
    for i := 0 to |profiles|
      invariant PlanEntries(plan, names[..i], info0, mobileEnabled, mobileCount)
      invariant plan.total == TotalQuota(names[..i], info0)
      invariant NormalisedFor(store.info, info0, names[..i], today)
      invariant forall n :: LevelOf(store.info, n) == LevelOf(info0, n)
      invariant ProgressValid(plan.profileProgress)
      invariant mobileCount >= 0 ==> ProgressValid(plan.mobileProgress)
    {
      var name := ProfileName(profiles[i]);
      NormaliseKeepsLevels(store.info, name, today);
      NormalisedForStep(store.info, info0, names[..i], name, today);
      AddProfileStep(plan, names[..i], name, info0, mobileEnabled, mobileCount);
      var entry := store.GetOrInitProfile(name, today);
      plan := AddProfile(plan, name, entry.level.GetOr(1), mobileEnabled, mobileCount);
      PrefixSnoc(names, i);
    }
    assert names[..|profiles|] == names;
  }

  lemma PrefixSnoc<T>(s: seq<T>, i: int)
    requires 0 <= i < |s|
    ensures s[..i + 1] == s[..i] + [s[i]]
  {
  }

  /** The server's memory of the last profiles chosen per browser. */
  class SelectionMemory {
    var selected: map<string, seq<ProfileTask>>

    constructor ()
      ensures selected == map["chrome" := [], "edge" := []]
    {
      selected := map["chrome" := [], "edge" := []];
    }

    method Remember(browser: string, profiles: seq<ProfileTask>)
      modifies this
      ensures selected == old(selected)[browser := profiles]
    {
      selected := selected[browser := profiles];
    }
  }

  /**
   * start: refuse while a run is going or without topics, changing nothing;
   * otherwise choose the profiles, seed the shared record from their quotas
   * and hand the profiles to the worker.
   */
  method StartAutomation(st: RunState, memory: SelectionMemory, store: ProfileInfoStore,
                         req: StartRequest, today: string, mobileCount: int)
    returns (r: Result<seq<ProfileTask>, string>)
    modifies st, memory, store
    ensures StartRejection(old(st.isRunning), req.fruits).Some? ==>
              && r == Err(StartRejection(old(st.isRunning), req.fruits).value)
              && st.Snap() == old(st.Snap()) && memory.selected == old(memory.selected)
              && store.info == old(store.info)
    ensures StartRejection(old(st.isRunning), req.fruits).None? ==>
              var chosen := ResolveProfiles(req.browser, req.selectedProfiles, old(memory.selected),
                                            req.useDefaultIfNoProfile);
              && r == Ok(chosen.0)
              && memory.selected == chosen.1
              && st.isRunning && !st.isPaused && st.completed == 0
              && st.status == "Starting automation..."
              && st.currentSearch == old(st.currentSearch) && st.currentProfile == old(st.currentProfile)
              && st.mobileEnabled == req.mobileEnabled
              && st.total == TotalQuota(Names(chosen.0), old(store.info))
              && PlanEntries(RunPlan(st.profileProgress, st.profileEligibility, st.mobileProgress, st.total),
                             Names(chosen.0), old(store.info), req.mobileEnabled, mobileCount)
              && NormalisedFor(store.info, old(store.info), Names(chosen.0), today)
              && (mobileCount >= 0 ==> st.Valid())
  {
    var err := StartRejection(st.isRunning, req.fruits);
    if err.Some? {
      return Err(err.value);
    }
    var chosen := ResolveProfiles(req.browser, req.selectedProfiles, memory.selected,
                                  req.useDefaultIfNoProfile);
    if HasProfiles(req.browser) && |req.selectedProfiles| > 0 {
      memory.Remember(req.browser, req.selectedProfiles);
    }
    var plan := PlanQuotas(store, chosen.0, today, req.mobileEnabled, mobileCount);
    st.Begin(plan.total, plan.profileProgress, plan.eligibility, req.mobileEnabled, plan.mobileProgress);
    r := Ok(chosen.0);
  }
}
