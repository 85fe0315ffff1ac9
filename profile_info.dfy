/**
 * The per-profile daily record kept in profile_info.json: the profile's level
 * and how many desktop ("PC") and mobile searches it has made today.  The file
 * is modelled as the in-memory dictionary it is loaded into; the current date
 * is a parameter.
 */
module ProfileInfo {
  import opened Wrappers

  /**
   * One dictionary of the file.  A key that is absent (or null) is `None`.
   */
  datatype Entry = Entry(
    date: Option<string>,
    level: Option<int>,
    pcSearches: Option<int>,
    mobileSearches: Option<int>,
    error: Option<string>)

  /** `2 if level == 2 else 1`, where an absent level reads as 1. */
  function NormalLevel(level: Option<int>): (l: int)
    ensures l == 1 || l == 2
    ensures l == 2 <==> level == Some(2)
  {
    if level.GetOr(1) == 2 then 2 else 1
  }

  /** An entry as get_or_init_profile leaves it for `today`. */
  ghost predicate Normalised(e: Entry, today: string) {
    && e.date == Some(today)
    && (e.level == Some(1) || e.level == Some(2))
    && e.pcSearches.Some?
    && e.mobileSearches.Some?
  }

  /**
   * The entry get_or_init_profile produces from the stored one (absent: `None`).
   * A record from another day starts the day over with zero searches; a record
   * of today keeps its counters (absent ones become 0).  Either way the error
   * note survives and the level is normalised to 1 or 2.
   */
  function Normalise(stored: Option<Entry>, today: string): (e: Entry)
    ensures Normalised(e, today)
    ensures e.level == Some(NormalLevel(if stored.Some? then stored.value.level else None))
    ensures e.error == (if stored.Some? then stored.value.error else None)
    ensures stored.None? || stored.value.date != Some(today) ==>
              e.pcSearches == Some(0) && e.mobileSearches == Some(0)
    ensures stored.Some? && stored.value.date == Some(today) ==>
              e.pcSearches == Some(stored.value.pcSearches.GetOr(0)) &&
              e.mobileSearches == Some(stored.value.mobileSearches.GetOr(0))
  {
    var e0 := stored.GetOr(Entry(None, None, None, None, None));
    var level := NormalLevel(e0.level);
    if e0.date != Some(today) then
      Entry(Some(today), Some(level), Some(0), Some(0), e0.error)
    else
      Entry(Some(today), Some(level), Some(e0.pcSearches.GetOr(0)),
            Some(e0.mobileSearches.GetOr(0)), e0.error)
  }

  /** Normalising a record a second time the same day changes nothing. */
  lemma NormaliseIdempotent(stored: Option<Entry>, today: string)
    ensures Normalise(Some(Normalise(stored, today)), today) == Normalise(stored, today)
  {
  }

  /** The level a profile is run at today depends only on its stored level. */
  lemma NormaliseKeepsLevel(stored: Option<Entry>, today: string, tomorrow: string)
    ensures Normalise(Some(Normalise(stored, today)), tomorrow).level
         == Normalise(stored, today).level
  {
  }

  /** The level a profile runs at, read from the stored dictionary. */
  function LevelOf(info: map<string, Entry>, profile: string): (l: int)
    ensures l == 1 || l == 2
  {
    NormalLevel(if profile in info then info[profile].level else None)
  }

  /**
   * `api_set_level`'s validation: a profile name must be given and the level
   * must be 1 or 2.  An absent level reads as 1.
   */
  function ValidateLevelRequest(profile: Option<string>, level: Option<int>): (r: Result<(string, int), string>)
    ensures r.Ok? <==> profile.Some? && profile.value != "" && level.GetOr(1) in {1, 2}
    ensures r.Ok? ==> r.value == (profile.value, level.GetOr(1))
    ensures (profile.None? || profile.value == "") ==> r == Err("missing profile")
  {
    if profile.None? || profile.value == "" then Err("missing profile")
    else if level.GetOr(1) !in {1, 2} then Err("level must be 1 or 2")
    else Ok((profile.value, level.GetOr(1)))
  }

  /** The profile_info.json document. */
  class ProfileInfoStore {
    var info: map<string, Entry>

    constructor (stored: map<string, Entry>)
      ensures info == stored
    {
      info := stored;
    }

    /**
     * get_or_init_profile: normalise the profile's record for today, store it
     * and return it.  No other profile's record changes.
     */
    method GetOrInitProfile(profile: string, today: string) returns (entry: Entry)
      modifies this
      ensures entry == Normalise(Lookup(old(info), profile), today)
      ensures info == old(info)[profile := entry]
    {
      entry := Normalise(Lookup(info, profile), today);
      info := info[profile := entry];
    }

    /** set_level: the normalised record with the level replaced (2 stays 2, anything else is 1). */
    method SetLevel(profile: string, level: int, today: string)
      modifies this
      ensures profile in info && Normalised(info[profile], today)
      ensures info[profile] == Normalise(Lookup(old(info), profile), today).(level := Some(if level == 2 then 2 else 1))
      ensures forall p :: p != profile ==> Lookup(info, p) == Lookup(old(info), p)
    {
      var entry := GetOrInitProfile(profile, today);
      entry := entry.(level := Some(if level == 2 then 2 else 1));
      info := info[profile := entry];
    }

    /**
     * bump_profile_progress: add `delta` to today's PC counter when `isPc`,
     * to the mobile counter otherwise.  The other counter, the level and the
     * error note are those of the normalised record.
     */
    method BumpProfileProgress(profile: string, isPc: bool, delta: int, today: string)
      modifies this
      ensures profile in info && Normalised(info[profile], today)
      ensures info[profile] == Bumped(Lookup(old(info), profile), isPc, delta, today)
      ensures forall p :: p != profile ==> Lookup(info, p) == Lookup(old(info), p)
    {
      var entry := GetOrInitProfile(profile, today);
      if isPc {
        entry := entry.(pcSearches := Some(entry.pcSearches.GetOr(0) + delta));
      } else {
        entry := entry.(mobileSearches := Some(entry.mobileSearches.GetOr(0) + delta));
      }
      info := info[profile := entry];
    }
  }

  /**
   * What a bump does to the counters of a record, stated against the counters
   * of the record before it: on the same day the chosen counter grows by
   * `delta` and the other one is kept; on a new day the chosen counter is
   * `delta` and the other one 0.
   */
  function Bumped(stored: Option<Entry>, isPc: bool, delta: int, today: string): (e: Entry)
    ensures Normalised(e, today)
    ensures e.level == Normalise(stored, today).level && e.error == Normalise(stored, today).error
    ensures var sameDay := stored.Some? && stored.value.date == Some(today);
      var pc := if sameDay then stored.value.pcSearches.GetOr(0) else 0;
      var mob := if sameDay then stored.value.mobileSearches.GetOr(0) else 0;
      e.pcSearches == Some(if isPc then pc + delta else pc) &&
      e.mobileSearches == Some(if isPc then mob else mob + delta)
  {
    var n := Normalise(stored, today);
    if isPc then n.(pcSearches := Some(n.pcSearches.value + delta))
    else n.(mobileSearches := Some(n.mobileSearches.value + delta))
  }

  /** Two bumps on the same day add up: the counter grows by the sum of the deltas. */
  lemma BumpsAccumulate(stored: Option<Entry>, isPc: bool, d1: int, d2: int, today: string)
    ensures Bumped(Some(Bumped(stored, isPc, d1, today)), isPc, d2, today)
         == Bumped(stored, isPc, d1 + d2, today)
  {
  }

  /**
   * Today's PC (`isPc`) or mobile search count of a profile: the stored
   * counter when the record is from today (absent: 0), else 0.
   */
  function TodayCount(info: map<string, Entry>, profile: string, today: string, isPc: bool): int
  {
    match Lookup(info, profile)
    case Some(e) =>
      if e.date != Some(today) then 0
      else if isPc then e.pcSearches.GetOr(0) else e.mobileSearches.GetOr(0)
    case None => 0
  }

  /** The count is what get_or_init_profile would report for the profile today. */
  lemma TodayCountIsNormalised(info: map<string, Entry>, profile: string, today: string, isPc: bool)
    ensures var e := Normalise(Lookup(info, profile), today);
      TodayCount(info, profile, today, isPc) == if isPc then e.pcSearches.value else e.mobileSearches.value
  {
  }

  /**
   * A bump of one counter of one profile raises today's count of exactly that
   * counter of that profile by `delta`; every other count stays as it was.
   */
  lemma BumpRaisesOneCount(info: map<string, Entry>, profile: string, isPc: bool, delta: int, today: string)
    ensures Raised(info[profile := Bumped(Lookup(info, profile), isPc, delta, today)], info, today,
                   profile, if isPc then delta else 0, if isPc then 0 else delta)
  {
  }

  /**
   * From `before` to `after`, today's PC count of `profile` rose by `pc`, its
   * mobile count by `mobile`, and no other count changed.
   */
  ghost predicate Raised(after: map<string, Entry>, before: map<string, Entry>, today: string,
                         profile: string, pc: int, mobile: int) {
    forall n, b :: TodayCount(after, n, today, b) ==
                   TodayCount(before, n, today, b) + (if n == profile then (if b then pc else mobile) else 0)
  }

  /** Raises of the same profile add up. */
  lemma RaisedTrans(a: map<string, Entry>, b: map<string, Entry>, c: map<string, Entry>, today: string,
                    profile: string, pc1: int, mobile1: int, pc2: int, mobile2: int)
    requires Raised(b, a, today, profile, pc1, mobile1)
    requires Raised(c, b, today, profile, pc2, mobile2)
    ensures Raised(c, a, today, profile, pc1 + pc2, mobile1 + mobile2)
  {
  }
}
