# Search-run controller: a verified model

The system is a small Flask server (`app.py`) that drives daily web searches
through one or more browser profiles. A start request chooses the profiles.
It reads each profile's level from `profile_info.json`, which gives that
profile's desktop quota (10 or 32) and whether it may run mobile searches.
It then seeds a shared `state` record and starts a background worker.

For each profile the worker:
1. types its desktop queries into a browser window;
2. once more than two profiles are done, kills the browser's windows (on
   Windows every window of that browser) and terminates the oldest tracked
   browser process;
3. when the profile is due for mobile searches, runs them through a
   browser-automation session, falling back to a mobile-user-agent window;
4. counts every query in the shared record and in the profile's daily
   counters.

Stop, pause and resume requests flip flags in the shared record. A
`finally` teardown always ends the run. A second part of the server makes
search topics: it asks Gemini or OpenAI, or uses an offline template
generator, then cleans, dedups and pads the model's reply.

The model covers that bookkeeping. Every browser launch, keystroke and
automation action is opaque. It is a step that may produce a process or
not, and may fail, but its effect on the outside world is not modelled.
The outside world is a script of parameters:
- what other threads did before each look at the running flag;
- which launches produced a process;
- how each automation session went;
- whether automation is installed;
- the current date;
- the environment variables;
- the language model's reply.

Modules:
- `Queries`: the topic cycler `_build_queries`.
- `ProfileInfo`: the daily per-profile record and its updates. The JSON file
  is a `map` held by the class `ProfileInfoStore`.
- `SharedState`: the shared run record as the class `RunState`, together
  with the clamped progress step and the stop, pause, resume and teardown
  operations.
- `RunSetup`: the start guard, profile resolution, quota loop and
  `start_automation`.
- `Worker`: `automation_worker`, covering the desktop and mobile passes, the
  window cap, the mobile gate, the automation-or-fallback branch and the
  teardown.
- `PyStrings`: the Python string built-ins the generators rely on.
- `QueryGeneration`: the template generator, reply clean-up, AI
  configuration, provider choice and request clamp.

Headline results:
- `Worker.AutomationWorker`: when nothing stops a run, every profile ends
  with full progress entries and `completed` equals the desktop demand.
- `Worker.SeededRunMeetsTotal`: for profiles with non-empty names, that
  demand equals the total `start` recorded.
- `Worker.AutomationWorker`: on every run, stopped or not, the desktop
  queries issued never exceed that demand.
- `Worker.AutomationWorker`: today's counters record exactly the queries
  issued, per profile.

Not every run completes. The worker reads a profile's `name` directly,
while `start` falls back to the directory and then to "Default". A profile
without a non-empty name is therefore tracked under different names by the
two. `Worker.SeededRunMeetsTotal` requires names to be present for this
reason, and `Worker.EmptyNameOverrunsTotal` shows a profile with an empty
name whose run issues more desktop queries than the total `start` recorded.

## Model

| member | source | states |
|---|---|---|
| Queries.BuildQueries | app.py:331-338 | an empty topic list or a count of 0 or less gives []; otherwise exactly `count` queries with query i equal to topic i mod the number of topics; a count within the list length gives its prefix |
| ProfileInfo.NormalLevel | app.py:114-124 | the level is 1 or 2, and 2 exactly when the stored level is 2 |
| ProfileInfo.Normalise | app.py:112-127 | the record is dated today with level 1 or 2 and the error note kept; another day's record (or none) restarts both counters at 0; today's record keeps its counters |
| ProfileInfo.NormaliseIdempotent | app.py:112-127 | normalising today's record again changes nothing |
| ProfileInfo.NormaliseKeepsLevel | app.py:112-127 | the level survives a change of day |
| ProfileInfo.LevelOf | app.py:754-755 | the level a profile runs at is 1 or 2 |
| ProfileInfo.ValidateLevelRequest | app.py:680-686 | accepted exactly when a non-empty profile is given and the level (default 1) is 1 or 2; a missing profile is reported as such |
| ProfileInfo.ProfileInfoStore.constructor | app.py:106-107 | the store holds the loaded records |
| ProfileInfo.ProfileInfoStore.GetOrInitProfile | app.py:112-127 | returns the normalised record and stores it; no other record changes |
| ProfileInfo.ProfileInfoStore.SetLevel | app.py:129-134 | the normalised record with level 2 if asked for 2, else 1; other profiles untouched |
| ProfileInfo.ProfileInfoStore.BumpProfileProgress | app.py:136-142 | the stored record is the normalised one with exactly the chosen counter raised by delta; other profiles untouched |
| ProfileInfo.Bumped | app.py:136-142 | same day: the chosen counter grows by delta and the other is kept; new day: the chosen counter is delta and the other 0; level and error as normalised |
| ProfileInfo.BumpsAccumulate | app.py:136-142 | two bumps of one counter on one day add up |
| ProfileInfo.TodayCountIsNormalised | app.py:112-127 | today's count is the counter get_or_init_profile would report |
| ProfileInfo.BumpRaisesOneCount | app.py:136-142 | a bump raises today's count of exactly one counter of one profile by delta; every other count is unchanged |
| ProfileInfo.RaisedTrans | app.py:136-142 | successive raises of one profile add up |
| SharedState.Advance | app.py:500-502 | one step keeps the total and moves done up by one, or to the total when it is already there |
| SharedState.AdvanceTimesClamps | app.py:500-502 | n steps from a valid entry give done = min(done + n, total) |
| SharedState.AdvanceTimesAdd | app.py:500-502 | a steps then b steps are a + b steps |
| SharedState.AdvanceEntry | app.py:500-502 | only the named profile's entry steps, an untracked profile changes nothing, and validity, the keys and the totals are kept with no done lost |
| SharedState.AdvanceOrOpen | app.py:571-575 | setdefault then step: a missing entry starts at {0, count}; others untouched; a valid map stays valid and loses nothing |
| SharedState.FinalStatus | app.py:641 | "Automation completed" exactly when completed >= total, else "Automation stopped" |
| SharedState.RunState.constructor | app.py:58-72 | the initial record: idle, "Ready", nothing tracked |
| SharedState.RunState.Begin | app.py:766-774 | the run is seeded: running, not paused, completed 0, the given total and maps; the current fields keep their values |
| SharedState.RunState.Stop | app.py:796-802 | a running record stops with status "Stopping automation..."; an idle one is unchanged |
| SharedState.RunState.Pause | app.py:804-810 | a running record is paused with status "Paused"; an idle one is unchanged |
| SharedState.RunState.Resume | app.py:812-818 | a running record is unpaused with status "Resuming..."; an idle one is unchanged |
| SharedState.RunState.Interleave | app.py:311-317 | what other threads do between two looks changes only the flags and the status, never restarts a run, and a run that goes on is not left paused |
| SharedState.RunState.RecordDesktopQuery | app.py:495-502 | completed takes the worker's count and the profile's entry steps once; nothing else changes |
| SharedState.RunState.OpenMobileEntry | app.py:543-545 | a missing mobile entry is created as {0, count}; nothing else changes |
| SharedState.RunState.RecordMobileQuery | app.py:571-575 | the profile's mobile entry steps once (created if missing); nothing else changes |
| SharedState.RunState.ShowProfile | app.py:464-466 | only the current profile and the status change |
| SharedState.RunState.ShowSearch | app.py:483-485 | only the current search and the status change |
| SharedState.RunState.ShowStatus | app.py:527-528 | only the status changes |
| SharedState.RunState.Teardown | app.py:638-644 | not running, not paused, empty current fields, status "completed" exactly when completed >= total; counters and maps kept |
| RunSetup.StartRejection | app.py:714-727 | a start is accepted exactly when no run is going and topics are given; the running check wins |
| RunSetup.ResolveProfiles | app.py:731-742 | chrome/edge: the requested profiles (remembered), else the remembered ones, else the Default directory if asked; anything else or nothing: the anonymous Default; never empty |
| RunSetup.ProfileName | app.py:753 | the first non-empty of name, directory, "Default" |
| RunSetup.Names | app.py:752-753 | one name per profile, in order |
| RunSetup.DesktopQuota | app.py:756 | 10 at level 1, 32 otherwise |
| RunSetup.TotalQuotaBounds | app.py:749-761 | the run total lies between 10 and 32 per listed profile |
| RunSetup.NormaliseKeepsLevels | app.py:751-755 | normalising a record while planning never changes any profile's level |
| RunSetup.AddProfileStep | app.py:752-763 | one loop iteration keeps the plan's entries, total and validity for the names so far |
| RunSetup.DesktopStep | app.py:758 | the desktop entry of the added profile is {0, its quota} |
| RunSetup.EligibilityStep | app.py:760 | the added profile is eligible exactly at level 2, reason "level < 2" otherwise |
| RunSetup.MobileStep | app.py:762-763 | a mobile entry is added exactly when mobile is on, the profile is eligible and the count is positive |
| RunSetup.NormalisedForStep | app.py:754 | the store stays the normalised image of the profiles so far |
| RunSetup.PlanQuotas | app.py:744-764 | each profile: desktop entry {0, 10 or 32}, eligible exactly at level 2, a mobile entry only when enabled, eligible and count > 0; total = sum of quotas over the list; each record normalised |
| RunSetup.SelectionMemory.constructor | app.py:73 | nothing remembered for chrome or edge |
| RunSetup.SelectionMemory.Remember | app.py:736 | only the browser's remembered selection changes |
| RunSetup.StartAutomation | app.py:711-774 | refused while running or without topics, with nothing changed; otherwise the chosen profiles, the remembered selection, and a running, unpaused record seeded with the planned total and entries, the current search and profile kept |
| Worker.CapWindows | app.py:511-530 | past two completed profiles the oldest profile and the oldest tracked process (if any) go; otherwise nothing changes |
| Worker.CapKeepsWindowsBounded | app.py:511-530 | after a profile is appended and the cap applied, at most two profiles remain, the newest kept, and at most the oldest process dropped |
| Worker.Launched | app.py:470-472 | a launch adds its process exactly when it produced one |
| Worker.DesktopTurn | app.py:476-507 | after the running check a query goes on only if still running; it shows the search, counts in completed, steps the entry and raises today's PC count by 1 |
| Worker.MobileTurn | app.py:555-579 | same for one mobile query: shown with " [m]", steps the mobile entry, raises today's mobile count by 1 |
| Worker.DesktopPass | app.py:475-509 | completed rises by exactly the queries attempted, the entry steps that many times, today's PC count rises by the same; with no stop every query is attempted |
| Worker.MobilePass | app.py:594-622 | the mobile entry steps once per attempted query and today's mobile count rises by the same; with no stop every query is attempted |
| Worker.AdvanceEntryTimesNoLoss | app.py:500-502 | repeated clamped steps keep validity, keys and totals, lose nothing, and enough steps fill the entry |
| Worker.DesktopPhase | app.py:463-530 | the profile is shown, its window launched, at most its quota (tracked total, else one per topic) run, and the cap applied; with no stop the whole quota runs and the entry ends full |
| Worker.MobileEntryGrowth | app.py:543-575 | after the gate's entry and n steps the mobile map is valid, loses nothing, keeps totals within the count, and count steps fill the entry |
| Worker.MobilePhase | app.py:532-622 | outside the gate nothing changes; through it the entry is opened and stepped once per query, at most count queries (five stock ones without topics) run, and the fallback window is used exactly when no session opened |
| Worker.GatedMobile | app.py:543-622 | the mobile half past the gate: the entry is opened and stepped once per query, at most count queries (five without topics) run; with no stop and some topics exactly `count` run, through the session or else the window, and a new entry ends at {count, count} |
| Worker.MobileRuns | app.py:550-622 | at most the built queries run, through the session when automation is installed and the session opens, otherwise through a newly launched mobile-UA window; never both |
| Worker.ProcessesOutgrowCap | app.py:511-591 | the cap bounds the completed profiles, not the processes: three profiles can leave five tracked processes |
| Worker.TrackingBounds | app.py:511-591 | one profile's bookkeeping keeps at most two completed profiles and grows the processes by at most two |
| Worker.RunProfile | app.py:460-622 | one profile's desktop then mobile half: counts, today's counters and the window bookkeeping exactly; desktop queries within the profile's quota; with no stop the profile ends finished |
| Worker.VisitProfile | app.py:454-460 | a stopped run or a nameless profile ends the loop with nothing counted; otherwise the profile is run under its name, within its desktop quota |
| Worker.WorkerProfiles | app.py:446-447 | the given profiles, or the anonymous Default when none are given |
| Worker.TaskNames | app.py:460 | the names the worker reads, one per profile |
| Worker.FinishedPreserved | app.py:500-502 | a finished profile stays finished as the run goes on |
| Worker.TalliedStep | app.py:505-577 | the per-profile query logs stay equal to the raise of today's counters |
| Worker.OnTrackStep | app.py:454-622 | an uninterrupted run stays on track profile after profile |
| Worker.RunProfiles | app.py:453-622 | today's counters rise by exactly the logged queries; completed is the desktop log's size and never exceeds the demand; with no stop every profile is run and finished |
| Worker.DemandStep | app.py:495-502 | one more profile adds its desktop quota to the demand |
| Worker.DemandPrefixBound | app.py:453-502 | the demand of the profiles run so far is at most the demand of all of them |
| Worker.AutomationWorker | app.py:444-644 | teardown always: not running, not paused, nothing current, status by completed >= total; counters tallied; the desktop queries never exceed the demand; with no stop completed equals the demand and every profile is finished |
| Worker.DemandIsSeededTotal | app.py:744-761 | over seeded profiles the worker's demand equals the sum of the quotas |
| Worker.NamedTasksAgree | app.py:753 | with every name given and non-empty, the worker and start read the same names |
| Worker.SeededRunMeetsTotal | app.py:744-774 | for named profiles, the worker's demand equals the total start recorded |
| Worker.EmptyNameOverrunsTotal | app.py:753-758 | a profile with an empty name and a directory: start records a total of 10 under the directory, the worker's demand with eleven topics is 11 |
| PyStrings.Lower | app.py:942 | same length, character-wise lower case, no upper-case letter left |
| PyStrings.LowerIdempotent | app.py:942 | lowering twice is lowering once |
| PyStrings.StripLeft | app.py:970 | a suffix of the text whose dropped prefix is all in the class and which does not start with one |
| PyStrings.StripLeftPrefix | app.py:970 | a prefix entirely in the class is dropped whatever follows |
| PyStrings.StripRight | app.py:970 | the mirror of StripLeft |
| PyStrings.Strip | app.py:970 | no longer than the text, no white space at either end, and empty exactly when the text is all white space |
| PyStrings.StripBothWindow | app.py:970 | stripping both ends with any character class (for white space this is `Strip`, i.e. `s.strip()`) leaves the contiguous window of the text that starts where the stripped prefix ends |
| PyStrings.StripBothTail | app.py:970 | after that window the text holds only stripped characters (white space, for `strip`) |
| PyStrings.StripTrimmed | app.py:970 | text with no white space at its ends is its own strip |
| PyStrings.SplitWhere | app.py:970 | one more piece than the text has separators, none containing a separator, and putting the separators back between the pieces gives the text |
| PyStrings.Split | app.py:935 | at least one piece, none containing the separator |
| PyStrings.JoinSplit | app.py:935 | joining the pieces with the separator gives the text back |
| PyStrings.SplitLines | app.py:970 | one more line than the text has line breaks, none containing a break, and putting the breaks back gives the text |
| PyStrings.ReplaceAbsent | app.py:935 | text without the pattern is unchanged |
| PyStrings.ReplaceLeading | app.py:935 | a leading occurrence is replaced and the rest processed |
| PyStrings.SliceTo | app.py:945 | the Python slice `[:n]`: the first min(n, len) items, or all but the last -n |
| QueryGeneration.NonBlank | app.py:935 | at most one result per piece, each non-empty with no white space at either end |
| QueryGeneration.NonBlankOne | app.py:935 | one piece is kept, stripped, exactly when it is not blank |
| QueryGeneration.NonBlankAppend | app.py:935 | the filter works piece by piece: the pieces of a concatenation are those of each part, in order |
| QueryGeneration.Parts | app.py:935 | at least one part; either the whole seed or only non-empty parts |
| QueryGeneration.SingleTopic | app.py:935 | a seed with no comma and no " and " is a single part |
| QueryGeneration.PartsAtCommas | app.py:935 | without " and ", the parts are the stripped non-blank comma pieces of the seed, or the whole seed when none is left |
| QueryGeneration.PartsAtAnd | app.py:935 | "x and y" for two one-word topics gives the parts x and y, as "x,y" would |
| QueryGeneration.Generated | app.py:936-939 | exactly n queries, query j being template j mod 30 filled with part j mod the number of parts |
| QueryGeneration.FirstOccurrences | app.py:940-944 | never longer than the input; without dropping, the first item is kept |
| QueryGeneration.FirstOccurrencesSound | app.py:940-944 | kept items come from the input, none empty when empties are dropped, no two equal ignoring case |
| QueryGeneration.FirstOccurrencesCover | app.py:940-944 | every input item's lower-cased form is kept (bar dropped empties) |
| QueryGeneration.FirstIndicesSpec | app.py:940-944 | the reference positions are increasing, each holds the first item of its case-insensitive class, and every such position is listed |
| QueryGeneration.FirstOccurrencesKeepFirst | app.py:972-975 | the dedup keeps exactly the first item of each case-insensitive class, in input order (bar empties, when dropped) |
| QueryGeneration.DedupCaseless | app.py:940-944 | the loop with its `seen` set computes the first occurrences |
| QueryGeneration.FallbackQueries | app.py:923-945 | none for a count of 0 or less, else 1 to count queries, the first being the first template on the first part |
| QueryGeneration.FallbackDistinct | app.py:940-945 | the offline queries are distinct ignoring case |
| QueryGeneration.FallbackFromTemplates | app.py:925-945 | every offline query is a template filled with a topic part |
| QueryGeneration.FirstOfflineQuery | app.py:925-945 | the first offline query is "what is " followed by the first part |
| QueryGeneration.FallbackGenerateQueries | app.py:923-945 | the offline generator computes FallbackQueries on the seed's parts |
| QueryGeneration.CycleTemplates | app.py:936-945 | the generation loop, dedup and cut compute FallbackQueries |
| QueryGeneration.CleanLine | app.py:970 | never longer than the line, no white space at either end |
| QueryGeneration.CleanLineKeepsPlain | app.py:970 | a trimmed line without a leading marker is kept as it is |
| QueryGeneration.CleanLineDropsMarkers | app.py:970 | a run of markers before the text is dropped |
| QueryGeneration.CleanLineDropsLeadingNumber | app.py:970 | digits belong to the markers, so "1. 2025 budget phones" becomes "budget phones" |
| QueryGeneration.UniqueLines | app.py:969-975 | the reply's distinct lines: non-empty and no two equal ignoring case |
| QueryGeneration.Settled | app.py:976-980 | no lines: the offline queries; fewer than count: the lines then offline queries for the shortfall; 1 to count queries for a positive count |
| QueryGeneration.SettledKeepsReply | app.py:976-980 | the reply's lines, up to count of them, open the result |
| QueryGeneration.ReplyQueries | app.py:969-980 | the post-processing of a reply is Settled on its distinct lines |
| QueryGeneration.PadOrCut | app.py:976-980 | the pad-or-cut step computes Settled |
| QueryGeneration.Loaded | app.py:863-868 | missing keys get "auto", the Gemini and OpenAI defaults; present ones are kept whole |
| QueryGeneration.LoadedIdempotent | app.py:863-868 | loading a loaded configuration changes nothing |
| QueryGeneration.Merged | app.py:899-920 | a known provider is stored, else the loaded one kept; only the named vendor changes; clear empties its key |
| QueryGeneration.MergeUpdatesVendor | app.py:910-916 | for the named vendor: clear empties the key, else a non-blank stripped key replaces it, else it is kept; a non-blank stripped model replaces the model, else it is kept; the other vendor stays as loaded |
| QueryGeneration.MergeIdempotent | app.py:899-920 | applying the same request twice equals applying it once |
| QueryGeneration.MergeStoresKey | app.py:911-915 | a non-clearing request with a key stores it, stripped, for whichever vendor it names |
| QueryGeneration.AiConfigStore.constructor | app.py:863-864 | the store holds the saved configuration |
| QueryGeneration.AiConfigStore.Update | app.py:899-920 | the in-place update leaves exactly Merged of the old configuration |
| QueryGeneration.ChooseProvider | app.py:1026-1050 | offline exactly when neither key is known; an asked vendor with a key is honoured; otherwise Gemini beats OpenAI; key and model from the environment, else the saved config |
| QueryGeneration.UnknownPreferenceIgnored | app.py:1029-1030 | an unrecognised preference gives the same choice as none |
| QueryGeneration.PreferenceWins | app.py:1029-1031 | a named vendor overrides the saved and environment provider |
| QueryGeneration.GenerateQueries | app.py:1039-1050 | reports the chosen provider; offline or a failed call gives the offline queries; a reply gives Settled on its lines; 1 to count queries |
| QueryGeneration.ClampCount | app.py:1061 | absent or 0 gives 30; within 1..200 kept; above 200 gives 200; below 1 gives 1 |
| QueryGeneration.RequestedProvider | app.py:1063 | the lower-cased provider; absent or empty gives no preference |
| QueryGeneration.AiGenerate | app.py:1052-1069 | between 1 and the clamped count (at most 200) queries and the provider used; offline or a failed call gives the offline queries on the stripped prompt; a reply gives Settled on its distinct lines |

## Left out

- HTTP: the Flask routes, request parsing, JSON replies and status codes. Only the decisions they make are modelled.
- Files: `profile_info.json`, `ai_config.json` and `fruits.json` are in-memory values, and their secure writes are not modelled. Saving generated topics (the `save` flag of `api_ai_generate`) is not modelled.
- Threads and the lock: another thread's effect is a `Control` value applied at each look at the running flag. A pause that is never resumed or stopped blocks the worker forever and is not modelled.
- Timing and floats: sleeps, `delay`, the random intervals and the `progress` percentage.
- Profile discovery, the browser launch commands, `close_browser_windows`, process termination and `MobileSearcher` internals. Each launch just produces a process or not.
- Keystroke failures and failing single automation searches are swallowed and change nothing. Closing a session swallows its own errors too (app.py:365-378), so only a session that fails to open is modelled.
- The network calls to Gemini and OpenAI: the reply text is a parameter, and a missing library or a failed call is `None`.
- Environment variables, the current date and whether automation is installed are parameters.
- Reading ai-config and listing levels or profile info are not modelled. These are `api_get_ai_config`, `api_get_levels` and `api_profile_info`.
- JSON nulls and values of the wrong type: a null is read as an absent key. In the source, a null level fails in `int()`.
- PyStrings.Lower: ASCII letters only; Python's full Unicode lower-casing is not modelled.
- PyStrings.SplitLines: a line break at every break character. `"\r\n"` and a final break therefore add an empty line. Empty lines are dropped before use, so the difference does not show.
- QueryGeneration.GenerateQueries: the offline generator's template table is a parameter. `AiGenerate` passes `Templates`.
- Worker.AutomationWorker: does not state which processes the teardown terminates. `Worker.RunProfile` states the tracking exactly per profile, and `Worker.TrackingBounds` and `Worker.ProcessesOutgrowCap` bound it.
- Restarts: a stop followed by a start while the old worker is still alive is not modelled. The start guard reads only the running flag (app.py:714-716), so two workers could share the record, and the old worker's teardown (app.py:638-644) would clear the new run's flag. `SharedState.RunState.Interleave` never restarts a run.
- `profile_points`: start fills a UI-only record of each profile's level and time (app.py:746-771); no modelled operation reads it, and it is not modelled.
- PyStrings.Strip: its own contract states the shape of the result; which window of the text it is, is stated by `PyStrings.StripBothWindow` with the white-space class (`Strip(s)` is by definition `StripRight(StripLeft(s, Space), Space)`), and that only white space lies outside it by the contract of `PyStrings.StripLeft` and by `PyStrings.StripBothTail` (with the white-space class).
- QueryGeneration.NonBlank: its own contract states the shape of the kept pieces; which pieces they are is stated by `QueryGeneration.NonBlankOne` (one piece is kept, stripped, exactly when not blank) and `QueryGeneration.NonBlankAppend` (piece by piece, in order), which together determine it.
- QueryGeneration.Parts: its own contract states the shape of the parts; which parts they are is stated over the whole domain without " and " by `QueryGeneration.PartsAtCommas`, and for " and " between two one-word topics by `QueryGeneration.PartsAtAnd`. Seeds mixing " and " with other text are covered only by the definition.
- Worker.VisitProfile: a profile without a `name` ends the run as the exception does. Other exceptions reaching the outer handler are not modelled.
