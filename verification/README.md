# StrawBoss, modelled and proved

StrawBoss runs a fleet of phones in Romanian straw fields and a dashboard over them. This
project models the parts of it that carry state, a protocol or arithmetic, in Dafny 4.11, and
proves what holds of them for every input and every run. `dafny verify dfyconfig.toml` checks
the whole project.

## What is modelled

Code that works by changing things is a class or a method, proved against a specification on
values in the module beside it; what holds over whole runs is proved about that specification.

- **Keep-alive** (`KeepAlive`, `KeepAliveService`, `KeepAliveEnds`, `KeepAliveDevice`). Three alarms and one
  service of a device-owner phone that re-arm each other. The environment kills services and
  processes, refuses and loses service starts, loses the presence alarm, delays a start by at
  most a given latency, and delivers due alarms before time goes on. Main results: bounded
  recovery of the alarms with its exact bound, how long the service itself can be down, and
  exactly when `release()` is final.
- **Patching MainApplication.kt** (`Text`, `Markers`, `MainApplication`,
  `MainApplicationRuns`, `MainApplicationBlocks`). Both plugins, the two regular expressions with their backtracking,
  and any sequence of prebuilds. A bare source is one that holds both anchors and no marker
  text; an old block is any text that one of the two expressions matches from end to end.
- **CSV** (`Csv`). The printer, and an independent reader for section 2 of RFC 4180.
- **Calendar and seasons** (`Calendar`, `DateStrings`, `Seasons`). Day numbers of section
  21.4.1 of ECMA-262, full-dates of section 5.6 of RFC 3339, `addDays`, and the four places
  that put an instant or a day into a season. A time zone is any function to +2 h or +3 h.
- **Features** (`Features`, `FeatureRegistry`). The resolver over every finite registry,
  presets over every registry, and the shipped registry and presets.
- **Loading bales** (`RegisterLoad`, `RegisterLoadScreen`, `RegisterLoadRuns`,
  `RegisterLoadEnds`, `RegisterLoadSubmit`). The load screen with the server, the local mirror and the sync queue
  around it; requests may arrive at any later time, any number of times, and queue rows may be
  purged, cleared or wiped at any time.
- **Session** (`Session`, `SessionGate`, `SessionRuns`, `SessionFlows`). Who is signed in, whose identity is
  persisted, whose rows are on the phone; purges are steps of their own, and work begun by
  one user may land rows at any later time.
- **Tables, realtime, log, presence** (`TableSort`, `Realtime`, `ClientLog`, `Presence`).
- **Delta cursor** (`SyncCursor`, `SyncCursorSerial`, `SyncCursorStranded`, `SyncCursorRepo`).
  A pull is a step from await to await, and any number of pulls may be under way; a server
  write draws its version in one step and commits in another; the phone may be wiped at any
  time.

## Where the code falls short of what it says

Each is a theorem with the exact condition or a run that shows it.

- A boot or package-replaced broadcast puts the watchdog off although its service start was
  refused, and a cold start whose accepted start is lost does the same; repeated, either keeps
  a phone without presence for ever (`KeepAlive.BootKeepsRecovering`,
  `KeepAliveEnds.PuttingOffStarves`).
- `release()` is said to leave no phone haunted. A start in flight arms all three alarms for
  good (`KeepAliveEnds.ReleaseIsFinal`, `KeepAliveEnds.HauntedForever`).
- The device-owner plugin looks for its registration before it strips an old block; one that
  stood in that block only is lost (`MainApplicationRuns.PatchForgetsExactly`,
  `MainApplicationRuns.SelfRegistrationIsLost`). No shipped version of the plugin is known to
  have written such a block.
- `addDays(s, 0)` is not `s` for years before 1000 (`DateStrings.AddZeroGivesBack`).
- A load whose mirror and queue rows were written but whose CMR could not be queued cannot be
  submitted offline again: the queue's unique key refuses it
  (`RegisterLoadEnds.OfflineRetryIsStuck`, `RegisterLoadEnds.StuckHappens`).
- Changing the count between two submits of one key leaves the mirror different from the
  server (`RegisterLoadEnds.RetryAgreesUnlessEdited`, `RegisterLoadEnds.EditedRetryDisagrees`).
- No auxiliary load is to be registered without its CMR. One whose answer was lost and whose
  screen was left is, and so is one whose CMR row was dropped
  (`RegisterLoadRuns.AuxiliaryLoadHasCmr`, `RegisterLoadEnds.AbandonedLoadLacksCmr`,
  `RegisterLoadEnds.CmrDroppedHappens`).
- A load reported saved offline is gone if its queue row is purged as stale, cleared or wiped
  before it was sent (`RegisterLoadRuns.ConfirmedIsKept`, `RegisterLoadEnds.DroppedLoadIsGone`).
- A different user's local data is said to be purged unconditionally. The purge is lost with
  the process or by an error, takes rows of the new user written before it runs, misses rows of
  the old user that land after it, and does not start at all if the sign-in outruns hydration
  (`SessionRuns.KillLeavesRow`, `SessionRuns.FailureLeavesRow`, `SessionRuns.EarlyWriteIsWiped`,
  `SessionRuns.LateRowStays`, `SessionRuns.UnhydratedSwitchHappens`).
- A profile request is cancelled when the effect runs again, which a change of user alone does
  not cause. The login form stays up, and is enabled again, until a profile is there, so a
  second sign-in can come first; its user then has the first user's identity until a later
  request is answered (`Session.BlindSwitchExactly`, `SessionRuns.BlindSwitchHappens`).
- The sync sequence is said to give a cursor nothing falls behind. A write that draws its
  version first and commits second can be overtaken by a pull, and bale_loads is pulled by
  version alone (`SyncCursor.PullExactly`, `SyncCursorStranded.OvertakenIsStranded`).
- The flag that keeps sync cycles apart belongs to one manager, and each cycle makes its own.
  Of two pulls at a time the older can overwrite what the newer brought, below the newer's
  cursor (`SyncCursor.ApplyExactly`, `SyncCursorStranded.OverlappedIsStranded`); with pulls one
  at a time that cannot be (`SyncCursorSerial.SerialNeverSkips`).
- A logout or a change of user wipes table and cursors but no pull under way, whose save then
  strands what was wiped (`SyncCursorStranded.WipeDuringExactly`,
  `SyncCursorStranded.WipedIsStranded`).
- The cursor table's comment says it is written after a batch was fully applied. It is also
  written when rows failed, and a row older than the newest applied one then stays missing
  until it is written again or the phone is wiped (`SyncCursorStranded.FailedIsStranded`,
  `SyncCursorStranded.StaysBehind`, `SyncCursorStranded.WipeHeals`).
- A first pull killed between live rows and tombstones keeps a deleted row, and an optimistic
  write over a pulled one hides it (`SyncCursorStranded.KilledIsStranded`,
  `SyncCursorStranded.OverwrittenIsStranded`).
- Reconnecting by hand after an outage refetches nothing
  (`Realtime.ManualReconnectForgets`).

## Model

| member | source | states |
|---|---|---|
| KeepAlive.NextNightlyIsFirst | apps/mobile/plugins/withDeviceOwner.js:1367-1375 | the nightly trigger is the earliest 03:30 strictly after now, never more than a day ahead |
| KeepAlive.StepKeepsRecovering | apps/mobile/plugins/withDeviceOwner.js:1290-1353 | every step of the protocol short of a teardown keeps the watchdog armed at most ten minutes ahead and, while presence is unarmed, near enough, unless it was put off for a start that is on its way |
| KeepAlive.BootKeepsRecovering | apps/mobile/plugins/withAlwaysOnTracking.js:67-81 | the boot receiver puts the watchdog off ten minutes and arms no presence, whatever becomes of its start; only if that start is refused with no other on its way does the recovery clock start again |
| KeepAlive.BoundedRecovery | apps/mobile/plugins/withDeviceOwner.js:1163-1260 | in every run without stop, release or reboot a watchdog is always pending at most 10 min ahead, and a phone without a presence alarm has been so for at most 14 min 8 s plus one start latency, counted from the loss of the alarm or from the last time the watchdog was put off for nothing |
| KeepAlive.GuardedPhoneRecovers | apps/mobile/plugins/withDeviceOwner.js:1290-1340 | the same bound, in milliseconds, from any owner phone whose watchdog is armed, counted from the start of the run |
| KeepAliveService.FiringAsks | apps/mobile/plugins/withDeviceOwner.js:1163-1197 | each firing of the presence or watchdog alarm whose start is accepted leaves a start of that very moment last among those on their way, and a refused one leaves them as they are; it arms itself again, the watchdog also presence, exactly when the last tick is more than 4 min old |
| KeepAliveService.DeliveryRaises | apps/mobile/plugins/withDeviceOwner.js:1037-1050 | the delivery of any start, whoever asked for it, brings the service up with all three alarms armed, the nightly one for the coming 03:30 |
| KeepAliveService.ServiceReturns | apps/mobile/plugins/withDeviceOwner.js:1290-1308 | in every run from an armed owner phone, and from any moment in it at which the service is down: while the system accepts and loses nothing, the service is up again within one watchdog period plus one start latency, and 8 s more if the nightly restart strikes meanwhile |
| KeepAliveService.PassedByExactly | apps/mobile/plugins/withDeviceOwner.js:1342-1353 | the pending watchdog can pass with the service not even asked for if and only if no start is on its way, the process is up, and the nightly alarm is due no later than it and less than 8 s before it |
| KeepAliveService.ServiceBoundIsTight | apps/mobile/plugins/withDeviceOwner.js:1342-1353 | a run that reaches the bound to the millisecond |
| KeepAliveService.NightlyRestarts | apps/mobile/plugins/withDeviceOwner.js:1342-1353 | the nightly restart ends process and service, comes again at the next 03:30 and leaves the watchdog 8 s ahead |
| KeepAliveService.KilledServiceReturns | apps/mobile/plugins/withDeviceOwner.js:1037-1050 | a service that was up when it or its process was killed is owed a sticky restart, however often it is killed again, and that restart brings it up |
| KeepAliveService.RebootedOwnerReturns | apps/mobile/plugins/withAlwaysOnTracking.js:56-93 | after a reboot nothing is armed or running; on an owner phone the process and the boot receiver both ask for the service, and it comes up with all alarms |
| KeepAliveService.AppStartsExactly | apps/mobile/app/_layout.tsx:567-583 | in every run the app can make its start call if and only if it has found the phone to be an owner's and has not called, left its effect or died since |
| KeepAliveService.CheckStopsOthers | apps/mobile/app/_layout.tsx:567-583 | on a phone that is no owner's the check, and on any phone leaving the effect, takes service and alarms down and leaves accepted starts on their way |
| KeepAliveEnds.RecoveryIsTight | apps/mobile/plugins/withDeviceOwner.js:1342-1353 | for every start latency of up to ten minutes a run that misses the bound by one millisecond only: the nightly kill strikes just before the watchdog, and the next start takes its whole latency |
| KeepAliveEnds.PuttingOffStarves | apps/mobile/plugins/withAlwaysOnTracking.js:67-81 | any owner phone that loses presence can stay without it past any date: boot broadcasts with a refused start, or cold starts whose accepted start is lost, put the watchdog off every time |
| KeepAliveEnds.ReleaseIsFinal | apps/mobile/plugins/withDeviceOwner.js:236-269 | after release() no alarm is ever pending again if and only if ownership was really cleared and no start was accepted or already checked by the app |
| KeepAliveEnds.QuietForever | apps/mobile/plugins/withDeviceOwner.js:1126-1133 | a phone without owner, alarms and pending starts stays without alarms in every run |
| KeepAliveEnds.HauntedForever | apps/mobile/plugins/withDeviceOwner.js:1163-1197 | the receivers do not ask for ownership: three alarms armed on a released phone keep each other armed |
| KeepAliveEnds.ReleaseWithQueuedStartHaunts | apps/mobile/plugins/withDeviceOwner.js:1037-1050 | one start in flight at release() arms all three alarms whenever it is delivered, and for good |
| KeepAliveEnds.RebootLaysToRest | apps/mobile/plugins/withAlwaysOnTracking.js:65-81 | a reboot ends it, because the boot receiver does ask |
| KeepAliveDevice.Phone.ScheduleNightly | apps/mobile/plugins/withDeviceOwner.js:1367-1387 | the step-by-step calendar code gives the first 03:30 after now |
| KeepAliveDevice.Phone.OnStartCommand | apps/mobile/plugins/withDeviceOwner.js:1037-1050 | arms all three alarms; whole new state |
| KeepAliveDevice.Phone.OnCreate | apps/mobile/plugins/withDeviceOwner.js:1717-1725 | a refused start skips both schedules after it; whole new state |
| KeepAliveDevice.Phone.PresenceReceiver | apps/mobile/plugins/withDeviceOwner.js:1163-1197 | stamps, asks for the service and always re-arms; whole new state |
| KeepAliveDevice.Phone.WatchdogReceiver | apps/mobile/plugins/withDeviceOwner.js:1290-1308 | re-arms presence exactly when its last fire is more than 4 min old, and itself always; whole new state |
| KeepAliveDevice.Phone.NightlyReceiver | apps/mobile/plugins/withDeviceOwner.js:1342-1353 | re-arms itself, pulls the watchdog to 8 s and kills the process; whole new state |
| KeepAliveDevice.Phone.BootReceiver | apps/mobile/plugins/withAlwaysOnTracking.js:56-93 | owner only; each call guarded by itself; whole new state |
| KeepAliveDevice.Phone.StopPresenceService | apps/mobile/plugins/withDeviceOwner.js:1126-1133 | cancels all three alarms and the service, not a start already handed over |
| KeepAliveDevice.Phone.ReleaseOwner | apps/mobile/plugins/withDeviceOwner.js:236-269 | returns at once on a phone that is no owner; ownership may survive a failed clear |
| KeepAliveDevice.Phone.DeliverAlarm | apps/mobile/plugins/withDeviceOwner.js:1163-1197 | delivering a due alarm is one step of the protocol: process first, then the receiver |
| KeepAliveDevice.Phone.DeliverOldestStart | apps/mobile/plugins/withDeviceOwner.js:1037-1050 | delivering an accepted start is one step of the protocol |
| KeepAliveDevice.Phone.CheckOwnerFromJs | apps/mobile/app/_layout.tsx:567-578 | the app effect: a start on the way for an owner, a stop otherwise |
| KeepAliveDevice.Phone.StopFromJs | apps/mobile/app/_layout.tsx:579-583 | leaving the effect cancels its check and stops the service |
| MainApplication.SourceFile.PatchMainApplication | apps/mobile/plugins/withDeviceOwner.js:1668-1730 | in place on the file: missing file left alone, missing anchor throws and leaves the text, otherwise the text of the specification |
| MainApplication.SourceFile.SpliceAfter | apps/mobile/plugins/withGpsCapture.js:228-238 | inserts after the first occurrence of the anchor, nothing if there is none |
| MainApplication.MatchPlace | apps/mobile/plugins/withDeviceOwner.js:1694-1699 | the backtracking over leading blanks finds the one place where a marker line can stand |
| MainApplication.AnyIndentMatches | apps/mobile/plugins/withDeviceOwner.js:1694-1699 | in front of its head either expression takes any mix of spaces and tabs |
| MainApplication.OtherLineFails | apps/mobile/plugins/withDeviceOwner.js:1694-1699 | a line that begins with any other character is no match |
| MainApplication.ClosingBraceExactly | apps/mobile/plugins/withDeviceOwner.js:1698-1702 | the legacy expression ends behind the first closing brace with nothing but spaces and tabs before it on its line, and fails exactly if there is none |
| MainApplication.StripRemoves | apps/mobile/plugins/withDeviceOwner.js:1694-1699 | stripping removes a block whatever its body and whatever follows it, and no more |
| MainApplication.NoHeadNoStrip | apps/mobile/plugins/withDeviceOwner.js:1694-1699 | stripping leaves a text without the marker untouched |
| Text.ClearIndex | apps/mobile/plugins/withDeviceOwner.js:1676-1687 | an insertion that neither cuts nor makes a match moves the first match with its text |
| MainApplicationRuns.ShippedBlockIsGood | apps/mobile/plugins/withDeviceOwner.js:1710-1727 | the injected block is recognised whole by the strip expression, begins once, and disturbs neither the packages anchor nor a registration |
| MainApplicationRuns.RegisteredIsBare | apps/mobile/plugins/withGpsCapture.js:226-238 | registering one package disturbs neither anchors, nor markers, nor the other registration |
| MainApplicationRuns.PatchOld | apps/mobile/plugins/withDeviceOwner.js:1693-1727 | the device-owner patch gives the same text whatever body and place the old block had, marked or legacy |
| MainApplicationRuns.PatchForgetsExactly | apps/mobile/plugins/withDeviceOwner.js:1674-1699 | the patch gives what it gives on the bare source if and only if the old block neither brings the registration along nor splits it |
| MainApplicationRuns.SelfRegistrationIsLost | apps/mobile/plugins/withDeviceOwner.js:1674-1699 | one such source: its old block registers the package, and the patched text does not |
| MainApplicationRuns.TemplateIsBare | apps/mobile/plugins/withDeviceOwner.js:1675-1703 | a source with both anchors, a line each, is bare and registers nothing |
| MainApplicationRuns.PrebuildNormalForm | apps/mobile/plugins/withDeviceOwner.js:1668-1730 | every sequence of both plugins with the device-owner one in it ends in: registrations made, one current block after the create anchor |
| MainApplicationRuns.PrebuildForgetsOldBlock | apps/mobile/plugins/withDeviceOwner.js:1693-1699 | and so it does from any source an older build patched |
| MainApplicationRuns.PrebuildIsStable | apps/mobile/plugins/withDeviceOwner.js:1663-1667 | running plugins that have run again, in any number and order, changes nothing |
| MainApplicationBlocks.StripsAll | apps/mobile/plugins/withDeviceOwner.js:1693-1699 | the global expressions take out any number of blocks at once and nothing else |
| MainApplicationBlocks.PatchForgetsBlocks | apps/mobile/plugins/withDeviceOwner.js:1674-1727 | with any number of old blocks of both kinds the device-owner patch gives what it gives for the bare source |
| MainApplicationBlocks.PrebuildForgetsBlocks | apps/mobile/plugins/withDeviceOwner.js:1663-1667 | so every prebuild that begins with it has the normal form and the stability of the bare source |
| MainApplicationRuns.PrebuildSeesFirstRuns | apps/mobile/plugins/withGpsCapture.js:221-240 | two sequences that start alike and contain the same plugins give the same text |
| MainApplicationRuns.PrebuildOnceEach | apps/mobile/plugins/withDeviceOwner.js:1674-1727 | after both plugins each registration and the block occur exactly once |
| Csv.FieldRoundTrip | apps/admin-web/src/lib/csv.ts:10-15 | reading one printed field by RFC 4180 gives its guarded text and stops exactly behind it |
| Csv.RecordRoundTrip | apps/admin-web/src/lib/csv.ts:26-29 | the same for a line of cells |
| Csv.RecordsRoundTrip | apps/admin-web/src/lib/csv.ts:30 | the same for lines, under both readings of a final line break |
| Csv.CsvRoundTrip | apps/admin-web/src/lib/csv.ts:21-32 | for every table with a column the reader gives back header and rows as guarded texts; a reader that drops a final line break loses a line exactly for one column ending in an empty cell |
| Csv.CellsComeBack | apps/admin-web/src/lib/csv.ts:8-15 | the reader finds at row i and column j: a number as its digits, null as the empty field, and a text as itself, with one apostrophe in front exactly if it begins with = + - @ tab or CR |
| Csv.HeadersComeBack | apps/admin-web/src/lib/csv.ts:26 | the same for the headers in the first line |
| Csv.PlainTableVerbatim | apps/admin-web/src/lib/csv.ts:14-32 | the file byte for byte where nothing needs quoting: byte order mark, commas, CR LF between lines and nothing else |
| Csv.NoColumns | apps/admin-web/src/lib/csv.ts:26-30 | without columns each line reads as one empty field |
| Csv.PrintsAlike | apps/admin-web/src/lib/csv.ts:21-32 | two tables of any row types print alike if and only if their guarded texts are equal |
| Csv.GuardIsNotInjective | apps/admin-web/src/lib/csv.ts:11-13 | the guard itself is not undone: two different texts with the same guarded form |
| Calendar.YearLength | apps/admin-web/src/lib/date.ts:33-38 | day numbers advance by 365 or 366 days a year by the leap-year rule, for all years |
| Calendar.DayRoundTrip | apps/admin-web/src/lib/date.ts:35-37 | the date of a day number has that day number |
| Calendar.CivilRoundTrip | apps/admin-web/src/lib/date.ts:35-37 | the day number of a valid date gives that date back |
| Calendar.LeafingIsAdding | apps/admin-web/src/lib/date.ts:33-38 | adding to day numbers is leafing through a wall calendar one day at a time, forwards and back |
| Calendar.OrderIsChronological | apps/admin-web/src/lib/date.ts:33-38 | year, month, day order is day-number order |
| Calendar.DateOfDay | apps/admin-web/src/lib/date.ts:35-37 | the date of day n is n leaves of the wall calendar from 1 January 1970 |
| Calendar.MonthLengths | apps/admin-web/src/lib/date.ts:35-37 | the valid dates are those of the thirty-days rhyme, with 29 February in leap years only |
| DateStrings.AddDaysLeafs | apps/admin-web/src/lib/date.ts:33-38 | addDays on what it writes, and on every full-date from year 100 on, is leafing that many days |
| DateStrings.AnyDayLeafs | apps/admin-web/src/lib/date.ts:33-38 | addDays for a day of any size, 0 and 99 included, leafs from the first of its month; two-digit years are of the twentieth century; beyond 100 million days from 1970 the result is NaN-NaN-NaN |
| DateStrings.MonthsCarry | apps/admin-web/src/lib/date.ts:34-36 | month 13 is January of the next year and month 0 December of the last |
| DateStrings.ThreeFieldsCount | apps/admin-web/src/lib/date.ts:34-36 | one or two fields give NaN-NaN-NaN, and a fourth one is ignored |
| DateStrings.AddDaysAdds | apps/admin-web/src/lib/date.ts:33-38 | addDays(addDays(s, a), b) = addDays(s, a + b) as long as the first step stays past year 99 |
| DateStrings.AddZeroGivesBack | apps/admin-web/src/lib/date.ts:33-38 | addDays(s, 0) = s for a full-date if and only if its year is 1000 or later |
| DateStrings.AddDaysMonotone | apps/admin-web/src/lib/date.ts:33-38 | with four-digit years the result is a later string if and only if more days were added |
| DateStrings.FullDateOrder | apps/admin-web/src/lib/date.ts:33-38 | string order of full-dates is chronological order |
| Seasons.YearTurns | packages/types/src/season.ts:166-180 | the local calendar turns to a year at its winter midnight if and only if winter time holds in the one disputed hour |
| Seasons.InstantHasDate | apps/admin-web/src/lib/date.ts:16-25 | for every zone and instant the local date is one leaf of the calendar for each 24 hours of local time since 1 January 1970 |
| Seasons.InstantIsPrinted | packages/types/src/season.ts:191-198 | the season of an instant is that date's year; with four-digit years the date text is ten characters that read as that date |
| Seasons.MidnightsAreYearsApart | packages/types/src/season.ts:166-180 | the midnight of 1970 is two hours before the epoch, and seasons last 365 or 366 days by the leap-year rule |
| Seasons.OneSeason | packages/types/src/season.ts:191-198 | season year, database filter, half-open bounds and inclusive window agree on every instant |
| Seasons.DayInSeason | apps/admin-web/src/lib/season.tsx:77-87 | a four-digit day lies in the bounds, and in the window, of its own year and no other |
| Seasons.SeasonsPartition | packages/types/src/season.ts:166-180 | every instant lies between the midnights of exactly one year |
| Seasons.SummerSplitsSeasons | packages/types/src/season.ts:191-198 | with a summer offset in the disputed hour text and database disagree |
| Seasons.FiveDigitYearMisplaced | packages/types/src/season.ts:181-189 | year 10000 falls into the string bounds of season 1000 |
| Seasons.WindowMeetsBounds | apps/admin-web/src/lib/season.tsx:77-87 | the day after the window is the exclusive bound, and conversely |
| Seasons.SeasonYearRange | packages/types/src/season.ts:242-248 | newest first, every year from the first valid recorded one to the current, and no other |
| Seasons.PickedYearIsShown | apps/admin-web/src/lib/season.tsx:58-74 | the picked year is shown if and only if it is on offer (or active, unless 0 is on offer); other parameters stay |
| Features.ResolveDisabled | packages/types/src/features.ts:857-888 | for every finite registry, cycles included, and every override map the bounded loop lists exactly the keys from which a dependency chain leads to a key switched off, in registry order |
| Features.Pass | packages/types/src/features.ts:863-873 | a pass that changes something leaves fewer keys on, one that does not has reached a fixpoint |
| Features.DoomedIsLeast | packages/types/src/features.ts:857-876 | the listed keys are the least fixpoint |
| Features.OrderDoesNotMatter | packages/types/src/features.ts:865-871 | the order of the keys changes nothing |
| Features.MoreOffMoreDisabled | packages/types/src/features.ts:857-876 | switching more off enables nothing |
| Features.ResolvingTwice | packages/types/src/features.ts:857-876 | overriding off what is disabled anyway disables nothing more |
| Features.NothingOff | packages/types/src/features.ts:845-848 | with nothing overridden off the list is empty |
| Features.ApplicablePreset | packages/types/src/features.ts:964-990 | the loop leaves, for each key, the value of the last entry that writes it, and no other key |
| Features.WritesSwitchable | packages/types/src/features.ts:968-984 | only wired switchable keys are emitted |
| Features.DisablesNoMore | packages/types/src/features.ts:948-963 | the translated preset disables nothing the raw one would not |
| Features.DisablesWhatIsNamed | packages/types/src/features.ts:948-963 | and disables every wired switchable key the preset names itself or through its switchable module row |
| Features.TranslationIsIdentity | packages/types/src/features.ts:964-990 | the translation changes nothing if and only if the preset names wired switchable keys only |
| FeatureRegistry.ShippedAnchored | packages/types/src/features.ts:233-822 | in the shipped registry every dependency is a key and every key reaches its module row |
| FeatureRegistry.ShippedTranslation | packages/types/src/features.ts:899-936 | for the four shipped presets raw and translated overrides are the same and resolve alike |
| FeatureRegistry.ModuleOffMeansAllOff | packages/types/src/features.ts:917-928 | a module a shipped preset names takes all its features along |
| RegisterLoadRuns.SubmitWasGranted | apps/mobile/app/loader-ops/load-bales.tsx:485-573 | whenever a submit is possible an earlier press saw inside, auxiliary, a depot without geometry, or a confirmed unverifiable position; the payload is flagged exactly in the last case |
| RegisterLoadSubmit.PressExactly | apps/mobile/app/loader-ops/load-bales.tsx:485-573 | the register button goes on for an auxiliary truck, a depot without a fence, or inside; asks only if the position is unknown for want of a fence or of data; refuses otherwise |
| RegisterLoadSubmit.ThroughTheGate | apps/mobile/app/loader-ops/load-bales.tsx:366-372 | from the press, the question and its two answers to the last button: which one it is, and that only a confirmed question flags the load |
| RegisterLoadSubmit.PressSavesExactly | apps/mobile/app/loader-ops/load-bales.tsx:587-788 | a press at the last button saves the load if and only if: ready; a scan has pages and a pdf; the captured target is a depot, online, or a parcel with no live depot; online the request arrives, is answered, and is accepted or known, the parcel is mirrored, the scan uploaded or queued; offline mirror and queue are written, under no queued key, and the scan, of an auxiliary trip, queued |
| RegisterLoadSubmit.SavedAsShown | apps/mobile/app/loader-ops/load-bales.tsx:614-730 | a saved load is what the screen showed, in the request, on the server unless it had it, in the mirror and in the queue; its scan is delivered or queued behind it; no other load is touched |
| RegisterLoadSubmit.FailedPressKeeps | apps/mobile/app/loader-ops/load-bales.tsx:732-788 | a press that does not save keeps pages, count and target, and the key that the retry will use |
| RegisterLoadSubmit.FailedPressLeaves | apps/mobile/app/loader-ops/load-bales.tsx:639-788 | a press that does not save leaves nothing behind if a guard refused it; online the request, the load if it was taken, and the mirror if only the scan failed; offline what was written before the write that failed |
| RegisterLoadSubmit.EditedMeansChanged | apps/mobile/app/loader-ops/load-bales.tsx:608-637 | a load counts as edited only if a retry showed something else than the first try |
| RegisterLoadSubmit.SavedIsDone | apps/mobile/app/loader-ops/load-bales.tsx:732-740 | once saved no event of the screen changes anything until it is left |
| RegisterLoadSubmit.SyncLoadExactly | apps/mobile/src/sync/SyncManager.ts:160-185 | a replay sends what the row says; the row is done, and never sent again, if and only if the request arrives, is answered and the server has the load |
| RegisterLoadSubmit.QueueDelivers | apps/mobile/src/sync/SyncManager.ts:160-185 | a queued load with a queued CMR is, after one good replay of each, on the server with its CMR, and in no queue |
| RegisterLoadEnds.TargetIsFrozen | apps/mobile/app/loader-ops/load-bales.tsx:150-202 | in every run the captured target stays until the screen is left, and every request under the outstanding key is for a depot exactly if that target is, whatever the resolver says meanwhile |
| RegisterLoadEnds.OneLoadPerScreen | apps/mobile/app/loader-ops/load-bales.tsx:608-730 | of all the keys generated while one screen is open at most one is ever on the server, through failed, unanswered, retried, late, online-then-offline and replayed submits |
| RegisterLoadEnds.OneKeyPerScreen | apps/mobile/app/loader-ops/load-bales.tsx:608-613 | until it is left a screen generates at most one key, and none if it has one or has saved |
| RegisterLoadRuns.NoMoreLoadsThanScreens | apps/mobile/app/loader-ops/load-bales.tsx:608-730 | so the server never holds more loads than screens were opened |
| RegisterLoadSubmit.NoMoreLoadsThanOpened | apps/mobile/app/loader-ops/load-bales.tsx:608-730 | the same counted in the events of the run: no more loads than one and the times a screen was opened |
| RegisterLoadRuns.ConfirmedIsKept | apps/mobile/src/db/sync-queue-repo.ts:311-352 | a load reported saved is on the server or waits in the queue if and only if its row was not purged, cleared or wiped before delivery; the queue never holds a depot load |
| RegisterLoadEnds.GoneForGood | apps/mobile/src/db/sync-queue-repo.ts:315-328 | a saved load whose row was dropped before it ever left the phone is on no server in any later run |
| RegisterLoadEnds.DroppedLoadIsGone | apps/mobile/src/lib/storage.ts:64 | a run from a fresh screen that ends so |
| RegisterLoadRuns.MirrorAgrees | apps/mobile/app/loader-ops/load-bales.tsx:1351-1372 | mirror, queue and server agree on every load that was not edited between submits |
| RegisterLoadEnds.RetryAgreesUnlessEdited | apps/mobile/app/loader-ops/load-bales.tsx:610-662 | after a successful retry, signed or with a CMR, the mirror agrees with the server if and only if the load is what the server stored |
| RegisterLoadEnds.EditedRetryDisagrees | apps/mobile/app/loader-ops/load-bales.tsx:610-662 | a run from a fresh screen after which the phone says 5 bales and the server 4 |
| RegisterLoadEnds.OfflineRetryIsStuck | apps/mobile/app/loader-ops/load-bales.tsx:699-710 | an offline press that no guard refuses and whose writes can be made saves the load if and only if nothing is queued under the outstanding key |
| RegisterLoadEnds.StuckHappens | apps/mobile/app/loader-ops/load-bales.tsx:699-719 | a run from a fresh screen that ends with the load mirrored and queued, unsaved, and every offline retry refused |
| RegisterLoadRuns.AuxiliaryLoadHasCmr | apps/mobile/app/loader-ops/load-bales.tsx:670-719 | the CMR of an auxiliary load is delivered or queued if and only if the load was confirmed and the row of its CMR was not dropped; queued together, the load goes first |
| RegisterLoadEnds.AbandonedLoadLacksCmr | apps/mobile/app/loader-ops/load-bales.tsx:732-740 | a run from a fresh screen, a lost answer and a screen that is left, whose auxiliary load is on the server and gets no CMR in any later run |
| RegisterLoadEnds.CmrDroppedHappens | apps/mobile/src/hooks/useSync.ts:180-192 | a run from a fresh screen after which a confirmed auxiliary load is on the server and its CMR nowhere |
| RegisterLoadEnds.ForsakenForGood | apps/mobile/app/loader-ops/load-bales.tsx:732-740 | an auxiliary load whose screen was left before it was confirmed never gets a CMR |
| RegisterLoadScreen.LoadScreen.HandleRegisterPress | apps/mobile/app/loader-ops/load-bales.tsx:485-573 | the gate: refuse, ask, or go on; whole new state |
| RegisterLoadScreen.LoadScreen.PreflightDone | apps/mobile/app/loader-ops/load-bales.tsx:366-372 | auxiliary to the CMR scan, others to the signature |
| RegisterLoadScreen.LoadScreen.SubmitOnline | apps/mobile/app/loader-ops/load-bales.tsx:639-682 | what is written and whether it succeeded, for every answer of the environment |
| RegisterLoadScreen.LoadScreen.SubmitOffline | apps/mobile/app/loader-ops/load-bales.tsx:683-720 | the same without a connection |
| RegisterLoadScreen.LoadScreen.SubmitLoad | apps/mobile/app/loader-ops/load-bales.tsx:587-788 | guards, key, payload and outcome; whole new state |
| RegisterLoadScreen.LoadScreen.HandleCmrConfirm | apps/mobile/app/loader-ops/load-bales.tsx:858-905 | nothing without pages, nor offline without a trip; whole new state |
| RegisterLoadScreen.LoadScreen.HandleGiveUp | apps/mobile/app/loader-ops/load-bales.tsx:998-1002 | closing the finish page drops the pages of the scan, not the key |
| Session.SameUserLosesNothing | apps/mobile/app/_layout.tsx:262-288 | automatic sign-outs, kills, cold starts, profile fetches and late rows remove no row while the same user comes back |
| Session.UsersStayApart | apps/mobile/app/_layout.tsx:212-294 | in every orderly run the identity is the session user's, requests were made for that user, and once purges have run all rows are the persisted user's |
| Session.OrderlyExactly | apps/mobile/app/_layout.tsx:203-294 | the order asked for is the weakest: from a state with users apart a step keeps them apart if and only if it is orderly; this includes rows that land late for work begun under another user |
| Session.BlindSwitchExactly | apps/mobile/app/_layout.tsx:300-428 | a sign-in keeps requests apart if and only if it does not replace the user while a request is under way with no role loaded |
| Session.OfferedIsBlindExactly | apps/mobile/app/_layout.tsx:639-647 | of the sign-ins the app offers, exactly those are blind that replace the user while the form is still up and a profile is under way; none made while signed out is |
| SessionRuns.BlindSwitchHappens | apps/mobile/app/(auth)/login.tsx:138-151 | a run from a fresh install: the form is enabled again before the first profile has come, a second user signs in, and gets the first one's profile |
| Session.BlindSwitchOverwrites | apps/mobile/app/_layout.tsx:381-395 | otherwise the previous user's profile becomes the new identity |
| Session.KillLosesPurge | apps/mobile/app/_layout.tsx:215-235 | a kill before the purge ran leaves the old rows to the new user in every later run of that user, with no purge to come |
| SessionRuns.KillLeavesRow | apps/mobile/app/_layout.tsx:215-235 | a run from a fresh install that ends so |
| Session.FailedPurgeIsNotRepeated | apps/mobile/app/_layout.tsx:234 | so does a purge that fails: its error is swallowed and nothing repeats it |
| SessionRuns.FailureLeavesRow | apps/mobile/app/_layout.tsx:234 | a run from a fresh install that ends so |
| Session.PurgeTakesExactly | apps/mobile/app/_layout.tsx:212-235 | a purge takes every row that was on the phone while it was under way: the old ones, and of the new user exactly those written or landed meanwhile |
| SessionRuns.EarlyWriteIsWiped | apps/mobile/app/_layout.tsx:215-235 | a run from a fresh install in which a row of the new user, written before the purge ran, is wiped with the old ones |
| SessionRuns.LateRowStays | apps/mobile/app/loader-ops/load-bales.tsx:639-662 | a run from a fresh install: a submit begun by the first user lands its row after the purge, and it stays in every later run of the second user |
| Session.UnhydratedSwitchUnseen | apps/mobile/app/_layout.tsx:213-214 | a sign-in that outruns hydration is not seen as a switch |
| SessionRuns.UnhydratedSwitchHappens | apps/mobile/app/_layout.tsx:187-214 | a run from a fresh install that ends with the old user's identity and row under the new user's session, and no purge |
| SessionFlows.SignInExactly | apps/mobile/app/_layout.tsx:212-294 | a sign-in starts one purge and drops the identity exactly if another user was last known; a hydrated phone asks for the new user's profile unless it was signed in and its role did not change |
| SessionFlows.ProfileArrives | apps/mobile/app/_layout.tsx:300-428 | from a sign-in to the profile: the answer to the request becomes the identity of the user who signed in, the changed role asks once more, and the second answer brings the effect to rest |
| SessionFlows.ColdStart | apps/mobile/app/_layout.tsx:187-214 | a kill keeps rows, session and identity and nothing else; the session read back is signed in, its profile asked for, and a purge started exactly if the identity was another user's |
| SessionFlows.FreshInstall | apps/mobile/app/_layout.tsx:187-214 | a fresh install hydrates and then shows the login form, with nothing on the phone and nothing to purge |
| SessionFlows.HydrationAsks | apps/mobile/app/_layout.tsx:187-214 | hydration comes once and brings the persisted identity or none; a session signed in before it has its profile asked for only then |
| SessionFlows.RetryAsksAgain | apps/mobile/app/_layout.tsx:300-428 | a retry makes a new request for the session's user, and an old answer no longer counts |
| SessionFlows.ExpiredSession | apps/mobile/app/_layout.tsx:262-288 | after an automatic sign-out the same user finds the rows without a purge, another one starts one |
| SessionFlows.LogoutByHand | apps/mobile/src/components/ProfileScreen.tsx:102-132 | a logout by hand leaves no row, identity or request, and whoever comes next starts no purge; after the one of the web-only page another user starts one |
| SessionFlows.LogoutsAreBegun | apps/mobile/src/components/ProfileScreen.tsx:106-131 | no run has a logout under way that was not begun, was ended since, or whose app was killed |
| SessionFlows.WorkOutlivesSession | apps/mobile/app/loader-ops/load-bales.tsx:639-662 | work begun by a user outlives the sign-out and can still land its row, until it is finished |
| SessionGate.AuthGate.DetectUserSwitch | apps/mobile/app/_layout.tsx:212-245 | starts a purge and clears the identity exactly for another user; whole new state |
| SessionGate.AuthGate.OnAuthStateChange | apps/mobile/app/_layout.tsx:262-291 | a sign-out keeps rows and identity, and the last user unless it was by hand |
| SessionGate.AuthGate.ProfileEffect | apps/mobile/app/_layout.tsx:300-428 | the cleanup cancels the request under way before another starts |
| SessionGate.AuthGate.ThenProfile | apps/mobile/app/_layout.tsx:324-335 | an answer to a cancelled request changes no identity |
| SessionGate.AuthGate.FinishLogout | apps/mobile/src/components/ProfileScreen.tsx:122-131 | a logout by hand wipes rows and identity, whether or not the sign-out succeeded |
| SessionGate.AuthGate.FinishWebLogout | apps/mobile/app/web-only.tsx:43-46 | so does the logout of the page for web-only roles, which the listener takes for an automatic one |
| TableSort.CompareIsTotalPreorder | apps/admin-web/src/lib/table-sort.ts:36-58 | on a column of one kind compareCells is antisymmetric in sign and transitive, in both directions |
| TableSort.MixedColumnIsCyclic | apps/admin-web/src/lib/table-sort.ts:48-57 | with numbers and text mixed it is not transitive |
| TableSort.AnyEngineAgrees | apps/admin-web/src/lib/table-sort.ts:70-99 | any permutation the comparator accepts gives the same rows, and there is one |
| TableSort.SortRowsExactly | apps/admin-web/src/lib/table-sort.ts:22-99 | sortRows returns every row once, values before missing, empty and em-dash ones in both directions, upwards the smaller number, false, or the text the collator puts first, downwards the reverse, ties by the second column always upwards, then by place |
| TableSort.UnlikeRowsByReading | apps/admin-web/src/lib/table-sort.ts:50-57 | two rows with values of different kinds are put in the order of how the values read |
| TableSort.DescendingMirrorsAscending | apps/admin-web/src/lib/table-sort.ts:82-97 | toggling the arrow keeps ties, swaps what differs, and leaves blanks last |
| Realtime.AlwaysOneOfThree | apps/admin-web/src/lib/realtime.tsx:114-187 | in every run a mounted provider has a live channel, or a pending timer, or has given up, and exactly one of them |
| Realtime.DelayGrows | apps/admin-web/src/lib/realtime.tsx:147 | delays grow, from 1 s and to 30 s |
| Realtime.GivesUpAfterTen | apps/admin-web/src/lib/realtime.tsx:135-153 | an uninterrupted run of failures gives up after exactly ten timers, the ten listed, 181 s in all |
| Realtime.InvalidatesAfterFailure | apps/admin-web/src/lib/realtime.tsx:115-126 | a subscription refetches everything if and only if a failure came before with no subscription or manual reconnect in between |
| Realtime.AutomaticRetryInvalidates | apps/admin-web/src/lib/realtime.tsx:115-126 | every subscription brought about by a retry timer refetches |
| Realtime.ManualReconnectForgets | apps/admin-web/src/lib/realtime.tsx:160-172 | a manual reconnect after a failure makes the next subscription refetch nothing |
| Realtime.StatusTellsHistory | apps/admin-web/src/lib/realtime.tsx:115-172 | in every run the status is the one the history calls for: connected at first and from each subscription, disconnected from the eleventh failure in a row, else reconnecting; the timer set by the n-th failure in a row waits 1 s doubled n - 1 times, at most 30 s |
| Realtime.UnmountLeavesNothing | apps/admin-web/src/lib/realtime.tsx:174-187 | mounting opens a channel, unmounting leaves nothing running, and the two undo each other |
| Realtime.Provider.OnSubscribed | apps/admin-web/src/lib/realtime.tsx:115-126 | the callback on the refs is a step of the specification |
| Realtime.Provider.OnFailure | apps/admin-web/src/lib/realtime.tsx:128-153 | so is a failure: remove the channel, then give up or set a timer |
| Realtime.Provider.OnTimer | apps/admin-web/src/lib/realtime.tsx:150-152 | so is the retry |
| Realtime.Provider.Reconnect | apps/admin-web/src/lib/realtime.tsx:160-172 | so is the button |
| Realtime.Provider.Mount | apps/admin-web/src/lib/realtime.tsx:174-175 | so is mounting |
| Realtime.Provider.Unmount | apps/admin-web/src/lib/realtime.tsx:177-186 | so is unmounting: no timer and no channel is left |
| ClientLog.LogIsConserved | apps/admin-web/src/lib/client-logger.ts:54-88 | what was logged is the batches posted followed by the queue, in order; 1 to 10 entries a batch, fewer than 10 waiting, timer armed exactly when something waits |
| ClientLog.TenAtATime | apps/admin-web/src/lib/client-logger.ts:71-88 | entries logged in a row leave in whole tens, in order, and the rest waits with the timer armed |
| ClientLog.TimerPostsTheRest | apps/admin-web/src/lib/client-logger.ts:54-70 | after any run the timer posts whatever waits as one batch |
| ClientLog.ClientLogger.Enqueue | apps/admin-web/src/lib/client-logger.ts:71-88 | whole new state: a full queue is flushed at once and its timer cleared |
| ClientLog.ClientLogger.FlushNow | apps/admin-web/src/lib/client-logger.ts:62-69 | the first ten entries leave as one batch |
| Presence.EverySecondTick | packages/types/src/presence.ts:32-37 | with ticks 55 to 65 s apart exactly every second tick passes the jittered gate |
| Presence.AwakeIsGreen | packages/types/src/presence.ts:10-17 | so an awake phone is green at every instant |
| Presence.AmberBeforeWake | packages/types/src/presence.ts:18-20 | when the dead-man wakes a phone its dot is amber |
| Presence.RevivableIsNeverRed | packages/types/src/presence.ts:21-26 | a phone revived at most 90 s after each wake is never red |
| Presence.LatencyIsTight | packages/types/src/presence.ts:58-63 | one millisecond more and it can be |
| Presence.LeftAlone | packages/types/src/presence.ts:10-63 | a phone left alone is green for 2 min 30 s, red from 7 min, and woken by the first scan more than 4 min after its check-in |
| SyncCursor.CursorNeverSkips | apps/mobile/src/sync/SyncManager.ts:200-270 | in every careful run from a fresh install, with any number of pulls under way and everything else between any two of their awaits, each server row at or below the saved cursor has arrived, and none is still to commit there |
| SyncCursor.PullExactly | apps/mobile/src/sync/SyncManager.ts:229-263 | the end of a pull, whatever happened since it asked, keeps the cursor sound, now and whatever commits afterwards, if and only if at or below the cursor no row it asked above has fallen out, no row of its answer is left behind, none of its items is stale, no row came late and no stamped row is uncommitted, save the deletion of a row that is not there |
| SyncCursor.SaveExactly | apps/mobile/src/sync/SyncManager.ts:251-263 | the same for the save alone, at whatever point the others are |
| SyncCursor.ApplyExactly | apps/mobile/src/db/bale-loads-repo.ts:52-89 | applying one item keeps the saved cursor sound if and only if the item is not older than what the server has of that row at or below it: the upsert looks at no version |
| SyncCursor.FinishIsRun | apps/mobile/src/sync/SyncManager.ts:229-263 | applying what is left and saving, item by item, is what the end of a pull is defined to be |
| SyncCursorSerial.SerialNeverSkips | apps/mobile/src/sync/SyncManager.ts:42-70 | one pull at a time for the whole phone would do: if nothing but the server moves during a pull, and it skips nothing and overtakes no write, the cursor that the next pull asks above, saved or not, skips no row |
| SyncCursorStranded.OverlappedIsStranded | apps/mobile/src/sync/run-background-sync.ts:72-88 | a run from a fresh install with two pulls at a time: the older answer is applied over the newer row, below the cursor the newer one saved |
| SyncCursorStranded.WipeDuringExactly | apps/mobile/src/lib/storage.ts:62-68 | a wipe during a pull that goes on to its end leaves a sound cursor if and only if everything at or below the cursor it saves was still to be applied |
| SyncCursorStranded.WipedIsStranded | apps/mobile/app/_layout.tsx:234 | a run from a fresh install: a wipe between answer and save strands a row that had arrived |
| SyncCursorStranded.WipeHeals | apps/mobile/src/lib/storage.ts:62-68 | from any state, a wipe and then one whole pull bring back every row the server has |
| SyncCursor.CommitExactly | supabase/migrations/00040_global_sync_version.sql:31-39 | a commit keeps the saved cursor sound if and only if its version, drawn by the trigger, lies above it, save the same deletion |
| SyncCursorStranded.OvertakenIsStranded | backend/service/src/sync/sync.service.ts:1077-1084 | a run from a fresh install: two writes draw 1 and 2, the second commits and is pulled, then the first commits below the saved cursor |
| SyncCursor.CursorMayMove | apps/mobile/src/sync/SyncManager.ts:217-249 | from a sound cursor, with the server moved on since the answer, the cursor may move to a point of the answer if and only if nothing has fallen out, is left behind, stale or late there |
| SyncCursor.PullCatchesUp | apps/mobile/src/sync/SyncManager.ts:229-249 | a pull that has applied a whole answer and saves well leaves every row that has not changed since as the server has it |
| SyncCursor.RedeliveryIsHarmless | apps/mobile/src/db/bale-loads-repo.ts:149-155 | applying an item twice is applying it once |
| SyncCursor.UndoneIsUnmade | backend/service/src/sync/sync.service.ts:1077-1084 | a write rolled back leaves nothing but its used-up version, and a pull given up before its answer nothing |
| SyncCursor.TombstoneLowers | apps/mobile/src/db/bale-loads-repo.ts:142-155 | a tombstone never raises the highest local version |
| SyncCursor.OptimisticExactly | apps/mobile/app/loader-ops/load-bales.tsx:1357-1372 | an optimistic version-0 row keeps the saved cursor sound if and only if the server's row lies above it |
| SyncCursorStranded.OverwrittenIsStranded | apps/mobile/app/loader-ops/load-bales.tsx:1357-1372 | a run from a fresh install in which an optimistic row overwrites a pulled one below the saved cursor |
| SyncCursorStranded.FailureIsLeftBehind | apps/mobile/src/sync/SyncManager.ts:229-263 | a row that failed while a newer one was applied is stranded by the save |
| SyncCursorStranded.FailedIsStranded | apps/mobile/src/sync/SyncManager.ts:229-263 | a run from a fresh install that strands a failed row |
| SyncCursorStranded.StaysBehind | apps/mobile/src/sync/SyncManager.ts:320-331 | a row missing at or below the saved cursor, with no write of it and no pull with it under way, stays missing in every later run until it is written again or the phone is wiped |
| SyncCursorStranded.KilledFirstPullKeepsDeleted | apps/mobile/src/sync/SyncManager.ts:229-249 | a first pull killed between live rows and tombstones leaves a deleted row below the next cursor |
| SyncCursorStranded.KilledIsStranded | apps/mobile/src/sync/SyncManager.ts:229-249 | a run from a fresh install after which the deleted row is on the phone below a saved cursor |
| SyncCursorRepo.BaleLoadsRepo.GetMaxServerVersion | apps/mobile/src/db/bale-loads-repo.ts:142-147 | the highest version in the table, 0 when empty |
| SyncCursorRepo.SyncCursorsRepo.Upsert | apps/mobile/src/db/sync-cursors-repo.ts:34-44 | the cursor never moves back |
| SyncCursorRepo.PullCycle.GetLastVersion | apps/mobile/src/sync/SyncManager.ts:320-337 | the saved cursor, else the highest local version; a step of the specification |
| SyncCursorRepo.PullCycle.ApplyNext | apps/mobile/src/sync/SyncManager.ts:229-249 | one turn of the loops, from whatever state the others left, is a step of the specification, and a row that throws is skipped and not counted |
| SyncCursorRepo.PullCycle.SaveMax | apps/mobile/src/sync/SyncManager.ts:251-263 | so is the save: the highest version applied, never moving the cursor back |
| SyncCursorRepo.PullCycle.Finish | apps/mobile/src/sync/SyncManager.ts:229-263 | the loops and the save, uninterrupted, are the end of a pull in the specification |
| SyncCursorRepo.LoopsAreAPull | backend/service/src/sync/sync.service.ts:1080-1123 | the live rows and the tombstones of an answer are what there is to apply: every item, each once |

## Left out

- KeepAlive.BoundedRecovery: the recovery clock starts again where the watchdog was put off for a start that is then lost, or by a boot broadcast whose start is refused, because the bound is false otherwise (`KeepAliveEnds.PuttingOffStarves`).
- KeepAliveService.ServiceReturns: adds the 8 s of a nightly restart that strikes while the service is down, because without them the bound is false (`KeepAliveService.PassedByExactly`); what the system refuses or loses is the subject of `KeepAlive.BoundedRecovery`.
- KeepAlive.NextNightlyIsFirst: uses one fixed offset, so the two nights a year on which local clocks change are not modelled.
- MainApplicationRuns.PrebuildForgetsOldBlock: asks of the old block that it hides no packages anchor and carries or splits no registration; `MainApplicationRuns.PatchForgetsExactly` says what happens otherwise.
- MainApplicationBlocks.PatchForgetsBlocks: asks that the blocks hide no packages anchor and decide nothing about the registration, as for one block.
- MainApplicationRuns.PrebuildOnceEach: starts from a template that registers neither package; a source that already holds a registration twice keeps it twice.
- Seasons.OneSeason: for years of four digits, and for zones at +2 h in the hour before and at each New Year, as Romania's is; `Seasons.SummerSplitsSeasons` and `Seasons.FiveDigitYearMisplaced` show both are needed.
- Seasons.PickedYearIsShown: a season parameter is read as a run of digits or as no number; the signs, fractions, exponents and spaces that the browser's number conversion also accepts are not modelled.
- DateStrings.AddDaysAdds: numbers are unbounded, so fields above 2^53, which the browser rounds, are not modelled; a field that is no run of digits is not a date.
- TableSort.CompareIsTotalPreorder: numbers are reals; a column that holds NaN or an infinity is not modelled.
- TableSort.AnyEngineAgrees: the engine's sort is any permutation that the comparator accepts, not a particular algorithm in place.
- RegisterLoadEnds.OneLoadPerScreen: the server remembers every key; its daily cleanup of old idempotency records is not modelled.
- RegisterLoadRuns.AuxiliaryLoadHasCmr: a queued scan may be sent at any time; that a push defers it when its load failed in the same cycle is not modelled. A CMR counts as delivered when its upload is reported to have succeeded.
- RegisterLoadScreen.LoadScreen.PreflightDone: the duplicate and availability checks are an answer to proceed or not.
- RegisterLoadScreen.LoadScreen.SubmitOnline: the mirrored trip row is best effort in the code and not modelled.
- SyncCursor.CursorNeverSkips: for rows a phone may see; the owner and visibility filters of the server's pull and the season prune that drops old pulled rows are not modelled. It speaks of the saved cursor; the fallback, the highest local version, moves with every row of a first pull, and is part of the condition for saving and of `SyncCursorSerial.SerialNeverSkips`.
- Session.UsersStayApart: holds in orderly runs only; `Session.OrderlyExactly` shows that no condition can be dropped, and `SessionRuns` has a run for each. Rows belong to the user in whose name the work was begun.
- SessionRuns.BlindSwitchHappens: navigation is not modelled beyond this: a sign-in is offered while signed out, or signed in without a loaded profile.
- Presence.AwakeIsGreen: every check-in that passes the gate succeeds.
- Rendering, navigation, haptics, translations and the landing page: nothing to prove.
- Android, Expo, Supabase, SheetJS and NestJS: only the assumptions named above, and that a removed channel and a cleared timer stay silent.
- SQL text and SQLite: tables are maps by id. The CSV ends with the string handed to the browser.
- The server's trip state machine, reconciliation, fraud detection and table push: not part of this model.
- The headless check-in that a presence tick also dispatches, and the location services: they arm no alarm of the protocol.
- The KML parser, interpolation, HTML escaping, trip mapping and log levels: small text functions without state.
- The log outside a production browser: nothing is queued there.
