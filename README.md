# CCCS configuration switcher — a verified model of its services

CCCS (Claude Code Configuration Switcher) is a tray application that keeps
several *profiles* of Claude Code's `settings.json` side by side in the Claude
directory, as `<name>.settings.json`, and switches between them. This project
models its four services in Dafny and proves properties of the model:

- **the profile store** (`config_service.rs`, module `ConfigStore`). It
  covers which directory entries are profiles and how a profile is loaded
  through a 60-second content cache. It covers how each profile is compared
  with the live `settings.json`: full match, a match that ignores the
  `model` member, no match, or error. It covers the activation flags and the
  switch protocol: validate, test write, timestamped backup, write a
  temporary file, read it back, rename it over the live file, and restore
  the backup on failure. Backup rotation is covered too, both as written
  (in `ConfigStore`) and as the intended keep-the-five-newest rule (module
  `BackupRotation`).
- **the change monitor** (`monitor_service.rs`, module `Monitor`). It
  covers the bounded watch list and the fingerprint cache. It covers the two
  change rules: the quick rule of the polling loop and the strict rule of
  the forced scan. It covers the per-file Created, Modified and Deleted
  diff, the batch cache update, and the error streak and back-off of the
  polling loop.
- **the user settings** (`settings_service.rs`, module `Settings`). It
  covers validation, the JSON form of `UserSettings`, and
  save-through-temporary-file. It covers load, the field updates, reset,
  export, import and the timestamped backup.
- **the translations** (`i18n_service.rs`, module `I18n`). It covers locale
  detection, the two tables, lookup with English fallback, `{}`
  substitution, the menu text and the tray tooltip.

Shared vocabulary is in `common.dfy` (module `Types`): the records of
`types.rs`, the errors of `error.rs` and a JSON value type. The file system
the services run against is in `disk.dfy` (module `Storage`). It is a class
holding a map from path to entry. Its failures are part of its state: a
*locked* path cannot be created, replaced, renamed or removed, and a write
to a *torn* path stores only the first half of the data. Each successful
mutation is appended to a ghost log, so the order of writes can be stated.

Imperative code is modelled imperatively. The four services are classes
whose methods update their fields and the disk. Each method that computes a
value or a new cache is tied by its `ensures` to a pure specification
function, and the properties are proved about those functions. The steps of
a profile switch work on the disk instead: their `ensures` state exactly
when each step succeeds, in terms of the disk's state, and what it leaves
behind.

What the model takes as parameters instead of calling:

- **serde_json.** A `Codec(parse, pretty)`. `Faithful(codec)` says that
  parsing what the pretty-printer wrote gives back the same value.
- **crc32fast.** A `Hasher` function.
- **The clock.** `now: nat`, in seconds.
- **`read_dir`.** The directory listing, in its own order.
- **Locale detection.** The `LANG` and `LC_ALL` variables and the macOS
  locale string.

## Model

| member | source | states |
|---|---|---|
| Types.DefaultUserSettings | src-tauri/src/types.rs:29-38 | the default preferences: a 5-minute interval, auto-start and notifications on, no language |
| Storage.Fingerprint | src-tauri/src/config_service.rs:389-402 | metadata is obtained iff the path holds a readable file, and it is then that file's mtime, the CRC of its whole content, and its size |
| ConfigStore.ProfileStem | src-tauri/src/config_service.rs:152-157 | a file name names a profile iff it ends in `.settings.json`, is not `settings.json` and leaves a non-empty stem; the stem followed by the suffix gives back the file name |
| ConfigStore.LiveFileIsNotAProfile | src-tauri/src/config_service.rs:153-157 | `settings.json` and the bare suffix name no profile; `work.settings.json` names `work` |
| ConfigStore.LiveFileExclusionIsImplied | src-tauri/src/config_service.rs:154 | every name ending in `.settings.json` already differs from `settings.json` |
| ConfigStore.EqualIgnoringFieldMembers | src-tauri/src/config_service.rs:323-342 | two objects equal up to the ignored member agree on the presence and the value of every other member |
| ConfigStore.EqualIgnoringFieldIsEquivalence | src-tauri/src/config_service.rs:323-342 | the comparison that ignores a member is reflexive, symmetric and transitive |
| ConfigStore.Classify | src-tauri/src/config_service.rs:287-320 | unparsable live settings, then an unparsable profile, give their errors; FullMatch iff the two values are equal; PartialMatch iff they differ but are equal without `model`; NoMatch iff they differ even without `model` |
| ConfigStore.NonObjectsNeverMatchPartially | src-tauri/src/config_service.rs:323-342 | two values that are not both objects are a full match or no match, never a partial one |
| ConfigStore.DetailedStatus | src-tauri/src/config_service.rs:287-320 | a live file that cannot be read gives the read error; otherwise the status is the classification of the two parsed texts |
| ConfigStore.ModelOnlyDifferenceIsPartial | src-tauri/src/config_service.rs:287-342 | two configurations that differ only in `model` are a partial match |
| ConfigStore.MarkProfiles | src-tauri/src/config_service.rs:268-284 | the list keeps its length and each profile keeps everything but its flag, which becomes "its JSON equals the live JSON" |
| ConfigStore.MarkProfilesMeaning | src-tauri/src/config_service.rs:244-284 | a profile is active iff it parses to the live value; no profile is active when the live settings are missing or invalid |
| ConfigStore.FirstNamed | src-tauri/src/config_service.rs:430-432 | the index of the first profile with that name, and None iff no profile has it |
| ConfigStore.ReadThroughCacheMeaning | src-tauri/src/config_service.rs:48-89 | an answer that differs from the file can come only from an entry younger than 60 s whose recorded mtime is not older than the file's; a miss succeeds iff the file is readable, returns its content and replaces only that entry, stamped now; a hit leaves the cache as it was |
| ConfigStore.ReadSettingsThroughCacheMeaning | src-tauri/src/config_service.rs:92-114 | the same for the one-slot cache of the live settings; a failed read gives "Failed to read default settings" and keeps the old snapshot |
| ConfigStore.LoadProfileFromMeaning | src-tauri/src/config_service.rs:199-236 | a profile loads iff its name is non-empty and at most 255 long and its file reads, through the cache, as JSON; the profile carries that name and path and is inactive; a rejected name leaves the cache alone |
| ConfigStore.ScanEntriesSound | src-tauri/src/config_service.rs:141-173 | a scan reports no more profiles than the listing has entries; each is named after a listed `<name>.settings.json`, sits at that path, holds JSON and is inactive |
| ConfigStore.RefreshStatusMeaning | src-tauri/src/config_service.rs:239-273 | refreshing keeps the list and changes only the flags; a profile is active iff its JSON equals the live JSON read through the cache; none is when that read fails |
| ConfigStore.SwitchPathsDistinct | src-tauri/src/config_service.rs:460-473 | the live file, the write-test file, the temporary file, the restore file and the timestamped backup are five different paths |
| ConfigStore.NoMatchNoCandidates | src-tauri/src/config_service.rs:584-591 | entries whose names do not start with the pattern are never selected for rotation |
| ConfigStore.CleanupAsWrittenRemovesNothing | src-tauri/src/config_service.rs:580-611 | the pattern is the full settings path plus `.backup.`, and it is compared with bare file names, so no file is ever selected and no backup is removed |
| ConfigStore.BackupNamesMatchIntendedPattern | src-tauri/src/config_service.rs:469-473 | a switch's backup is `settings.json.backup.<seconds>` in the Claude directory; its file name contains no separator and starts with `settings.json.backup.` |
| ConfigStore.ConfigService.ClearCache | src-tauri/src/config_service.rs:41-45 | both caches are emptied |
| ConfigStore.ConfigService.GetFileContentCached | src-tauri/src/config_service.rs:57-89 | the answer and the new cache are those of the read through the cache |
| ConfigStore.ConfigService.GetDefaultSettingsCached | src-tauri/src/config_service.rs:92-114 | the answer and the new snapshot are those of the live-settings read through the cache |
| ConfigStore.ConfigService.LoadProfile | src-tauri/src/config_service.rs:199-236 | the answer and the new cache are those of loading the profile |
| ConfigStore.ConfigService.UpdateProfileStatus | src-tauri/src/config_service.rs:239-273 | the loop sets every flag as the refresh does, and the snapshot is that of the refresh |
| ConfigStore.ConfigService.RefreshProfileStatus | src-tauri/src/config_service.rs:656-662 | it always succeeds, and the stored profiles are refreshed against the live settings |
| ConfigStore.ConfigService.ScanProfiles | src-tauri/src/config_service.rs:117-196 | a missing Claude directory, a file in its place, or a listing that fails gives the matching error and changes nothing; otherwise the stored and returned profiles are those the loop loads, flagged against the live settings; each has a valid name, a listed file and JSON content |
| ConfigStore.ConfigService.GetDetailedProfileStatus | src-tauri/src/config_service.rs:287-320 | the status is the detailed status against the live file read afresh, bypassing the cache |
| ConfigStore.ConfigService.CompareProfiles | src-tauri/src/config_service.rs:363-372 | one detailed status per stored profile, in order |
| ConfigStore.ConfigService.GetProfileStatus | src-tauri/src/config_service.rs:375-381 | the detailed status of the first profile with that name, or the not-found error naming it |
| ConfigStore.ConfigService.GetMonitoredFiles | src-tauri/src/config_service.rs:405-413 | the live file first, then every profile's file, in order |
| ConfigStore.ConfigService.ValidateSwitch | src-tauri/src/config_service.rs:665-672 | an unknown profile and an unreadable live file give their errors; the answer is Ok exactly when the profile is found and the live file is readable, and it is then true iff the two parse to the same value |
| ConfigStore.ConfigService.CreateBackup | src-tauri/src/config_service.rs:614-620 | succeeds iff the live file is readable and the backup path writable; the backup then holds the live content and is logged as a copy of the live file; a failure changes nothing |
| ConfigStore.ConfigService.WriteVerifiedTemp | src-tauri/src/config_service.rs:534-555 | succeeds exactly when the temporary file can be replaced and keeps whole what is written to it, and then holds exactly the data; a failure is one of the switch errors; nothing but the temporary file changes |
| ConfigStore.ConfigService.PerformSwitchAtomic | src-tauri/src/config_service.rs:518-577 | succeeds exactly when the text is a JSON object, the temporary file takes the pretty-printed value whole and the live file can be replaced; text that is not JSON, or not an object, is refused and nothing changes; any failure is one of the six switch errors and leaves the live file as it was; success leaves the pretty-printed value in the live file; only the live and temporary files change |
| ConfigStore.ConfigService.RestoreFromBackup | src-tauri/src/config_service.rs:623-653 | succeeds exactly when the backup is a readable file holding JSON and the restore file and the live file can be replaced; success puts the backup's content in the live file, removes the restore file and deletes the backup unless it is locked; a missing or unreadable backup gives its own error and changes nothing; a failure leaves the live file as it was; only the live, restore and backup files change |
| ConfigStore.ConfigService.PrepareSwitch | src-tauri/src/config_service.rs:459-479 | succeeds exactly when the test file can be written, the live file read and the backup written; a failure gives one of its two errors; the live file is untouched; no logged step before the backup copy replaces it; on success the backup is readable and holds the live content; only the test and backup files change |
| ConfigStore.ConfigService.BackUpAndReplace | src-tauri/src/config_service.rs:459-514 | success iff the switch was committed, which happens exactly when the pre-flight is possible, the content is an object and its replacement of the live file can go through; otherwise the switch is aborted, with one of the two pre-flight errors, exactly when the test write or the backup is impossible; a content that is not an object always ends in a rollback attempt; after a failed replacement the rollback succeeds exactly when the old live content is JSON and the restore file and the live file can be replaced, and then the switch error is returned, otherwise "Profile switch failed and rollback failed"; any failure leaves the live content as it was; a copy of the live file is taken before anything replaces it; a commit leaves the new object, pretty-printed, in the live file |
| ConfigStore.ConfigService.FinishSwitch | src-tauri/src/config_service.rs:483-493 | the caches are cleared and the flags recomputed against the new live JSON |
| ConfigStore.ConfigService.SwitchProfile | src-tauri/src/config_service.rs:421-515 | an empty name, an unknown name, a profile that is not JSON and a missing live file give their own errors and change nothing, and exactly those cases are refused; a profile flagged active succeeds with nothing changed; any other switch succeeds exactly when the pre-flight is possible, the profile is an object and the replacement can go through; the pre-flight, rollback and rollback-failed cases are decided and reported as in the replacement step; a failed switch leaves the live content as it was; the live file is always copied before anything replaces it; a commit leaves the profile's object, pretty-printed, in the live file, with that profile flagged active and equal in configuration to it |
| ConfigStore.HealthyDiskSwitches | src-tauri/src/config_service.rs:459-577 | with nothing locked or torn and no directory in place of a side file, a readable live file passes the pre-flight and any replacement goes through, so a switch to an object profile commits |
| BackupRotation.SortNewestFirst | src-tauri/src/config_service.rs:593-598 | the sort keeps the length and the elements, so it is a permutation |
| BackupRotation.SortNewestFirstOrders | src-tauri/src/config_service.rs:593-598 | the sorted backups are newest first |
| BackupRotation.RotationVictims | src-tauri/src/config_service.rs:600-605 | all but five backups are removed, and none when there are at most five |
| BackupRotation.RotationSurvivors | src-tauri/src/config_service.rs:600-605 | at most five backups survive |
| BackupRotation.RotationKeepsNewest | src-tauri/src/config_service.rs:579-611 | survivors and removed backups together are exactly the backups, and no removed backup is newer than a survivor |
| BackupRotation.FewBackupsAreKept | src-tauri/src/config_service.rs:600-609 | with five backups or fewer nothing is removed and all survive |
| Monitor.QuickProbe | src-tauri/src/monitor_service.rs:313-339 | fails iff the path is missing; mtime and size come from the file; the checksum is 0 above 1 MiB or for content that cannot be read, and the CRC otherwise |
| Monitor.ProbesAgreeOnSmallFiles | src-tauri/src/monitor_service.rs:313-339 | on a readable file of at most 1 MiB the quick probe and the full probe give the same fingerprint |
| Monitor.ChangeRules | src-tauri/src/monitor_service.rs:342-358 | the quick rule flags any change of mtime or size, or two non-zero checksums that differ; the strict rule needs a new mtime and a new size or checksum; strict implies quick; an unchanged mtime is never a strict change |
| Monitor.TouchSeparatesTheRules | src-tauri/src/monitor_service.rs:507-520 | a file touched without a change of content is a quick change but not a strict one |
| Monitor.StrictComparisonExamples | src-tauri/src/monitor_service.rs:610-631 | equal fingerprints are unchanged, and a new time, size and checksum is a change |
| Monitor.ScanSingleFileEvents | src-tauri/src/monitor_service.rs:259-310 | one file gives no error and at most one event, about itself: Deleted iff it is gone but cached, Created iff present but not cached, Modified iff cached and changed by the quick rule |
| Monitor.ScanChangesPerPath | src-tauri/src/monitor_service.rs:202-226 | over a duplicate-free watch list, every event names a watched path and no path gets two events |
| Monitor.ApplyBatchEffect | src-tauri/src/monitor_service.rs:228-243 | the batch update removes deleted files, stores a fresh quick fingerprint for created and modified ones, and leaves every other entry as it was |
| Monitor.InPlaceEventsAreQuickEvents | src-tauri/src/monitor_service.rs:430-488 | against the same cache, every event of the forced scan is also an event of the polling scan |
| Monitor.ForcedScanExample | src-tauri/src/monitor_service.rs:641-663 | after the initialisation a forced scan reports nothing; after a later rewrite with different length it reports one Modified event; without the initialisation it reports Created |
| Monitor.InitialMetadataCovers | src-tauri/src/monitor_service.rs:409-427 | every readable watched file is cached with its full fingerprint, and no other path is added |
| Monitor.AfterAddKeepsBounds | src-tauri/src/monitor_service.rs:57-95 | the watch list stays duplicate-free and at most 50 long; the path is in it iff it was already or it is an existing file of at most 10 MiB; an eviction drops the oldest path and keeps the order of the others |
| Monitor.MissingPathIsNotAdded | src-tauri/src/monitor_service.rs:57-62 | a path that does not exist never enters the watch list |
| Monitor.OptimizedCache | src-tauri/src/monitor_service.rs:98-108 | at most 100 entries are left alone; above that, only the entries of watched paths are kept, unchanged |
| Monitor.FailuresBackOffThenGiveUp | src-tauri/src/monitor_service.rs:165-185 | successive failed scans pause 30, 60, ... seconds, and the tenth failure in a row clears the running flag and ends the loop |
| Monitor.BackoffNeverReachesCap | src-tauri/src/monitor_service.rs:184 | no pause is longer than 270 seconds, so the 300-second cap is never reached |
| Monitor.SuccessfulScansNeverBackOff | src-tauri/src/monitor_service.rs:155-164 | scans that succeed keep the loop running with a streak of 0, and every tick is quiet or reports changes |
| Monitor.MonitorService.constructor | src-tauri/src/monitor_service.rs:23-34 | a stopped monitor with an empty watch list and cache and the given interval |
| Monitor.MonitorService.AddFileToMonitor | src-tauri/src/monitor_service.rs:57-95 | the watch list becomes the list after the add; the cache loses only an evicted path's entry |
| Monitor.MonitorService.OptimizeMetadataCache | src-tauri/src/monitor_service.rs:98-108 | the cache becomes the trimmed cache |
| Monitor.MonitorService.StopMonitoring | src-tauri/src/monitor_service.rs:361-368 | the running flag is cleared and the cache trimmed |
| Monitor.MonitorService.SetMonitorInterval | src-tauri/src/monitor_service.rs:37-54 | accepts exactly 1 to 60 minutes, and otherwise changes nothing and names the value; a new value while running stops the monitor (the restart of lines 400-406) |
| Monitor.MonitorService.InitializeFileMetadata | src-tauri/src/monitor_service.rs:409-427 | always succeeds, and the cache becomes the initial metadata of the watch list |
| Monitor.MonitorService.StartMonitoring | src-tauri/src/monitor_service.rs:111-140 | the polling task's own copy of the watch list is taken, the cache is primed, the error count reset and the running flag set |
| Monitor.MonitorService.PerformScanOptimized | src-tauri/src/monitor_service.rs:202-256 | always succeeds; the events are those of the polling task's copy of the watch list, taken at start, against a snapshot of the cache, so paths watched later are not scanned; the cache receives their batch update |
| Monitor.UncachedFilesAreCreated | src-tauri/src/monitor_service.rs:202-256 | a scanned path that exists but has no cache entry, such as one evicted from the watch list after the task's copy was taken, is reported as Created (and so cached again) |
| Monitor.MonitorService.PerformScan | src-tauri/src/monitor_service.rs:430-488 | always succeeds; the events and the cache are those of the scan that updates the cache file by file |
| Monitor.MonitorService.GetMonitoringStats | src-tauri/src/monitor_service.rs:371-384 | the counts, flag and interval are the service's own, with the limits 100 and 10 |
| Monitor.MonitorService.ClearCache | src-tauri/src/monitor_service.rs:393-397 | the cache is emptied and the error count reset |
| Monitor.MonitorService.ClearMonitoredFiles | src-tauri/src/monitor_service.rs:544-548 | the watch list and the cache are emptied |
| Monitor.MonitorService.Tick | src-tauri/src/monitor_service.rs:143-195 | one tick of the loop, run on the task's own failure streak, which clearing the cache does not reset; a running loop copies the new streak into the shared error count and may clear the running flag; a stopped loop changes nothing |
| Settings.ValidateMonitorInterval | src-tauri/src/settings_service.rs:123-130 | accepts exactly 1 to 60 minutes, and refuses any other value with a settings error |
| Settings.SupportedLanguagesAreListed | src-tauri/src/settings_service.rs:133-135 | a language is supported iff it is `en`, `zh`, `zh-CN` or `zh-TW` |
| Settings.ValidateSettings | src-tauri/src/settings_service.rs:107-120 | settings pass iff the interval is 1 to 60 and the language is absent or supported; a bad interval is reported first |
| Settings.ValidationExamples | src-tauri/src/settings_service.rs:346-364 | 1, 30 and 60 pass and 0 and 61 fail; the four languages pass and `fr` and `invalid` fail; the defaults pass |
| Settings.SettingsToJson | src-tauri/src/types.rs:21-27 | an object with exactly the four members |
| Settings.OptionalStringMember | src-tauri/src/types.rs:25 | a missing or `null` member is no language, and a string member is that language |
| Settings.SettingsFromJson | src-tauri/src/types.rs:21-27 | decoded settings come from an object whose four members hold exactly their values |
| Settings.SettingsJsonRoundTrip | src-tauri/src/types.rs:21-27 | decoding what was encoded gives back the same settings |
| Settings.UnknownMembersAreIgnored | src-tauri/src/types.rs:21-27 | members other than the four do not change what is decoded |
| Settings.MissingLanguageReadsAsNone | src-tauri/src/types.rs:25 | a file without a `language` member reads back with no language |
| Settings.ReadSettings | src-tauri/src/settings_service.rs:65-81 | an accepted file holds JSON that decodes to valid settings; a file that cannot be read, or does not parse or decode, gives its own message |
| Settings.ReadBackSerialized | src-tauri/src/settings_service.rs:84-104 | valid settings, pretty-printed, read back as themselves |
| Settings.InvalidSettingsAreRejected | src-tauri/src/settings_service.rs:71-75 | settings that fail validation are refused on reading, with the validation error |
| Settings.WithExtension | src-tauri/src/settings_service.rs:94 | with a non-empty extension the result ends in `.` and that extension |
| Settings.JsonTempName | src-tauri/src/settings_service.rs:94 | `with_extension("json.tmp")` on a `.json` file name appends `.tmp` |
| Settings.SettingsBackupPath | src-tauri/src/settings_service.rs:254-258 | the backup is `cccs_settings_backup_<seconds>.json` in the settings directory |
| Settings.SaveThenLoad | src-tauri/src/settings_service.rs:84-104 | after a complete save, loading the settings file gives back the saved settings |
| Settings.SettingsService.constructor | src-tauri/src/settings_service.rs:35-45 | the service starts with the default preferences |
| Settings.SettingsService.TempPathIsSibling | src-tauri/src/settings_service.rs:94 | the temporary file is the settings file's name plus `.tmp`, never the settings file itself |
| Settings.SettingsService.BackupPathIsFresh | src-tauri/src/settings_service.rs:254-258 | a settings backup never lands on the settings file or its temporary file |
| Settings.SettingsService.Save | src-tauri/src/settings_service.rs:84-104 | invalid settings are refused and nothing changes; success iff both paths are writable; it leaves exactly the temporary file renamed over the settings file, which loads back as the saved settings; a failure changes only the temporary file |
| Settings.SettingsService.Load | src-tauri/src/settings_service.rs:65-81 | the answer is the reading of the settings file; success adopts it, and a failure keeps the old preferences |
| Settings.SettingsService.LoadOrCreate | src-tauri/src/settings_service.rs:55-62 | an existing file is loaded without writing; a missing one is created from the defaults |
| Settings.SettingsService.UpdateSettings | src-tauri/src/settings_service.rs:138-145 | the new settings are adopted iff they were saved, and a failure keeps the old ones |
| Settings.SettingsService.UpdateMonitorInterval | src-tauri/src/settings_service.rs:148-156 | a bad interval is refused with nothing changed; otherwise the interval is set in memory and then saved |
| Settings.SettingsService.UpdateAutoStartMonitoring | src-tauri/src/settings_service.rs:159-165 | the flag is set in memory and then saved |
| Settings.SettingsService.UpdateLanguage | src-tauri/src/settings_service.rs:168-182 | an unsupported language is refused with nothing changed; otherwise the language is set in memory and then saved |
| Settings.SettingsService.UpdateShowNotifications | src-tauri/src/settings_service.rs:185-191 | the flag is set in memory and then saved |
| Settings.SettingsService.ResetToDefaults | src-tauri/src/settings_service.rs:204-212 | the defaults are saved and adopted iff the save succeeds |
| Settings.SettingsService.ExportSettings | src-tauri/src/settings_service.rs:215-226 | the current settings are written straight to the target, succeeding iff it is writable; a complete export imports back as the current settings |
| Settings.SettingsService.ImportSettings | src-tauri/src/settings_service.rs:229-245 | a file that cannot be read, parsed, decoded or validated is refused and nothing changes; otherwise the imported settings are saved and adopted exactly when the save succeeds |
| Settings.SettingsService.CreateBackup | src-tauri/src/settings_service.rs:248-264 | on success the returned path is the timestamped backup, which imports back as the current settings; the settings file is never touched |
| I18n.DetectSystemLocale | src-tauri/src/i18n_service.rs:26-73 | the result is supported, and it is `zh` iff `LANG`, `LC_ALL` or the platform locale starts with `zh` |
| I18n.TablesCoverTheSameKeys | src-tauri/src/i18n_service.rs:98-164 | both supported locales have a table, and the English and Chinese tables have the same keys |
| I18n.ActiveTable | src-tauri/src/i18n_service.rs:173-175 | the current locale's table, else the English one; there is none only when neither exists |
| I18n.FindPlaceholder | src-tauri/src/i18n_service.rs:181 | the position of the first `{}`, and None iff there is none |
| I18n.FormatStep | src-tauri/src/i18n_service.rs:180-186 | one step replaces the first `{}` with the first argument |
| I18n.FormatFillsHolesInOrder | src-tauri/src/i18n_service.rs:177-187 | with brace-free text and arguments, the holes are filled left to right by the arguments in order; holes left over stay `{}`, and arguments left over are dropped |
| I18n.FormatWithoutHoles | src-tauri/src/i18n_service.rs:180-185 | a template without `{}`, or no arguments, is returned unchanged |
| I18n.ArgumentsAreSearchedAgain | src-tauri/src/i18n_service.rs:180-185 | an argument that itself holds `{}` is substituted into by the next argument |
| I18n.MissingKeyIsShownAsIs | src-tauri/src/i18n_service.rs:188-191 | a key missing from the table is shown as itself |
| I18n.UnknownLocaleFallsBackToEnglish | src-tauri/src/i18n_service.rs:173-175 | a locale without a table reads the English table |
| I18n.LookupExamples | src-tauri/src/i18n_service.rs:306-351 | `app_name` is CCCS, a missing key is itself, and `settings` is "Settings" in English and "设置" in Chinese |
| I18n.SwitchMessageExample | src-tauri/src/i18n_service.rs:319-326 | `switch_profile` with `test` reads "Switch to profile: test" |
| I18n.ProfileMenuText | src-tauri/src/i18n_service.rs:223-229 | the entry is the name, followed by " ✅" exactly when the profile is active |
| I18n.MenuTextIsInjective | src-tauri/src/i18n_service.rs:223-229 | different profile names give different menu entries |
| I18n.TooltipExamples | src-tauri/src/i18n_service.rs:371-383 | with no profiles, the description alone; with an active profile, it is named; otherwise the count, with "Profile" pluralised unless it is 1 |
| I18n.TooltipShape | src-tauri/src/i18n_service.rs:232-254 | every tooltip starts with the description and is the description alone exactly when there are no profiles; otherwise " - " follows, then the active word and, at the end, the active name, or the count and the profile word, pluralised unless the count is 1 |
| I18n.EnglishTooltipWords | src-tauri/src/i18n_service.rs:104-108 | the English description, `active` and `profile` texts |
| I18n.I18nService.constructor | src-tauri/src/i18n_service.rs:11-23 | the detected locale and both tables are loaded |
| I18n.I18nService.LoadTextResources | src-tauri/src/i18n_service.rs:98-164 | always succeeds and loads exactly the two tables |
| I18n.I18nService.GetTextWithArgs | src-tauri/src/i18n_service.rs:172-192 | the substitution loop gives the looked-up text with the arguments filled in |
| I18n.I18nService.GetText | src-tauri/src/i18n_service.rs:167-169 | a key in the table gives its text unchanged |
| I18n.I18nService.SetLocale | src-tauri/src/i18n_service.rs:200-210 | accepts exactly `en` and `zh`; an unsupported locale is named in the error and changes nothing |
| I18n.I18nService.GetTrayTooltip | src-tauri/src/i18n_service.rs:232-254 | the tooltip built from the looked-up description, `active` and `profile` texts |

## Where the code and its comments disagree

The model follows the code in each case below, and a lemma records the behaviour.

- **Backup cleanup removes nothing.** `cleanup_old_backups` means to keep the
  five newest backups (`BackupRotation`). Its pattern is the full settings
  path, though, and it is compared with bare file names, so nothing ever
  matches (`ConfigStore.CleanupAsWrittenRemovesNothing`). Backups therefore
  accumulate. `ConfigStore.BackupNamesMatchIntendedPattern` shows the
  file-name pattern that would select them.
- **The back-off is linear.** The loop's comment calls it exponential, but
  it is `min(300, 30 * n)`. The tenth failure stops the loop first, so the
  pause is never longer than 270 seconds (`Monitor.BackoffNeverReachesCap`).
- **The loop's error branch is never taken.** `perform_scan_optimized`
  always returns `Ok`, because per-file errors are only logged
  (`Monitor.SuccessfulScansNeverBackOff`).
- **A monitor unit test contradicts the code.** The test at
  `monitor_service.rs:586-597` adds the non-existent `test.json` and expects
  it to be watched. The code refuses missing paths
  (`Monitor.MissingPathIsNotAdded`).
- **The "already active" shortcut trusts a stale flag.** `switch_profile`
  trusts the stored `is_active` flag and does not re-read the live file.
- **Settings updates change memory before saving.**
  `update_monitor_interval`, `update_auto_start_monitoring`,
  `update_language` and `update_show_notifications` set the field and then
  save. When the save fails, memory keeps the new value while the file
  keeps the old one. `update_settings` and `reset_to_defaults` save first.
- **Profiles need not be objects.** `load_profile_optimized` accepts any
  JSON value. A switch to a profile holding, say, an array therefore fails
  in `perform_switch_atomic` and rolls back.
- **One check in the scan is redundant.** The `settings.json` exclusion is
  implied by the suffix test (`ConfigStore.LiveFileExclusionIsImplied`).
- **Substitution rescans arguments.** Each step searches the whole result
  again, so `{}` inside an argument is filled by the next argument
  (`I18n.ArgumentsAreSearchedAgain`).
- **The English fallback never fires in practice.** Lookup falls back to the
  English table, but the service only ever holds a supported locale with
  both tables loaded.

## Left out

- I/O errors carry only the fixed part of the source's message. The text of
  the underlying `io::Error`, `serde_json::Error` or path that the source
  appends after a colon is dropped. Examples are "Invalid JSON in profile
  <name>" and "Profile switch failed and rollback failed".
- Concurrency is not modelled: tokio tasks, the timer, the mutexes and the
  shared `Arc` state. The polling loop is modelled as `Monitor.Run` over a
  sequence of scan outcomes, and one tick as `Monitor.MonitorService.Tick`.
  The callback is the `Reported` tick.
- `SystemTime` is modelled as whole seconds, `now: nat`. The "Failed to get
  timestamp" error of `settings_service.rs:249-252` cannot occur, and the
  `unwrap_or_default` of `switch_profile` is not needed.
- `SettingsService::new` is not modelled. Its lookup of the platform
  configuration directory and `create_dir_all` are environment calls. The
  constructor takes the directory and file name, and `LoadOrCreate` is the
  rest of `new`.
- Locale detection: the `defaults read` subprocess of `get_macos_locale` is
  modelled as an optional string parameter. `get_windows_locale` always
  returns None and is left out.
- Logging, and the getters that only return a field, are not modelled:
  `get_profiles`, `get_claude_dir`, `get_current_settings`,
  `get_settings_file_path`, `get_current_locale`, `is_monitoring`,
  `get_monitor_interval` and `get_monitored_files` of the monitor.
  `force_optimize_cache` and `force_scan` only call
  `optimize_metadata_cache` and `perform_scan`, which are modelled.
- The Tauri command wrappers are not modelled, nor `tray_service.rs`,
  `app.rs`, `lib.rs` and `claude_detector.rs`. They are callers of the
  core, not part of it.
- ConfigStore.LoadProfileFrom: names are measured in characters, not in the
  UTF-8 bytes of `name.len()`. A name of at most 255 characters can still
  exceed 255 bytes. File sizes and the 1 MiB and 10 MiB limits are taken
  from the entry's recorded size.
- JSON numbers are integers only. Floating point values in a configuration
  file are not modelled.
- Settings.WithExtension does not model the special case of Rust's
  `file_stem` for the name `..`. The settings file name is always
  `cccs_settings.json` or `settings.json`.
- ConfigStore.ConfigService.PerformSwitchAtomic: the read-back of the
  temporary file and the final read of the live file cannot fail in this
  disk model. A rename moves an entry unchanged and a successful write
  stores what the disk reports. Only a torn write makes the temporary
  read-back differ, and the final verification is unreachable.
- The cache of `get_file_content_cached` stores the entry only when
  `get_file_metadata` succeeds. In the model that probe succeeds whenever
  the read did, because a file is never changed between the two calls.
