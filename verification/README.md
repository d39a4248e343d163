# HexeVoice: verified models

A Dafny 4.11 model of eight self-contained parts of the HexeVoice node and of its firmware tools,
with proofs of what they promise. `dafny verify dfyconfig.toml` checks everything.

| files | what they model |
|---|---|
| `Wrappers`, `Text` | shared types; strings, lines and numerals |
| `ProfileScalars`, `ProfilePrinter`, `ProfileReader`, `ProfileLines`, `ProfileRoundTrip`, `ProfileWeight`, `ProfileReading`, `ProfileShown`, `ProfileExact`, `ProfileMeaning`, `ProfileStrings` | the printer of board profiles and the fallback reader that reads them back |
| `WordErrorRate` | the edit distance of the speech benchmark |
| `CacheModel`, `CacheRuns`, `PageSnapshotCache` | the page snapshot cache with its background refreshes, as a transition system and as a class that takes its steps |
| `MigrationJson`, `TrustSecrets`, `ProviderSettings`, `SettingsNormalForm`, `SettingsMeaning`, `SettingsValidated`, `ProviderMerge`, `MigrationImport`, `MigrationProperties`, `MigrationOrder`, `MigrationExport`, `ImportMeaning`, `NodeMigration` | node migration: redaction, validation, merging, the dry run, the import, the restore |
| `Partitions` | the flash partition allocator and validator and the regions of a full-device bundle |
| `ClockFont`, `ClockFontLayout` | the HXF1 font writer and the firmware loader of its files |
| `AssetIds`, `YamlIncludes` | the ids of an asset library; the YAML loader with includes |
| `EventContent`, `EventQueue`, `TimerPrompts` | the filter, the topics and the bounded queue of domain events; the spoken timer conversation |

Where the source works by changing things step by step, the model is a class or a method with
loops, and its contract ties it to a function; the main results are lemmas about that function.
Lemmas turn Dafny's automatic induction off, so every induction is written out.

## What the model takes as given

- Page cache: the wall clock does not run backwards, different keys have different files, a
  builder lets a cancellation through, and a coroutine is interrupted only where it awaits. A
  write to the disk either stores the snapshot, with the time of the clock, or fails.
- Migration: the data models (pydantic) and the registry of speech profiles are arbitrary
  functions, as are Python's conversions of values that are no strings or numbers; loading a
  store gives what was saved. Floats are counted in millionths. The three validators are one
  procedure over a table of fields, in the order in which the source reads them; warnings are
  named, not spelled.
- Partitions: the cells of a row are parsed already; a blank offset is None.
- Font: measures and bitmaps come from the rasteriser, one byte a pixel.
- Asset ids: the id made from a file name is an arbitrary function; a file is its media type and
  its path, and the path is not empty.
- Includes: the files are a finite map; resolving a path and being under the root are arbitrary.
- Events: lower-casing is an arbitrary function that leaves event types alone; the length of the
  encoded payload is an input.
- Timer conversation: a handler runs to its end before the next one starts, and a capture is
  delivered only to an endpoint that captures. Every command may raise, and so may the service.

## Results that differ from a first reading of the code

- A board profile comes back changed unless it is faithful; the exact condition is proved.
- A rebuild that a caller awaits is not cancelled by an invalidation and can leave a stale
  snapshot that counts as fresh (`AwaitedRebuildCanBeStale` is such a run); this happens exactly
  when it ends last, after the clock has passed the invalidation (`ServedIsStaleExactly`).
- A direct import that fails leaves earlier sections written, unless the first section it holds is
  the wrong one (`ImportWritesNothingExactly`); `restore_backup`, which rehearses first, cannot. A
  dry run can report no address where the import reports the stored ones; a second import can
  change the order of the enabled providers.
- The validator of partitions compares neighbours only, and asks neither for sizes nor for offsets
  from zero on: an accepted table keeps its partitions apart exactly when no offset falls below the
  one before it, and within the flash exactly when moreover the first one is not negative.
- A new media file can take the id of an unchanged one; ids are kept exactly when no new file that
  is scanned earlier gets one of them (`FilesKeepIdsExactly`, `NewFilesExactly`).
- A pending prompt can outlive its session when a new conversation begins and a command raises
  (`PromptCanOutliveItsSession`).

## Model

| member | source | states |
|---|---|---|
| ProfileScalars.ScalarReads | firmware/tools/validate_board_profiles.py:42-75 | A scalar printed as the value of a key, cut at a comment, stripped and parsed is the scalar itself if and only if it survives: not a float printed with an exponent, infinite or no number, not a plain string that looks like a number, a truth value or null or ends in a space, not a quoted string with an escaped character |
| ProfileScalars.ItemScalarReads | firmware/tools/validate_board_profiles.py:152-173 | The same for an item of a list, which is moreover taken for `key: value` exactly when it has a colon and is not a plain web address |
| ProfileStrings.StringPrints | firmware/tools/create_board_profile.py:14-24 | A string is printed as it is where it is not empty, no word of the three and has only ASCII letters, digits and the characters of the pattern; otherwise as a JSON string of printable ASCII that stands for it |
| ProfileStrings.EscapeRoundTrip | firmware/tools/create_board_profile.py:24 | What is written between the quotes stands for the string, whatever characters it has, surrogate pairs included |
| ProfilePrinter.RenderYaml | firmware/tools/create_board_profile.py:27-57 | The printer yields the lines of the tree, or fails exactly when some list holds an empty dict |
| ProfilePrinter.RenderYamlDict | firmware/tools/create_board_profile.py:29-40 | The loop over the entries appends, for each, the lines that the recursive specification gives |
| ProfilePrinter.RenderYamlList | firmware/tools/create_board_profile.py:41-56 | The loop over the items, with the first line of a dict moved behind its dash |
| ProfileReader.StripComment | firmware/tools/validate_board_profiles.py:65-75 | The loop with two quote flags cuts the line at the first hash outside quotes |
| ProfileReader.YamlLines | firmware/tools/validate_board_profiles.py:78-85 | Each line that is not blank once its comment is cut becomes its indentation and its stripped text |
| ProfileReader.ParseYamlBlock | firmware/tools/validate_board_profiles.py:98-106 | On an index into the lines: the value and the next index, or the error, that the specification reads off the remaining lines |
| ProfileReader.ParseYamlDict | firmware/tools/validate_board_profiles.py:109-132 | The loop over one indentation, where a repeated key overwrites the earlier value; it always moves the index forward |
| ProfileReader.ParseYamlList | firmware/tools/validate_board_profiles.py:135-174 | The loop over the items of one indentation |
| ProfileReader.ParseYamlItem | firmware/tools/validate_board_profiles.py:143-173 | One item: a nested block, a dict that starts on the line of the dash, or a scalar |
| ProfileReader.ParseYamlItemEntries | firmware/tools/validate_board_profiles.py:155-170 | The further entries of a dict that starts on the line of its dash |
| ProfileReader.ParseSimpleYaml | firmware/tools/validate_board_profiles.py:88-95 | A text without lines is an empty dict; otherwise the first block must be the whole text |
| ProfileMeaning.EntryMeans | firmware/tools/validate_board_profiles.py:42-62 | A line `key: text` of any profile gives the key what the text before its comment means: the null words, [] and {} their values, true and false in any mixture of case a truth value, whole and decimal numbers the number with that value, a text between two equal quotes what is between them, nothing an empty dict, and every other text itself |
| ProfileMeaning.MeansOnce | firmware/tools/validate_board_profiles.py:42-62 | A text means one value only |
| ProfileMeaning.LineEndsDoNotMatter | firmware/tools/validate_board_profiles.py:78-85 | A profile reads as its lines do, whichever of the line ends of `splitlines` each line has, a carriage return with a line feed counting as one |
| ProfileMeaning.HashEnds | firmware/tools/validate_board_profiles.py:65-75 | Where no quote is open a hash ends the line |
| ProfileMeaning.QuotesProtect | firmware/tools/validate_board_profiles.py:65-75 | A text between two equal quotes is kept with its hashes and the other kind of quote, and the line goes on behind it |
| ProfileMeaning.OpenQuoteProtects | firmware/tools/validate_board_profiles.py:65-75 | A quote that is never closed keeps the rest of the line |
| ProfileLines.ProfileTextLines | firmware/tools/create_board_profile.py:395 | The lines read back from a printed profile are the lines of its tree, with their depths |
| ProfileExact.FaithfulRoundTrips | firmware/tools/validate_board_profiles.py:88-174 | Every faithful profile, at any depth, is printed and read back unchanged, to the last line |
| ProfileExact.RoundTripsExactly | firmware/tools/create_board_profile.py:27-57 | A profile with identifier keys is read back unchanged if and only if it is faithful: scalars survive where they stand, no list directly in a list, no empty dict in a list, and the first value of a dict in a list fits on the line of its dash |
| WordErrorRate.WordsAreRuns | scripts/benchmark-stt.py:128-134 | Normalising and splitting gives exactly the maximal runs of letters and digits of the lower-cased text, in order |
| WordErrorRate.WordCharsExactly | scripts/benchmark-stt.py:128-129 | The characters of words are the ASCII letters in lower case and the digits |
| WordErrorRate.Attained | scripts/benchmark-stt.py:143-151 | Some edit script turns the reference into the hypothesis at the cost of the distance |
| WordErrorRate.NoneCheaper | scripts/benchmark-stt.py:143-151 | No script of insertions, deletions and substitutions that does so is cheaper |
| WordErrorRate.Symmetric | scripts/benchmark-stt.py:143-151 | The distance is symmetric |
| WordErrorRate.ZeroIffEqual | scripts/benchmark-stt.py:143-151 | The distance is zero if and only if the word sequences are equal |
| WordErrorRate.Triangle | scripts/benchmark-stt.py:143-151 | The triangle inequality, by composing scripts |
| WordErrorRate.Bounds | scripts/benchmark-stt.py:143-151 | The distance lies between the difference of the lengths and the larger length |
| WordErrorRate.RowDistance | scripts/benchmark-stt.py:143-151 | The two nested loops over one rolling row compute the distance |
| WordErrorRate.Rate | scripts/benchmark-stt.py:137-152 | The rate, before rounding, is the distance over the number of reference words, zero exactly for equal transcripts, one for words against none, and at most one where the hypothesis is no longer |
| CacheRuns.RunKeepsInv | src/hexevoice/node_ui.py:164-297 | The invariant of the cache holds in every run, whatever the order of requests, refreshes, ends, cancellations, invalidations and clock ticks |
| CacheRuns.SingleFlight | src/hexevoice/node_ui.py:197-222 | In every run a key has at most one uncancelled unfinished refresh, and it is the stored one |
| CacheRuns.EndNeverEvicts | src/hexevoice/node_ui.py:211-217 | A refresh that ends, finished or cancelled, leaves the stored entry of every other live refresh in place |
| CacheRuns.TimesRecordHistory | src/hexevoice/node_ui.py:269-289 | The two stored invalidation times give the time of the last event in the run that invalidated the key |
| CacheRuns.ServedSnapshotsAreFresh | src/hexevoice/node_ui.py:164-182 | A snapshot served without rebuilding was written strictly after the last invalidation of its key, and by no background refresh that started before it |
| CacheRuns.NoStaleRefreshWrites | src/hexevoice/node_ui.py:269-288 | A background refresh that is about to write was started no earlier than the last invalidation of its key |
| CacheRuns.FinishedRefreshIsServed | src/hexevoice/node_ui.py:170-176 | What a refresh wrote is served afterwards if and only if the clock has moved past the invalidation |
| CacheRuns.RefreshRuns | src/hexevoice/node_ui.py:197-222 | A refresh that is not cancelled builds once it is started, and what it builds is then on the disk and served if and only if the clock has passed the invalidation; one that raises writes nothing |
| CacheRuns.CancelledRefreshStops | src/hexevoice/node_ui.py:211-217 | A refresh that is cancelled before it starts never builds, and one cancelled while it builds writes nothing |
| CacheRuns.ServedIsStaleExactly | src/hexevoice/node_ui.py:164-195 | In every run a snapshot that is served was built from before the last invalidation of its key if and only if the last event that wrote or invalidated the key was the end of an awaited rebuild that had started before the invalidation and was stored when the clock had passed it |
| CacheRuns.ServedIsFreshWithoutLateRebuilds | src/hexevoice/node_ui.py:164-222 | In a run that stores no awaited rebuild started before the invalidation of its key, every served snapshot, whoever wrote it, was started no earlier than the last invalidation |
| CacheRuns.FinishedRebuildIsStale | src/hexevoice/node_ui.py:178-195 | An awaited rebuild that ends is served although it started before the last invalidation if and only if the clock has moved past that invalidation |
| CacheRuns.RequestIsAnswered | src/hexevoice/node_ui.py:97-106 | A request for a snapshot newer than its invalidation starts a refresh when the policy is live or nearly live, its positive interval has passed and none is running, and otherwise changes nothing; any other request begins a rebuild |
| CacheRuns.ServedRequestRefreshes | src/hexevoice/node_ui.py:164-240 | In every run a served request leaves the key with an unfinished refresh if one is due, and adds a task, of this key and started now, exactly when one is due and none was running; it touches no other key |
| CacheRuns.MaintainCovers | src/hexevoice/node_ui.py:258-266 | One maintenance pass leaves every registered page with an unfinished refresh or with a served snapshot within its interval |
| CacheRuns.InvalidatedPageIsPending | src/hexevoice/node_ui.py:269-297 | After an invalidation a covered registered page has a live refresh, started now, if and only if there was a loop to run it |
| PageSnapshotCache.Cache.RefreshNeeded | src/hexevoice/node_ui.py:224-240 | Missing, invalidated or past its interval |
| PageSnapshotCache.Cache.Refresh | src/hexevoice/node_ui.py:197-222 | Starts a task unless none is due, one is unfinished, or there is no loop; keeps the invariant |
| PageSnapshotCache.Cache.RefreshAll | src/hexevoice/node_ui.py:260-266 | The same for each page in turn |
| PageSnapshotCache.Cache.MaintainRegisteredPages | src/hexevoice/node_ui.py:258-266 | One pass is the maintenance step of the transition system |
| PageSnapshotCache.Cache.GetOrBuild | src/hexevoice/node_ui.py:164-182 | Serves the stored payload exactly when it is newer than the invalidation, and then starts a refresh exactly when one is due and none is running; else starts an awaited rebuild |
| PageSnapshotCache.Cache.EndBuild | src/hexevoice/node_ui.py:184-195 | An awaited rebuild writes its payload |
| PageSnapshotCache.Cache.EndTask | src/hexevoice/node_ui.py:211-217 | A refresh that returned or raised writes, removes its own entry only, and is finished |
| PageSnapshotCache.Cache.Register | src/hexevoice/node_ui.py:242-256 | The page replaces the one with its key |
| PageSnapshotCache.Cache.Invalidate | src/hexevoice/node_ui.py:269-297 | Cancels and forgets the covered tasks, sets the time, and refreshes the covered pages |
| TrustSecrets.ContainsSecretExactly | src/hexevoice/migration.py:655-675 | The recursive rejection finds a secret if and only if there is a path, through dicts and lists, to a field with a secret name and a value |
| TrustSecrets.RedactionExactly | src/hexevoice/migration.py:630-653 | A secret is left after redaction exactly where there was one at a place that redaction does not overwrite |
| TrustSecrets.RedactionPointwise | src/hexevoice/migration.py:630-653 | What redaction makes of each field: the secrets and, for a node with an id, the activation times become null, the status asks for a new authorisation, and nothing else changes |
| TrustSecrets.PendingPointwise | src/hexevoice/migration.py:643-648 | And in a pending activation only the secrets become null |
| TrustSecrets.RedactedIsAccepted | src/hexevoice/migration.py:630-675 | Rejection accepts a redacted state if and only if every secret was at an overwritten place |
| TrustSecrets.RedactionIdempotent | src/hexevoice/migration.py:630-653 | Redacting twice is redacting once |
| ProviderSettings.ValidateSettings | src/hexevoice/migration.py:731-768 | The validators read the fields in order, stop at the first wrong one with its error, and otherwise return the normal form; what each field becomes is stated by the three members of SettingsValidated |
| SettingsNormalForm.AcceptedExactly | src/hexevoice/migration.py:825-861 | A payload is accepted if and only if it is an object with no refused field, and the result holds exactly the kept fields |
| SettingsNormalForm.FirstRefusal | src/hexevoice/migration.py:929-986 | The error is that of the first refused field in the order of the form |
| SettingsNormalForm.NamesAreClean | src/hexevoice/migration.py:922-926 | The names in a normal form are stripped and not empty, and no wake name is the old one |
| SettingsNormalForm.NormalFormIsFixed | src/hexevoice/migration.py:731-986 | What a validator returns it accepts and returns unchanged, so exported sections pass import validation |
| SettingsValidated.SttValidated | src/hexevoice/migration.py:731-768 | Speech-to-text settings are refused with the first of seven errors, in order, or hold exactly the fields of the payload: the provider of the four that are known, flags as the truth of their values, stripped texts, known profiles, names without blanks, sections |
| SettingsValidated.TtsValidated | src/hexevoice/migration.py:825-861 | The same for text-to-speech settings, with a sample rate that is no negative number |
| SettingsValidated.WakeValidated | src/hexevoice/migration.py:929-986 | The same for wake settings, with thresholds from 0 to 1, whole numbers that are not negative, and the old wake word renamed wherever it is named |
| ProviderMerge.MergeIsLocal | src/hexevoice/migration.py:989-1102 | A merge keeps both provider lists free of repeats and leaves the configs and switches of all other providers unchanged; its own provider becomes supported, is switched as the settings say, and keeps its config under the new fields |
| ProviderMerge.MergeTwiceIsOnce | src/hexevoice/migration.py:989-1102 | Merging any sequence of changes a second time changes nothing, even when they name the same provider; the enabled list counts as a set |
| ProviderMerge.OrderKeptExactly | src/hexevoice/migration.py:989-1102 | The enabled list keeps even its order, unless text-to-speech switches off what speech-to-text switches on and wake is newly switched on |
| MigrationProperties.DryRunForetells | src/hexevoice/migration.py:204-318 | For every bundle and store state the import fails exactly when the dry run fails, with the same first error, and otherwise lists the same files and warnings |
| MigrationProperties.AddressesAgreeExactly | src/hexevoice/migration.py:248-304 | Both report the same node id and addresses if and only if the bundle holds an onboarding state, or no provider settings, or none is stored |
| MigrationProperties.ImportWrites | src/hexevoice/migration.py:225-304 | An import writes exactly the sections before the first wrong one, whatever is stored |
| MigrationProperties.ImportStores | src/hexevoice/migration.py:225-304 | A successful import leaves in each of the four files what its section was validated to, and every file without a section as it was; in the onboarding state the changes of the provider settings are merged in order, each as ValidatedMerges says |
| ImportMeaning.ValidatedMerges | src/hexevoice/migration.py:989-1102 | What merging validated settings stores, field by field: the nine fields of a speech-to-text config, the five of a text-to-speech config and the six of the wake config hold the setting where it is neither null nor empty, else what was there; the wake word is also the model, and the models are kept warm where none are named; the default provider changes only on request; the provider becomes supported, and is enabled or taken out as the settings say |
| ImportMeaning.ImportedSetup | src/hexevoice/migration.py:247-304 | A successful import merges the text-to-speech, the speech-to-text and the wake settings of the bundle in this order into the setup of the onboarding state, that of the bundle where it holds one |
| ImportMeaning.ImportedAddress | src/hexevoice/migration.py:611-627 | The addresses and the host name after a successful import are those given for the destination where some are, else those of the onboarding state in the bundle; without one all is as stored |
| ImportMeaning.ImportedWarnings | src/hexevoice/migration.py:244-318 | The warnings of a successful import and of its dry run: those of the sections that are there, in order, and the one about files to copy |
| ImportMeaning.BundleOpens | src/hexevoice/migration.py:217-228 | Which bundles are opened, and the error of each that is not; a trust secret is refused at any depth |
| ImportMeaning.RefusedWith | src/hexevoice/migration.py:217-307 | A dry run and an import are refused with the error of the bundle, else of the first section that fails, else because there is no section |
| MigrationProperties.ImportTwiceIsOnce | src/hexevoice/migration.py:225-318 | Importing a bundle again, whether it succeeds or fails, leaves every store as it was and reports the same; the enabled list counts as a set |
| MigrationOrder.SecondImportReorders | src/hexevoice/migration.py:268-304 | A second import leaves the very same stores if and only if the sections do not reorder the enabled list as above or the bundle holds an onboarding state |
| MigrationOrder.ImportWritesNothingExactly | src/hexevoice/migration.py:204-304 | An import leaves every store as it was, whatever it held, if and only if the bundle is refused as a whole, holds no section, or the first section it holds is wrong; every other import writes, even one that fails |
| MigrationOrder.FailedImportCanWrite | src/hexevoice/migration.py:260-284 | A bundle whose import fails after it has written one file |
| MigrationExport.AcceptedBundles | src/hexevoice/migration.py:512-580 | A bundle is accepted, by dry run and import alike, if and only if it is well formed, without secrets, every section in it passes and it has one; the report then lists its sections in order |
| MigrationExport.ExportIsImportable | src/hexevoice/migration.py:66-118 | The import accepts an exported bundle if and only if every secret was at a redacted place and no other section held one |
| NodeMigration.NodeMigrationService.DryRunImportPlan | src/hexevoice/migration.py:512-580 | The planner, section by section, is the plan of the specification |
| NodeMigration.NodeMigrationService.ImportOneSection | src/hexevoice/migration.py:230-304 | Validates one section, then writes it and extends the report |
| NodeMigration.NodeMigrationService.ImportSettings | src/hexevoice/migration.py:268-304 | Validates provider settings and lays the change that ValidatedMerges states field by field over the stored onboarding state, or reports the error and changes nothing |
| NodeMigration.NodeMigrationService.ImportBundle | src/hexevoice/migration.py:204-318 | A dry run changes no store; otherwise the stores and the report are those of the import |
| NodeMigration.NodeMigrationService.RestoreBackup | src/hexevoice/migration.py:184-202 | A restore that fails, for whatever reason, leaves every store as it was; one that succeeds is the import |
| Partitions.LoadPartitions | firmware/tools/validate_partition_schema.py:78-96 | Each row is placed at its offset or at the aligned end of the row before; an empty table is an error |
| Partitions.AlignedExactly | firmware/tools/validate_partition_schema.py:66-92 | Program partitions start at multiples of 64 KiB and all others at multiples of 4 KiB |
| Partitions.ValidatePartitionLayout | firmware/tools/validate_partition_schema.py:99-123 | Accepts exactly the layouts without a fault that have an otadata partition; otherwise reports the first fault in the order of the partitions and of the checks |
| Partitions.LayoutIsLeast | firmware/tools/validate_partition_schema.py:66-92 | With all offsets blank no aligned, order-preserving layout without overlap puts any partition lower |
| Partitions.BlankTableAccepted | firmware/tools/validate_partition_schema.py:99-123 | With all offsets blank a table is accepted if and only if its names differ, it has otadata and some layout of it fits the flash |
| Partitions.PaddingIsBounded | firmware/tools/validate_partition_schema.py:66-92 | The padding is less than 0x10000 bytes a partition in total |
| Partitions.AcceptedIsApartExactly | firmware/tools/validate_partition_schema.py:107-119 | In an accepted layout all partitions are pairwise in order and apart if and only if none starts below the one before it; the validator compares neighbours only |
| Partitions.NoNegativeSizeAscends | firmware/tools/validate_partition_schema.py:107-119 | That is so where no size is negative |
| Partitions.SizesFitFlash | firmware/tools/validate_partition_schema.py:107-119 | Whatever the sizes, they sum to at most the flash size where the first offset is not negative |
| Partitions.InFlashExactly | firmware/tools/validate_partition_schema.py:107-119 | All partitions of an accepted ascending layout lie within the flash if and only if the first offset is not negative |
| Partitions.NegativeSizeCanOverlap | firmware/tools/validate_partition_schema.py:107-119 | Rows with explicit offsets and a negative size that are accepted although two partitions share their whole range |
| Partitions.PlanBundle | firmware/tools/create_full_device_bundle.py:382-398 | The bundle is made exactly when the layout is accepted, nvs, factory and ota_0 exist and both images fit; otherwise the error is that of the table, else the first partition missing, else the first image too big |
| Partitions.RegionsAreNamed | firmware/tools/create_full_device_bundle.py:382-398 | Its regions are the partition nvs, the recovery image at the start of factory and the endpoint image at the start of ota_0 |
| Partitions.BundleRegionsDisjoint | firmware/tools/create_full_device_bundle.py:382-398 | The provisioning data and the two images of a bundle never overlap and end within the flash, if no partition starts below the one before it |
| Partitions.BundleInFlashExactly | firmware/tools/create_full_device_bundle.py:382-398 | All three regions lie within the flash, from zero on, if and only if the first of the three partitions does not start below zero |
| Partitions.RegionCanStartBelowZero | firmware/tools/create_full_device_bundle.py:382-398 | An accepted and bundled table without negative sizes whose provisioning data starts below the flash |
| ClockFont.LayOut | firmware/tools/generate-clock-font.py:26-56 | The loop gives each glyph its record, whose measures and offset FileTiles states in bytes |
| ClockFont.WriteFont | firmware/tools/generate-clock-font.py:58-65 | Writes the whole file exactly when all values fit their packed fields; otherwise what is on disk is nothing or the header and the records before the first that does not fit |
| ClockFontLayout.FileTiles | firmware/tools/generate-clock-font.py:26-65 | The bytes of the file: the magic, the size, the ascent and the number of glyphs; for the i-th glyph, at 10 + 15i, its code, left - 2, 2 - top, its advance, its padded width and height and its offset, low bytes first; at that offset, which is 10 + 15n and all bitmaps before it, exactly its bitmap; and no more |
| ClockFontLayout.PackableExactly | firmware/tools/generate-clock-font.py:58-65 | A font can be written exactly when each of these numbers fits its field |
| ClockFont.LoadBitmapFont | firmware/components/endpoint_runtime/board/display_waveshare_p4_7b.cpp:1418-1464 | The firmware accepts exactly the well-formed files and reads their records |
| ClockFontLayout.WrittenFontLoads | firmware/components/endpoint_runtime/board/display_waveshare_p4_7b.cpp:1418-1456 | The firmware loads a written font if and only if size and ascent are positive, it has 1 to 96 glyphs and at most 64 KiB |
| ClockFontLayout.FontRoundTrip | firmware/tools/generate-clock-font.py:26-65 | A loaded font has the written size and ascent, for each glyph its code, left - 2, 2 - top, advance and padded width and height, and at its stored offset exactly its bitmap |
| AssetIds.DedupeAssetId | firmware/tools/generate-board-asset-library.py:69-83 | The search for a free id ends; the id was free and is the preferred one, else the typed one, else the first free numbered one |
| AssetIds.DedupedIsUnique | firmware/tools/generate-board-asset-library.py:69-83 | That determines the id |
| AssetIds.ExistingAssetsByFile | firmware/tools/generate-board-asset-library.py:48-57 | The index holds for each file the id of its last usable entry; an entry whose source file name is set but no string is passed over |
| AssetIds.PriorIsLast | firmware/tools/generate-board-asset-library.py:48-57 | That is the id of the last entry with the type and the path of the file, where the source file name, if set, goes before the file name |
| AssetIds.BuildAssetIds | firmware/tools/generate-board-asset-library.py:246-268 | Every library has pairwise different ids, whatever ids were there before |
| AssetIds.IdsAreNotEmpty | firmware/tools/generate-board-asset-library.py:60-83 | No id is empty |
| AssetIds.SortedHoldsBuilt | firmware/tools/generate-board-asset-library.py:256-270 | In whatever order the entries are sorted, the library holds for each file the id that was built |
| AssetIds.RebuildKeepsIds | firmware/tools/generate-board-asset-library.py:246-270 | Building again from that library, with the same files or any of them in any order, keeps the id of every file |
| AssetIds.FilesKeepIdsExactly | firmware/tools/generate-board-asset-library.py:246-268 | Building again with any number of new files, scanned in any order, every old file keeps its id if and only if the ids planned for the files have no repeat |
| AssetIds.NewFilesExactly | firmware/tools/generate-board-asset-library.py:246-268 | In terms of the new files: an old file loses its id exactly when some new file that is scanned earlier gets it |
| AssetIds.NewFileCanTakeId | firmware/tools/generate-board-asset-library.py:251-255 | Two pictures, of which the new one is scanned earlier and takes the id of the old one |
| YamlIncludes.NodeLoads | firmware/tools/yaml_to_json.py:16-23 | A node loads if and only if every include in it stays under the root and loads |
| YamlIncludes.LoadsExactly | firmware/tools/yaml_to_json.py:29-48 | A file loads if and only if no chain of includes from it ends at a missing file, outside the root, or at a file it has been through |
| YamlIncludes.StackIrrelevant | firmware/tools/yaml_to_json.py:29-43 | The stack decides whether a file loads, not to what |
| YamlIncludes.LoadSubstitutes | firmware/tools/yaml_to_json.py:16-48 | The result is the file with each include replaced by what that file loads to on its own |
| EventContent.EventTypeShape | src/hexevoice/domain_events.py:21 | A text is two or more non-empty words joined by dots, as the pattern asks, if and only if it has a dot, all its other characters are word characters, and no dot is first, last or beside another |
| EventContent.WordCharsExactly | src/hexevoice/domain_events.py:21 | The word characters are the ASCII letters in lower case, the digits and the underscore |
| EventContent.TextReads | src/hexevoice/domain_events.py:46-47 | The text of a field: none where it is missing or false, else the stripped spelling of its value |
| EventContent.TopicInjective | src/hexevoice/domain_events.py:33-37 | Two topics are equal if and only if the event types are, after stripping and lower-casing |
| EventContent.FilterExactly | src/hexevoice/domain_events.py:71-81 | The filter accepts a tree if and only if no object at any depth, inside lists too, has a private field name |
| EventContent.FilterNamesFirst | src/hexevoice/domain_events.py:71-81 | The complaint spells the path of the first private field, reading from the top |
| EventContent.AcceptedPublishes | src/hexevoice/domain_events.py:40-68 | Accepted publishes carry no private field in their data, and the topic determines their event type |
| EventContent.AcceptedExactly | src/hexevoice/domain_events.py:40-68 | A publish is accepted if and only if it is an object without legacy fields, has an identity, a dotted type and the topic of that type, a version from 1 on, the trusted node as its source, data and subject that are objects where given, no private field in its data, and at most 64 KiB |
| EventQueue.QueueConserves | src/hexevoice/domain_events.py:315-324 | In every run of producers and worker the accepted jobs are the finished, the running and the queued ones, each once and in order, and the queue never holds more than its size, at least one |
| EventQueue.RefusedNeverRuns | src/hexevoice/domain_events.py:546-562 | A job refused because the queue is full never runs |
| EventQueue.WorkerDrains | src/hexevoice/domain_events.py:572-591 | From any state the worker can finish all jobs in order, whatever their outcomes; one that raises stops no later one |
| EventQueue.AsyncDomainEventPublisher.Enqueue | src/hexevoice/domain_events.py:541-570 | Queues the job and returns its decision, or refuses it exactly when the queue is full |
| EventQueue.AsyncDomainEventPublisher.Get | src/hexevoice/domain_events.py:572-574 | Takes the first job |
| EventQueue.AsyncDomainEventPublisher.Finish | src/hexevoice/domain_events.py:575-591 | Records what the job returned, or a failure with its identity when it raised |
| TimerPrompts.StepMatchesExactly | src/hexevoice/p4_quick_actions.py:160-246 | A step keeps each pending prompt's session equal to the timer session if and only if it does not begin a conversation over a pending prompt with a command that raises |
| TimerPrompts.PromptsMatchSessions | src/hexevoice/p4_quick_actions.py:160-246 | In every run an endpoint with a pending prompt has a timer session, does not capture, and but for such a beginning the prompt is one of that session |
| TimerPrompts.PromptCanOutliveItsSession | src/hexevoice/p4_quick_actions.py:328-349 | A run with such a beginning, after which they differ |
| TimerPrompts.ListensArePaid | src/hexevoice/p4_quick_actions.py:160-173 | In every run an endpoint is told to listen at most once for each sound it was told to play |
| TimerPrompts.ListeningEndpointCaptures | src/hexevoice/p4_quick_actions.py:160-176 | An endpoint that is told to listen captures from then on |
| TimerPrompts.BeginDoes | src/hexevoice/p4_quick_actions.py:328-349 | Beginning a conversation replaces the session, shows and plays the prompt and waits for it once both are taken |
| TimerPrompts.CaptureDoes | src/hexevoice/p4_quick_actions.py:178-230 | What a capture does: a blank one, a duration and an unclear answer ask again; a yes plays the answer and shows the timer, a no plays it and clears the screen, and both end the session; other states change nothing |
| TimerPrompts.FillerGoes | src/hexevoice/p4_quick_actions.py:209 | Spaces, full stops, exclamation and question marks around an answer do not count |
| TimerPrompts.CompletedDoes | src/hexevoice/p4_quick_actions.py:160-173 | Only the end of the pending prompt is heeded: the endpoint waits no more and is told to listen |
| TimerPrompts.P4QuickActionService.CustomCaptureActive | src/hexevoice/p4_quick_actions.py:175-176 | An endpoint captures exactly when it has a session and no pending prompt |
| TimerPrompts.P4QuickActionService.BeginTimer | src/hexevoice/p4_quick_actions.py:328-349 | Begins or replaces the session, pushes the commands until one raises, and waits for the prompt only after all |
| TimerPrompts.P4QuickActionService.ContinueTimerPrompt | src/hexevoice/p4_quick_actions.py:232-246 | Shows and plays a prompt and then waits for it |
| TimerPrompts.P4QuickActionService.HandleCustomCapture | src/hexevoice/p4_quick_actions.py:178-230 | What a capture does, by its text and the status of the conversation |
| TimerPrompts.P4QuickActionService.HandleEndpointEvent | src/hexevoice/p4_quick_actions.py:160-173 | Only the end of the pending prompt is heeded, once, with one listen command |

## Left out

- ProfileReader.ParseSimpleYaml: does not model digits outside ASCII, which Python's number patterns also match, nor the line number in its error, nor the rounding of a decimal that no double holds; PyYAML, which is preferred when installed, is not part of this model.
- WordErrorRate.Rate: does not model the rounding to four digits, because the distance and the exact ratio are the point.
- PageSnapshotCache.Cache.GetOrBuild: does not model `_entries`, which is written and cleared but never read, nor a file that disappears between reading it and asking for its time.
- ProviderSettings.ValidateSettings: does not model an integer conversion that overflows, as of an infinite float, which the source lets escape as another exception.
- NodeMigration.NodeMigrationService.ImportBundle: does not model the time stamp that `save` adds, nor a stored file that cannot be read back.
- NodeMigration.NodeMigrationService.RestoreBackup: does not model how a backup id becomes a path.
- YamlIncludes.LoadsExactly: does not model which of several bad includes is reported first, which depends on PyYAML, nor files that are no YAML, aliases and anchors.
- TimerPrompts.PromptsMatchSessions: does not model handlers that overlap at their awaits.
- The export payloads built from the settings, the preflight checks and the backup files: inputs here.
- `parse_size` and the CSV reader: conversions of single cells; easy members.
- The checks of OTA slots against the app slot size and of the app size against its share: easy members.
- The sorting of the asset library and its metadata: the ids do not depend on them.
- `validate_profile` and the manifest validators: field by field, easy members.
- The image fitting and the bit packing of `convert_image.py`, the weather and radar screens, the routes, the cards and the React interface.
- Sockets, MQTT, HTTP, Docker, hashing and real files: only the decisions around them are modelled.
