# MalGuard: a verified model of the scanner's hard core

This project models, in Dafny, the parts of MalGuard whose correctness is hardest to see from the code: the two
independent ZIP parsers and what the archive pipeline concludes from them, the PE parser over hostile bytes, the two
scoring rules, the script comment strippers, the scan worker protocol, the desktop guard's file handling, the signed
update path, the package seal, and the threat-intelligence cache. It proves properties of that model for all inputs,
all interleavings and all runs. `dafny verify dfyconfig.toml` checks everything.

How the files fit together:

- `Prelude`, `ZipFormat` – bytes, little-endian fields, JavaScript strings as UTF-16 code units; the ZIP layout that both
  parsers share (sections 4.3.7, 4.3.12 and 4.3.16 of PKWARE APPNOTE.TXT).
- `Octets` – little-endian fields as the writers of the round trips put them down.
- `Crc32` – the table-driven checksum against the bit-by-bit definition (section 8 of RFC 1952).
- `EntryReader`, `ArchiveInspector` – `archive-entry-reader.js` and `archive-inspector.js`, each method proved against a
  function; `EntryRefusals` gives every refusal of the reader its condition, `ZipAgreement` relates the two parsers,
  `ZipRoundTrip` relates the reader to a writer of stored and deflated entries, `ZipTamper` to damaged files.
- `ArchivePipeline` – what a SAFE answer for an archive implies.
- `PeParser`, `PeFlood`, `PeImports`, `PeRoundTrip`, `EngineScoring`, `ScriptScoring`, `ScriptComments` (with the shared `Weights`) – `engine.js` and
  `script-analyzer.js`. `PeFlood` has files that spend the parser's budget, `PeImports` and `PeRoundTrip` a writer of whole files
  and what the parser makes of them. Weights and factors are exact rationals; `Math.round` is the floor of x + 1/2.
- `ScanProtocol`, `ScanSafety`, `ScanOutcomes`, `ScanWorkerClient` – page and worker as one system of interleaved steps, what
  every run of it keeps, how each scan ends, and the two objects whose handlers take those steps.
- `GuardProtocol`, `GuardSafety`, `GuardEffects` – the guard's tasks as steps over one map from paths to bytes, in which any
  operation may fail and everything outside the guard's own directories may change between two operations; what every run
  keeps; and what one step changes. `GuardTheorems`, `GuardConservation` and `GuardRestores` state the promises, `GuardOutcomes`
  what each operation comes to when nothing goes wrong (from the stretches of runs in `GuardStretches`), `GuardRuns` the runs
  in which more than the promises say fails, and `GuardAgent` is the agent object whose methods do the steps in place.
- `CanonicalJson`, `SemVer`, `UpdateManager` – the text that gets signed, version precedence, and the anti-replay state.
- `PackageSeal`, `ThreatCache` – the checksum file of a package, and the cache with expiry and eviction.

Where an operation awaits something, the model splits it there. Clocks are oracles, and so are failures. SHA-256, Ed25519,
UTF-8 decoding, lower-casing, path normalization, the inflater and the mod detector are arbitrary functions passed in.

Results about the code as it is, where one might expect more:

- A block comment that is never closed leaves the last character of the text unblanked, unless it is blank anyway
  (`ScriptComments.CommentIsBlankedIff`).
- A boot of the worker that was abandoned while pending can take away the worker of a running scan, in three ways: its init
  timer fires, its worker breaks, or its worker reports itself unready (`ScanSafety.LosesWorkerIff`,
  `ScanSafety.StaleBootStrandsTheScan`). The scan then ends only by its own timer; `ScanSafety.StrandedIff` says exactly when.
- The guard can destroy bytes of the game tree. It checks that a path is free and renames later, so a release, restore or
  install may overwrite a file that appeared meanwhile (`GuardRuns.RestoredIsOverwritten`); and a cross-volume hold unlinks
  whatever is at the path by then (`GuardRuns.LostUpdate`). `GuardConservation.TakenSurvivesIff` says exactly which steps keep
  a file; while all steps are of that kind nothing is lost (`GuardConservation.BytesStayOnDisk`).
- A copy beside a game file that is altered between its check and its rename replaces the payload, which is lost
  (`GuardRuns.TamperedCopyLosesPayload`, exactly then by `GuardConservation.CopySurvivesIff`).
- A successful restore happens at most once, but a payload can be put back twice: by restores that race across volumes, or by
  a later request after a restore whose last unlink failed (`GuardRuns.RacingRestoresPlaceTwice`,
  `GuardRuns.FailedUnlinkPlacesTwice`; exactly when it can still happen: `GuardRestores.PlaceableIff`).
- `compareVersions` works on doubles. It is the precedence of Semantic Versioning 2.0.0 whenever all numbers are below 2^53,
  and beyond that exactly under the condition of `SemVer.CompareIsPrecedenceIff`; two prereleases can each be older than the
  other (`SemVer.RoundingBreaksPrereleases`). Being newer is a strict order all the same, which is all that the anti-replay
  property needs.
- The parser's iteration budget can end a parse only through sections and imports, never in a file under 3992 bytes
  (`PeParser.SmallFilesAreParsed`), a bound that is only sufficient: the smallest file given here that reaches the limit has
  4352 bytes (`PeFlood.LimitIsReached`).

## Model

| member | source | states |
|---|---|---|
| Crc32.BuildTable | archive-entry-reader.js:93-103 | the table holds at every index the register of eight bit-by-bit division steps of that index |
| Crc32.ComputeCrc32 | archive-entry-reader.js:105-111 | the table loop returns the bit-by-bit CRC-32 of every byte string |
| Crc32.TableStep | archive-entry-reader.js:105-111 | one table lookup does the work of feeding eight bits one by one |
| Crc32.FeedInjective | archive-entry-reader.js:105-111 | feeding the same bytes never merges two different registers |
| Crc32.FeedIsShiftedWord | archive-entry-reader.js:105-111 | up to four bytes act on the register as one word, exclusive-ored in and shifted through |
| Crc32.WordInjective | archive-entry-reader.js:105-111 | two strings of the same length up to four are determined by that word |
| Crc32.BurstDetected | archive-entry-reader.js:461-464 | two strings of equal length that differ only inside four consecutive bytes have different checksums |
| Crc32.CrcNumberInjective | archive-entry-reader.js:105-111 | the unsigned number returned identifies the checksum word |
| Crc32.CheckValue | archive-entry-reader.js:93-111 | the checksum of the digits 123456789 is cbf43926, the check value of CRC-32 |
| ZipFormat.LastEndRecordIsLast | archive-entry-reader.js:208-223 | the backward search finds a self-consistent end record exactly when there is one, and then the last |
| ZipFormat.NothingBeforeWindow | archive-entry-reader.js:208-223 | no end record can start before the bounded search window |
| ZipFormat.EndOfIsLast | archive-inspector.js:193-213 | the record found is the one end record after which there is none |
| ZipFormat.WalkStops | archive-entry-reader.js:262-300 | once a header breaks the walk no longer walk succeeds |
| ZipFormat.WalkPrefix | archive-entry-reader.js:262-300 | the headers of a shorter walk are the first headers of a longer one |
| EntryReader.FindAndValidateEocd | archive-entry-reader.js:208-253 | the search loop and its checks give the directory, or the same error, as the declarative last-record definition |
| EntryReader.ScanCentralDirectory | archive-entry-reader.js:262-367 | the loop times out exactly at a late check it reaches, and otherwise gives the result defined by the tiling of headers, the first policy failure and the list of matches |
| EntryReader.FirstPolicyIsFirst | archive-entry-reader.js:300-345 | the policy failure reported is that of the first offending header; none means every header is clean |
| EntryReader.MatchingUnique | archive-entry-reader.js:331-364 | one match means one header index agrees with the descriptor in all six fields and no other does |
| EntryReader.MatchingOnly | archive-entry-reader.js:331-364 | a header that alone agrees is the whole list of matches |
| EntryReader.MatchingNone | archive-entry-reader.js:331-364 | no match means no header agrees |
| EntryReader.ScanSoundAndComplete | archive-entry-reader.js:262-367 | the scan succeeds exactly when the declared number of headers tiles the directory without gap, every header has a permitted name, no encryption, no data descriptor, method 0 or 8 and no ZIP64 size, and exactly one agrees with the descriptor |
| EntryReader.PolicyIff | archive-entry-reader.js:300-330 | a header passes the policy exactly when it is clean by its fields; otherwise the code is that of the first rule it breaks, in the order of the checks |
| EntryReader.FirstPolicyIff | archive-entry-reader.js:300-345 | a code is reported exactly when the first header that is not clean breaks the rule behind it |
| EntryReader.ScanRefusesIff | archive-entry-reader.js:262-367 | each refusal of the scan has its own condition: gaps, the rule that the first offending header breaks (encrypted, data descriptor, other method, ZIP64 size, path, name), no match, or several |
| EntryReader.PathAllowedIff | archive-entry-reader.js:133-155 | splitting a path and looking at its segments allows exactly the relative paths without drive, control characters, doubled separators and dot segments, by position |
| EntryRefusals.TargetIff | archive-entry-reader.js:177-203 | a descriptor is valid exactly when path length, extension for its kind, numbers and method are right |
| EntryRefusals.DirectoryIff | archive-entry-reader.js:208-253 | each answer of the end record's checks has its own condition on the last record's fields |
| EntryRefusals.LocateIff | archive-entry-reader.js:372-439 | each answer of the local header's checks has its own condition: place, descriptor bit, disagreement with the directory, limits, and room in front of the directory |
| EntryRefusals.ExtractIff | archive-entry-reader.js:441-467 | located data come out as they are or as inflated, with the declared size and checksum, and else with the code of what is wrong |
| EntryRefusals.EarlyRefusals | archive-entry-reader.js:553-585 | empty and oversized archives and invalid descriptors are refused with their codes before the archive is read |
| EntryReader.ValidateLfhAndExtract | archive-entry-reader.js:372-467 | a timeout exactly when the inflater's copy reaches a late clock reading, otherwise the bytes or the error defined by local header checks, bounds before the directory, inflation and checksum |
| EntryReader.DecompressDeflateRawBounded | archive-entry-reader.js:475-528 | the buffer-filling loop times out exactly at a late clock reading before the event that halts it, and otherwise gives the concatenated chunks or the first error of the stream |
| EntryReader.InflateAccepts | archive-entry-reader.js:475-528 | output is accepted exactly when no chunk fails and the chunks add up to the declared size within the limit |
| EntryReader.ReadEntry | archive-entry-reader.js:553-606 | the read times out exactly when scan or extraction reaches a late clock reading, and otherwise has the outcome of its first failing stage, or the payload |
| EntryReader.ReadIsVerified | archive-entry-reader.js:372-467 | any bytes handed out have the descriptor's checksum and size, come from a directory whose every header is clean by its fields, and lie wholly before it |
| ArchiveInspector.FindEndOfCentralDirectory | archive-inspector.js:193-213 | the second parser's search finds the same last record |
| ArchiveInspector.ParseZipCentralDirectory | archive-inspector.js:219-308 | the parse loop gives the listing of its own walk, its malformed count, or the error of the first failing check |
| ArchiveInspector.CountPaths | archive-inspector.js:354-359 | the map holds for every normalized path how many files have it |
| ArchiveInspector.ClassifyFile | archive-inspector.js:366-454 | one file moves every counter, both maps and both descriptor lists from the first i entries to the first i + 1 |
| ArchiveInspector.ClassifyEntries | archive-inspector.js:314-476 | the loop with its early exits gives the report defined by counting over the entries classified in time |
| ArchiveInspector.ClassificationNext | archive-inspector.js:366-454 | one entry changes each counter of the declarative report by exactly what its type and flags say |
| ArchiveInspector.FirstOccurrence | archive-inspector.js:424-454 | a path that is unique in the archive has not been seen before its entry |
| ZipAgreement.EndRecordsAgree | archive-entry-reader.js:208-253 | the reader accepts an end record exactly when the inspector does and the disks are zero and the directory ends in front of it, and both take the same directory from it |
| ZipAgreement.StrictWalkIsLoose | archive-inspector.js:219-308 | a walk that passes the reader's per-header bounds is one of the inspector's, with the same records |
| ZipAgreement.LooseWalkIsStrict | archive-inspector.js:219-308 | a walk whose total is checked only at the end stayed in bounds at every header |
| ZipAgreement.DirectoriesAgree | archive-inspector.js:219-308 | on a common end record the reader finds a gap-free directory exactly when the inspector parses a listing, and the listing is that directory |
| ZipAgreement.ParsersAgree | archive-inspector.js:219-308 | whenever the reader accepts end record and directory, the inspector accepts the same bytes with no malformed entry and identical records |
| ZipAgreement.TraversalIsSegment | archive-inspector.js:134-143 | a parent reference found by the inspector's pattern is a segment found by the reader's splitting |
| ZipAgreement.AllowedIsNotSuspicious | archive-entry-reader.js:133-155 | every path the reader allows is free of what the inspector calls suspicious |
| ZipAgreement.AllowedIff | archive-inspector.js:134-143 | the reader allows exactly the paths that the inspector does not suspect and that have no NUL, no doubled separator and no dot segment |
| ZipAgreement.DescriptorIsFound | archive-inspector.js:424-454 | a descriptor the inspector offers is matched exactly once by the reader: never missing, never ambiguous |
| ZipRoundTrip.HeaderReadsBack | archive-entry-reader.js:275-330 | a directory record written per APPNOTE.TXT 4.3.12 reads back as its fields |
| ZipRoundTrip.DirectoryReadsBack | archive-entry-reader.js:262-330 | the walk over the written records gives the written headers one after the other |
| ZipRoundTrip.EndReadsBack | archive-entry-reader.js:208-253 | the written end record, and no other place in the file, is found |
| ZipRoundTrip.ArchiveReadsBack | archive-entry-reader.js:208-330 | a written archive's directory is accepted and lists exactly the items |
| ZipRoundTrip.LocalReadsBack | archive-entry-reader.js:372-467 | extraction at a written local record gives its payload, whether stored or deflated |
| ZipRoundTrip.DescriptorMatchesOnce | archive-entry-reader.js:331-364 | the descriptor of an item matches its own header only |
| ZipRoundTrip.ScanReadsBack | archive-entry-reader.js:262-367 | the scan of a written archive finds the item's header |
| ZipRoundTrip.RoundTrip | archive-entry-reader.js:553-606 | reading the k-th entry of any written archive of stored and deflated items, given by their fields, returns exactly the k-th payload |
| ZipTamper.SameWalk | archive-entry-reader.js:262-367 | changes in front of the directory do not change what the walk finds |
| ZipTamper.SameStages | archive-entry-reader.js:372-439 | changes inside the entry's data change no stage in front of the checksum |
| ZipTamper.TamperingIsDetected | archive-entry-reader.js:461-464 | a readable stored entry changed within four consecutive data bytes is always refused with CRC_MISMATCH |
| ArchivePipeline.InspectZip | archive-inspector.js:481-597 | the inspection has the status, report and counts defined by parsing and classification |
| ArchivePipeline.StatusIff | archive-inspector.js:481-549 | each of the six statuses has its own condition on the size, the clock, the end record, the directory and the relevance found |
| ArchivePipeline.ScanTarget | app.js:483-588 | one descriptor leaves the findings clean exactly when it was read with verified checksum, judged safe and within its limit |
| ArchivePipeline.ScanTargets | app.js:483-588 | the loop is clean at its end only if every descriptor was; clocks permitting, each flag says exactly whether such a target stands no farther than the first unreadable or malicious one |
| ArchivePipeline.RunArchivePipeline | app.js:380-636 | each of the five answers is given, clocks permitting, exactly under its own condition on the inspection and on what the readable targets are judged as; a safe or malicious answer never comes without its reason, however late |
| ArchivePipeline.TargetsAreAll | archive-inspector.js:424-454 | as many descriptors as entries of a kind means every such entry has its descriptor |
| ArchivePipeline.NoDuplicates | archive-inspector.js:354-372 | a zero duplicate count means no two files share a normalized path |
| ArchivePipeline.CountersPartition | archive-inspector.js:374-420 | the type counters partition the files, and executables are among the unknown ones |
| ArchivePipeline.FileAccounted | app.js:560-635 | under a safe answer each file is an asset or was extracted and judged safe, and is neither duplicate nor suspicious |
| ArchivePipeline.SafeIsCoverage | app.js:444-635 | a safe answer covers every file of the central directory, and no duplicate, suspicious, nested, unknown or malformed entry exists |
| PeParser.ReadHeaders | engine.js:572-713 | accepted headers have a section count within its cap, at most sixteen directories and a section table inside the file; the budget error cannot arise here |
| PeParser.U64Safe | engine.js:543-551 | a 64-bit field is given only below 2^53 |
| PeParser.ReadSections | engine.js:715-749 | the loop reads exactly the declared table and spends one iteration per section |
| PeParser.RvaToOffset | engine.js:752-773 | an offset handed out has its requested bytes in the file and lies as far into the first hosting section's raw data as the address into its virtual range |
| PeParser.ReadAsciiCString | engine.js:553-570 | the scan gives the bytes before the first NUL, or nothing when none comes within the limit or the file |
| PeParser.ReadThunks | engine.js:814-857 | the inner loop collects the imports of the recursive definition, whose result on written lists is in PeImports, and throws exactly by exceeding the budget |
| PeParser.ReadImports | engine.js:785-867 | the nested loops collect the imports of the recursive definition, whose result on written tables is in PeImports, succeed exactly when their cost fits the budget, and keep both counters equal to what was collected |
| PeParser.WalkCallbacks | engine.js:892-910 | the TLS loop counts the callbacks before the end, an unsafe pointer or the cap, and throws exactly by exceeding the budget |
| PeParser.ReadTls | engine.js:868-922 | what is reported about TLS, an overrun included, is the declarative result |
| PeParser.FindOverlay | engine.js:953-971 | the overlay starts at the furthest end of headers and raw sections |
| PeParser.ParsePeStructure | engine.js:572-986 | the parser gives, for every byte array, the declarative result, which PeRoundTrip determines on written files |
| PeParser.CostAtMost | engine.js:510-518 | the iterations of a parse are bounded by a product of two fractions of the file's size |
| PeParser.SmallFilesAreParsed | engine.js:510-518 | no file under 3992 bytes can reach the budget error, whatever its bytes: sound headers mean it is parsed to the end |
| PeFlood.LimitIsReached | engine.js:510-518 | a concrete file of 4352 bytes reaches the budget error, and in one of 16340 bytes only the TLS loop overruns the budget |
| PeParser.CapsHold | engine.js:572-986 | sections, directories, imports and callbacks stay within their caps and the import counters add up |
| PeParser.OverlayIsOutside | engine.js:953-971 | a reported overlay ends the file and meets neither the headers nor a section's raw range |
| PeFlood.FloodOutcome | engine.js:510-518 | in a two-parameter family of files the budget error comes exactly when the imports exceed the budget; otherwise the parse succeeds, and withholds the number of callbacks exactly when these overrun what is left |
| PeFlood.FloodCosts | engine.js:785-867 | the iterations of these files, counted exactly |
| PeFlood.FloodTls | engine.js:892-921 | an overrun of the TLS loop withholds the number of callbacks, and one iteration less does not |
| PeImports.ThunksReadBack | engine.js:814-857 | a written thunk list of either width is read as its symbols in order: ordinals by their flag, names behind their hints |
| PeImports.DescriptorReadsBack | engine.js:797-812 | a written descriptor is read as its library's name and, through the lookup table or else the address table, its symbols |
| PeImports.DescriptorsReadBack | engine.js:785-867 | a written import table is read as its libraries with all their symbols in order, at an exact cost |
| PeImports.SymbolsCounted | engine.js:835-853 | the two counters are the numbers of symbols asked for by ordinal and by name |
| PeRoundTrip.HeadersReadBack | engine.js:572-713 | written headers, 32-bit and 64-bit, are read as their fields |
| PeRoundTrip.TlsReadsBack | engine.js:868-922 | a written TLS directory is read as its number of callbacks |
| PeRoundTrip.WrittenIsReported | engine.js:572-986 | any written file is reported exactly as it was written: headers, section, imports in order with counters, callbacks, signature and overlay; it fails with the limit exactly when the imports take more than the budget |
| EngineScoring.Bucket.AddEvidence | engine.js:1116-1121 | the bucket after one item is the grouping by category, in order of first appearance, of everything added |
| EngineScoring.SummarizeCategoryScore | engine.js:1123-1129 | the score is the rounded sum of the descending weights with their decreasing factors |
| EngineScoring.ScoreEvidence | engine.js:1426-1494 | score and verdict are an outcome in the declarative sense: capped penalty, bonuses of the fired combinations, base verdict raised to the highest fired floor |
| EngineScoring.ApplyFloors | engine.js:1475-1494 | the floor loop computes the maximum of the base verdict and all fired floors |
| EngineScoring.OutcomeIsUnique | engine.js:1426-1494 | the evidence determines score and verdict |
| EngineScoring.OutcomeIgnoresOrder | engine.js:1426-1494 | they depend on the evidence only as a multiset |
| EngineScoring.CategoryScoreGrows | engine.js:1123-1129 | one more item never lowers any category score |
| EngineScoring.FiredStays | engine.js:1440-1470 | one more item never takes back a combination |
| EngineScoring.EvidenceIsMonotone | engine.js:1426-1494 | for validated rules one more item, wherever found, never raises the score, un-fires a combination or lowers the verdict |
| EngineScoring.VerdictIff | engine.js:1466-1494 | a verdict is malicious exactly for a blacklisted file, a score below the lower threshold or a fired malicious floor; safe exactly for an unlisted file from the upper threshold on with no fired floor above safe |
| EngineScoring.CategoryScoreIs | engine.js:1123-1129 | in whatever order, the strongest item counts in full and all others at two fifths, rounded |
| EngineScoring.FiredIff | engine.js:1430-1452 | a combination fires exactly when enough of its categories have evidence, or enough different rules of its category matched |
| Weights.DescendingIsUnique | engine.js:1123-1129 | a multiset of weights has one descending order |
| Weights.SortedSumGrows | script-analyzer.js:414-420 | adding a weight never lowers the sum of sorted weights under non-negative factors |
| ScriptScoring.SummarizeCategoryScore | script-analyzer.js:414-420 | the score is the capped sum of descending weights with factors 1, 0.35 and 0.15 |
| ScriptScoring.ScoreFindings | script-analyzer.js:422-458 | score and verdict are an outcome in the declarative sense |
| ScriptScoring.OneCategoryIsNotMalicious | script-analyzer.js:422-450 | any number of findings in one category never yields malicious |
| ScriptScoring.HighFindingIsNotSafe | script-analyzer.js:422-450 | one high or critical finding excludes safe |
| ScriptScoring.OutcomeIgnoresOrder | script-analyzer.js:422-450 | score and verdict depend on the findings only as a multiset |
| ScriptScoring.FindingIsMonotone | script-analyzer.js:125-161 | one more finding never raises the score or lowers the verdict |
| ScriptScoring.VerdictIff | script-analyzer.js:125-161 | malicious exactly for a score below 50 or one of three combinations of categories; safe exactly from 85 on with none of the seven |
| ScriptScoring.BonusIs | script-analyzer.js:435-440 | what the combinations add, spelled out by categories and points |
| ScriptScoring.CategoryScoreIs | script-analyzer.js:414-420 | in whatever order, the two strongest findings count in full and at 0.35, the others at 0.15, up to 40 |
| ScriptScoring.OneFinding | script-analyzer.js:422-446 | a single finding costs 0, 4, 10, 18 or 28 points by its severity, and is suspicious from high on |
| ScriptComments.Strip | script-analyzer.js:223-300 | the lexer specification keeps the length, and every character that is outside a comment or breaks a line |
| ScriptComments.StripLuaComments | script-analyzer.js:223-256 | the index-jumping loop over the array equals the recursive Lua lexer's blanking for every text |
| ScriptComments.StripCSharpComments | script-analyzer.js:258-300 | the same for C# with verbatim strings |
| ScriptComments.BlockMask | script-analyzer.js:239-247 | inside a block comment every character through the closing pair is flagged and code follows; without one, every character but the last of the text |
| ScriptComments.CommentIsBlankedIff | script-analyzer.js:239-247 | a block comment opened anywhere in a text is wholly blanked exactly when it is closed, is empty, or ends in a blank anyway |
| ScriptComments.UnclosedBlockKeepsLast | script-analyzer.js:242-247 | of a text that opens a block comment and never closes it exactly the last character is left |
| ScriptComments.StringIsKept | script-analyzer.js:230-236 | a string literal is kept as it is, with comment markers and escaped quotes in it, and code goes on behind it |
| ScriptComments.VerbatimIsKept | script-analyzer.js:267-279 | a C# verbatim string is kept as it is: backslashes escape nothing, and doubled quotes do not end it |
| ScriptComments.LineIsBlanked | script-analyzer.js:248-252 | a line comment is blanked up to its line feed or the end of the text, and code goes on from there |
| ScriptComments.RereadLua | script-analyzer.js:223-256 | lexing the stripped text finds no Lua comment |
| ScriptComments.RereadCSharp | script-analyzer.js:258-300 | lexing the stripped text finds no C# comment |
| ScriptComments.StripTwice | script-analyzer.js:219-300 | stripping twice is stripping once |
| ScriptComments.BuildLineStarts | script-analyzer.js:302-306 | the loop gives zero and every index after a line feed |
| ScriptComments.StartsCountNewlines | script-analyzer.js:302-306 | starts are sorted, and as many lie at or before an index as line feeds precede it, plus one |
| ScriptComments.LineForIndex | script-analyzer.js:308-316 | the binary search gives the number of starts at or before the index |
| ScriptComments.LineOfMatch | script-analyzer.js:302-316 | a match in the stripped text is reported on one plus the number of line feeds before it in the original text |
| ScanWorkerClient.Client.CleanupActive | scan-worker-client.js:51-58 | the active scan and its timer are cleared, and nothing else changes |
| ScanWorkerClient.Client.TerminateWorker | scan-worker-client.js:60-73 | the worker is stopped, both worker variables cleared and the active scan rejected with the given code; keeps the invariant of all runs |
| ScanWorkerClient.Client.FailInit | scan-worker-client.js:86-97 | a boot that is still pending is broken and whatever worker the page then has is stopped; the active scan is left alone; keeps the invariant of all runs |
| ScanWorkerClient.Client.EnsureWorker | scan-worker-client.js:75-198 | the promise handed out is the current one or that of a new boot, rejected at once when no worker can be made; keeps the invariant of all runs |
| ScanWorkerClient.Client.OnMessage | scan-worker-client.js:106-171 | readiness settles the boot by the version checks; a reply settles the active scan only under its own request id, as ScanOutcomes.ResultSettles says field by field; keeps the invariant of all runs |
| ScanWorkerClient.Client.ScanFile | scan-worker-client.js:214-237 | a call is refused, or holds the reservation and waits for a boot; keeps the invariant of all runs |
| ScanWorkerClient.Client.AfterAwait | scan-worker-client.js:231-263 | the call gives the reservation back and is rejected, or becomes the active scan with its timer armed and its request posted; keeps the invariant of all runs |
| ScanWorkerClient.Client.CancelActiveScan | scan-worker-client.js:265-269 | says whether there was a scan to cancel, and ends it; keeps the invariant of all runs |
| ScanWorkerClient.WorkerHost.OnMessage | scan-worker.js:132-163 | a scan request is refused by validation or by the busy check, or occupies the worker |
| ScanWorkerClient.WorkerHost.OnPipelineDone | scan-worker.js:165-205 | one reply is posted, a result only if it passes all checks, and the worker is free again |
| ScanSafety.AnswerFreesWorker | scan-worker-client.js:138-143 | a reply under the active id shows that the current worker holds nothing under that id |
| ScanSafety.StepKeeps | scan-worker-client.js:51-263 | every step of page, worker, timer, abort or shutdown keeps the whole invariant |
| ScanSafety.AtMostOneScan | scan-worker-client.js:214-263 | in every run at most one scan is reserved or active, and the flag says exactly when one is reserved |
| ScanSafety.EachScanSettlesOnce | scan-worker-client.js:138-171 | no promise is settled twice, and the unsettled ones are exactly the reserved and the active scan |
| ScanSafety.ResolvesWithOwnResult | scan-worker-client.js:138-166 | a scan resolves only with a valid result computed from its own file in its own mode |
| ScanSafety.UnsettledScansAreTimed | scan-worker-client.js:192-194 | behind every unsettled scan stands an armed timer, or it may go on at once |
| ScanSafety.WorkerIsNeverBusy | scan-worker.js:155-162 | a live worker never takes a scan while it runs one, so the busy branch is dead under this page |
| ScanSafety.LosesWorkerIff | scan-worker-client.js:86-198 | a step takes the worker and leaves the scan active exactly when it fails a boot that is still pending: init timer, worker error, or a bad ready message |
| ScanSafety.StrandedIff | scan-worker-client.js:86-198 | at the end of any run the active scan lacks its worker exactly when such a step happened since it became active |
| ScanSafety.NeverStranded | scan-worker-client.js:86-198 | with no boot pending beside an active scan, the scan always has its worker |
| ScanSafety.StaleBootStrandsTheScan | scan-worker-client.js:86-97 | after a concrete run each of the three steps may come and leaves the scan active without a worker |
| ScanOutcomes.ResultSettles | scan-worker-client.js:138-166 | a result under the active id resolves the scan exactly when schema, verdict, mode and app version are right, and otherwise rejects it with the code of the first that is not |
| ScanOutcomes.ErrorSettles | scan-worker-client.js:167-170 | an error under the active id rejects the scan with its code |
| ScanOutcomes.StaleReplyIsIgnored | scan-worker-client.js:138-139 | a reply under any other id changes nothing on the page |
| ScanOutcomes.GreetingSettles | scan-worker-client.js:109-136 | a ready message fulfils a pending boot exactly when all its fields are right, and otherwise breaks it with the first mismatch and drops the worker |
| ScanOutcomes.InterruptionSettles | scan-worker-client.js:173-273 | timeout, cancellation, abort, shutdown and a worker error each reject the active scan with their own code and stop its worker |
| ScanOutcomes.StartSettles | scan-worker-client.js:200-224 | a call is refused for its file, its mode, a scan under way or its signal, each with its code and in this order; otherwise it waits |
| ScanOutcomes.ResumeSettles | scan-worker-client.js:226-263 | the waiting call ends with the broken boot's code, its signal or a failed post; otherwise it is active with its own file and mode under the next number |
| ScanOutcomes.NoWorkerRejects | scan-worker-client.js:75-104 | a scan on a page that cannot have a worker is rejected with the reason |
| ScanOutcomes.ScanWaitsForBoot | scan-worker-client.js:75-104 | without a worker a scan boots one under an armed timer, waits for it, and cannot go on before the boot has settled |
| ScanOutcomes.FailedBootRejects | scan-worker-client.js:173-192 | a scan that waits for a boot is rejected when its time is up or its worker breaks, with that code |
| ScanOutcomes.WorkerTakes | scan-worker.js:132-163 | a ready and idle worker takes a valid request on, and refuses any other with the first reason there is |
| ScanOutcomes.WorkerAnswers | scan-worker.js:165-205 | the report of the pipeline is posted exactly when it is good; otherwise an error with the first fault |
| ScanOutcomes.IdleWorkerScans | scan-worker-client.js:214-263 | from any state with a booted idle worker a scan runs to a resolution with its worker's report, and the worker is idle again |
| ScanOutcomes.GoodScansResolve | scan-worker-client.js:75-263 | from the start on, any number of good scans in a row resolve in order, each with the report its own worker produced |
| GuardAgent.Agent.ProcessPath | desktop-guard/windows-agent/agent.js:70-77 | a path out of the protected scope is ignored, one that is being processed gets no second task, and the invariant stays |
| GuardAgent.Agent.IsTrustedPath | desktop-guard/windows-agent/agent.js:182-195 | true only for a present file whose identity a scan of this path called safe; a changed or vanished file is forgotten |
| GuardAgent.Agent.MoveFile | desktop-guard/windows-agent/quarantine-store.js:9-45 | an operation touches no other file; the source goes only when its bytes have arrived or after its copy was renamed; done means the destination was seen with the expected identity |
| GuardAgent.Agent.ProcessOnce | desktop-guard/windows-agent/agent.js:79-180 | each operation of processing a path, whatever fails, keeps the invariant, puts only a file its own scan called safe into the game tree, and if careful keeps all bytes of all paths |
| GuardAgent.Agent.ReleaseOnce | desktop-guard/windows-agent/hold-store.js:81-98 | each operation of a release keeps the invariant, puts only a file its own scan called safe into the game tree, and if careful keeps all bytes of all paths |
| GuardAgent.Agent.QuarantineOnce | desktop-guard/windows-agent/quarantine-store.js:97-138 | each operation of quarantine keeps the invariant, puts nothing into the game tree, and never takes the payload out of the guard's directories |
| GuardAgent.Agent.RestoreOnce | desktop-guard/windows-agent/quarantine-store.js:145-191 | each operation of a restore keeps the invariant, puts nothing but its payload back at the original path, and nothing once the payload is not to be had |
| GuardAgent.Agent.InstallOnce | desktop-guard/windows-agent/managed-install.js:23-59 | each operation of a managed install keeps the invariant, puts only a file its own scan called safe into the game tree, and if careful keeps all bytes of all paths |
| GuardAgent.Agent.PlaceOnce | desktop-guard/windows-agent/managed-install.js:61-84 | each operation that puts a staged file into place keeps the invariant, puts only a file its own scan called safe into the game tree, and if careful keeps all bytes of all paths; where it goes is in GuardOutcomes.PlacesIff and SafeFileIsInstalled |
| GuardSafety.MoveEffect | desktop-guard/windows-agent/quarantine-store.js:9-45 | an operation of a move touches source, destination and partial copy only, and what disappears from the source was renamed or unlinked |
| GuardSafety.MovingKeeps | desktop-guard/windows-agent/quarantine-store.js:9-45 | an operation of any of the guard's moves keeps everything all other tasks rely on |
| GuardSafety.MovingConsumer | desktop-guard/windows-agent/quarantine-store.js:145-191 | a payload taken out of quarantine is gone for good and was taken by one task |
| GuardSafety.StepKeeps | desktop-guard/windows-agent/agent.js:79-180 | every step of every task, every failure and every outside change keeps the whole invariant |
| GuardTheorems.HeldUntilPutBack | desktop-guard/windows-agent/quarantine-store.js:97-138 | bytes once held, staged or quarantined stay in one of these places until they have been put back at their original path |
| GuardConservation.BytesStayOnDisk | desktop-guard/windows-agent/quarantine-store.js:9-45 | bytes at a game path or in a private file of one of its payloads are on the disk at one of these places ever after, as long as the guard's steps are careful and nobody else alters the game file |
| GuardConservation.TakenSurvivesIff | desktop-guard/windows-agent/quarantine-store.js:18-31 | a game file that a step makes vanish or change survives in the task's own files exactly when the step is no rename onto it and no unlink of something else than was copied |
| GuardConservation.CopySurvivesIff | desktop-guard/windows-agent/quarantine-store.js:20-31 | a payload survives the rename of its cross-volume copy and the following unlink, in release, restore and install, exactly when the copy is still the payload at the rename |
| GuardConservation.StepPromises | desktop-guard/windows-agent/agent.js:79-180 | every step of every task keeps the invariant, places only safe or requested files, and if careful keeps all bytes of all paths |
| GuardConservation.QuarantineLosesNothing | desktop-guard/windows-agent/quarantine-store.js:97-138 | no step of quarantine, failed or not, takes a payload out of the guard's directories |
| GuardRestores.PlaceableIff | desktop-guard/windows-agent/quarantine-store.js:145-191 | at any point of any run a restore can still put a quarantined payload into the game tree exactly when it lies in quarantine or a restore has its copy made and not yet renamed |
| GuardRestores.PlacedTwice | desktop-guard/windows-agent/quarantine-store.js:20-35 | two restore placements of one payload mean that at every point between them another restore is past its copy, or the first one's unlink is still to come or failed |
| GuardRuns.RestoredIsOverwritten | desktop-guard/windows-agent/hold-store.js:86-96 | a concrete run without failures in which a release overwrites a file just restored, whose bytes are then nowhere |
| GuardRuns.TamperedCopyLosesPayload | desktop-guard/windows-agent/quarantine-store.js:22-31 | a concrete run in which a copy altered after its check replaces the payload |
| GuardRuns.RacingRestoresPlaceTwice | desktop-guard/windows-agent/quarantine-store.js:145-191 | a concrete run in which one restore succeeds and a racing one puts the same payload back again |
| GuardRuns.FailedUnlinkPlacesTwice | desktop-guard/windows-agent/quarantine-store.js:30-35 | a concrete run in which a restore fails at its last unlink and a later request puts the payload back again |
| GuardRuns.LostUpdate | desktop-guard/windows-agent/quarantine-store.js:18-31 | a concrete run in which contents written during a cross-volume hold are lost |
| GuardTheorems.OnlySafeOrRestored | desktop-guard/windows-agent/agent.js:132-146 | what the guard puts into the game tree was called safe by a scan or is asked for by a restore, and is what was scanned |
| GuardTheorems.TrustedIsSafe | desktop-guard/windows-agent/agent.js:84-98 | a trusted identity is that of bytes a scan of this path called safe |
| GuardTheorems.RestoredOnce | desktop-guard/windows-agent/quarantine-store.js:145-191 | a payload is restored successfully at most once, however many requests race for it |
| GuardTheorems.RestoreGivesBack | desktop-guard/windows-agent/quarantine-store.js:145-191 | a successful restore saw the quarantined identity at the original path, and the payload has left quarantine |
| GuardTheorems.OneTaskPerPath | desktop-guard/windows-agent/agent.js:70-77 | at most one unfinished task processes a path |
| GuardStretches.MoveRun | desktop-guard/windows-agent/quarantine-store.js:9-45 | an undisturbed move gets the expected file to its destination, by rename or by copy across volumes |
| GuardStretches.QuarantineRun | desktop-guard/windows-agent/quarantine-store.js:97-138 | undisturbed, a file that is not to be let go ends in quarantine with its bytes and its record |
| GuardOutcomes.SafeFileIsReleased | desktop-guard/windows-agent/agent.js:79-137 | undisturbed, a new file that its scan calls safe is back at its path with its bytes, and trusted |
| GuardOutcomes.UnsafeFileIsQuarantined | desktop-guard/windows-agent/agent.js:79-180 | undisturbed, a new file that its scan calls anything else ends in quarantine |
| GuardOutcomes.OccupiedPathIsKept | desktop-guard/windows-agent/hold-store.js:86-94 | a path that was taken meanwhile is left as it is, and the held file goes to quarantine |
| GuardOutcomes.TrustIsChecked | desktop-guard/windows-agent/agent.js:84-96 | a file with its trusted identity is left alone; any other identity loses the trust and the file is held |
| GuardOutcomes.PayloadIsRestored | desktop-guard/windows-agent/quarantine-store.js:145-191 | undisturbed, a quarantined payload whose path is free is back there with its bytes and is recorded as restored |
| GuardOutcomes.RestoreIsRefused | desktop-guard/windows-agent/quarantine-store.js:145-178 | a request for what is not in quarantine, has other bytes or whose path is taken changes nothing |
| GuardOutcomes.SafeFileIsInstalled | desktop-guard/windows-agent/managed-install.js:23-84 | undisturbed, a file that the scan calls safe is installed at its free destination with the bytes of its source |
| GuardOutcomes.PlacesIff | desktop-guard/windows-agent/managed-install.js:55-62 | an install goes on to its placement exactly when its destination is seen to be free, and otherwise ends with nothing changed |
| GuardOutcomes.OccupiedDestinationIsKept | desktop-guard/windows-agent/managed-install.js:55-62 | a destination that is taken is left as it is and nothing is placed |
| GuardOutcomes.UnsafeFileIsNotInstalled | desktop-guard/windows-agent/managed-install.js:41-53 | a file that the scan calls anything but safe is not placed: its staged copy ends in quarantine |
| CanonicalJson.Insert | desktop-app/update/secure-update.js:27-30 | sorting neither loses nor adds a key |
| CanonicalJson.SortedIncreasing | desktop-app/update/secure-update.js:27-30 | sorted keys strictly increase in the lexicographic order of code units |
| CanonicalJson.BeforeIff | desktop-app/update/secure-update.js:27-30 | one text is less than another exactly when they agree up to a place where the first has ended or has the smaller code unit |
| CanonicalJson.StringReadsBack | desktop-app/update/secure-update.js:20-22 | an escaped string is unescaped to itself, whatever its code units |
| CanonicalJson.NumberReadsBack | desktop-app/update/secure-update.js:22-25 | a printed integer is read back |
| CanonicalJson.ReadsBack | desktop-app/update/secure-update.js:17-35 | the parser inverts canonicalize on every value, up to the order of keys |
| CanonicalJson.SameDataSameText | desktop-app/update/secure-update.js:17-35 | the order in which keys were inserted never changes the text |
| CanonicalJson.SameTextIffSameData | desktop-app/update/secure-update.js:17-35 | two values have the same text exactly when they hold the same data |
| CanonicalJson.TextIsWellFormed | desktop-app/update/secure-update.js:94-100 | the text has no lone surrogate, so its UTF-8 bytes, which are what is signed, determine it |
| CanonicalJson.Literals | desktop-app/update/secure-update.js:17-26 | the texts of null, booleans and some integers |
| CanonicalJson.EscapesAre | desktop-app/update/secure-update.js:20-22 | the short escapes of JSON, and all characters that stand for themselves |
| CanonicalJson.LongEscapes | desktop-app/update/secure-update.js:20-22 | the four lower-case hexadecimal digits written for controls and lone surrogates |
| CanonicalJson.PairText | desktop-app/update/secure-update.js:17-19 | an array is written in its own order, in brackets with a comma between and no blanks |
| CanonicalJson.MembersText | desktop-app/update/secure-update.js:27-34 | two members are written in braces in the order of their keys, with colons and a comma |
| SemVer.ParseInjective | desktop-app/update/secure-update.js:37-46 | a version is determined by what is parsed from it |
| SemVer.ReadsExactlyWhatIsWritten | desktop-app/update/secure-update.js:37-46 | a text is read as a version exactly when it is that version written down: decimal numbers with dots, and identifiers as section 9 of Semantic Versioning 2.0.0 has them |
| SemVer.ComparePrereleaseLists | desktop-app/update/secure-update.js:48-64 | the index loop decides by the first identifiers that differ |
| SemVer.CompareVersions | desktop-app/update/secure-update.js:66-73 | the loop over the three numbers, then the prerelease, or nothing for an invalid version |
| SemVer.CompareIsPrecedence | desktop-app/update/secure-update.js:48-73 | with numbers below 2^53 the result is SemVer precedence, identifiers compared as section 11 says, and 0 only for the same text |
| SemVer.CompareIsPrecedenceIff | desktop-app/update/secure-update.js:48-73 | for any two valid versions the result is SemVer precedence exactly when the first numbers that differ have different doubles, or else the first later doubles that differ, or failing these the prereleases, order the versions the same way; and with equal numbers the first identifiers that differ are not numeric with the same double and the first the larger |
| SemVer.RestSaysIff | desktop-app/update/secure-update.js:66-73 | from any number on, the result is decided by the first numbers with different doubles, and failing these by which version lacks a prerelease, a swallowed identifier, or precedence of the identifiers |
| SemVer.ToDoubleIsMonotone | desktop-app/update/secure-update.js:45-45 | rounding a number to a double keeps the order |
| SemVer.NumbersRightIff | desktop-app/update/secure-update.js:68-71 | different numbers are told apart, and then rightly, exactly when their doubles differ |
| SemVer.IdsRightIff | desktop-app/update/secure-update.js:55-62 | different identifiers compare rightly unless they are numeric with the same double and the first is the larger |
| SemVer.PrecedenceIsTotalOrder | desktop-app/update/secure-update.js:48-73 | precedence is irreflexive, transitive and total |
| SemVer.NewerIsStrictOrder | desktop-app/update/secure-update.js:66-73 | a positive comparison is irreflexive and transitive for all versions, rounded ones too |
| SemVer.RoundingMergesReleases | desktop-app/update/secure-update.js:45-46 | 2^53.0.0 and the next release compare as equal, though 2^53.0.0 and the one after that do not |
| SemVer.RoundingBreaksPrereleases | desktop-app/update/secure-update.js:59-59 | two valid versions, 1.0.0-9007199254740992 and 1.0.0-9007199254740993, are each older than the other |
| UpdateManager.Manager.StageVerifiedCandidate | desktop-app/update/update-manager.js:127-163 | staging does its steps in order, with the state file, the staged files and the outcome as defined for every failure |
| UpdateManager.StagingKeeps | desktop-app/update/update-manager.js:127-163 | a failed staging leaves the security state unchanged; a successful one is signed, stores a file with the signed hash and outranks everything accepted before |
| UpdateManager.AcceptedIff | desktop-app/update/secure-update.js:156-206 | a manifest is accepted exactly when product, channel, version, sequence, commit, validity window and package are right, field by field |
| UpdateManager.FlawIsNamed | desktop-app/update/secure-update.js:156-206 | an acceptable manifest with one flaw is refused for that flaw |
| UpdateManager.OldVersionIsRefused | desktop-app/update/secure-update.js:185-186 | a version not newer than the installed one is refused as old, one not newer than the highest seen as a replay |
| UpdateManager.StagedIff | desktop-app/update/update-manager.js:127-163 | a package is staged exactly when its manifest is acceptable, its bytes are the announced ones, its name is free and every operation works |
| UpdateManager.AntiReplay | desktop-app/update/update-manager.js:97-172 | along any run accepted versions and sequences strictly increase, no manifest is staged twice, and a staged candidate no longer verifies once another was accepted after it |
| UpdateManager.ReplayIsRefused | desktop-app/update/secure-update.js:182-187 | an accepted manifest is refused ever after |
| PackageSeal.ReadExpected | desktop-app/integrity/runtime-integrity.js:108-117 | the loop gives the listed entries, or nothing for a malformed, reserved or repeated line |
| PackageSeal.VerifyRuntimePackageIntegrity | desktop-app/integrity/runtime-integrity.js:84-162 | the verdict is that of the first failing check |
| PackageSeal.CountingSuffices | desktop-app/integrity/runtime-integrity.js:125-132 | as many lines as files and every file on a line leave no line for anything else |
| PackageSeal.AcceptedIsDescribed | desktop-app/integrity/runtime-integrity.js:84-162 | an accepted package consists of exactly the listed files with their listed hashes, as many as its manifest says |
| PackageSeal.BuildSeal | tools/build-portable-package.js:133-149 | the builder's loop writes manifest and checksum file as defined |
| PackageSeal.BuiltIsAccepted | tools/build-portable-package.js:133-149 | every package with listable names within the line limit is accepted |
| PackageSeal.BuiltIsAcceptedIff | tools/build-portable-package.js:133-149 | a built package is accepted exactly when every name fits on a line and the lines fit the limit |
| PackageSeal.ListableIff | desktop-app/integrity/runtime-integrity.js:50-56 | the checks on a line's name let through exactly the normalized relative names that fit on a line |
| ThreatCache.Cache.Prune | desktop-app/threat-intel/cache-store.js:63-71 | both loops give the declarative pruning |
| ThreatCache.Cache.Put | desktop-app/threat-intel/cache-store.js:113-120 | an uncacheable result changes nothing; another is stored and the rest pruned |
| ThreatCache.Cache.PutMany | desktop-app/threat-intel/cache-store.js:122-135 | a batch is stored as a whole or not at all |
| ThreatCache.Cache.Get | desktop-app/threat-intel/cache-store.js:100-111 | gives the stored entry unless expired, and drops an expired one |
| ThreatCache.Cache.LoadFile | desktop-app/threat-intel/cache-store.js:36-61 | all entries of the file, or none when one is invalid |
| ThreatCache.PruningKeepsTheNewest | desktop-app/threat-intel/cache-store.js:63-71 | pruning keeps live entries only, at most the maximum, and drops a live one only for want of room and only if none kept is older |
| ThreatCache.LookupIsLastStored | desktop-app/threat-intel/cache-store.js:100-111 | after any run a lookup gives nothing or exactly what was stored last, never past its expiry |
| ThreatCache.LookupIff | desktop-app/threat-intel/cache-store.js:100-111 | a lookup gives an entry exactly when the cache holds it for that hash and it has not expired |
| ThreatCache.PutIsFound | desktop-app/threat-intel/cache-store.js:100-120 | after any run a cacheable result that is stored is found until its own expiry and not after; one that is not cacheable changes nothing |
| ThreatCache.StoreDropsTheOldest | desktop-app/threat-intel/cache-store.js:113-135 | after any run a store, of one result or of many, keeps the bound and drops nothing live that is newer than something kept |

## Left out

- HTTP server, pages, cloud and AI clients, metrics, sandboxes, native probes, external scanners: input and output, and foreign processes.
- SHA-256, Ed25519, strict UTF-8 decoding, lower-casing, path normalization, JSON.parse of manifests: parameters of the model.
- The inflater itself: any sequence of chunks and failures may come out of it; only the bounded copy is modelled.
- Shannon entropy, packer heuristics and floating-point rounding of scores: weights are exact rationals.
- PeRoundTrip.WrittenIsReported: the written file has one section and no resources; several sections are covered by PeParser.RvaToOffset.
- PeParser.ParsePeStructure: section entropies, the checksum field and the resource size are not part of the result.
- Rule matching in scripts, string search in the engine, and the per-file verdict functions: findings, evidence and verdicts are inputs.
- Human-readable reasons, notes and error details; the per-entry report of the inspector beyond its counters and descriptors.
- Descriptor fields of a type other than a number or a string: they fail the descriptor check before anything is read.
- ThreatCache.Cache.Put: does not model saving to disk, whose failure changes nothing in memory.
- ThreatCache.Cache.PutMany: the same.
- GuardTheorems.HeldUntilPutBack: assumes that nobody alters the randomly named partial copies beside game files; GuardConservation has the exact conditions without that assumption.
- GuardConservation.BytesStayOnDisk: assumes considerate steps; what the rest of the system does to game files is not the guard's to keep.
- GuardTheorems.RestoreGivesBack: speaks of the moment the restored file was read; afterwards the path belongs to the game again.
- GuardAgent.Agent.IsTrustedPath: incident reports, health reports and directory watching around the agent are not part of it.
- Fresh random ids are modelled as task numbers, so they never collide; symbolic links and special files appear as read failures.
- A failing copy that starts a managed install leaves no partial staged file in the model.
- ScanWorkerClient.Client.ScanFile: request ids are pairs of time stamp and counter instead of the text built from them; the runtime contract is always loaded.
- ScanSafety.UnsettledScansAreTimed: says that a timer is armed, not that it ever fires.
- UpdateManager.Manager.StageVerifiedCandidate: signature, key and URL checks are one outcome of the request; files are compared by bytes without their time stamps.
- CanonicalJson.NumberReadsBack: as for ReadsBack below, integers only.
- CanonicalJson.ReadsBack: numbers are integers; fractions, exponents and integers from 2^53 on, which JavaScript prints in shortest form, are not modelled.
- PackageSeal.VerifyRuntimePackageIntegrity: the package does not change while it is verified, so the checks on file times are left out.
- `multilayer.js`, `evidence-fusion-engine.js`, `pro-scan-pipeline.js`, `isolation-readiness.js`, the protection coordinator, session and rate limits: finite case splits that would only add easy members.
