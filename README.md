# AMC mission tracker — verified model of the core

This project models the core of the AMC mission tracker in Dafny. The tracker reads AMC IMI 170 flight
forms with a vision model, enriches the flight legs with great-circle distances, keeps missions and
flight logs in a server database and on three clients (web, React Native, SwiftUI), encrypts
sensitive fields, and keeps a client-side security log. Each module below stands for one source file,
and proves what that file's code promises.

| module | source file | form |
|---|---|---|
| `ServerOcr` | server/ocr.ts | functions: format sniffing, repair of the model's reply, `validateAMCData` |
| `ClientOcr` | client/src/lib/ocr.ts | functions: the client's copy of the leg check |
| `ServerDistance` | server/distance-calculator.ts | functions: case-insensitive lookup, unrounded R·c with R = 3440 |
| `NativeDistance` | ios-native/src/services/DistanceCalculator.ts | functions: 76-airport table, top-10 search, Math.round(R·c) with R = 3440.065 |
| `SwiftDistance` | swift-ios-app/AMCMissionTracker/Services/DistanceCalculator.swift | functions and methods: scored search, ICAO-first search, case-sensitive distance |
| `ClientAirports` | client/src/lib/airports.ts | functions: keyed table, lookup, substring search, ICAO validator |
| `Routes` | server/routes.ts | functions: request gates and post-processing of the HTTP handlers |
| `FieldCipher` | server/encryption.ts | functions: key selection, context keys, the version/salt dispatch, field helpers |
| `SecurityLog` | client/src/lib/security.ts | class: the bounded event log, status, input validation, wipe |
| `MissionTracking` | client/src/lib/mission-tracker.ts | class: the bounded mission log, scores and profile |
| `MissionStore` | client/src/lib/mission-store.ts | class: the mission list and its statistics |
| `NativeMissionService` | ios-native/src/services/MissionService.ts | class: stored missions, upsert/delete, statistics |
| `SwiftModels` | swift-ios-app/AMCMissionTracker/Models/Mission.swift, FlightLeg.swift | datatypes: records and computed totals |
| `SwiftMissionService` | swift-ios-app/AMCMissionTracker/Services/MissionService.swift | class: the published mission array and statistics getters |
| `FlightLogEditor` | client/src/components/flight-log-manager.tsx | functions for time conversion, class for the leg list and crew editing |
| `ServerStorage` | server/storage.ts | functions over tables, class `DatabaseStorage` for the updates |
| `RouteCounts` | shared by ios-native MissionService.ts and server/storage.ts | the most-frequent-route count over an insertion-ordered map |
| `Sorting`, `Common` | — | comparator sorting (Swift's `sorted(by:)`), and the JavaScript helpers (`Math.round`, `trim`, truthiness, `Set` order) |

Loops in the source are methods with loop invariants, proved against specification functions. The
properties of those functions are lemmas: bounds, round trips, and invariants the operations keep.

The model follows the code in these places:
- Distance rounding differs per client. The server returns R·c unrounded with R = 3440. The React
  Native client rounds with `Math.round` and uses R = 3440.065. The Swift client answers 0.0,
  not "not found", when an airport is missing.
- HEIC is refused only on `/api/extract`, and there by text: the route tests whether the data URL
  contains `data:image/heic`. `processAMCDocument` only labels HEIC bytes `image/heic` and sends
  them to the vision model. The `/api/missions/:missionId/scan` route accepts any reply that passes
  `validateAMCData`, HEIC included.
- Search ranking (exact ICAO, prefix, …) exists only in the Swift client. The web client and the
  server's `fuzzySearchIcao` return matches in table order. The React Native client returns the
  first ten matches in table order.
- A repaired leg gets the code's defaults: `UNKN`, `Unknown Airport`, `0000L`, `0:00`, `UNKNOWN`,
  `null`, 0.
- The server's flight statistics are computed over every leg in the table, not over the user's
  own legs.
- `encryptSensitiveData` never records its salt, so the round-trip promise fails on that path (see
  "## Findings").

## Model

| member | source | states |
|---|---|---|
| ServerOcr.Lookup | server/ocr.ts:134-149 | a property read gives undefined exactly when no member carries the key, and otherwise a value stored under that key |
| ServerOcr.Or | server/ocr.ts:134-149 | `v \|\| fallback` is `v` when `v` is truthy and the fallback otherwise |
| ServerOcr.Header | server/ocr.ts:48 | the sniffed header is at most twelve bytes and is a prefix of the image |
| ServerOcr.SniffReadsTwelveBytes | server/ocr.ts:47-57 | the MIME label depends on the first twelve bytes only |
| ServerOcr.SniffClassifies | server/ocr.ts:47-57 | a HEIC tag in the header wins; otherwise FF D8 gives JPEG, the PNG signature gives PNG, and bytes with none of the three signatures (anything shorter than two bytes among them) fall back to JPEG |
| ServerOcr.NoLegsArrayIsError | server/ocr.ts:126-131 | a reply whose `legs` is missing, falsy or not an array is rejected with "Invalid OCR response format" |
| ServerOcr.RepairKeepsLegs | server/ocr.ts:134-149 | an accepted reply keeps the leg count and order: leg i is the repair of element i, and no element is null |
| ServerOcr.RepairedLegIsPopulated | server/ocr.ts:134-149 | every repaired leg has truthy codes, names, times, duration and mission number, and numeric pax and cargo; each of the twelve text fields keeps a truthy value unchanged and otherwise takes its default: 'UNKN', 'Unknown Airport', '0000L', '0:00', 'UNKNOWN', or null for aircraftType, tailNumber, cargoType and specialHandling |
| ServerOcr.PaxKeepsOnlyNumbers | server/ocr.ts:145-146 | pax passes through only when it is a number, so a numeric string such as "12" becomes 0 |
| ServerOcr.ResultDefaults | server/ocr.ts:151-156 | a numeric confidence passes through and anything else becomes 0.8; a falsy formType becomes "AMC IMI 170"; missionType is copied unchanged |
| ServerOcr.RepairedResultValidates | server/ocr.ts:134-176 | every accepted reply with at least one leg passes validateAMCData |
| ServerOcr.ValidateRejects | server/ocr.ts:164-176 | validateAMCData rejects an empty leg list, and a single failing leg rejects the whole result |
| ServerOcr.MissingKeyNeverAsks | server/ocr.ts:4-12 | without an API key the processing fails with the missing-key error before the model is asked, whatever it would have answered |
| ClientOcr.ProcessDocument | client/src/lib/ocr.ts:27-31 | client-side processing always fails with the not-implemented message |
| ClientOcr.ValidateOcrResultSpec | client/src/lib/ocr.ts:33-41 | the client check holds exactly when every leg passes |
| ClientOcr.OneBadLegFails | client/src/lib/ocr.ts:33-41 | one leg with an empty departure or arrival code fails the whole result |
| ClientOcr.AgreesWithServer | client/src/lib/ocr.ts:33-41 | the client and server checks agree on non-empty results; on an empty list the client accepts and the server rejects |
| ClientAirports.Keys | client/src/lib/airports.ts:15-94 | the key column of the airport record, entry by entry |
| ClientAirports.Values | client/src/lib/airports.ts:15-94 | the value column of the airport record, entry by entry |
| ClientAirports.KeysColumn | client/src/lib/airports.ts:15-94 | the record's keys are the listed ICAO codes, in source order |
| ClientAirports.KeysDistinct | client/src/lib/airports.ts:15-94 | no key appears twice in the record |
| ClientAirports.KeysAreCodes | client/src/lib/airports.ts:15-94 | every entry is stored under its own upper-case ICAO code |
| ClientAirports.LookupSpec | client/src/lib/airports.ts:97 | a record read finds nothing exactly when no entry has that key, and otherwise the entry stored under it |
| ClientAirports.GetAirportByIcaoSpec | client/src/lib/airports.ts:96-98 | lookup ignores letter case, returns an airport whose code is the upper-cased query, and finds nothing exactly when the upper-cased query is not a key |
| ClientAirports.EveryEntryFound | client/src/lib/airports.ts:96-98 | every airport is found by its own code in upper or lower case |
| ClientAirports.SearchInSpec | client/src/lib/airports.ts:100-107 | search keeps, in table order, exactly the airports whose code, name or city contains the query ignoring case, and the empty query returns every airport |
| ClientAirports.ValidateIcaoCodeSpec | client/src/lib/airports.ts:109-111 | a code is valid exactly when it is four ASCII letters in either case |
| ServerDistance.FindSpec | server/distance-calculator.ts:16-17 | the lookup returns the first airport whose code matches ignoring case, and nothing exactly when none matches |
| ServerDistance.DistanceNullIffMissing | server/distance-calculator.ts:11-34 | the distance is null exactly when one of the two codes is not found, and otherwise it is 3440 nautical miles times the central angle between a matching departure and a matching arrival record |
| ServerDistance.DefinedSymmetric | server/distance-calculator.ts:11-34 | the distance from A to B is defined exactly when the distance from B to A is |
| ServerDistance.FindIgnoresCase | server/distance-calculator.ts:16-17 | a code and its lower-case form find the same airport |
| ServerDistance.OnlyCoordinatesMatter | server/distance-calculator.ts:11-34 | relabelling names and cities while keeping codes and coordinates leaves every distance unchanged |
| ServerDistance.SameCoordinatesFound | server/distance-calculator.ts:16-21 | such a relabelling finds the same coordinates for every code |
| ServerDistance.FuzzySearchIcaoSpec | server/distance-calculator.ts:36-41 | fuzzy search keeps, in input order, exactly the airports whose code or name contains the term ignoring case (the city is never searched), and the result length is the number of matches |
| ServerDistance.EmptyTermKeepsAll | server/distance-calculator.ts:36-41 | the empty term keeps every airport |
| NativeDistance.Codes | ios-native/src/services/DistanceCalculator.ts:5-89 | the ICAO column of the airport table, record by record |
| NativeDistance.TableShape | ios-native/src/services/DistanceCalculator.ts:5-89 | every code in the table is four upper-case letters and no code appears twice |
| NativeDistance.TableSize | ios-native/src/services/DistanceCalculator.ts:5-89 | the table holds 76 airports |
| NativeDistance.FindInSpec | ios-native/src/services/DistanceCalculator.ts:91-93 | findAirport returns the first record whose code equals the query ignoring case, and null exactly when none does |
| NativeDistance.FindAirportByCode | ios-native/src/services/DistanceCalculator.ts:91-93 | every record is found by its own code, in upper or lower case |
| NativeDistance.FindAirportMiss | ios-native/src/services/DistanceCalculator.ts:91-93 | findAirport gives null exactly when no record's code is the upper-cased query |
| NativeDistance.SearchInSpec | ios-native/src/services/DistanceCalculator.ts:95-105 | search returns exactly the first ten matches in table order, or all of them when there are at most ten, each matching code, name or city ignoring case |
| NativeDistance.CalculateDistanceSpec | ios-native/src/services/DistanceCalculator.ts:107-141 | the distance is null exactly when either airport is missing, and otherwise within half a mile of 3440.065 times the central angle |
| NativeDistance.GetAllAirports | ios-native/src/services/DistanceCalculator.ts:148-150 | hands out a new array holding the whole table in order |
| SwiftDistance.ScoreSpec | swift-ios-app/AMCMissionTracker/Services/DistanceCalculator.swift:68-107 | the score is one of eight levels, 1.0 exactly on an ICAO match ignoring case, and non-zero (so above the 0.3 bar) exactly when the query occurs in the code, name or city |
| SwiftDistance.ScoreOrdersFields | swift-ios-app/AMCMissionTracker/Services/DistanceCalculator.swift:68-107 | an airport whose code contains the query outranks one whose code does not |
| SwiftDistance.FuzzySearchAirports | swift-ios-app/AMCMissionTracker/Services/DistanceCalculator.swift:49-66 | the scoring loop, sort and prefix give nothing for an empty query and otherwise the ranked list |
| SwiftDistance.CandidatesSpec | swift-ios-app/AMCMissionTracker/Services/DistanceCalculator.swift:53-61 | the candidates are exactly the airports scoring above the bar, each paired with its own score |
| SwiftDistance.HigherScoreIsStrictWeakOrder | swift-ios-app/AMCMissionTracker/Services/DistanceCalculator.swift:63 | the score comparator is a strict weak order, as Swift's sort requires |
| SwiftDistance.TopSpec | swift-ios-app/AMCMissionTracker/Services/DistanceCalculator.swift:63-64 | exactly min(maxResults, candidate count) candidates are kept, drawn from the candidates in non-increasing score order, no dropped candidate scores higher than a kept one, and all are kept when there are few enough |
| SwiftDistance.RankedSpec | swift-ios-app/AMCMissionTracker/Services/DistanceCalculator.swift:49-66 | fuzzy results number exactly min(maxResults, matching count), all have non-zero, non-increasing scores, an exact ICAO match precedes everything else, a matching airport left out scores no higher than any result, and every matching airport is returned when few enough match |
| SwiftDistance.RelevanceIsStrictWeakOrder | swift-ios-app/AMCMissionTracker/Services/DistanceCalculator.swift:35-45 | the relevance comparator is a strict weak order |
| SwiftDistance.SearchAirportsSpec | swift-ios-app/AMCMissionTracker/Services/DistanceCalculator.swift:25-47 | an empty query gives nothing; otherwise the result is a permutation of the matching airports with every ICAO match first and each group in ascending ICAO order |
| SwiftDistance.FirstSpec | swift-ios-app/AMCMissionTracker/Services/DistanceCalculator.swift:17-18 | the lookup is case-sensitive: it finds nothing exactly when no airport has that exact code |
| SwiftDistance.MissingGivesZero | swift-ios-app/AMCMissionTracker/Services/DistanceCalculator.swift:16-23 | a code that is not in the list gives distance 0 in either position |
| SwiftDistance.CaseSensitive | swift-ios-app/AMCMissionTracker/Services/DistanceCalculator.swift:16-23 | "ktcm" does not find KTCM, so its distance is 0, while the exact code gives the converted CLLocation distance |
| Sorting.InsertPermutes | swift-ios-app/AMCMissionTracker/Services/DistanceCalculator.swift:35 | inserting adds exactly one element |
| Sorting.InsertSorted | swift-ios-app/AMCMissionTracker/Services/DistanceCalculator.swift:35 | inserting into a sorted list keeps it sorted under a strict weak order |
| Sorting.InsertionSortSpec | swift-ios-app/AMCMissionTracker/Services/DistanceCalculator.swift:35 | the sort returns a permutation of its input, sorted by the comparator |
| Sorting.StrLessTotal | swift-ios-app/AMCMissionTracker/Services/DistanceCalculator.swift:43 | Swift's string `<` is total: of two different strings one precedes the other |
| Sorting.StrLessTransitive | swift-ios-app/AMCMissionTracker/Services/DistanceCalculator.swift:43 | string `<` is transitive |
| Routes.MissingImageRefusedFirst | server/routes.ts:25-35 | a missing or empty image is refused with 400 before anything is decoded or processed |
| Routes.HeicRefusedBeforeProcessing | server/routes.ts:40-52 | a data URL naming HEIC is refused before the processor runs, whatever it would answer |
| Routes.ExtractFollowsProcessor | server/routes.ts:53-101 | otherwise the response carries the processor's result on success, OCR_ERROR exactly when the error mentions Tesseract, and status 200 exactly on success |
| Routes.GenerateAlternatives | server/routes.ts:200-217 | a character outside the confusion table is its own only alternative |
| Routes.AlternativesNonEmpty | server/routes.ts:200-217 | the list is never empty, and a mapped character has two or three alternatives, never itself |
| Routes.AlternativesSymmetric | server/routes.ts:200-217 | among mapped characters, b is an alternative of a exactly when a is an alternative of b |
| Routes.BuildMappings | server/routes.ts:134-173 | the loop over the text, counting the spaces it passes as the word index, builds exactly the mapping list of the specification function |
| Routes.MappingConfidence | server/routes.ts:149-169 | a feedback mapping has confidence 0.9; a detailed mapping has at least 0.3, no less than the scan confidence over 100 minus 0.1, and below that value plus 0.1 unless it is the 0.3 floor |
| Routes.MappingsSpec | server/routes.ts:134-173 | each mapping names a non-whitespace character at its own column, on the row of its space-separated word in the detailed text and row 0 in the feedback text, with confidence 0.9 for feedback and at least 0.3 for detail; columns strictly increase, rows never decrease, and every non-whitespace character has one |
| Routes.MappingsRowsGrow | server/routes.ts:138-146 | the rows (y / 20) of the mappings never decrease along the list |
| Routes.LowConfidenceGivesFeedback | server/routes.ts:158-182 | at confidence 30 or below the feedback text is used (the low-quality text below 30, the no-data text at 30), each character is its own only alternative on row 0 with confidence 0.9, and a zero confidence is reported as 75 |
| Routes.HighConfidenceGivesDetail | server/routes.ts:130-156 | with legs and confidence above 30 the text describes the first leg, the confidence is passed on, and every mapping carries the confusion-table alternatives and a confidence of at least 0.3 and at least the scan confidence over 100 minus 0.1 |
| Routes.AttachDistanceSpec | server/routes.ts:361-398 | the distance becomes the rounded lookup exactly when both codes are given, the airport query succeeds and both airports are found; otherwise the submitted distance stays and the codes never change |
| Routes.PatchDistanceSpec | server/routes.ts:657-715 | a patch recomputes the distance only when it carries a code and the leg exists, taking each side from the patch or else the stored leg; the rounded distance replaces the submitted one exactly when both sides are non-empty, the airport query answers and both codes are found, otherwise the submitted distance stays; the codes are never altered |
| Routes.ArrivalOnlyPatch | server/routes.ts:667-693 | a patch carrying only the arrival code measures from the stored departure |
| Routes.DeleteMissionGate | server/routes.ts:302-325 | a NaN or out-of-range id is refused with 400 before storage is asked, and 204 means an in-range id whose row was removed |
| Routes.ScanRouteGate | server/routes.ts:736-781 | only data passing validateAMCData is accepted, every processed result passing it is accepted, and a failing one gets 400 |
| Routes.ScanRouteAcceptsRepairedReplies | server/routes.ts:736-781 | with the real processor any non-empty repaired reply is accepted, whatever the sniffed image type |
| FieldCipher.AesRoundTrip | server/encryption.ts:64-67 | deciphering under the key and IV used to encipher gives the plaintext back |
| FieldCipher.GetEncryptionKeySpec | server/encryption.ts:25-38 | an unset key fails; with a salt the key is PBKDF2 of the base key with 10000 iterations and 32 bytes; without one it is the base key's first 32 bytes |
| FieldCipher.FillContextKey | server/encryption.ts:50-56 | the loop fills a 32-byte buffer equal to the XOR fold of the base key with the context hash |
| FieldCipher.XorFoldInvolution | server/encryption.ts:52-54 | folding twice with the same hash gives back the base key's first 32 bytes, zero-padded |
| FieldCipher.DeriveKeySpec | server/encryption.ts:45-57 | the context key fails only when the base key is unset, ignores the salt, and has byte i equal to base[i] XOR SHA-256(context)[i] |
| FieldCipher.LegacyRoundTrip | server/encryption.ts:79-127 | legacy encryption records its salt, so decryption without metadata inverts it |
| FieldCipher.DocumentRoundTrip | server/encryption.ts:130-160 | document decryption inverts document encryption |
| FieldCipher.SensitivePayloadShape | server/encryption.ts:60-76 | the payload has version "2.0", algorithm aes-256-cbc, an empty tag, the fresh IV and no salt, is enciphered under the base key, ignores metadata, and succeeds exactly when the base key has at least 32 bytes |
| FieldCipher.FieldNullHandling | server/encryption.ts:172-199 | null and the empty string encrypt to null, and null or non-payload text decrypts to null |
| FieldCipher.SensitivePayloadNeverDecrypts | server/encryption.ts:98-115 | every payload encryptSensitiveData produces fails to decrypt, with or without metadata, because it carries no salt |
| FieldCipher.ValidateEncryptionSetupAlwaysFails | server/encryption.ts:201-212 | the self-test fails for every key |
| FieldCipher.FieldRoundTripFails | server/encryption.ts:172-199 | every non-empty field encrypts to a payload that decrypts to null |
| FieldCipher.SaltedRoundTrip | server/encryption.ts:60-115 | once a salt is recorded, decryption with the same metadata or none inverts encryption whenever the key is set |
| FieldCipher.SaltedFieldRoundTrip | server/encryption.ts:172-199 | with the salted encryption every non-empty field decrypts back to itself |
| FieldCipher.SaltedSelfTest | server/encryption.ts:201-212 | with the salted encryption the self-test passes exactly when the key is set |
| SecurityLog.Logged | client/src/lib/security.ts:213-230 | unshifting an event and keeping the first 1000 never lets the log grow past 1000 |
| SecurityLog.ClassificationSpec | client/src/lib/security.ts:241-266 | more high or medium events never raise the security level; the level is low exactly when the threat level is high or critical, and high exactly when the threat is minimal with at most five medium events |
| SecurityLog.RecentCountsSpec | client/src/lib/security.ts:234-239 | the recent events are the log's events newer than one day, in order, and the active-threat count never exceeds their number |
| SecurityLog.SeverityCountsBounded | client/src/lib/security.ts:238-239 | high plus medium events never outnumber the events |
| SecurityLog.ValidateInput | client/src/lib/security.ts:135-180 | the input is trimmed, sanitised and (for ICAO) upper-cased; it is valid exactly when its kind's pattern accepts it, and otherwise carries exactly that kind's one error message |
| SecurityLog.TimeMatchesSpec | client/src/lib/security.ts:167-171 | every accepted time denotes an hour below 24 and a minute below 60 |
| SecurityLog.TimeAcceptsClockTimes | client/src/lib/security.ts:167-171 | every clock time is accepted in two-digit form, and hours below ten also with one digit |
| SecurityLog.TimeExamples | client/src/lib/security.ts:167-171 | "23:59", "9:05" and "00:00" are accepted; "24:00", "9:5" and "12:60" are not |
| SecurityLog.SecurityManager.constructor | client/src/lib/security.ts:38-94 | initialisation logs the four session-start events (biometric probe, network monitoring, new session, framework initialised), newest first, and opens a valid session at the current time |
| SecurityLog.SecurityManager.LogSecurityEvent | client/src/lib/security.ts:213-230 | the event goes to the front of the log, which keeps its first 1000 entries; the session is untouched |
| SecurityLog.SecurityManager.ValidateSession | client/src/lib/security.ts:182-199 | a session is valid exactly when one exists and was active in the last 30 minutes; an expired one is marked invalid and a medium timeout event is logged, and nothing else changes |
| SecurityLog.SecurityManager.GetSecurityStatus | client/src/lib/security.ts:232-269 | the levels and threat count come from the events of the last day as they were before the session check, and the session flag is that check's answer; a timed-out session becomes invalid and a medium SESSION_TIMEOUT event is logged, and otherwise nothing changes |
| SecurityLog.SecurityManager.GetAuditLog | client/src/lib/security.ts:271-273 | hands out a new array holding the log |
| SecurityLog.SecurityManager.UpdateActivity | client/src/lib/security.ts:275-280 | the session's last activity becomes now, and the log is untouched |
| SecurityLog.SecurityManager.TriggerEmergencyWipe | client/src/lib/security.ts:282-318 | the wipe succeeds, drops the session, and leaves the log holding only the high-severity wipe event |
| SecurityLog.WipedStatus | client/src/lib/security.ts:232-318 | right after a wipe the status counts exactly one high event: security level high, threat level minimal |
| MissionTracking.CalculateRankIsFirstQualifying | client/src/lib/mission-tracker.ts:193-203 | the rank returned meets its mission and score thresholds, and no rank tried before it does |
| MissionTracking.CalculateRankMonotone | client/src/lib/mission-tracker.ts:193-203 | more missions or a higher score never give a lower rank; no missions gives Airman Basic and five or more at least Airman First Class |
| MissionTracking.AddIfEarnedSpec | client/src/lib/mission-tracker.ts:208-229 | adding to the achievement set keeps it free of duplicates and adds exactly the earned name |
| MissionTracking.AwardAchievementsSpec | client/src/lib/mission-tracker.ts:205-232 | the new achievement list has no duplicates and holds exactly the old achievements plus the ones now earned |
| MissionTracking.SumOverallBounds | client/src/lib/mission-tracker.ts:182 | a sum of scores lies between n times the lowest and n times the highest allowed score |
| MissionTracking.MeanScoreBounds | client/src/lib/mission-tracker.ts:181-184 | the rounded mean of scores in [0, 100] lies in [0, 100] |
| MissionTracking.UpdatedProfileSpec | client/src/lib/mission-tracker.ts:170-191 | the profile's mission count is the completed-log count, its average the rounded mean when there are scores (else unchanged), its rank the rank of those two, its achievements a duplicate-free superset, and its id, creation date and hours unchanged |
| MissionTracking.MissionTracker.constructor | client/src/lib/mission-tracker.ts:89-103 | a tracker with nothing stored has no logs or scores and a default profile named from storage or "Airman" |
| MissionTracking.MissionTracker.LogMissionEvent | client/src/lib/mission-tracker.ts:105-124 | the log goes first, stamped with the profile id or "unknown", and the list keeps its first 1000 entries; scores and profile are untouched |
| MissionTracking.MissionTracker.LogMissionEventWithData | client/src/lib/mission-tracker.ts:126-153 | as logMissionEvent, with the scan data attached |
| MissionTracking.MissionTracker.UpdateUserProfile | client/src/lib/mission-tracker.ts:170-191 | the profile becomes the updated profile of the current logs and scores; logs and scores are untouched |
| MissionTracking.MissionTracker.RecordFlightScore | client/src/lib/mission-tracker.ts:155-168 | the score, with the mean of the four parts as overall score, goes first, and the profile is brought up to date |
| MissionTracking.MissionTracker.UpdateMissionLog | client/src/lib/mission-tracker.ts:246-251 | an in-range index replaces that one log; any other index changes nothing |
| MissionTracking.MissionTracker.DeleteMissionLog | client/src/lib/mission-tracker.ts:253-259 | an in-range index removes that one log and updates the profile; any other index changes nothing |
| MissionTracking.MissionTracker.GetStatistics | client/src/lib/mission-tracker.ts:261-284 | totals count completed logs, recent counts and the recent mean cover the last 30 days, rank, average and achievements come from the profile with their defaults (no profile: "Airman Basic", 0 and no achievements), and the last mission is the newest log's time |
| MissionTracking.LogCompletedCounts | client/src/lib/mission-tracker.ts:105-124 | below the cap, logging a COMPLETED event raises the completed count by one and any other event leaves it |
| MissionStore.AircraftSetSpec | client/src/lib/mission-store.ts:72 | the unique-aircraft set holds exactly the truthy aircraft types of the missions, so it is never larger than the list |
| MissionStore.StatusCountsBounded | client/src/lib/mission-store.ts:69-71 | the in-progress, completed and planning counts together never exceed the number of missions |
| MissionStore.SumsAppend | client/src/lib/mission-store.ts:65-68 | each reduce over a list with one more mission adds that mission's own legs, pax, cargo and hours (missing hours as 0) |
| MissionStore.AddedMissionStats | client/src/lib/mission-store.ts:62-74 | appending a mission adds one to the count and its own legs, pax, cargo and hours to the totals |
| MissionStore.MergeSpec | client/src/lib/mission-store.ts:96-102 | an empty update changes nothing; for each of the twelve fields, the merged mission holds the update's value when the update names the field and the stored value otherwise |
| MissionStore.ConvertMissionSpec | client/src/lib/mission-store.ts:146-174 | the converted mission counts the API legs, sums their pax, cargo and hours with missing values as 0, keeps every leg in order, names a mission without a name "AMC-<id>", and has zero legs, pax and no aircraft when the legs are missing |
| MissionStore.Store.constructor | client/src/lib/mission-store.ts:76-89 | the store starts empty, with all-zero statistics, not loading |
| MissionStore.Store.SetMissions | client/src/lib/mission-store.ts:91-94 | the list is replaced and the statistics are recomputed from it |
| MissionStore.Store.UpdateMission | client/src/lib/mission-store.ts:96-102 | every mission with the id gets the update merged in; the others, the order and the length are kept, and the statistics follow |
| MissionStore.Store.AddMission | client/src/lib/mission-store.ts:104-108 | the mission is appended and the statistics follow |
| MissionStore.Store.DeleteMission | client/src/lib/mission-store.ts:110-127 | the answer is true exactly when the request succeeded; then the missions with that id are dropped, and otherwise nothing changes |
| MissionStore.Store.SetLoading | client/src/lib/mission-store.ts:129 | only the loading flag changes |
| MissionStore.Store.CalculateStats | client/src/lib/mission-store.ts:131-135 | the statistics are recomputed from the list, which is kept |
| MissionStore.Store.FetchMissions | client/src/lib/mission-store.ts:137-187 | a reply replaces the list with the conversion of each API mission, in order; a failure empties it; loading ends either way and the statistics follow |
| MissionStore.DeleteKeepsOthers | client/src/lib/mission-store.ts:117 | deleting keeps, in order, exactly the missions with other ids |
| NativeMissionService.IndexOfId | ios-native/src/services/MissionService.ts:35 | findIndex gives the first position holding the id, or -1 exactly when there is none |
| NativeMissionService.FindByIdSpec | ios-native/src/services/MissionService.ts:22-30 | find returns the mission at findIndex's position, and null when that is -1 |
| NativeMissionService.UpsertSpec | ios-native/src/services/MissionService.ts:32-48 | after saving, the mission is found by its id; the length grows only for a new id; missions with other ids keep their places |
| NativeMissionService.DeleteSpec | ios-native/src/services/MissionService.ts:50-59 | after deleting, no mission has the id, and every other mission is kept in order |
| NativeMissionService.LongestSpec | ios-native/src/services/MissionService.ts:108-112 | the longest flight is at least every truthy mission total and is 0 or one of them |
| NativeMissionService.CompletedBounded | ios-native/src/services/MissionService.ts:117-119 | the completed count never exceeds the number of missions |
| NativeMissionService.AverageSpec | ios-native/src/services/MissionService.ts:144 | the average times the completed count is the hours total, and the average is 0 with none completed |
| NativeMissionService.MostFrequentRouteSpec | ios-native/src/services/MissionService.ts:134-142 | the most frequent route is "None" exactly when no mission has legs, and otherwise a route of some leg that no other route outnumbers |
| NativeMissionService.MissionService.constructor | ios-native/src/services/MissionService.ts:9-20 | empty storage holds no missions and no statistics |
| NativeMissionService.MissionService.GetMission | ios-native/src/services/MissionService.ts:22-30 | the answer is a stored mission with that id, and null exactly when no stored mission has it |
| NativeMissionService.MissionService.SaveMission | ios-native/src/services/MissionService.ts:32-48 | replaces the mission with the same id in place, or appends a new one; statistics are untouched |
| NativeMissionService.MissionService.DeleteMission | ios-native/src/services/MissionService.ts:50-59 | drops every mission with the id; statistics are untouched |
| NativeMissionService.MissionService.GetStatistics | ios-native/src/services/MissionService.ts:61-92 | the stored statistics when there are some; with nothing stored, all seven numeric fields are zero and the route is "None" |
| NativeMissionService.MissionService.UpdateStatistics | ios-native/src/services/MissionService.ts:94-161 | the loops store exactly the statistics of the stored missions; the argument is not used and the missions are untouched |
| NativeMissionService.TallyLegs | ios-native/src/services/MissionService.ts:122-131 | the inner loop adds each leg's route to the frequency table and its truthy distance to the total |
| SwiftModels.RawValueRoundTrip | swift-ios-app/AMCMissionTracker/Models/Mission.swift:59-73 | decoding a status's raw value gives it back, distinct statuses have distinct raw values and colours, and any raw value that decodes is the raw value of what it decodes to |
| SwiftModels.AppendLegTotals | swift-ios-app/AMCMissionTracker/Models/Mission.swift:18-24 | a mission with one more leg has that leg's hours and distance added to its totals, and a mission without legs has zero totals |
| SwiftModels.TotalsBoundLegs | swift-ios-app/AMCMissionTracker/Models/Mission.swift:18-20 | with non-negative leg hours the total is non-negative and at least every leg's hours |
| SwiftModels.DefaultMission | swift-ios-app/AMCMissionTracker/Models/Mission.swift:32-56 | the default mission is a C-17A transport in planning, with no legs, pax or cargo, ending seven days after it starts |
| SwiftModels.DefaultLeg | swift-ios-app/AMCMissionTracker/Models/FlightLeg.swift:23-45 | the default leg is leg 1 of two hours, arriving two hours after departure, with no codes, distance, pax or cargo |
| SwiftModels.DurationSpec | swift-ios-app/AMCMissionTracker/Models/FlightLeg.swift:17-21 | for non-negative hours the text is the whole hours and the truncated minutes (0 to 59), each at least two digits |
| SwiftModels.DurationExamples | swift-ios-app/AMCMissionTracker/Models/FlightLeg.swift:17-21 | whole hours end in ":00", 8.5 hours reads "08:30" and the default leg "02:00" |
| RouteCounts.OccurrencesPositive | server/storage.ts:256-269 | a route has a positive count exactly when it occurs |
| RouteCounts.ScanSpec | server/storage.ts:256-269 | the entries scan keeps the largest count and the first key that reaches it, and the default when every count is 0 |
| RouteCounts.MostFrequentRouteSpec | ios-native/src/services/MissionService.ts:134-142 | the most frequent route is the default exactly when there are no routes, and otherwise a route no other route outnumbers, and the first to reach that count in insertion order |
| RouteCounts.Tally | ios-native/src/services/MissionService.ts:124-125 | counting one more route keeps the map in step with the routes seen, in first-insertion order |
| RouteCounts.PickMostFrequent | ios-native/src/services/MissionService.ts:134-142 | the entries loop picks exactly the most frequent route |
| Common.Round | server/routes.ts:387 | Math.round lands within half of its argument |
| Common.Trim | client/src/lib/security.ts:137 | trim drops exactly the leading and trailing ECMAScript whitespace |
| Common.PrependCappedSpec | client/src/lib/security.ts:222-227 | after unshift and slice the new entry comes first, the previous ones follow in order, and only entries beyond the cap fall off |
| Common.Dedup | client/src/lib/mission-tracker.ts:208 | a Set built from a list holds each element once and exactly the elements of the list |
| SwiftMissionService.FirstIndex | swift-ios-app/AMCMissionTracker/Services/MissionService.swift:41 | firstIndex gives the first position holding the id, and nothing exactly when no mission has it |
| SwiftMissionService.MaxHoursSpec | swift-ios-app/AMCMissionTracker/Services/MissionService.swift:84 | the maximum is 0 for no missions, at least every mission's total, and one of them otherwise |
| SwiftMissionService.CompletedCount | swift-ios-app/AMCMissionTracker/Services/MissionService.swift:73-75 | the completed count never exceeds the number of missions |
| SwiftMissionService.AppendedTotals | swift-ios-app/AMCMissionTracker/Services/MissionService.swift:57-75 | one more mission adds its own hours, pax and cargo to the totals and one to the completed count when it is completed |
| SwiftMissionService.SampleMissionTotals | swift-ios-app/AMCMissionTracker/Services/MissionService.swift:87-130 | the sample mission flies 12.7 hours over 5500 nautical miles in two connected legs and lasts five days |
| SwiftMissionService.MissionService.constructor | swift-ios-app/AMCMissionTracker/Services/MissionService.swift:11-27 | loading installs the decoded stored list, or the sample mission when nothing decodes, and ends not loading |
| SwiftMissionService.MissionService.AddMission | swift-ios-app/AMCMissionTracker/Services/MissionService.swift:35-38 | the mission is appended |
| SwiftMissionService.MissionService.UpdateMission | swift-ios-app/AMCMissionTracker/Services/MissionService.swift:40-45 | the first mission with the same id is replaced; without one nothing changes |
| SwiftMissionService.MissionService.DeleteMission | swift-ios-app/AMCMissionTracker/Services/MissionService.swift:47-50 | every mission with the id is removed |
| SwiftMissionService.MissionService.GetMission | swift-ios-app/AMCMissionTracker/Services/MissionService.swift:52-54 | a mission is found exactly when one has the id, and it is the first such |
| SwiftMissionService.MissionService.GetCompletedMissionsCount | swift-ios-app/AMCMissionTracker/Services/MissionService.swift:73-75 | the count never exceeds the number of missions |
| SwiftMissionService.MissionService.GetAverageFlightHours | swift-ios-app/AMCMissionTracker/Services/MissionService.swift:77-81 | the average times the number of missions (all of them, not only completed ones) is the hours total, and 0 with no missions |
| SwiftMissionService.MissionService.GetLongestFlightHours | swift-ios-app/AMCMissionTracker/Services/MissionService.swift:83-85 | the longest is at least every mission's total and one of them, and 0 with no missions |
| SwiftMissionService.DeleteSpec | swift-ios-app/AMCMissionTracker/Services/MissionService.swift:47-50 | deleting keeps, in order, exactly the missions with other ids |
| SwiftMissionService.UpdateThenGet | swift-ios-app/AMCMissionTracker/Services/MissionService.swift:40-54 | after updating a present id, the lookup finds the new mission at the same position |
| FlightLogEditor.SkipSpaces | client/src/components/flight-log-manager.tsx:162 | the whitespace run `\s*` starting at a position ends at the first non-whitespace character |
| FlightLogEditor.FirstMatch | client/src/components/flight-log-manager.tsx:162-163 | the leftmost match of the 12-hour pattern has a one- or two-digit hour, and there is none exactly when no position matches |
| FlightLogEditor.ConvertTo24Hour | client/src/components/flight-log-manager.tsx:159-176 | an empty time gives the empty string, and a time the pattern does not match is returned unchanged |
| FlightLogEditor.TimeInputChange | client/src/components/flight-log-manager.tsx:943-955 | the 12-hour text is empty exactly when the 24-hour input is |
| FlightLogEditor.Hour12RoundTrip | client/src/components/flight-log-manager.tsx:168-171 | the 12-hour face of an hour lies in 1 to 12, and reading it back with its period gives the hour |
| FlightLogEditor.Pad2OfTwoDigits | client/src/components/flight-log-manager.tsx:175 | padStart(2, '0') renders a two-digit hour back exactly |
| FlightLogEditor.MatchFormat12 | client/src/components/flight-log-manager.tsx:162-167 | the pattern matches a formatted 12-hour time with its own hour, minutes and period |
| FlightLogEditor.ConvertFormat12 | client/src/components/flight-log-manager.tsx:159-176 | converting a formatted 12-hour time gives the padded 24-hour hour and the same minutes |
| FlightLogEditor.TimeInputRoundTrip | client/src/components/flight-log-manager.tsx:943-955 | a 24-hour time shown in 12-hour form converts back to itself |
| FlightLogEditor.ClockMinutes | client/src/components/flight-log-manager.tsx:187-188 | a time Date accepts is at most 24 hours into the day |
| FlightLogEditor.ElapsedSpec | client/src/components/flight-log-manager.tsx:190-196 | the elapsed hours lie in [0, 24], equal the forward clock distance divided by 60 when the arrival is before 24:00, and are 0 for equal times |
| FlightLogEditor.CalculateFlightHoursSpec | client/src/components/flight-log-manager.tsx:178-197 | an empty time gives 0; otherwise the result is NaN exactly when a converted time is not a clock time, and is the forward distance from departure to arrival around a 24-hour clock |
| FlightLogEditor.TenPm | client/src/components/flight-log-manager.tsx:159-176 | "10:00 PM" converts to "22:00" |
| FlightLogEditor.TwoAm | client/src/components/flight-log-manager.tsx:159-176 | "2:00 AM" converts to "02:00" |
| FlightLogEditor.MilitaryUnconverted | client/src/components/flight-log-manager.tsx:159-176 | "1720" has no period and is returned unchanged |
| FlightLogEditor.ClockExamples | client/src/components/flight-log-manager.tsx:187-188 | "22:00" is 1320 minutes, "02:00" is 120, and "1720" is not a time |
| FlightLogEditor.CrossMidnightExample | client/src/components/flight-log-manager.tsx:178-197 | a flight from 10:00 PM to 2:00 AM lasts four hours, and a military "1720" gives NaN |
| FlightLogEditor.SplitMilitary | client/src/components/flight-log-manager.tsx:468-472 | a military input splits into one or two hour digits and the minutes |
| FlightLogEditor.NoPeriodInDigits | client/src/components/flight-log-manager.tsx:463-465 | text made of digits and colons never contains AM or PM |
| FlightLogEditor.SplitMilitaryChars | client/src/components/flight-log-manager.tsx:468-469 | an input the military patterns accept is made of digits and colons |
| FlightLogEditor.MilitaryRoundTrip | client/src/components/flight-log-manager.tsx:456-484 | a military input with hours 00 to 23, once completed, converts back to those hours and minutes |
| FlightLogEditor.ParseTwentyFive | client/src/components/flight-log-manager.tsx:471-483 | the input "25" is completed as "13:00 PM" |
| FlightLogEditor.ConvertThirteenPm | client/src/components/flight-log-manager.tsx:159-176 | "13:00 PM" converts to "25:00" |
| FlightLogEditor.LateHourNotRejected | client/src/components/flight-log-manager.tsx:456-484 | an hour past 23 is not rejected: "25" ends up as "25:00" |
| FlightLogEditor.LateHourIsNaN | client/src/components/flight-log-manager.tsx:178-197 | a flight time from "25" is NaN |
| FlightLogEditor.Renumbered | client/src/components/flight-log-manager.tsx:323-324 | renumbering keeps every leg and its position and numbers the legs 1, 2, ... in order |
| FlightLogEditor.RenumberedNumbered | client/src/components/flight-log-manager.tsx:323-324 | renumbering a list already numbered changes nothing |
| FlightLogEditor.RemovedLegSpec | client/src/components/flight-log-manager.tsx:313-342 | after a removal the legs are numbered in order, none has the removed id, and exactly the others are kept in order |
| FlightLogEditor.AddThenRemove | client/src/components/flight-log-manager.tsx:224-342 | adding a leg with a new id and then removing it gives the numbered list back |
| FlightLogEditor.UpdatedAt | client/src/components/flight-log-manager.tsx:366-375 | updating a field of one crew record sets that field and leaves every other field and record as it was |
| FlightLogEditor.RemovedAt | client/src/components/flight-log-manager.tsx:377-385 | removing an in-range index drops that one record and keeps the others in order; any other index changes nothing |
| FlightLogEditor.AddThenRemoveMember | client/src/components/flight-log-manager.tsx:346-385 | removing the record just appended gives the roster back |
| FlightLogEditor.FlightLogManager.constructor | client/src/components/flight-log-manager.tsx:95-117 | the editor starts with the given legs and crew, an empty form and no add in progress |
| FlightLogEditor.FlightLogManager.HandleAddLeg | client/src/components/flight-log-manager.tsx:224-311 | a request is sent exactly when the departure, arrival and times are filled in; when the server answers, the saved leg is appended with the next number and the form is reset; otherwise nothing changes |
| FlightLogEditor.FlightLogManager.HandleRemoveLeg | client/src/components/flight-log-manager.tsx:313-342 | after a successful delete the list is the renumbered list without that leg; otherwise nothing changes |
| FlightLogEditor.FlightLogManager.AddFccMember | client/src/components/flight-log-manager.tsx:346-364 | with a crew callback, a blank FCC record is appended to the current crew; without one nothing changes |
| FlightLogEditor.FlightLogManager.UpdateFccMember | client/src/components/flight-log-manager.tsx:366-375 | with a crew callback, one field of one FCC record changes; without one nothing changes |
| FlightLogEditor.FlightLogManager.RemoveFccMember | client/src/components/flight-log-manager.tsx:377-385 | with a crew callback, the FCC record at the index is removed; without one nothing changes |
| FlightLogEditor.FlightLogManager.AddMaintenancePersonnel | client/src/components/flight-log-manager.tsx:387-405 | with a crew callback, a blank maintenance record is appended; without one nothing changes |
| FlightLogEditor.FlightLogManager.UpdateMaintenancePersonnel | client/src/components/flight-log-manager.tsx:407-416 | with a crew callback, one field of one maintenance record changes; without one nothing changes |
| FlightLogEditor.FlightLogManager.RemoveMaintenancePersonnel | client/src/components/flight-log-manager.tsx:418-426 | with a crew callback, the maintenance record at the index is removed; without one nothing changes |
| FlightLogEditor.FlightLogManager.UpdateAircraftCommander | client/src/components/flight-log-manager.tsx:428-438 | with a crew callback, one commander field changes; without one nothing changes |
| FlightLogEditor.AddKeepsNumbered | client/src/components/flight-log-manager.tsx:264-279 | appending a saved leg with the next number keeps the list numbered |
| ServerStorage.LongestSpec | server/storage.ts:275 | the longest flight is at least 0, at least every leg's hours (a missing value counted as 0), and is either 0 or some leg's hours |
| ServerStorage.FirstProfile | server/storage.ts:219-222 | the profile found belongs to the user; none is found only when no row has the user's id |
| ServerStorage.StatisticsTotalsSpec | server/storage.ts:238-287 | without a profile every statistic is zero and the route is ""; with one, average times leg count is the total hours (both 0 without legs), and the longest flight bounds every leg |
| ServerStorage.StatisticsRouteSpec | server/storage.ts:255-269 | with a profile, the most frequent route is "" exactly when there are no legs; otherwise it is some leg's "DEP-ARR" route that no route outnumbers |
| ServerStorage.ApplyLegFirst | server/storage.ts:229-236 | updating the user's profile rows with the leg's totals makes the user's profile the old totals plus the leg's values and leaves every other user's profile as it was |
| ServerStorage.ProfileTableSpec | server/storage.ts:290-301 | after the create-if-missing step the user's profile is the existing one, or a zeroed one, and every other user's profile is unchanged |
| ServerStorage.ProfilesAfterLegSpec | server/storage.ts:289-310 | after a leg the user's profile holds the previous totals (0 when there was none) plus the leg's hours, distance, cargo and passengers |
| ServerStorage.ProfilesAfterLegOthers | server/storage.ts:289-310 | adding a leg to one user's totals leaves every other user's profile as it was |
| ServerStorage.FirstVisitIndex | server/storage.ts:334-335 | the row found is a visit row of that user and airport; none is found only when no such row exists |
| ServerStorage.VisitsAfterCount | server/storage.ts:333-360 | one visit adds exactly one to the user's visit count at that airport, whether a row existed (increment) or not (insert with count 1) |
| ServerStorage.VisitsAfterOthers | server/storage.ts:333-360 | one visit leaves the visit count of every other (user, airport) pair unchanged |
| ServerStorage.VisitsAfterIds | server/storage.ts:349-358 | the visit table's ids stay unique and below the next serial value |
| ServerStorage.VisitCountStep | server/storage.ts:333-360 | one visit to an airport adds one to that airport's count for the user and nothing to any other airport's |
| ServerStorage.FirstMission | server/storage.ts:93-96 | a mission is found exactly when some row has the id, and the row found has it |
| ServerStorage.FirstMissionOfExtended | server/storage.ts:154-173 | after the extension the mission with the id is the old one with the new end date, the reason, the history with one entry appended and the update time |
| ServerStorage.ExtendSpec | server/storage.ts:158-172 | the extended mission has the new end date and the reason; its history is the old one (empty when missing) plus one entry from the old to the new date, typed extension exactly when the new date is after the old one (or after now when there was none) |
| ServerStorage.DeleteRemovesIff | server/storage.ts:144-147 | the delete removes some mission row exactly when one has the id |
| ServerStorage.DatabaseStorage.constructor | server/storage.ts:69 | a storage starts with empty tables and valid serial ids |
| ServerStorage.DatabaseStorage.GetFlightStatistics | server/storage.ts:238-287 | the statistics returned are those of the user's profile and all legs; the route loop is proved against the route-count specification |
| ServerStorage.DatabaseStorage.UpdateFlightStatistics | server/storage.ts:289-310 | the profile table becomes the one where the user's totals gain the leg's values (creating a zeroed profile first if needed); the other tables are untouched |
| ServerStorage.DatabaseStorage.UpdateAirportVisit | server/storage.ts:333-360 | the visit table gains one visit for (user, airport): the first matching row is advanced by the visit's data, or a row with count 1 and a fresh id is inserted; the other tables are untouched |
| ServerStorage.DatabaseStorage.CreateFlightLeg | server/storage.ts:185-202 | the leg is appended with a fresh id and returned; the visit table is the result of a 'system' visit to the departure and then to the arrival, each carrying the leg's hours, cargo and passengers with `\|\| 0`; the 'system' count of each airport grows by one per time it is named and other users' counts stay |
| ServerStorage.LegVisitCounts | server/storage.ts:188-199 | two 'system' visits change the 'system' counts by one per named airport and leave every other user's counts as they were |
| ServerStorage.DatabaseStorage.DeleteMission | server/storage.ts:136-152 | the mission's legs and rows are removed, nothing else changes, and the answer is true exactly when a mission had the id |
| ServerStorage.DatabaseStorage.ExtendMission | server/storage.ts:154-173 | an unknown id gives undefined and changes nothing; otherwise the mission row is extended and returned |

## Left out

External calls and the environment:
- The OpenAI vision call is the parameter `ask` or `process`: its prompt, its network behaviour and its timeouts are outside the model.
- AES-256-CBC (section 6.2 of NIST SP 800-38A) is symbolic: a ciphertext records its key, IV and plaintext. PBKDF2 (section 5.2 of RFC 8018), SHA-256 and `randomBytes` are parameters, so no property of those primitives is claimed.
- Base64 and data-URL decoding are a parameter of the extract route.
- The scan route's `Math.random()` draw is a parameter: one value in [-0.1, 0.1) per mapped column. The mappings' fixed width 8 and height 16 are not fields; x and y are kept as the column and the row they are multiples of.
- Browser storage, AsyncStorage and UserDefaults are fields or initialiser arguments. Writing them back, and failures while writing, are not modelled.
- Toasts, window events and console logging are left out, because they change no modelled state.
- `fetch` in the mission store is modelled by its outcome: a decoded reply (or none) and a deleted flag.
- Ids, clocks (`Date.now()`, `new Date()`) and the stored user name are parameters.

Parts of the source files not in the core:
- `DELETE /api/missions/reset` (server/routes.ts:458-478) is not modelled. `DELETE /api/missions/:id` is registered first, takes the request, and refuses the id "reset" with 400, which is what Routes.DeleteMissionGate states for a NaN id. Routes outside the core are not modelled either.
- `encryptData`, `decryptData`, `hashSensitiveInfo`, `generateSecureToken` and `getSessionInfo` in client/src/lib/security.ts are left out. They wrap browser crypto or report session fields that no core operation reads.
- The WebAuthn probe of `SecurityManager.initialize` is the boolean `hasWebAuthn`.
- The 10-second `setInterval` that `startSessionMonitoring` starts (client/src/lib/security.ts:62-67) is not modelled as a timer. Each tick's `validateSession` is the method `SecurityLog.SecurityManager.ValidateSession`, which a caller may invoke at any time.
- `detectDevtools` (client/src/lib/security.ts:201-211) is left out. It compares window sizes, which the model does not have, and logs a medium `VALIDATION_FAILURE` event when the difference exceeds 160 pixels.
- Locale date formatting and the UI components, apart from the flight-log editor's handlers, are left out.

Numbers and text:
- The haversine formula is the parameter `CentralAngle`. The models prove what is done with its value: the radius, the rounding and the miss cases.
- JavaScript and Swift `Double` are Dafny `real`. Rounding error, infinities and NaN are not modelled. The one exception is `calculateFlightHours`, where NaN is the `None` of its result. That None is sent as null, comes back as the saved row's null `flightHours`, and is copied into the listed leg.
- Case mapping is ASCII only: `toUpperCase`, `toLowerCase` and Swift's `lowercased()` on other letters are not modelled.
- Routes.Mappings: a string is a sequence of Unicode scalars, while `split('')` yields UTF-16 code units, so a character outside the Basic Multilingual Plane (an emoji, say) gets one mapping here and two in the route.
- SwiftDistance.FuzzySearchAirports: Swift's `sorted(by:)` is not stable. The model sorts by an insertion sort and proves only what every correct sort gives: a permutation ordered by score. `maxResults` is a natural number, because Swift traps on a negative prefix length.
- SwiftModels: `Int(Double)` conversion traps on values out of range. The model truncates without a bound.
- SwiftModels.DefaultMission: dates are seconds since an epoch, and `Calendar.date(byAdding: .day, value: 7, …)` is plain addition of seven 86400-second days. Daylight-saving changes, calendar rules and the `?? Date()` fallback for a failed calendar computation are not modelled.
- FlightLogEditor.ClockMinutes accepts only the bare "HH:mm" form (hours 00-24, "24:00" as end of day) that the editor builds. Longer date-time strings are not modelled.
- FlightLogEditor.ParseTimeInput uppercases ASCII only.

Validation:
- SecurityLog.ValidateInput: the sanitiser (the script, `javascript:` and `on…=` stripping) is the parameter `sanitize`, and number parsing is the parameter `parses`. The contract states the result in terms of them.
- MissionTracking.MissionTracker.LogMissionEvent: the optional `data` argument is not modelled, and the log's data is always None. No caller in the source passes it; scan data goes through LogMissionEventWithData.
- Routes: the HEIC test on `/api/extract` is modelled as the source's `includes` on the data-URL text, not as a test of the image bytes.

Nulls and decoding:
- MissionStore.Store.FetchMissions: a `null` leg inside a fetched mission is not modelled. Legs are records.
- SwiftMissionService: decoding stored JSON is the `stored` argument. UUIDs are integers.

The flight-log editor:
- FlightLogEditor.FlightLogManager.UpdateFccMember requires the index to be inside the list. The source would write past the end of a JavaScript array and leave holes, which the model does not represent.
- FlightLogEditor.FlightLogManager.UpdateMaintenancePersonnel requires the index to be inside the list, for the same reason.
- Crew records are maps from field name to value, so `{...member, [field]: value}` is a map update.

Server storage:
- Each table is a sequence of rows. A query without `ORDER BY` is taken to return rows in table order.
- One serial counter `nextId` stands for every serial column.
- One call's `new Date()` values are a single `now`.
- `updatedAt` is set only where a modelled contract reads it (mission extension). On profiles and visits it is not modelled.
- The argument limit of `Math.max(...hours, 0)` on very large tables is not modelled.

Mission statistics:
- SwiftMissionService.MissionService.GetAverageFlightHours divides by the number of all missions, as the source does, not by the number of missions with legs.

Behaviour kept as written (not a defect with a clear intended fix):
- FlightLogEditor.ParseTimeInput completes hours 24-99 as well: "25" becomes "13:00 PM", which `convertTo24Hour` turns into "25:00" (FlightLogEditor.LateHourNotRejected). The same text typed without completion gives a NaN flight time (FlightLogEditor.LateHourIsNaN).

## Findings

| source | as written | input that shows it | evidently intended | confidence | as-written member | corrected member |
|---|---|---|---|---|---|---|
| server/encryption.ts:60-76, 98-115 | `encryptSensitiveData` returns a versioned payload with no `salt` field. `decryptSensitiveData` then reads `salt!`, gets `undefined`, and fails. This breaks `encryptField`/`decryptField` and the start-up self-test. | any data, with `ENCRYPTION_KEY` set, e.g. the self-test string | the salt used to derive the key is recorded in the payload, so decryption inverts encryption | not executed | FieldCipher.SensitivePayloadNeverDecrypts, FieldCipher.ValidateEncryptionSetupAlwaysFails, FieldCipher.FieldRoundTripFails | FieldCipher.EncryptSensitiveDataSalted, FieldCipher.SaltedRoundTrip, FieldCipher.SaltedFieldRoundTrip, FieldCipher.SaltedSelfTest |
