# Vitals-threshold checker, modelled in Dafny

This project models the vitals checker of `checker.cpp`. The checker classifies a
temperature, a pulse rate and an SpO2 reading against a static table of limits. Each
reading gets the status Ok, Warning or Critical. For every reading that is not Ok, the
checker prints one message in the active language (English or German).

The model is one module, `Checker` (`checker.dfy`):

- The two static tables are Dafny constants: `VitalsInfo` (limits, tolerance and the
  two message keys of each vital) and `Translations` (language to message key to
  text). Readings and limits are `real`.
- The pure parts are functions: the range test `IsOutOfRange`, the tolerance band
  (`Band`, `LowerThreshold`, `UpperThreshold`, `IsApproachingWarning`), the status
  `StatusOf`, the printed lines `Emitted`, and `Translate`.
- The process state is the class `Monitor`. Its fields are the two tables (as `const`
  fields, which the code never changes), the active language `currentLanguage` and
  `output`, the sequence of lines printed so far. `SetLanguage`, `CheckVital` and
  `VitalsOk` are methods. `SetLanguage` changes only the active language.
  `CheckVital` and `VitalsOk` state their result and the lines they append in terms
  of the pure functions `StatusOf`, `Emitted`, `AllOk` and `Report`.

The main result concerns the tolerance band. For any entry with
`lowerLimit <= upperLimit` and a tolerance between 0 and 100, both thresholds lie
inside the limits. A value that passes the band test is therefore never out of range,
so `checkVital` never returns Warning. A reading is Ok exactly when it is inside its
limits, limits included. Outside them it is Critical and prints the critical message.

The code and its tests disagree in three places, and the model follows the code. The
test driver asserts `!vitalsOk(95.015, 70, 98)`, `!vitalsOk(100.485, 70, 98)` and
`!vitalsOk(98.1, 99.4, 98)` (checker.cpp:122, 123, 128). All three readings are inside
their limits, so the code returns true. `DriverCasesContradicted` proves this. For the
same reason, 95.015, 100.485 and 99.4 classify as Ok rather than Warning, and SpO2 75
classifies as Critical rather than Warning.

Translation looks up a key in the active language's catalog and returns the key itself
when it is missing. The English catalog maps every key to itself, so the fallback is
the English text for those keys. The language set is closed (English, German), and
both are in the catalog.

## Model

| member | source | states |
|---|---|---|
| `Checker.ConfiguredTables` | checker.cpp:31-58 | every vital has an entry with lower < upper and tolerance 1.5; every message key that `checkVital` looks up is present for every language |
| `Checker.CatalogsShareKeys` | checker.cpp:38-56 | the English and German catalogs have the same key set |
| `Checker.IsOutOfRange` | checker.cpp:69-71 | out of range iff the value is not in the inclusive interval [lower, upper] |
| `Checker.ThresholdsWithinLimits` | checker.cpp:73-77 | for lower <= upper and 0 <= tolerance <= 100, both band thresholds lie inside [lower, upper] |
| `Checker.ApproachingIsInRange` | checker.cpp:73-77 | for such an entry, a value that passes the band test is not out of range |
| `Checker.OkIffInRange` | checker.cpp:79-91 | the status is Ok iff lower <= value <= upper, and Ok iff nothing is printed |
| `Checker.NeverWarning` | checker.cpp:79-92 | for such an entry, the classifier never returns Warning |
| `Checker.CriticalOutsideRange` | checker.cpp:81-89 | a value strictly outside the limits is Critical and prints exactly the critical message of the active catalog |
| `Checker.ConfiguredNeverWarning` | checker.cpp:79-92 | with the configured table every vital is Ok or Critical, and Critical exactly when out of range |
| `Checker.FallbackIsEnglish` | checker.cpp:98-105 | a message missing from the active language's catalog translates to its English translation |
| `Checker.EmittedIsTranslation` | checker.cpp:79-92 | the line `checkVital` prints for a Critical (or Warning) status is the translation, in the active language, of the vital's critical (or warning) message key |
| `Checker.EnglishIsIdentity` | checker.cpp:39-47 | under English, translation returns every string unchanged |
| `Checker.GermanAllTestsPassed` | checker.cpp:55 | under German, "All tests passed." translates to "Alle Tests bestanden." |
| `Checker.AllOkIffInRange` | checker.cpp:107-113 | with the configured table, the aggregate is true iff temperature is in [95, 102], pulse in [60, 100] and SpO2 in [90, 100] |
| `Checker.ReportLines` | checker.cpp:107-113 | the aggregate prints one critical line per out-of-range reading, in the order temperature, pulse rate, SpO2, and prints nothing iff it returns true |
| `Checker.DriverCasesThatHold` | checker.cpp:119-141 | the outcomes of the test driver's assertions that the code satisfies |
| `Checker.DriverCasesContradicted` | checker.cpp:122-132 | readings 95.015, 100.485 and pulse 99.4 give true, although the driver asserts false; SpO2 75 is Critical |
| `Checker.GermanCombinationReport` | checker.cpp:137 | under German, readings (94, 101, 75) fail and print the three German critical lines in vital order |
| `Checker.Monitor.constructor` | checker.cpp:19-58 | starts with English, no output, and the configured tables |
| `Checker.Monitor.SetLanguage` | checker.cpp:94-96 | sets only the active language; the output is unchanged |
| `Checker.Monitor.CheckVital` | checker.cpp:79-92 | returns the status of the value against the vital's entry and appends exactly its lines in the active language; the language is unchanged |
| `Checker.Monitor.VitalsOk` | checker.cpp:107-113 | returns true iff all three checks are Ok; runs all three checks without short-circuit and appends their lines in order |
| `Checker.GermanSession` | checker.cpp:117-143 | after switching to German, a failing check prints German lines in vital order, and translation uses the German catalog |

## Left out

- `simulateBlinkingEffect` (checker.cpp:60-67) is not modelled. It is a terminal animation built on `sleep` and `cout`, and nothing calls it.
- `main` (checker.cpp:115-144) is not modelled as a program. Its values appear only in `DriverCasesThatHold`, `DriverCasesContradicted`, `GermanCombinationReport` and `GermanSession`.
- Console output is modelled as appending lines to `Monitor.output`. Stream flushing and formatting are not modelled.
- The model uses exact `real` arithmetic instead of IEEE `float`, including for `tolerance / 100.0`. The ordering facts it proves hold exactly over the reals. Rounding at the limits is not modelled.
- NaN readings are not modelled, because `real` has no NaN. In the C++ code both comparisons at checker.cpp:70 are false for NaN, so a NaN reading is classified Ok and prints nothing, and `vitalsOk(NaN, NaN, NaN)` returns true. Infinities compare like values beyond every limit, so they are Critical, as any real reading beyond the limits is in the model.
- OkIffInRange: holds for real readings only. For a NaN reading the program returns Ok although NaN is not within the limits.
- AllOkIffInRange: holds for real readings only. For NaN readings the program returns true although they are not within the limits.
- `std::map::operator[]` inserts a default entry when a key is missing. The model does not capture that. Instead, `Monitor.Valid()` requires that every lookup `checkVital` makes succeeds, and `ConfiguredTables` proves this for the configured tables.
- A short-circuiting aggregate (stop at the first failing vital) is not modelled, because this code always runs all three checks.
