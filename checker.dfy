/**
 * The vitals-threshold checker: a static table of limits per vital sign,
 * a two-language message catalog, the range test, the tolerance band,
 * the per-vital classifier and the three-vital aggregate.
 *
 * Readings and limits are `real` (checker.cpp uses `float`); the console is
 * modelled as the sequence of lines a `Monitor` has printed so far.
 */
module Checker {

  datatype VitalType = Temperature | PulseRate | Spo2

  datatype VitalStatus = Ok | Critical | Warning

  datatype Language = English | German

  /** Limits, tolerance (in percent) and the two message keys of one vital. */
  datatype VitalInfo = VitalInfo(
    lowerLimit: real,
    upperLimit: real,
    tolerance: real,
    criticalMessage: string,
    warningMessage: string)

  const VitalsInfo: map<VitalType, VitalInfo> := map[
    Temperature := VitalInfo(95.0, 102.0, 1.5,
      "Temperature critical!", "Warning: Approaching hypothermia or hyperthermia!"),
    PulseRate := VitalInfo(60.0, 100.0, 1.5,
      "Pulse Rate is out of range!", "Warning: Approaching abnormal pulse rate!"),
    Spo2 := VitalInfo(90.0, 100.0, 1.5,
      "Oxygen Saturation out of range!", "Warning: Approaching low oxygen saturation!")
  ]

  /** Language -> message key -> localized text. */
  const Translations: map<Language, map<string, string>> := map[
    English := map[
      "Temperature critical!" := "Temperature critical!",
      "Pulse Rate is out of range!" := "Pulse Rate is out of range!",
      "Oxygen Saturation out of range!" := "Oxygen Saturation out of range!",
      "Warning: Approaching hypothermia or hyperthermia!" := "Warning: Approaching hypothermia or hyperthermia!",
      "Warning: Approaching abnormal pulse rate!" := "Warning: Approaching abnormal pulse rate!",
      "Warning: Approaching low oxygen saturation!" := "Warning: Approaching low oxygen saturation!",
      "All tests passed." := "All tests passed."
    ],
    German := map[
      "Temperature critical!" := "Temperatur kritisch!",
      "Pulse Rate is out of range!" := "Pulsrate ist außerhalb des Bereichs!",
      "Oxygen Saturation out of range!" := "Sauerstoffsättigung außerhalb des Bereichs!",
      "Warning: Approaching hypothermia or hyperthermia!" := "Warnung: Annäherung an Unterkühlung oder Hyperthermie!",
      "Warning: Approaching abnormal pulse rate!" := "Warnung: Annäherung an abnormale Pulsrate!",
      "Warning: Approaching low oxygen saturation!" := "Warnung: Annäherung an niedrige Sauerstoffsättigung!",
      "All tests passed." := "Alle Tests bestanden."
    ]
  ]


  // ---------------------------------------------------------------------------
  // Configuration
  // ---------------------------------------------------------------------------

  /** A sensible table entry: a non-empty range and a tolerance between 0 and 100 percent. */
  predicate WellFormed(info: VitalInfo)
  {
    info.lowerLimit <= info.upperLimit && 0.0 <= info.tolerance <= 100.0
  }

  /** Both message keys of `info` are keys of `catalog` (one language's translations). */
  predicate HasMessages(info: VitalInfo, catalog: map<string, string>)
  {
    info.criticalMessage in catalog && info.warningMessage in catalog
  }

  /** Every vital has an entry in `table`. */
  predicate Covers(table: map<VitalType, VitalInfo>)
  {
    forall vital: VitalType :: vital in table
  }

  /** Every vital has an entry, and both its message keys are in `catalog`. */
  predicate Speaks(table: map<VitalType, VitalInfo>, catalog: map<string, string>)
  {
    Covers(table) && forall vital: VitalType :: HasMessages(table[vital], catalog)
  }

  /** Every lookup `checkVital` makes in the two tables succeeds, whatever the active language. */
  predicate Configured(table: map<VitalType, VitalInfo>, translations: map<Language, map<string, string>>)
  {
    && Covers(table)
    && (forall language: Language :: language in translations)
    && forall language: Language :: Speaks(table, translations[language])
  }

  /**
   * The configured tables: every lookup succeeds, every range is non-empty and
   * every tolerance is 1.5 percent.
   */
  lemma ConfiguredTables()
    ensures Configured(VitalsInfo, Translations)
    ensures Covers(VitalsInfo)
    ensures forall vital: VitalType ::
              && VitalsInfo[vital].lowerLimit < VitalsInfo[vital].upperLimit
              && VitalsInfo[vital].tolerance == 1.5
              && WellFormed(VitalsInfo[vital])
  {
    forall vital: VitalType ensures vital in VitalsInfo {
      assert vital == Temperature || vital == PulseRate || vital == Spo2;
    }
    forall language: Language ensures language in Translations {
      assert language == English || language == German;
    }
    forall language: Language ensures Speaks(VitalsInfo, Translations[language]) {
      assert language == English || language == German;
    }
  }

  /** Both catalogs translate exactly the same keys. */
  lemma CatalogsShareKeys()
    ensures English in Translations && German in Translations
    ensures Translations[English].Keys == Translations[German].Keys
  {
  }

  // ---------------------------------------------------------------------------
  // Range test and tolerance band
  // ---------------------------------------------------------------------------

  /** The limits themselves are in range. */
  predicate IsOutOfRange(value: real, info: VitalInfo)
    ensures IsOutOfRange(value, info) <==> !(info.lowerLimit <= value <= info.upperLimit)
  {
    value < info.lowerLimit || value > info.upperLimit
  }

  /** The distance by which each threshold sits inside its limit. */
  function Band(info: VitalInfo): real
  {
    (info.upperLimit - info.lowerLimit) * (1.0 - info.tolerance / 100.0)
  }

  function LowerThreshold(info: VitalInfo): real
  {
    info.lowerLimit + Band(info)
  }

  function UpperThreshold(info: VitalInfo): real
  {
    info.upperLimit - Band(info)
  }

  predicate IsApproachingWarning(value: real, info: VitalInfo)
  {
    value >= LowerThreshold(info) && value <= UpperThreshold(info)
  }

  /** For a well-formed entry both thresholds lie inside the limits. */
  lemma ThresholdsWithinLimits(info: VitalInfo)
    requires WellFormed(info)
    ensures info.lowerLimit <= LowerThreshold(info) <= info.upperLimit
    ensures info.lowerLimit <= UpperThreshold(info) <= info.upperLimit
  {
    var width := info.upperLimit - info.lowerLimit;
    var keep := 1.0 - info.tolerance / 100.0;
    assert 0.0 <= keep <= 1.0;
    assert Band(info) == width * keep;
    assert 0.0 <= width * keep <= width by {
      assert width - width * keep == width * (info.tolerance / 100.0);
    }
  }

  /** So a value in the tolerance band of a well-formed entry is never out of range. */
  lemma ApproachingIsInRange(value: real, info: VitalInfo)
    requires WellFormed(info)
    ensures IsApproachingWarning(value, info) ==> !IsOutOfRange(value, info)
  {
    ThresholdsWithinLimits(info);
  }

  // ---------------------------------------------------------------------------
  // Classification
  // ---------------------------------------------------------------------------

  /** The status `checkVital` decides for `value` against `info`. */
  function StatusOf(info: VitalInfo, value: real): VitalStatus
  {
    if IsOutOfRange(value, info) then
      if IsApproachingWarning(value, info) then Warning else Critical
    else Ok
  }

  /** The lines `checkVital` prints for `value` against `info`, looked up in `catalog`. */
  function Emitted(info: VitalInfo, value: real, catalog: map<string, string>): seq<string>
    requires HasMessages(info, catalog)
  {
    match StatusOf(info, value)
    case Ok => []
    case Warning => [catalog[info.warningMessage]]
    case Critical => [catalog[info.criticalMessage]]
  }

  /** In range (limits included) is Ok, and Ok prints nothing. */
  lemma OkIffInRange(info: VitalInfo, value: real, catalog: map<string, string>)
    requires HasMessages(info, catalog)
    ensures StatusOf(info, value) == Ok <==> info.lowerLimit <= value <= info.upperLimit
    ensures StatusOf(info, value) == Ok <==> Emitted(info, value, catalog) == []
  {
  }

  /** For a well-formed entry the Warning branch is dead. */
  lemma NeverWarning(info: VitalInfo, value: real)
    requires WellFormed(info)
    ensures StatusOf(info, value) != Warning
  {
    ApproachingIsInRange(value, info);
  }

  /** Outside the limits of a well-formed entry: Critical, and exactly the critical message. */
  lemma CriticalOutsideRange(info: VitalInfo, value: real, catalog: map<string, string>)
    requires WellFormed(info) && HasMessages(info, catalog)
    requires value < info.lowerLimit || value > info.upperLimit
    ensures StatusOf(info, value) == Critical
    ensures Emitted(info, value, catalog) == [catalog[info.criticalMessage]]
  {
    NeverWarning(info, value);
  }

  /** With the configured table no vital is ever Warning: Critical exactly when out of range. */
  lemma ConfiguredNeverWarning(vital: VitalType, value: real)
    ensures vital in VitalsInfo
    ensures StatusOf(VitalsInfo[vital], value) != Warning
    ensures StatusOf(VitalsInfo[vital], value) == Critical <==> IsOutOfRange(value, VitalsInfo[vital])
  {
    ConfiguredTables();
    NeverWarning(VitalsInfo[vital], value);
  }

  // ---------------------------------------------------------------------------
  // Translation
  // ---------------------------------------------------------------------------

  /** The entry of `language` for `message`, or `message` itself when there is none. */
  function Translate(translations: map<Language, map<string, string>>, language: Language, message: string): (r: string)
    ensures language in translations && message in translations[language] ==>
              r == translations[language][message]
    ensures !(language in translations && message in translations[language]) ==> r == message
  {
    if language in translations && message in translations[language] then
      translations[language][message]
    else
      message
  }

  /** Under English every string translates to itself, catalog key or not. */
  lemma EnglishIsIdentity(message: string)
    ensures Translate(Translations, English, message) == message
  {
  }

  /**
   * A message that the active catalog lacks comes back as its English text:
   * the English catalog also lacks it, so English returns it unchanged too.
   */
  lemma FallbackIsEnglish(language: Language, message: string)
    ensures !(language in Translations && message in Translations[language]) ==>
              Translate(Translations, language, message) == Translate(Translations, English, message)
  {
    CatalogsShareKeys();
  }

  /** The line `checkVital` prints for a configured vital is the translation of its message key. */
  lemma EmittedIsTranslation(language: Language, vital: VitalType, value: real)
    ensures vital in VitalsInfo && language in Translations
    ensures HasMessages(VitalsInfo[vital], Translations[language])
    ensures StatusOf(VitalsInfo[vital], value) == Critical ==>
              Emitted(VitalsInfo[vital], value, Translations[language])
              == [Translate(Translations, language, VitalsInfo[vital].criticalMessage)]
    ensures StatusOf(VitalsInfo[vital], value) == Warning ==>
              Emitted(VitalsInfo[vital], value, Translations[language])
              == [Translate(Translations, language, VitalsInfo[vital].warningMessage)]
  {
    ConfiguredTables();
    assert Speaks(VitalsInfo, Translations[language]);
  }

  lemma GermanAllTestsPassed()
    ensures Translate(Translations, German, "All tests passed.") == "Alle Tests bestanden."
  {
  }

  // ---------------------------------------------------------------------------
  // Aggregate
  // ---------------------------------------------------------------------------

  /** What `vitalsOk` returns: all three checks are Ok. */
  function AllOk(table: map<VitalType, VitalInfo>, temperature: real, pulseRate: real, spo2: real): bool
    requires Covers(table)
  {
    && StatusOf(table[Temperature], temperature) == Ok
    && StatusOf(table[PulseRate], pulseRate) == Ok
    && StatusOf(table[Spo2], spo2) == Ok
  }

  /** What `vitalsOk` prints: temperature's lines, then pulse rate's, then SpO2's. */
  function Report(table: map<VitalType, VitalInfo>, catalog: map<string, string>,
                  temperature: real, pulseRate: real, spo2: real): seq<string>
    requires Speaks(table, catalog)
  {
    Emitted(table[Temperature], temperature, catalog)
    + Emitted(table[PulseRate], pulseRate, catalog)
    + Emitted(table[Spo2], spo2, catalog)
  }

  /** The configured critical line of `vital` if `value` is out of its range, and nothing otherwise. */
  function CriticalLine(language: Language, vital: VitalType, value: real): seq<string>
  {
    ConfiguredTables();
    var info := VitalsInfo[vital];
    assert HasMessages(info, Translations[language]);
    if IsOutOfRange(value, info) then [Translations[language][info.criticalMessage]] else []
  }

  /** With the configured table the aggregate is true exactly when every reading is inside its limits. */
  lemma AllOkIffInRange(temperature: real, pulseRate: real, spo2: real)
    ensures Covers(VitalsInfo)
    ensures AllOk(VitalsInfo, temperature, pulseRate, spo2) <==>
              && 95.0 <= temperature <= 102.0
              && 60.0 <= pulseRate <= 100.0
              && 90.0 <= spo2 <= 100.0
  {
    ConfiguredTables();
  }

  /**
   * With the configured tables the report holds one critical line per
   * out-of-range reading, in the order temperature, pulse rate, SpO2; it is
   * empty exactly when the aggregate is true.
   */
  lemma ReportLines(language: Language, temperature: real, pulseRate: real, spo2: real)
    ensures language in Translations && Speaks(VitalsInfo, Translations[language])
    ensures Report(VitalsInfo, Translations[language], temperature, pulseRate, spo2) ==
              CriticalLine(language, Temperature, temperature)
              + CriticalLine(language, PulseRate, pulseRate)
              + CriticalLine(language, Spo2, spo2)
    ensures AllOk(VitalsInfo, temperature, pulseRate, spo2) <==>
              Report(VitalsInfo, Translations[language], temperature, pulseRate, spo2) == []
  {
    ConfiguredTables();
    ConfiguredNeverWarning(Temperature, temperature);
    ConfiguredNeverWarning(PulseRate, pulseRate);
    ConfiguredNeverWarning(Spo2, spo2);
  }

  /** The assertions of the C++ code's own test driver that its code satisfies. */
  lemma DriverCasesThatHold()
    ensures Covers(VitalsInfo)
    ensures !AllOk(VitalsInfo, 94.0, 70.0, 98.0) && !AllOk(VitalsInfo, 103.0, 70.0, 98.0)
    ensures !AllOk(VitalsInfo, 98.1, 59.0, 98.0) && !AllOk(VitalsInfo, 98.1, 101.0, 98.0)
    ensures !AllOk(VitalsInfo, 98.1, 70.0, 89.0) && !AllOk(VitalsInfo, 98.1, 70.0, 75.0)
    ensures !AllOk(VitalsInfo, 94.0, 59.0, 89.0) && !AllOk(VitalsInfo, 103.0, 101.0, 75.0)
    ensures !AllOk(VitalsInfo, 94.0, 101.0, 75.0) && !AllOk(VitalsInfo, 103.0, 59.0, 98.1)
    ensures AllOk(VitalsInfo, 98.1, 70.0, 98.0) && AllOk(VitalsInfo, 98.1, 70.0, 90.0)
  {
    ConfiguredTables();
  }

  /**
   * The three "approaching" assertions of the test driver expect false, but the
   * readings are inside their limits, so the code returns true for them; and
   * SpO2 75 is Critical, not Warning.
   */
  lemma DriverCasesContradicted()
    ensures Covers(VitalsInfo)
    ensures AllOk(VitalsInfo, 95.015, 70.0, 98.0)
    ensures AllOk(VitalsInfo, 100.485, 70.0, 98.0)
    ensures AllOk(VitalsInfo, 98.1, 99.4, 98.0)
    ensures StatusOf(VitalsInfo[Spo2], 75.0) == Critical
  {
    ConfiguredTables();
  }

  // ---------------------------------------------------------------------------
  // The stateful part: tables, active language and console output
  // ---------------------------------------------------------------------------

  class Monitor {
    /** The limits table and the message catalogs; the C++ code never changes them. */
    const vitalsInfo: map<VitalType, VitalInfo>
    const translations: map<Language, map<string, string>>
    /** The process-wide active language. */
    var currentLanguage: Language
    /** Every line printed so far, oldest first. */
    var output: seq<string>

    ghost predicate Valid()
      reads this
    {
      Configured(vitalsInfo, translations)
    }

    constructor ()
      ensures Valid()
      ensures vitalsInfo == VitalsInfo && translations == Translations
      ensures currentLanguage == English && output == []
    {
      vitalsInfo := VitalsInfo;
      translations := Translations;
      currentLanguage := English;
      output := [];
      ConfiguredTables();
    }

    method SetLanguage(language: Language)
      requires Valid()
      modifies this`currentLanguage
      ensures Valid()
      ensures currentLanguage == language && output == old(output)
    {
      currentLanguage := language;
    }

    method CheckVital(vital: VitalType, value: real) returns (status: VitalStatus)
      requires Valid()
      modifies this`output
      ensures Valid()
      ensures currentLanguage == old(currentLanguage)
      ensures status == StatusOf(vitalsInfo[vital], value)
      ensures output == old(output) + Emitted(vitalsInfo[vital], value, translations[currentLanguage])
    {
      var info := vitalsInfo[vital];
      var language := currentLanguage;
      var catalog := translations[language];
      if IsOutOfRange(value, info) {
        if IsApproachingWarning(value, info) {
          output := output + [catalog[info.warningMessage]];
          status := Warning;
        } else {
          output := output + [catalog[info.criticalMessage]];
          status := Critical;
        }
      } else {
        status := Ok;
      }
    }

    method VitalsOk(temperature: real, pulseRate: real, spo2: real) returns (ok: bool)
      requires Valid()
      modifies this`output
      ensures Valid()
      ensures currentLanguage == old(currentLanguage)
      ensures ok == AllOk(vitalsInfo, temperature, pulseRate, spo2)
      ensures output == old(output) + Report(vitalsInfo, translations[currentLanguage], temperature, pulseRate, spo2)
    {
      var temperatureOk := CheckVital(Temperature, temperature);
      var pulseRateOk := CheckVital(PulseRate, pulseRate);
      var spo2Ok := CheckVital(Spo2, spo2);
      ok := temperatureOk == Ok && pulseRateOk == Ok && spo2Ok == Ok;
    }
  }

  /** The C++ code's test driver's reading (94, 101, 75) under German: three critical lines. */
  lemma GermanCombinationReport()
    ensures Covers(VitalsInfo) && German in Translations && Speaks(VitalsInfo, Translations[German])
    ensures !AllOk(VitalsInfo, 94.0, 101.0, 75.0)
    ensures Report(VitalsInfo, Translations[German], 94.0, 101.0, 75.0) ==
              ["Temperatur kritisch!", "Pulsrate ist außerhalb des Bereichs!",
               "Sauerstoffsättigung außerhalb des Bereichs!"]
  {
    ReportLines(German, 94.0, 101.0, 75.0);
    assert CriticalLine(German, Temperature, 94.0) == ["Temperatur kritisch!"];
    assert CriticalLine(German, PulseRate, 101.0) == ["Pulsrate ist außerhalb des Bereichs!"];
    assert CriticalLine(German, Spo2, 75.0) == ["Sauerstoffsättigung außerhalb des Bereichs!"];
  }

  /**
   * After SetLanguage(German), later checks print German lines and translation
   * uses the German catalog.
   */
  method GermanSession() returns (ok: bool, lines: seq<string>, farewell: string)
    ensures !ok
    ensures lines == ["Temperatur kritisch!", "Pulsrate ist außerhalb des Bereichs!",
                      "Sauerstoffsättigung außerhalb des Bereichs!"]
    ensures farewell == "Alle Tests bestanden."
  {
    var monitor := new Monitor();
    monitor.SetLanguage(German);
    ok := monitor.VitalsOk(94.0, 101.0, 75.0);
    assert monitor.vitalsInfo == VitalsInfo && monitor.translations == Translations;
    GermanCombinationReport();
    GermanAllTestsPassed();
    lines := monitor.output;
    farewell := Translate(monitor.translations, monitor.currentLanguage, "All tests passed.");
  }
}
