/**
 * The `/inspect` handler: a household reading and the peer-average table go
 * in, a 15-column feature row goes to the anomaly model, and the model's label
 * comes back as a verdict. Floats are exact reals here; the trained model is a
 * parameter `model`: the label it gives the single row it is shown.
 */
module Inspection {
  import opened Frame
  import Rounding

  /** The request body: one day of a household's usage statistics, its peer group and the temperature range. */
  datatype HouseholdInput = HouseholdInput(
    energySum: real,
    energyStd: real,
    energyMax: real,
    energyMin: real,
    energyMedian: real,
    acornGrouped: string,
    tempMin: real,
    tempMax: real)

  /** Baseline daily usage per ACORN peer group, as loaded at start-up. */
  type PeerAverages = map<string, real>

  /** The trained anomaly model: the label it predicts for a one-row frame (-1 means anomalous). */
  type Classifier = Row -> int

  /** The only fault the handler itself can raise: a float division by exactly zero. */
  datatype Fault = ZeroDivision

  datatype Result<T> = Success(value: T) | Failure(fault: Fault)

  const DefaultPeerAverage: real := 5.0
  const PeerEpsilon: real := 0.000001
  const SmoothingEpsilon: real := 0.01
  const HoursPerDay: real := 24.0
  const FeatureCount: nat := 15

  const SuspiciousStatus: string := "Suspicious"
  const NormalStatus: string := "Normal"
  const SuspiciousRisk: int := 85
  const NormalRisk: int := 15
  const SuspiciousAnalysis: string := "Anomaly detected based on 15-point behavioral check."
  const NormalAnalysis: string := "Normal behavior."

  /** The column names the model was fitted with, in training order. */
  const FeatureNames: seq<string> := [
    "daily_std", "daily_sum", "daily_max",
    "temperatureMin", "temperatureMax", "temp_gap",
    "energy_mean", "energy_max", "energy_std",
    "energy_min", "energy_sum", "energy_median",
    "peer_ratio", "flatness_index", "peak_intensity"
  ]

  /** The quantities computed from a reading before the feature row is laid out. */
  datatype Derived = Derived(
    peerRatio: real,
    flatness: real,
    energyMean: real,
    peakIntensity: real,
    tempGap: real)

  /** The response body. */
  datatype Verdict = Verdict(status: string, riskScore: int, peerRatio: real, analysis: string)

  /** Baseline of a peer group: its table entry, or the default for a group the table does not know. */
  function PeerAverage(table: PeerAverages, group: string): (avg: real)
    ensures group in table ==> avg == table[group]
    ensures group !in table ==> avg == DefaultPeerAverage
  {
    if group in table then table[group] else DefaultPeerAverage
  }

  /** Python's `/` on floats: a zero divisor raises instead of returning a value. */
  function Divide(n: real, d: real): (r: Result<real>)
    ensures r.Success? <==> d != 0.0
    ensures r.Success? ==> r.value * d == n
  {
    if d == 0.0 then Failure(ZeroDivision) else Success(n / d)
  }

  /** The three divisors of the derivation are all nonzero. */
  predicate DivisorsNonzero(table: PeerAverages, data: HouseholdInput) {
    && PeerAverage(table, data.acornGrouped) + PeerEpsilon != 0.0
    && data.energyStd + SmoothingEpsilon != 0.0
    && data.energySum / HoursPerDay + SmoothingEpsilon != 0.0
  }

  /** Peer ratio, flatness, mean, peak intensity and temperature gap of a reading, in the handler's order. */
  function Derive(table: PeerAverages, data: HouseholdInput): (r: Result<Derived>)
    ensures r.Success? <==> DivisorsNonzero(table, data)
  {
    var peerAvg := PeerAverage(table, data.acornGrouped);
    match Divide(data.energySum, peerAvg + PeerEpsilon)
    case Failure(e) => Failure(e)
    case Success(peerRatio) =>
      match Divide(1.0, data.energyStd + SmoothingEpsilon)
      case Failure(e) => Failure(e)
      case Success(flatness) =>
        var energyMean := data.energySum / HoursPerDay;
        match Divide(data.energyMax, energyMean + SmoothingEpsilon)
        case Failure(e) => Failure(e)
        case Success(peakIntensity) =>
          var tempGap := data.tempMax - data.tempMin;
          Success(Derived(peerRatio, flatness, energyMean, peakIntensity, tempGap))
  }

  /** The 15 feature values, in the order the model was trained on; three raw fields appear twice. */
  function FeatureVector(data: HouseholdInput, d: Derived): (v: seq<real>)
    ensures |v| == FeatureCount == |FeatureNames|
  {
    [ data.energyStd,
      data.energySum,
      data.energyMax,
      data.tempMin,
      data.tempMax,
      d.tempGap,
      d.energyMean,
      data.energyMax,
      data.energyStd,
      data.energyMin,
      data.energySum,
      data.energyMedian,
      d.peerRatio,
      d.flatness,
      d.peakIntensity ]
  }

  /** The single-row frame the model is shown: each feature value under its training-time column name. */
  function FeatureRow(data: HouseholdInput, d: Derived): (row: Row)
    ensures Columns(row) == FeatureNames
  {
    MakeRow(FeatureNames, FeatureVector(data, d))
  }

  /** The status for the model's prediction: only -1 is suspicious. */
  function StatusOf(prediction: int): (status: string)
    ensures status == SuspiciousStatus <==> prediction == -1
    ensures status == NormalStatus <==> prediction != -1
  {
    if prediction == -1 then SuspiciousStatus else NormalStatus
  }

  /** The risk score reported for a status. */
  function RiskScore(status: string): (score: int)
    ensures score == SuspiciousRisk <==> status == SuspiciousStatus
    ensures score == NormalRisk <==> status != SuspiciousStatus
  {
    if status == SuspiciousStatus then SuspiciousRisk else NormalRisk
  }

  /** The explanation reported for a status. */
  function Analysis(status: string): (text: string)
    ensures text == SuspiciousAnalysis <==> status == SuspiciousStatus
    ensures text == NormalAnalysis <==> status != SuspiciousStatus
  {
    if status == SuspiciousStatus then SuspiciousAnalysis else NormalAnalysis
  }

  /** The whole handler: derive, lay out, classify, report. */
  function Inspect(table: PeerAverages, model: Classifier, data: HouseholdInput): (r: Result<Verdict>)
    ensures r.Success? <==> DivisorsNonzero(table, data)
  {
    match Derive(table, data)
    case Failure(e) => Failure(e)
    case Success(d) =>
      var prediction := model(FeatureRow(data, d));
      var status := StatusOf(prediction);
      Success(Verdict(status, RiskScore(status), Rounding.Round2(d.peerRatio), Analysis(status)))
  }

  // ---------------------------------------------------------------------------
  // Properties of the handler

  /** The column names are pairwise different, so every feature can be found by its name. */
  lemma FeatureNamesDistinct()
    ensures Distinct(FeatureNames)
  {
  }

  /** The derived quantities are the handler's formulas, with an unknown peer group falling back to 5.0. */
  lemma DeriveFormulas(table: PeerAverages, data: HouseholdInput)
    requires DivisorsNonzero(table, data)
    ensures Derive(table, data).Success?
    ensures var d := Derive(table, data).value;
      && (data.acornGrouped in table ==> d.peerRatio == data.energySum / (table[data.acornGrouped] + PeerEpsilon))
      && (data.acornGrouped !in table ==> d.peerRatio == data.energySum / (5.0 + 0.000001))
      && d.flatness == 1.0 / (data.energyStd + 0.01)
      && d.energyMean == data.energySum / 24.0
      && d.peakIntensity == data.energyMax / (data.energySum / 24.0 + 0.01)
      && d.tempGap == data.tempMax - data.tempMin
  {
  }

  /** A zero standard deviation does not fault: flatness is then exactly 100. */
  lemma FlatUsage(table: PeerAverages, data: HouseholdInput)
    requires data.energyStd == 0.0
    requires PeerAverage(table, data.acornGrouped) + PeerEpsilon != 0.0
    requires data.energySum / HoursPerDay + SmoothingEpsilon != 0.0
    ensures Derive(table, data).Success?
    ensures Derive(table, data).value.flatness == 100.0
  {
  }

  /** Non-negative usage and baselines never hit a zero divisor. */
  lemma NonNegativeInputsNeverFault(table: PeerAverages, data: HouseholdInput)
    requires data.energyStd >= 0.0 && data.energySum >= 0.0
    requires PeerAverage(table, data.acornGrouped) >= 0.0
    ensures DivisorsNonzero(table, data)
  {
  }

  /** Position by position, the feature row holds the documented field; positions 1/9, 2/11 and 3/8 (1-based) coincide. */
  lemma FeatureLayout(data: HouseholdInput, d: Derived)
    ensures var v := FeatureVector(data, d);
      && v[0] == v[8] == data.energyStd
      && v[1] == v[10] == data.energySum
      && v[2] == v[7] == data.energyMax
      && v[3] == data.tempMin
      && v[4] == data.tempMax
      && v[5] == d.tempGap
      && v[6] == d.energyMean
      && v[9] == data.energyMin
      && v[11] == data.energyMedian
      && v[12] == d.peerRatio
      && v[13] == d.flatness
      && v[14] == d.peakIntensity
  {
  }

  /** Each value of the feature vector is found in the frame under the name at the same position. */
  lemma FeatureRowPairing(data: HouseholdInput, d: Derived, i: nat)
    requires i < FeatureCount
    ensures Column(FeatureRow(data, d), FeatureNames[i]) == Some(FeatureVector(data, d)[i])
  {
    FeatureNamesDistinct();
    MakeRowColumn(FeatureNames, FeatureVector(data, d), i);
  }

  /** By name, the model sees each raw field under both of its columns and each derived quantity under its own. */
  lemma FeatureRowByName(data: HouseholdInput, d: Derived)
    ensures var row := FeatureRow(data, d);
      && Column(row, "daily_std") == Column(row, "energy_std") == Some(data.energyStd)
      && Column(row, "daily_sum") == Column(row, "energy_sum") == Some(data.energySum)
      && Column(row, "daily_max") == Column(row, "energy_max") == Some(data.energyMax)
      && Column(row, "temperatureMin") == Some(data.tempMin)
      && Column(row, "temperatureMax") == Some(data.tempMax)
      && Column(row, "energy_min") == Some(data.energyMin)
      && Column(row, "energy_median") == Some(data.energyMedian)
      && Column(row, "temp_gap") == Some(d.tempGap)
      && Column(row, "energy_mean") == Some(d.energyMean)
      && Column(row, "peer_ratio") == Some(d.peerRatio)
      && Column(row, "flatness_index") == Some(d.flatness)
      && Column(row, "peak_intensity") == Some(d.peakIntensity)
  {
    FeatureRowPairing(data, d, 0);
    FeatureRowPairing(data, d, 1);
    FeatureRowPairing(data, d, 2);
    FeatureRowPairing(data, d, 3);
    FeatureRowPairing(data, d, 4);
    FeatureRowPairing(data, d, 5);
    FeatureRowPairing(data, d, 6);
    FeatureRowPairing(data, d, 7);
    FeatureRowPairing(data, d, 8);
    FeatureRowPairing(data, d, 9);
    FeatureRowPairing(data, d, 10);
    FeatureRowPairing(data, d, 11);
    FeatureRowPairing(data, d, 12);
    FeatureRowPairing(data, d, 13);
    FeatureRowPairing(data, d, 14);
  }

  /** A verdict is one of exactly two outcomes, chosen by whether the model said -1. */
  lemma VerdictOutcomes(table: PeerAverages, model: Classifier, data: HouseholdInput)
    requires DivisorsNonzero(table, data)
    ensures var v := Inspect(table, model, data).value;
      var prediction := model(FeatureRow(data, Derive(table, data).value));
      && (v.status == "Suspicious" <==> prediction == -1)
      && (v.status == "Normal" <==> prediction != -1)
      && (v.riskScore == 85 || v.riskScore == 15)
      && (v.riskScore == 85 <==> v.status == "Suspicious")
      && (v.analysis == "Anomaly detected based on 15-point behavioral check." <==> v.status == "Suspicious")
      && (v.analysis == "Normal behavior." <==> v.status == "Normal")
  {
  }

  /** The reported peer ratio is the derived one rounded to two decimals: an exact multiple of 0.01 within 0.005 of it. */
  lemma ReportedPeerRatio(table: PeerAverages, model: Classifier, data: HouseholdInput)
    requires DivisorsNonzero(table, data)
    ensures var v := Inspect(table, model, data).value;
      var ratio := Derive(table, data).value.peerRatio;
      && v.peerRatio == Rounding.Round2(ratio)
      && -0.005 <= v.peerRatio - ratio <= 0.005
      && (v.peerRatio * 100.0).Floor as real == v.peerRatio * 100.0
  {
  }

  /** An unknown peer group with 10 kWh of usage reports a peer ratio of 2.0. */
  lemma UnknownGroupExample(table: PeerAverages, model: Classifier, data: HouseholdInput)
    requires data.acornGrouped !in table
    requires data.energySum == 10.0
    requires data.energyStd >= 0.0
    ensures Inspect(table, model, data).Success?
    ensures Inspect(table, model, data).value.peerRatio == 2.0
  {
  }

  /** A 5 kWh day in a peer group whose baseline is 5.0 reports a peer ratio of 1.0, and its analysis is one of the two texts. */
  lemma MatchingBaselineExample(table: PeerAverages, model: Classifier, data: HouseholdInput)
    requires data.acornGrouped in table && table[data.acornGrouped] == 5.0
    requires data.energySum == 5.0
    requires data.energyStd >= 0.0
    ensures Inspect(table, model, data).Success?
    ensures Inspect(table, model, data).value.peerRatio == 1.0
    ensures Inspect(table, model, data).value.analysis in {SuspiciousAnalysis, NormalAnalysis}
  {
  }
}
