# Energy-theft inspection handler, modelled in Dafny

The service answers `POST /inspect` with a verdict on one household-day of
electricity use. The handler `inspect_household` (`main.py`) does four things:

1. It looks up the baseline usage of the household's ACORN peer group in the
   peer-average table. A group the table does not know gets 5.0.
2. It derives the peer ratio, flatness index, mean hourly usage, peak
   intensity and temperature gap from the reading.
3. It lays out 15 feature values in the order the model was trained on and
   names each one with its training-time column name. Three raw fields appear
   twice under different names.
4. It asks the pre-trained anomaly model for a label. A label of -1 means
   "Suspicious" (risk 85). Anything else means "Normal" (risk 15). The verdict
   carries one of two fixed analysis texts and the peer ratio rounded to two
   decimals.

The model has three modules:

- `Rounding` (`rounding.dfy`): Python's `round(x, 2)` over exact reals. The
  result is the nearest multiple of 0.01, and exact ties go to the even
  neighbour.
- `Frame` (`frame.dfy`): the one-row data frame handed to the model. It pairs
  values with column names by position and looks a value up by its column name.
- `Inspection` (`inspection.dfy`): the request record, the peer-table lookup,
  the derivation, the feature layout, the label-to-verdict mapping and the
  handler `Inspect`.

Floats are Dafny `real`s, so the arithmetic is exact. The trained model is a
parameter `model: Row -> int`, the label it gives the single row it is shown.
The peer-average table is a parameter of type `map<string, real>`.

Two details of the code shape the model:

- `StatusOf` takes any integer. The code tests only for -1 (main.py:81), so
  every label other than -1 gives "Normal".
- The epsilons do not rule out a zero divisor. With `energy_std = -0.01`,
  main.py:42 raises `ZeroDivisionError`. `Inspect` returns
  `Failure(ZeroDivision)` exactly when one of the three divisors is zero.
  `NonNegativeInputsNeverFault` shows that this cannot happen for
  non-negative usage and baselines.

## Model

| member | source | states |
|---|---|---|
| `Rounding.RoundHalfEven` | main.py:86 | the result is an integer at distance at most 1/2 from the input, no integer is nearer, and an exact tie goes to the even integer |
| `Rounding.Round2` | main.py:86 | `round(x, 2)` is a whole number of hundredths within 0.005 of `x` |
| `Rounding.Round2OfHundredths` | main.py:86 | a value that is already a whole number of hundredths is left unchanged |
| `Rounding.Round2Idempotent` | main.py:86 | rounding the rounded peer ratio again changes nothing |
| `Frame.MakeRow` | main.py:77 | the frame has one cell per column, and cell i holds name i and value i |
| `Frame.ColumnAt` | main.py:77 | when column names are distinct, looking up the name of cell i yields the value of cell i |
| `Frame.MakeRowColumn` | main.py:77 | in a frame built from distinct names and a value list, name i looks up value i |
| `Inspection.PeerAverage` | main.py:40 | a known peer group yields its table entry, and an unknown one yields 5.0 |
| `Inspection.Divide` | main.py:41-44 | float division fails exactly when the divisor is zero, and otherwise the quotient times the divisor is the dividend |
| `Inspection.Derive` | main.py:40-45 | the derivation succeeds exactly when the three divisors (peer baseline + 1e-6, std + 0.01, mean + 0.01) are nonzero |
| `Inspection.FeatureVector` | main.py:49-65 | the feature vector has 15 entries, as many as there are column names |
| `Inspection.FeatureRow` | main.py:69-77 | the frame's columns are the 15 training-time names in order |
| `Inspection.StatusOf` | main.py:80-81 | the status is "Suspicious" iff the label is -1, and "Normal" iff it is not |
| `Inspection.RiskScore` | main.py:85 | the risk score is 85 iff the status is "Suspicious", and 15 otherwise |
| `Inspection.Analysis` | main.py:87 | the analysis is the anomaly text iff the status is "Suspicious", and "Normal behavior." otherwise |
| `Inspection.Inspect` | main.py:38-88 | the handler returns a verdict exactly when no divisor is zero |
| `Inspection.FeatureNamesDistinct` | main.py:69-75 | no two of the 15 column names are equal |
| `Inspection.DeriveFormulas` | main.py:40-45 | peer ratio, flatness, mean, peak intensity and temperature gap are the handler's formulas, and an unknown group divides by 5.0 + 1e-6 |
| `Inspection.FlatUsage` | main.py:42 | a zero standard deviation does not fault, and flatness is then exactly 100 |
| `Inspection.NonNegativeInputsNeverFault` | main.py:41-44 | non-negative usage, deviation and baseline never produce a zero divisor |
| `Inspection.FeatureLayout` | main.py:49-65 | each position holds its documented field, and positions 1/9, 2/11 and 3/8 (1-based) hold the same raw field |
| `Inspection.FeatureRowPairing` | main.py:49-77 | entry i of the feature vector is the value the frame holds under column name i |
| `Inspection.FeatureRowByName` | main.py:49-77 | looked up by name, each raw field is under both of its columns, and each derived quantity is under its own column |
| `Inspection.VerdictOutcomes` | main.py:80-87 | the verdict is one of two outcomes, chosen by whether the label is -1: status, a risk score of 85 or 15, and the matching analysis text |
| `Inspection.ReportedPeerRatio` | main.py:86 | the reported peer ratio is the derived ratio rounded to two decimals: a whole number of hundredths within 0.005 of it |
| `Inspection.UnknownGroupExample` | main.py:40-41 | an unknown peer group with 10 kWh of usage reports a peer ratio of exactly 2.0 |
| `Inspection.MatchingBaselineExample` | main.py:40-87 | 5 kWh in a group whose baseline is 5.0 reports a peer ratio of 1.0 and one of the two analysis texts |

## Left out

- The dashboard (`ui.py`): Streamlit layout, charts, the HTTP call and its display-only evidence thresholds. None of it feeds the verdict.
- Loading the model and peer table from pickle files at start-up (main.py:17-24). This is file I/O. The degraded "not loaded" state only makes later requests fail.
- The anomaly model's internals. `model.predict` is a call into scikit-learn and is a parameter here. A one-row frame is assumed to get one label back, so `prediction[0]` always exists.
- FastAPI routing and pydantic validation of the request body (main.py:8-14, 27-37). The framework rejects malformed requests before the handler runs.
- The pandas DataFrame beyond pairing each value with its column name (main.py:77).
- IEEE-754 arithmetic. The model computes with exact reals. Its fault condition matches Python's only up to float rounding: `energy_sum / 24` is rounded in Python, so an `energy_sum` within rounding distance of -0.24 (for example the double just below -0.24) can make `energy_mean + 0.01` exactly 0.0 and fault in Python, while the real divisor is nonzero and the model returns a verdict. For the other two divisors a float sum is 0.0 only when its operands cancel exactly, but the constants `1e-6` and `0.01` are the nearest doubles, not those decimals: the baseline or `energy_std` that faults in Python is the negated double, which differs slightly from the value -0.000001 or -0.01 at which the model faults.
- Rounding.Round2: rounds the exact real value. Python rounds the float peer ratio, which already carries rounding error from the division, so results can differ on exact decimal ties and on values within rounding distance of a tie.
