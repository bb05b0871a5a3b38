# Queue simulator model

A Dafny model of the two simulation pages of a Streamlit queuing simulator.
Both pages generate random customers (patients), serve them first-in-first-out
with one server, and report per-customer timings and the server utilization.
The Hand Simulation page then runs a Chi-square goodness-of-fit test on the
generated samples. The Patient page runs its test only when the playback box
is ticked in the same rerun as the button press.

- **Hand Simulation** (`app1.py.py`, from line 189; module `HandSimulation`).
  Customers are generated until a running "cumulative probability" reaches 1.
  Each customer adds `1 - exp(-gap / mean inter-arrival time)` to it. Every
  drawn gap and service time is clamped to at least 0.01. The schedule is
  written into preallocated lists by index. The Chi-square test builds
  expected frequencies from the CDF at the histogram edges and rescales them
  in place.
- **Patient Queue Simulator** (`Simulator.py`; module `PatientSimulator`).
  Patients arrive until the clock passes the simulation time. A draw that
  would pass it is discarded. With the C.P. check enabled, the loop also
  stops once both running CDF totals would exceed 1. The queue table is
  built by appending. The Chi-square test turns bin probabilities into
  expected counts that add up to the number of observations.

Shared modules:

- `Fifo`: the start/completion recurrence, its closed form (busy periods),
  and utilization.
- `GoodnessOfFit`: rescaling and the 5% verdict.
- `Sums`: finite sums, running totals, telescoping.
- `Variates`: distribution kinds and draws.
- `Wrappers`: `Option`/`Result`.

Randomness and scientific libraries are parameters:

- **Draws.** numpy's generator becomes a sequence of `Draw`s. Each holds one
  standard variate for the arrival draw and one for the service draw. An
  exponential variate of at least 0 is scaled by the mean. A Poisson count is
  used as is. A unit variate is mapped onto `[0.5·mean, 1.5·mean)`. A
  standard normal is shifted and scaled.
- **Finite input.** A loop that needs more draws than given stops with a
  "draws exhausted" outcome.
- **Library CDFs.** scipy's Exponential, Poisson and Normal CDFs are the
  parameter `libraryCdf`. `IsCdfLibrary` states what is assumed of it: values
  in [0, 1] that never decrease. The Uniform CDF is defined exactly.
- **Stopping increment.** In the hand simulation it is the parameter
  `stopIncrement`, a function of the gap alone.
- **p-values.** scipy's Chi-square p-value is the parameter `pValueOf`.

Error paths the source reaches by raising or by dividing are explicit
results:

- `Utilization` fails with `EmptyRun` when no patient was recorded. The
  page indexes an empty list there.
- It fails with `ZeroSpan` when the last completion equals the first
  arrival. The source divides by zero there.
- On the Patient page with the C.P. check on, a run that recorded a patient
  and ends on an overshooting draw fails with `CpColumnLengthMismatch`. Its
  C.P. columns are one entry longer than the table, and pandas refuses the
  assignment. A table with no rows takes its index from the column instead,
  so a run with no patient fails with `EmptyRun` whatever its C.P. columns.
- Normalisation fails with `ZeroExpectedTotal` when the expected
  frequencies add up to 0.
- The hand simulation's fallback list of integer ones fails with
  `IntegerArrayCast`. numpy refuses the in-place float product on an
  integer array.

## Model

| member | source | states |
|---|---|---|
| Variates.UniformSample | Simulator.py:74 | a Uniform draw lies in [0.5·mean, 1.5·mean) |
| HandSimulation.GetRandom | app1.py.py:207-219 | an unrecognised kind yields 0; every kind but Normal yields a non-negative sample; a Uniform sample lies in [0.5·mean, 1.5·mean) |
| HandSimulation.ClampDuration | app1.py.py:293-296 | the clamped value is at least 0.01 and at least the sample, and is one of the two |
| HandSimulation.Gaps | app1.py.py:292-293 | one clamped inter-arrival gap per draw, every one at least 0.01 |
| HandSimulation.ServiceTimes | app1.py.py:295-296 | one clamped service time per draw, every one at least 0.01 |
| HandSimulation.StopIncrements | app1.py.py:301 | one cumulative-probability increment per gap |
| HandSimulation.IncrementsBoundedBelow | app1.py.py:293-301 | when the increment function is positive at 0.01 and does not shrink above it, every increment is at least its value at 0.01 |
| HandSimulation.SimulateCustomers | app1.py.py:283-301 | the recorded gaps and service times are the first `customers` draws; each arrival is the sum of the gaps so far; the loop stopped as `StoppedAt` describes (cumulative probability reached 1, or the draws ran out first) |
| Sums.RunningTotalsArePrefixTotals | app1.py.py:300 | the hand page's arrival clocks (sum of all gaps so far) equal the patient page's (a running sum carried forward, Simulator.py:119) |
| HandSimulation.BelowOneBeforeAll | app1.py.py:290 | the recursive stopping invariant means that every running sum before the stop is below 1 |
| HandSimulation.StoppedBelowOne | app1.py.py:290 | every customer was admitted while the cumulative probability was below 1 |
| HandSimulation.StoppedAtUnique | app1.py.py:290-301 | the increments determine the number of customers and whether the draws ran out |
| HandSimulation.StoppedAfterFirst | app1.py.py:290-291 | with at least one draw, at least one customer is generated |
| HandSimulation.StopBound | app1.py.py:290-301 | with increments of at least delta > 0, the sum before customer j is at least j·delta and below 1, so there are at most 1 + 1/delta customers; the draws run out only when fewer than 1/delta were given |
| HandSimulation.ScheduleCustomers | app1.py.py:303-318 | every row of the preallocated arrays holds the FIFO start and completion, waiting = start - arrival, turnaround = completion - arrival, response = waiting |
| HandSimulation.RecordCustomer | app1.py.py:311-318 | customer i's row is written from its start time and no other row changes |
| HandSimulation.RunSimulation | app1.py.py:283-322 | all gaps and services are at least 0.01; arrivals are the prefix sums and strictly increase; completions follow the FIFO recurrence and strictly increase; with at least one draw the utilization is defined and lies in (0, 1] |
| HandSimulation.Expected | app1.py.py:227-255 | an unrecognised kind gives integer ones, one per bin; otherwise one float per bin, adding up to the sample size times the CDF mass between the outer edges |
| HandSimulation.RescaleInPlace | app1.py.py:257-258 | the array afterwards is the old contents times the factor, element by element |
| HandSimulation.ChiSquareTest | app1.py.py:257-272 | integer ones fail with a casting error; otherwise the test fails exactly when the expected total is 0; on success the expected counts are proportional to the input and add up to the observed total, degrees of freedom are bins - 2, and the fit is accepted exactly when p > 0.05 |
| Fifo.Start | Simulator.py:135 | the recurrence itself: the first customer starts on arrival, every later one at the later of its arrival and the previous completion (properties in the rows below) |
| Fifo.Completion | Simulator.py:136 | completion = start + service (properties in the rows below) |
| Fifo.Max | Simulator.py:135 | the maximum is at least both arguments and equals one of them |
| Fifo.StartBounds | Simulator.py:134-138 | a customer starts no earlier than its arrival or the previous completion; turnaround = waiting + service |
| Fifo.CompletionMonotone | app1.py.py:314-315 | with non-negative services, completions never go backwards |
| Fifo.CompletionsIncrease | app1.py.py:314-315 | with services of at least c > 0, completions strictly increase |
| Fifo.ServiceIntervalsDisjoint | Simulator.py:135-136 | an earlier customer completes before a later one starts: one server, no overlap |
| Fifo.CompletionCoversWork | Simulator.py:135-136 | completion i is at least arrival j plus the services of customers j..i, for every j <= i |
| Fifo.BusyPeriodStart | Simulator.py:135-136 | some customer j <= i found the server idle and the server never idled from j to i, so completion i equals arrival j plus the services of j..i |
| Fifo.Utilization | Simulator.py:176 | fails exactly on an empty run or a zero span; otherwise utilization × span = total service time |
| Fifo.UtilizationWithinUnit | app1.py.py:320-322 | with some positive work, the utilization is defined and lies in (0, 1] |
| Fifo.UtilizationAtMostOne | Simulator.py:176 | with non-negative services, a defined utilization lies in [0, 1] |
| Fifo.BusyRun | app1.py.py:310-322 | with services of at least c > 0, completions strictly increase and a non-empty run has utilization in (0, 1] |
| GoodnessOfFit.Decide | Simulator.py:238 | Accepted exactly when p > 0.05 |
| GoodnessOfFit.RescaleFactor | app1.py.py:258 | fails exactly when the expected total is 0; otherwise factor × expected total = observed total |
| GoodnessOfFit.Normalized | Simulator.py:236 | fails exactly when the expected total is 0; otherwise same length, adds up to the observed total, and proportional to the input entry by entry |
| PatientSimulator.GenerateTime | Simulator.py:68-77 | no duration is negative; a Uniform duration lies in [0.5·mean, 1.5·mean); an unrecognised kind yields the mean |
| PatientSimulator.UniformCdf | Simulator.py:86 | a probability: 0 at or below loc, 1 at or above loc + scale |
| PatientSimulator.UniformCdfLinear | Simulator.py:86 | inside the support, CDF × scale = x - loc |
| PatientSimulator.UniformCdfMonotone | Simulator.py:86 | the Uniform CDF never decreases |
| PatientSimulator.UniformCdfInvertsSample | Simulator.py:74 | the CDF of a generated Uniform duration is the unit variate it came from: generator and CDF describe the same law |
| PatientSimulator.GetCdf | Simulator.py:80-89 | the Uniform branch is the exact Uniform CDF; an unrecognised kind yields 0; with a CDF library every value is a probability |
| PatientSimulator.GetCdfMonotone | Simulator.py:80-89 | with a CDF library, the CDF of each kind never decreases |
| PatientSimulator.ArrivalGaps | Simulator.py:102 | one inter-arrival time per draw, none negative |
| PatientSimulator.ServiceDraws | Simulator.py:103 | one service time per draw, none negative |
| PatientSimulator.Probabilities | Simulator.py:105-106 | one CDF value per drawn duration, none negative with a CDF library |
| PatientSimulator.CpColumn | Simulator.py:111-117 | the first k entries of a C.P. column |
| PatientSimulator.RunFrom | Simulator.py:101-124 | the arrival loop as a recursive function of its state, one iteration per call: stop on the loop condition, on exhausted draws, on the C.P. break, or on an overshooting draw (keeping its C.P. entries); otherwise continue from `Advance` (properties in RunFromStops, RunFromRecords, RunFromCpColumns) |
| PatientSimulator.Advance | Simulator.py:111-124 | the state after an iteration that passed the C.P. check and kept its draw; its contract fixes only the draw counter, what it records is stated through RunFromRecords and RunFromCpColumns |
| PatientSimulator.RunFromStops | Simulator.py:101-121 | resumed from a state consistent with the draws so far, the loop stops as `StoppedAt` describes: on the loop condition, on the C.P. break, on an overshooting draw that is discarded, or when the draws run out |
| PatientSimulator.RunFromRecords | Simulator.py:119-124 | the arrival list holds the running sums of the gaps and the service list the drawn service times, one per recorded patient |
| PatientSimulator.RunFromCpColumns | Simulator.py:108-121 | the C.P. columns hold the running CDF totals, or blanks with the check off; an overshooting draw leaves one extra entry |
| PatientSimulator.RunMeetsSpec | Simulator.py:98-124 | the run of the whole loop satisfies `Recorded`: arrivals, services, stopping reason and C.P. columns as above |
| PatientSimulator.SimulatePatients | Simulator.py:98-124 | the loop computes the run described by `RunFrom` from the initial state, and that run satisfies `Recorded` |
| PatientSimulator.ContinuedAt | Simulator.py:101-121 | every iteration before the stop started below the horizon, passed the C.P. check and kept its draw |
| PatientSimulator.StopDetermined | Simulator.py:101-121 | the draws determine how many patients are recorded and why the loop stopped |
| PatientSimulator.RecordedArrivals | Simulator.py:119-123 | recorded arrival clocks lie in [0, horizon] and never decrease; every patient but the last arrived strictly before the horizon |
| PatientSimulator.HorizonReachedExactly | Simulator.py:101-121 | a run ended by the loop condition has its last patient arriving exactly at the horizon, or no patient and a horizon of at most 0 |
| PatientSimulator.CpColumnEntries | Simulator.py:108-117 | with the check off every C.P. entry is blank; with it on, entry i is the total of the first i + 1 CDF values, and the totals never decrease for non-negative CDF values |
| PatientSimulator.QueueTableStep | Simulator.py:134-144 | appending the next patient's row keeps the table consistent with the FIFO recurrence |
| PatientSimulator.QueueCalculations | Simulator.py:127-144 | each row holds the FIFO start and completion, waiting = start - arrival, turnaround = completion - arrival, response = waiting |
| PatientSimulator.RunSimulation | Simulator.py:98-176 | the run satisfies `Recorded`; arrivals lie in [0, horizon] and never decrease; completions follow the FIFO recurrence; with the C.P. check on and at least one patient, the page fails at the C.P. column assignment exactly when the columns are longer than the table, which happens exactly when the run ended on an overshooting draw; otherwise the utilization is `Fifo.Utilization`; it fails as `EmptyRun` exactly when no patient was recorded, whatever the C.P. check, and when defined lies in [0, 1] |
| PatientSimulator.EdgeCdfs | Simulator.py:223-231 | the reference definition of the CDF at every edge (properties in BinProbabilities / BinProbabilitiesNonNegative) |
| PatientSimulator.BinProbabilities | Simulator.py:222-234 | the bin probabilities are the consecutive differences of the edge CDFs |
| PatientSimulator.BinProbabilitiesNonNegative | Simulator.py:222-234 | for ascending edges and a CDF library, no bin probability is negative |
| PatientSimulator.ChiSquareTest | Simulator.py:219-238 | fails only for a zero expected total, exactly when the CDF takes the same value at both outer edges (always for an unrecognised kind; never for a Uniform law inside the outer edges); on success the expected counts are the normalised bin probabilities and add up to the observed total, and the fit is accepted exactly when p > 0.05 |

## Left out

- The Streamlit interface, page layout, metrics display, Gantt charts, real-time playback and histogram plots are not modelled. Neither are `deploy.py` and the other pages, the Queuing Calculator page among them.
- numpy's random generator, scipy's Exponential, Poisson and Normal CDFs, and scipy's Chi-square statistic and p-value are parameters (`Draw`, `libraryCdf`, `pValueOf`). Floating point is modelled as exact reals.
- Rounding to 2 or 4 decimals (Simulator.py lines 113-114, 123-124 and 140-144) is treated as the identity.
- The averages of the summary (`np.mean`) and the Chi-square statistic, critical value (`chi2.ppf`) and displayed p-value rounding are not modelled.
- `np.histogram` binning is not modelled: the observed counts and bin edges are inputs to both Chi-square tests.
- HandSimulation.Expected: the CDF values at the histogram edges are an input. The kind-specific scipy calls are not modelled: the Exponential scale 1/(1/mean), the Normal fit with `np.std(data)`, and the Uniform fit on the sample's minimum and maximum.
- HandSimulation.SimulateCustomers: `stopIncrement` is a parameter. The model does not fix it to `1 - exp(-gap / mean)`, a formula used whatever arrival kind is selected. `IncrementBoundedBelow` states the properties of it that the bounds use.
- PatientSimulator.SimulatePatients: the C.P. columns are modelled as written. They gain an entry before the horizon check, so after an overshooting draw they are one longer than the patient list. `RunSimulation` models the resulting failure of the C.P. column assignment (Simulator.py:159) as the error `CpColumnLengthMismatch` when the table has a row (pandas sizes an empty table from the column); the rest of the table construction is not modelled.
- PatientSimulator.ChiSquareTest: the Patient page's histograms and Chi-square tests (Simulator.py:216-241) sit under the playback checkbox (Simulator.py:188-190), outside the button block. They run only when the box is ticked in the same rerun as the button press; in any other rerun the page fails on undefined names. The model does not capture this gating: the test is modelled as a function of the sample's histogram.
- The Patient page passes absolute arrival times to its Chi-square test (Simulator.py:240); the Hand page passes the clamped inter-arrival gaps (app1.py.py:353). Which sample is passed in, and its histogram, are inputs of the modelled tests.
- A loop that would need more draws than given ends with the model-only outcome "draws exhausted". The source draws without limit.
- GoodnessOfFit.Normalized: a zero expected total is reported as an error. numpy would produce infinities or NaNs there instead of raising.
