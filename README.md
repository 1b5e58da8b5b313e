# PositioningSolver — a verified model of its discrete core

PositioningSolver is a Python toolkit for GNSS positioning and inertial navigation. This Dafny project
models the parts of it that are discrete logic rather than floating-point navigation numerics, and it
proves what that logic promises:

- **GPS time** (`Epochs`): week and seconds-of-week epochs with their validation, normalisation
  (`fix_week`), addition, subtraction and total order.
- **Time-series stores** (`Series`, `Containers`, `Observations`, `Navigation`): the sorted-on-demand
  `TimeSeries` with its floor lookup and common epochs; the slot-restricted `Container`; the GNSS
  observation store (`EpochData`, `ObservationData`); and the navigation-message store.
- **RINEX 3.03 observation files** (`RinexLines`, `RinexReader`): the header records, the
  "SYS / # / OBS TYPES" column map, the epoch and data records, and the 16-character observation cells
  with their signal-strength digit. A file is a sequence of lines; number parsing and the RINEX tables
  are parameters.
- **Validation tables** (`Services`, `ServiceTables`, `Constellations`, `Errors`): services per
  constellation, constellation names and codes, and the error hierarchy and its messages.
- **Configuration** (`Configuration`): nested `get` and `set` over a JSON-like value.
- **Units** (`UnitConversions`, `SimData`): unit-scale tables, per-column scaling, and the simulated-data
  record.
- **Positions** (`GnssState`, `Gravity`, `Attitude`): the cartesian/geodetic and ECEF/ENU state machine
  of `PositionGNSS`, with the four coordinate conversions as parameters; the sign and shape handling of
  the LLA/LLD/ECEF conversions; and angle wrapping.
- **Statistics and processes** (`AllanVariance`, `Processes`, `RandomWalkProcess`,
  `GaussMarkovProcess`, `RandomConstantProcess`, `RmsManager`): Allan-variance tau selection and bin
  averaging; the random-walk, Gauss–Markov and random-constant recurrences, with the random draws given
  as a stream; and error and RMS accumulation.
- **Array utilities** (`Rows`, `ImportPvat`, `ReadTm`, `FiniteDiff`): the factor step after loading,
  downsampling, column swapping, and the finite difference.

Python exceptions are `Result`/`Outcome` values that carry the exception class. Python objects whose
fields change in place are Dafny classes, and their methods are proved against pure functions on values.
NumPy arrays that the source updates in place are Dafny arrays. Reals stand for floats.

## Model

| member | source | states |
|---|---|---|
| Attitude.ModTwoPi | PositioningSolver/src/ins/mechanization/attitude.py:119-120 | `x % (2*pi)` lies in [0, 2π) and is `x` less a whole number of turns (Python's floored remainder) |
| Attitude.AngleRangePi | PositioningSolver/src/ins/mechanization/attitude.py:111-124 | the wrapped angle lies in (−π, π] and is `x` less a whole number of turns |
| Attitude.AngleRangePiUnique | PositioningSolver/src/ins/mechanization/attitude.py:111-124 | any angle in (−π, π] a whole number of turns from `x` is the result: the wrap is the unique representative |
| Attitude.AngleRangePiIdempotent | PositioningSolver/src/ins/mechanization/attitude.py:111-124 | wrapping a wrapped angle changes nothing |
| Attitude.AngleRangePiShift | PositioningSolver/src/ins/mechanization/attitude.py:98-107 | turning roll or yaw by +π before wrapping gives the same angle as turning by −π |
| Attitude.EulerAngleRange | PositioningSolver/src/ins/mechanization/attitude.py:79-108 | pitch ends in [−π/2, π/2], roll and yaw in (−π, π]; a pitch beyond ±π/2 is reflected to π − p or −π − p and roll and yaw turn by π |
| Attitude.EulerInRangeUnchanged | PositioningSolver/src/ins/mechanization/attitude.py:79-108 | angles already in their ranges come back unchanged |
| Attitude.EulerAngleRangeIdempotent | PositioningSolver/src/ins/mechanization/attitude.py:79-108 | correcting twice gives what correcting once gives |
| Configuration.Walk | PositioningSolver/src/config.py:25-38 | the descent through nested dictionaries never ends on a dictionary; it fails only with IndexError (keys run out at a dictionary) or ConfigError (keys left over at a non-fallback value) |
| Configuration.GetIn | PositioningSolver/src/config.py:15-38 | `get()` with no key at all fails with ValueError when `section, *keys = keys` unpacks nothing |
| Configuration.SetIn | PositioningSolver/src/config.py:40-58 | `set` with fewer than two arguments is a ValueError; on success the top-level keys gain only the first key and every other section is untouched; the only failures are ValueError, TypeError and AttributeError |
| Configuration.SetThenGet | PositioningSolver/src/config.py:15-58 | after `set(*keys, v)` with a non-dictionary `v`, `get(*keys)` returns `v` |
| Configuration.SetThenWalk | PositioningSolver/src/config.py:25-58 | the path `set` creates leads the `get` loop from the first section down to the stored value |
| Configuration.MissingKeyGivesFallback | PositioningSolver/src/config.py:23-38 | a key missing at any level yields the fallback |
| Configuration.WalkUnfold | PositioningSolver/src/config.py:22-29 | looking a path up in the top-level dictionary is one step of the nested descent |
| Configuration.SetKeepsOtherSections | PositioningSolver/src/config.py:40-58 | setting a path leaves every read under another first key unchanged |
| Configuration.SetKeepsSiblings | PositioningSolver/src/config.py:40-58 | with a non-dictionary fallback, setting a path changes no read of a path that shares its first keys and then takes another key |
| Configuration.DictFallbackSeesNewLevel | PositioningSolver/src/config.py:23-58 | with a dictionary fallback a sibling read can change: after `set("a", "x", 5)` the read of ("a", "b") turns from the fallback's entry into IndexError |
| Configuration.MismatchFails | PositioningSolver/src/config.py:27-36 | meeting a non-dictionary value (other than the fallback object) with keys left raises ConfigError |
| Configuration.PathToDictFails | PositioningSolver/src/config.py:27-29 | a full path that ends on a dictionary pops from an empty key list: IndexError |
| Configuration.Config.constructor | PositioningSolver/src/config.py:8-13 | a new configuration is an empty dictionary |
| Configuration.Config.Get | PositioningSolver/src/config.py:15-38 | `get` answers what `GetIn` answers on the current contents |
| Configuration.Config.Set | PositioningSolver/src/config.py:40-58 | `set` stores what `SetIn` computes, or fails with its error leaving the contents unchanged |
| Constellations.Name | PositioningSolver/src/data_types/gnss/Constellation.py:5-15 | every system's string value is one of the available constellation names |
| Constellations.NewSatelliteSystem | PositioningSolver/src/data_types/gnss/Constellation.py:12-17 | construction succeeds exactly when the upper-cased content is an available name, and the value is that upper-cased name; otherwise ValueError |
| Constellations.NameRoundTrip | PositioningSolver/src/data_types/gnss/Constellation.py:12-17 | constructing from a system's own name, or from any content that upper-cases to it, gives that system back |
| Constellations.IsGPS | PositioningSolver/src/data_types/gnss/Constellation.py:42-43 | true exactly for GPS |
| Constellations.IsGAL | PositioningSolver/src/data_types/gnss/Constellation.py:45-46 | true exactly for Galileo |
| Constellations.GetSystemShort | PositioningSolver/src/data_types/gnss/Constellation.py:51-56 | "G" exactly for GPS, "E" exactly for Galileo, "U" exactly for UNKNOWN |
| Constellations.SatelliteSystemFactory | PositioningSolver/src/data_types/gnss/Constellation.py:64-79 | succeeds exactly for "GPS", "G", "GAL", "E" in any case, never yields UNKNOWN, and yields GPS exactly for "GPS"/"G"; otherwise UnknownConstellation |
| Constellations.FactoryInvertsNames | PositioningSolver/src/data_types/gnss/Constellation.py:51-79 | the factory inverts both the long name and the one-letter code of GPS and Galileo, and the code maps back to the name |
| Constellations.UnknownIsNotFactoryMade | PositioningSolver/src/data_types/gnss/Constellation.py:12-79 | "UNKNOWN" is a valid system name, yet the factory refuses it |
| ServiceTables.ServicesAreTwoCharacters | PositioningSolver/src/gnss/data_types/ServicesUtils.py:11-18 | every GPS and Galileo service code has two characters |
| ServiceTables.CodeMapsInvert | PositioningSolver/src/gnss/data_types/ServicesUtils.py:20-24 | the code map and the constellation map invert each other on GPS and Galileo; UNKNOWN's code has no way back |
| ServiceTables.TableFor | PositioningSolver/src/gnss/data_types/ServicesUtils.py:30-38 | only "GPS" and "GAL" have a service table |
| ServiceTables.TypesFor | PositioningSolver/src/gnss/data_types/ServicesUtils.py:27-56 | no more types than services, none for another constellation, each the letter followed by the band digit |
| ServiceTables.TypesForMembers | PositioningSolver/src/gnss/data_types/ServicesUtils.py:27-56 | a type is produced exactly when some listed service is in the constellation's table and the type is the letter plus that service's band |
| ServiceTables.TypesForAllKnown | PositioningSolver/src/gnss/data_types/ServicesUtils.py:27-56 | when every service is known, one type per service, in order |
| ServiceTables.TypesFromService | PositioningSolver/src/gnss/data_types/ServicesUtils.py:30-40 | the loop builds exactly `TypesFor` |
| ServiceTables.GetCodeTypeFromService | PositioningSolver/src/gnss/data_types/ServicesUtils.py:27-40 | code types are `TypesFor` with letter 'C' |
| ServiceTables.GetCarrierTypeFromService | PositioningSolver/src/gnss/data_types/ServicesUtils.py:43-56 | carrier types are `TypesFor` with letter 'L' |
| Containers.Container.constructor | PositioningSolver/src/data_types/containers/Container.py:13-14 | a new container has its class name and slots and no attribute stored |
| Containers.Container.SetAttr | PositioningSolver/src/data_types/containers/Container.py:16-21 | a slot name is stored (and only it changes); any other name raises AttributeError and stores nothing; only slot names are ever stored |
| Containers.Container.GetAttr | PositioningSolver/src/data_types/containers/Container.py:23-28 | a stored slot reads back its value; a name outside the slots is AttributeError; a slot never assigned is KeyError |
| Containers.Container.Str | PositioningSolver/src/data_types/containers/Container.py:30-36 | `str()` is `StrOf`: the class name and `name=value` for every slot in order, joined by ", " |
| Containers.Pairs | PositioningSolver/src/data_types/containers/Container.py:33-34 | one `name=value` entry per slot |
| Containers.MissingSlotFails | PositioningSolver/src/data_types/containers/Container.py:33-34 | a slot never assigned makes `str()` raise KeyError, whatever the class name |
| Containers.PairsSnoc | PositioningSolver/src/data_types/containers/Container.py:32-35 | appending one slot appends one entry, and cutting the trailing ", " leaves the entries joined by ", " |
| SimData.UnitsDefault | PositioningSolver/src/ins/data_mng/data_sim.py:31-34 | the internal units are the given ones, or `['']` when none are given |
| SimData.OutputUnitsDefault | PositioningSolver/src/ins/data_mng/data_sim.py:36-39 | the output units are the given ones, or the internal units when none are given |
| SimData.InitUnitsAsWritten | PositioningSolver/src/ins/data_mng/data_sim.py:31-47 | the constructor's checks as written: success exactly when units and legend are given, have the same length, and any output units match that length; failures are ValueError or TypeError; omitted units always fail |
| SimData.OmittedUnitsFail | PositioningSolver/src/ins/data_mng/data_sim.py:31-47 | as written, omitting the units fails with TypeError for every legend; the corrected checks accept the default `['']` with a one-entry legend |
| SimData.InitUnits | PositioningSolver/src/ins/data_mng/data_sim.py:31-47 | the corrected checks: the legend is compared with the internal units; on success internal units, output units and legend have one length; with units given they agree with the checks as written |
| SimData.NewSimulatedData | PositioningSolver/src/ins/data_mng/data_sim.py:8-49 | construction fails with the error `InitUnits` gives, else a fresh object with the checked units, the legend and no data |
| SimData.SimulatedData.constructor | PositioningSolver/src/ins/data_mng/data_sim.py:28-49 | the fields are stored as given and the data starts as None |
| SimData.SimulatedData.AddData | PositioningSolver/src/ins/data_mng/data_sim.py:51-76 | units are never changed; without units or with equal units the data is stored as given; units of another length raise ValueError and store nothing; other units convert the data first, and a failed conversion stores nothing |
| Epochs.Normalized | PositioningSolver/src/data_types/basics/Epoch.py:92-104 | `fix_week` keeps the instant, leaves the seconds in [0, 604800], changes nothing already there, and never rolls over exactly 604800 or 0 |
| Epochs.SameInstantSameFields | PositioningSolver/src/data_types/basics/Epoch.py:226-236 | two epochs at the same instant with seconds in the same half-open week are field-by-field equal |
| Epochs.Plus | PositioningSolver/src/data_types/basics/Epoch.py:181-193 | a non-number is TypeError; otherwise the result is normalised and `time_diff` seconds later |
| Epochs.Minus | PositioningSolver/src/data_types/basics/Epoch.py:207-222 | the difference of the two instants in seconds; a non-epoch is TypeError |
| Epochs.PlusThenMinus | PositioningSolver/src/data_types/basics/Epoch.py:181-222 | `(e + d) - e == d` |
| Epochs.Equals | PositioningSolver/src/data_types/basics/Epoch.py:226-239 | week and seconds compared without normalising; a non-epoch is TypeError |
| Epochs.GreaterFollowsTime | PositioningSolver/src/data_types/basics/Epoch.py:241-255 | a later instant is greater, and a greater epoch is never earlier |
| Epochs.OrderFacts | PositioningSolver/src/data_types/basics/Epoch.py:241-273 | `<` is the converse of `>`, `<=` is not-`>`, `>` is irreflexive, asymmetric and transitive, epochs neither greater nor less normalise to the same pair, and exactly one of <, same, > holds |
| Epochs.WeekBoundaryIsAmbiguous | PositioningSolver/src/data_types/basics/Epoch.py:92-104 | (w, 604800) and (w + 1, 0) are the same instant, yet `==` says false and `<` says true |
| Epochs.AddSeconds | PositioningSolver/src/data_types/basics/Epoch.py:161 | adding leap seconds to a timedelta keeps it normalised and adds exactly those seconds |
| Epochs.FromDateTime | PositioningSolver/src/data_types/basics/Epoch.py:148-167 | `_from_datetime` gives whole seconds in [0, 604800) and keeps the elapsed time plus the leap seconds |
| Epochs.Construct | PositioningSolver/src/data_types/basics/Epoch.py:26-79 | a time system other than gps/utc (any case) is TypeError; a tuple or list is stored verbatim without normalising; a date is converted by `_from_datetime`; failing parses, other types and a list not of length 2 (a tuple of fewer than 2 items) are errors |
| Epochs.EpochObject.constructor | PositioningSolver/src/data_types/basics/Epoch.py:78-79 | the instance holds the given week and seconds |
| Epochs.EpochObject.New | PositioningSolver/src/data_types/basics/Epoch.py:26-79 | construction succeeds, fails and stores exactly as `Construct` says |
| Epochs.EpochObject.Copy | PositioningSolver/src/data_types/basics/Epoch.py:82-90 | a fresh instance with the same week and seconds |
| Epochs.EpochObject.FixWeek | PositioningSolver/src/data_types/basics/Epoch.py:92-104 | the new fields are `Normalized` of the old ones |
| Epochs.EpochObject.Add | PositioningSolver/src/data_types/basics/Epoch.py:181-193 | a fresh epoch equal to `Plus`, TypeError for a non-number; `self` untouched |
| Epochs.EpochObject.IAdd | PositioningSolver/src/data_types/basics/Epoch.py:195-205 | in place: the fields become `Plus` of the old ones, or TypeError leaves them |
| Epochs.EpochObject.Gt | PositioningSolver/src/data_types/basics/Epoch.py:241-255 | answers `Greater` of the old values and leaves both epochs normalised |
| Epochs.EpochObject.Ge | PositioningSolver/src/data_types/basics/Epoch.py:257-261 | answers `GreaterOrEqual` and leaves both epochs normalised |
| Epochs.EpochObject.Le | PositioningSolver/src/data_types/basics/Epoch.py:263-267 | answers `LessOrEqual` and leaves both epochs normalised |
| Epochs.EpochObject.Lt | PositioningSolver/src/data_types/basics/Epoch.py:269-273 | answers `Less` and leaves both epochs normalised |
| Errors.ErrorsHierarchy | PositioningSolver/src/utils/errors.py:5-116 | every class of the module derives from PositioningSolver except ParseError (a ValueError) and the three warnings (Warnings) |
| Errors.TypeOfNameLowered | PositioningSolver/src/utils/errors.py:17-19 | the `type` of an `_Unknown` error is the class name past its seventh character, as long as that part and letter by letter lower-cased |
| Errors.ConstellationType | PositioningSolver/src/utils/errors.py:17-40 | `UnknownConstellation(...).type` is "constellation" |
| Errors.ServiceType | PositioningSolver/src/utils/errors.py:17-44 | `UnknownService(...).type` is "service" |
| Errors.FrequencyType | PositioningSolver/src/utils/errors.py:17-50 | `UnknownFrequency(...).type` is "frequency" |
| Errors.DatatypeType | PositioningSolver/src/utils/errors.py:17-56 | `UnknownDatatype(...).type` is "datatype" |
| Errors.ConstellationMessage | PositioningSolver/src/utils/errors.py:21-40 | `str(UnknownConstellation(n))` is "Unknown constellation 'n'" |
| Errors.ServiceMessage | PositioningSolver/src/utils/errors.py:21-44 | `str(UnknownService(n))` is "Unknown service 'n'" |
| Errors.FrequencyMessage | PositioningSolver/src/utils/errors.py:21-50 | `str(UnknownFrequency(n))` is "Unknown frequency 'n'" |
| Errors.DatatypeMessage | PositioningSolver/src/utils/errors.py:21-56 | `str(UnknownDatatype(n))` is "Unknown datatype 'n'" |
| FiniteDiff.FiniteDifference | PositioningSolver/src/math_utils/finite_diff.py:1-5 | a step that is neither int nor float is TypeError, a zero step ZeroDivisionError; otherwise `x1 + step * r == x2`, and equal inputs give 0 |
| FiniteDiff.SlopeRecovered | PositioningSolver/src/math_utils/finite_diff.py:5 | the difference between `x` and `x + step * slope` is `slope` |
| FiniteDiff.Antisymmetric | PositioningSolver/src/math_utils/finite_diff.py:5 | exchanging the two values negates the difference |
| Processes.NewGen | PositioningSolver/src/stochastic_process/process.py:5-8 | the base process stores `dim` and `axis` and is named "General Process" |
| Processes.GeneralProcessNames | PositioningSolver/src/stochastic_process/process.py:5-18 | a base process built with any `dim` and `axis` prints as "General Process" and its `axes` is that `axis` |
| Processes.GeneralProcessRepr | PositioningSolver/src/stochastic_process/process.py:5-11 | `repr(StochasticProcessGen(dim=2, axis=3))` is "StochasticProcess(General Process, dim = 2, axis = 3)" |
| Processes.Compute | PositioningSolver/src/stochastic_process/process.py:20-21 | a (dim × axis) array of zeros; a negative dimension is ValueError |
| Processes.Normal | PositioningSolver/src/stochastic_process/gauss_markov.py:35 | a draw fails with ValueError exactly for a negative scale or a scale that does not broadcast to the size; value k is its scale times the k-th next sample of the stream |
| Processes.NormalOfZeros | PositioningSolver/src/stochastic_process/random_walk.py:29 | a stream of zeros draws zeros whatever the scale |
| RandomWalkProcess.NewRandomWalk | PositioningSolver/src/stochastic_process/random_walk.py:7-19 | an initial value of another length than `axis` is TypeError; without one the walk starts at zeros, and a negative `axis` is ValueError; name "RandomWalk" |
| RandomWalkProcess.RandomWalkNames | PositioningSolver/src/stochastic_process/random_walk.py:7-19 | a random walk that is built prints as "RandomWalk" and its `axes` is the `axis` it was given |
| RandomWalkProcess.Row | PositioningSolver/src/stochastic_process/random_walk.py:21-33 | each row of the walk has one value per axis |
| RandomWalkProcess.RowIsInitialPlusNoise | PositioningSolver/src/stochastic_process/random_walk.py:25-31 | row t is the initial value plus the sum of the draws of steps 1 to t |
| RandomWalkProcess.ZeroNoiseStays | PositioningSolver/src/stochastic_process/random_walk.py:25-31 | without noise the walk stays at its initial value |
| RandomWalkProcess.AddRow | PositioningSolver/src/stochastic_process/random_walk.py:31 | row t becomes row t − 1 plus the draw; no other row changes |
| RandomWalkProcess.Compute | PositioningSolver/src/stochastic_process/random_walk.py:21-33 | fails exactly as `ComputeError` says (negative dim ValueError, dim 0 IndexError, a bad scale ValueError); otherwise a fresh dim × axis array whose row t is `Row(t)`, having consumed (dim − 1)·axis samples |
| RandomWalkProcess.ComputeError | PositioningSolver/src/stochastic_process/random_walk.py:21-31 | the errors are ValueError (negative `dim`, or a bad scale at the first draw) and IndexError (`dim` 0); there is none exactly when `dim` is 1, or `dim` is larger and the scale draws |
| RandomWalkProcess.Steps | PositioningSolver/src/stochastic_process/random_walk.py:28-31 | the loop fails exactly when a step is needed and the scale is bad; otherwise every row is `Row(t)` |
| GaussMarkovProcess.NewGaussMarkov | PositioningSolver/src/stochastic_process/gauss_markov.py:7-21 | the same initial-value checks as the random walk; the sampling and correlation times are stored; name "GaussMarkov" |
| GaussMarkovProcess.GaussMarkovNames | PositioningSolver/src/stochastic_process/gauss_markov.py:7-21 | a Gauss–Markov process that is built prints as "GaussMarkov" and its `axes` is the `axis` it was given |
| GaussMarkovProcess.NoiseScale | PositioningSolver/src/stochastic_process/gauss_markov.py:34 | one noise scale per standard deviation |
| GaussMarkovProcess.Recurrence | PositioningSolver/src/stochastic_process/gauss_markov.py:27-36 | every state of the recurrence has one value per axis |
| GaussMarkovProcess.ZeroNoiseDecays | PositioningSolver/src/stochastic_process/gauss_markov.py:27-36 | without noise, state t is the initial value times decay^t |
| GaussMarkovProcess.ZeroStreamZeroNoise | PositioningSolver/src/stochastic_process/gauss_markov.py:35 | a stream of zeros makes every step's draw zero |
| GaussMarkovProcess.Scaled | PositioningSolver/src/stochastic_process/gauss_markov.py:36 | repeated decay keeps the number of axes |
| GaussMarkovProcess.ZeroNoiseScales | PositioningSolver/src/stochastic_process/gauss_markov.py:36 | with zero draws the recurrence is repeated scaling by the decay |
| GaussMarkovProcess.ScaledIsPower | PositioningSolver/src/stochastic_process/gauss_markov.py:36 | scaling t times by the decay is scaling once by decay^t |
| GaussMarkovProcess.Compute | PositioningSolver/src/stochastic_process/gauss_markov.py:23-38 | fails exactly as `ComputeError` says (negative dim ValueError, dim 0 IndexError, zero correlation time ZeroDivisionError, a bad scale ValueError); otherwise a fresh dim × axis array whose row t is the recurrence with decay exp(−Ts/τ) and scale std·sqrt(1 − exp(−2Ts/τ)) |
| GaussMarkovProcess.ComputeError | PositioningSolver/src/stochastic_process/gauss_markov.py:23-36 | the errors are ValueError, IndexError and ZeroDivisionError; ZeroDivisionError exactly when `dim` is at least 1 and the correlation time is 0; success needs `dim` ≥ 1 and a non-zero correlation time |
| GaussMarkovProcess.Steps | PositioningSolver/src/stochastic_process/gauss_markov.py:32-36 | the loop fails exactly when a step is needed and the scale is bad; otherwise every row is the recurrence |
| GaussMarkovProcess.DecayRow | PositioningSolver/src/stochastic_process/gauss_markov.py:36 | row t becomes decay times row t − 1 plus the noise; no other row changes |
| RandomConstantProcess.NewRandomConstant | PositioningSolver/src/stochastic_process/random_constant.py:7-12 | a process of `dim` samples on one axis, named "RandomConstant" |
| RandomConstantProcess.RandomConstantNames | PositioningSolver/src/stochastic_process/random_constant.py:7-12 | a random constant prints as "RandomConstant" and has one axis whatever `dim`; `repr` of one with `dim=4` is "StochasticProcess(RandomConstant, dim = 4, axis = 1)" |
| RandomConstantProcess.Compute | PositioningSolver/src/stochastic_process/random_constant.py:14-16 | a bad scale or a negative dim is ValueError; otherwise `dim` copies of one draw, consuming one sample |
| GnssState.ValidateFrame | PositioningSolver/src/data_types/state_space/gnss_state.py:9-24 | passes exactly for "ECEF" and "ENU", FrameError otherwise |
| GnssState.ValidateForm | PositioningSolver/src/data_types/state_space/gnss_state.py:27-41 | passes exactly for "cartesian" and "geodetic", FormError otherwise |
| GnssState.FrameOf | PositioningSolver/src/data_types/state_space/gnss_state.py:9-24 | a validated frame name stands for the frame of that name |
| GnssState.FormOf | PositioningSolver/src/data_types/state_space/gnss_state.py:27-41 | a validated form name stands for the form of that name |
| GnssState.SetFormV | PositioningSolver/src/data_types/state_space/gnss_state.py:202-224 | an invalid form is FormError and changes nothing; the current form changes nothing; a real change ends in the new form and the ECEF frame; the only failures are FormError, TypeError (no observer) and RecursionError; the other metadata is kept |
| GnssState.ToEcefV | PositioningSolver/src/data_types/state_space/gnss_state.py:230-267 | forcing ECEF changes nothing in ECEF, fails with TypeError without an observer, and otherwise ends in ECEF with the form kept |
| GnssState.ToCartesianV | PositioningSolver/src/data_types/state_space/gnss_state.py:214-224 | forcing cartesian keeps frame, observer and metadata and changes nothing already cartesian |
| GnssState.SetFrameV | PositioningSolver/src/data_types/state_space/gnss_state.py:230-267 | an invalid frame is FrameError and changes nothing; the current frame changes nothing; a real change ends in the new frame in cartesian form; without an observer the position is left cartesian and TypeError is raised |
| GnssState.GeodeticEnuIsStuck | PositioningSolver/src/data_types/state_space/gnss_state.py:202-267 | a geodetic position in ENU cannot change form or frame: the two setters call each other without end (RecursionError) and nothing changes |
| GnssState.FormRoundTrip | PositioningSolver/src/data_types/state_space/gnss_state.py:202-224 | with inverse conversions, ECEF cartesian → geodetic → cartesian restores the position |
| GnssState.FrameRoundTrip | PositioningSolver/src/data_types/state_space/gnss_state.py:230-267 | with inverse conversions and a geodetic observer, ECEF → ENU → ECEF restores the position |
| GnssState.CopyV | PositioningSolver/src/data_types/state_space/gnss_state.py:98-121 | a copy without arguments is the same position; the metadata is kept; an invalid frame is FrameError; a frame alone is applied |
| GnssState.NewCheck | PositioningSolver/src/data_types/state_space/gnss_state.py:47-59 | construction passes exactly for three coordinates and a valid frame and form; an unknown form fails first (KeyError at the form lookup), then a wrong length (OrbitError), then the frame (FrameError) |
| GnssState.SliceBound | PositioningSolver/src/data_types/state_space/gnss_state.py:134-135 | a slice bound is clamped into [0, n] and a bound already there is kept |
| GnssState.PositionGNSS.constructor | PositioningSolver/src/data_types/state_space/gnss_state.py:61-70 | the buffer holds the coordinates; frame, form, observer and the other keyword arguments are stored |
| GnssState.PositionGNSS.SetField | PositioningSolver/src/data_types/state_space/gnss_state.py:223 | the buffer is overwritten with the new coordinates |
| GnssState.PositionGNSS.SetForm | PositioningSolver/src/data_types/state_space/gnss_state.py:202-224 | the new state and outcome are `SetFormV` of the old state |
| GnssState.PositionGNSS.ToEcef | PositioningSolver/src/data_types/state_space/gnss_state.py:212 | the new state and outcome are `ToEcefV` of the old state |
| GnssState.PositionGNSS.SetFrame | PositioningSolver/src/data_types/state_space/gnss_state.py:230-267 | the new state and outcome are `SetFrameV` of the old state |
| GnssState.PositionGNSS.SetObserver | PositioningSolver/src/data_types/state_space/gnss_state.py:194-196 | only the observer changes |
| GnssState.PositionGNSS.Copy | PositioningSolver/src/data_types/state_space/gnss_state.py:98-121 | a fresh, independent object holding `CopyV`, or its error; this object unchanged |
| GnssState.PositionGNSS.GetItem | PositioningSolver/src/data_types/state_space/gnss_state.py:132-140 | an integer index in [−3, 3) gives that coordinate (negative from the end), otherwise IndexError; a slice `[start:stop]` gives exactly the coordinates from the clamped start to the clamped stop; "state_str" gives "position", "observer" the observer when set, another stored keyword its value, and any other name KeyError |
| GnssState.PositionGNSS.SliceMatchesIndex | PositioningSolver/src/data_types/state_space/gnss_state.py:132-140 | every element of a slice is what indexing answers at its position, and `self[:]` is the three coordinates in order |
| GnssState.NewPositionGNSS | PositioningSolver/src/data_types/state_space/gnss_state.py:47-70 | construction fails with `NewCheck`'s error, else a fresh position with the coordinates, frame, form, observer and keyword arguments |
| Gravity.CheckShape | PositioningSolver/src/ins/mechanization/gravity.py:16-27 | a 1-D shape passes exactly when it is (3,), a deeper one exactly when its second axis is 3; otherwise ValueError (IndexError for a 0-d shape) |
| Gravity.Flip | PositioningSolver/src/ins/mechanization/gravity.py:57-61 | the third coordinate (the height) changes sign, the others are kept |
| Gravity.FlipTwice | PositioningSolver/src/ins/mechanization/gravity.py:57-61 | negating the height twice restores the position: `lla2lld` is its own inverse |
| Gravity.LldRoundTrip | PositioningSolver/src/ins/mechanization/gravity.py:29-81 | when the geodetic conversions are inverse, `lld2ecef(ecef2lld(x)) == x` |
| Gravity.EcefRoundTrip | PositioningSolver/src/ins/mechanization/gravity.py:29-81 | when the geodetic conversions are inverse, `ecef2lld(lld2ecef(x)) == x` |
| Gravity.Lla2Lld | PositioningSolver/src/ins/mechanization/gravity.py:43-63 | the shape check's error, else a fresh copy of the same shape whose every position has its height negated |
| Gravity.Ecef2Lld | PositioningSolver/src/ins/mechanization/gravity.py:15-40 | the shape check's error, else a fresh array of the same shape holding each position converted to geodetic with the height negated |
| Gravity.Lld2Ecef | PositioningSolver/src/ins/mechanization/gravity.py:66-89 | the shape check's error, else a fresh array of the same shape holding each position converted back to ECEF from the negated height |
| Gravity.RotationSquared | PositioningSolver/src/ins/mechanization/gravity.py:161-167 | only the modes "earth" and "inertial" are accepted (TypeError otherwise); the squared rotation rate is zero exactly in the inertial mode |
| Navigation.NewNavigationHeader | PositioningSolver/src/data_types/containers/NavigationData.py:12-24 | a fresh header with exactly the five header slots, all None except `iono_corrections`, which is an empty dictionary |
| Navigation.NewNavigationPoint | PositioningSolver/src/data_types/containers/NavigationData.py:27-44 | a fresh message with the GPS message slots, all None |
| Navigation.FloorEntry | PositioningSolver/src/data_types/containers/NavigationData.py:126-159 | the lookup answers the latest epoch not after the one asked, with its data; TimeSeriesError exactly when every stored epoch is later; the series is left sorted |
| Navigation.NavigationDataMap.constructor | PositioningSolver/src/data_types/containers/NavigationData.py:62-64 | no satellites and an empty header series |
| Navigation.NavigationDataMap.SetData | PositioningSolver/src/data_types/containers/NavigationData.py:77-101 | AttributeError for an argument of the wrong type, changing nothing; otherwise the message is stored under the epoch in that satellite's series (a new series for a new satellite, appended to the satellite order) |
| Navigation.NavigationDataMap.SetHeader | PositioningSolver/src/data_types/containers/NavigationData.py:103-114 | AttributeError for an argument of the wrong type; otherwise the header is stored under its `first_epoch` |
| Navigation.NavigationDataMap.GetSatData | PositioningSolver/src/data_types/containers/NavigationData.py:120-124 | the satellite's series, or KeyError when it has none |
| Navigation.NavigationDataMap.GetSatDataForEpoch | PositioningSolver/src/data_types/containers/NavigationData.py:126-142 | KeyError for an unknown satellite; otherwise the message of the latest epoch not after the one asked, or TimeSeriesError |
| Navigation.NavigationDataMap.GetHeaderData | PositioningSolver/src/data_types/containers/NavigationData.py:144-159 | the header of the latest epoch not after the one asked, or TimeSeriesError |
| Navigation.SetThenLookup | PositioningSolver/src/data_types/containers/NavigationData.py:77-142 | a message just set for an epoch is found by a lookup at that epoch |
| Observations.NewHeader | PositioningSolver/src/gnss/data_types/ObservationData.py:11-22 | a fresh header with the seven observation header slots, all None |
| Observations.NewEpochData | PositioningSolver/src/gnss/data_types/ObservationData.py:37-38 | no satellites |
| Observations.WithObservable | PositioningSolver/src/gnss/data_types/ObservationData.py:40-61 | the epoch data keeps its invariant: each satellite listed once, exactly the satellites with observations |
| Observations.SetObservableKeeps | PositioningSolver/src/gnss/data_types/ObservationData.py:40-61 | a new observation is appended for a known satellite unless it is already there (no overwriting), a new satellite gets a list of it alone and is listed last; other satellites are untouched |
| Observations.FirstOfType | PositioningSolver/src/gnss/data_types/ObservationData.py:83-86 | the index of the first observation of the type, or none exactly when no observation has it |
| Observations.Observables | PositioningSolver/src/gnss/data_types/ObservationData.py:63-70 | the satellite's observations, or KeyError |
| Observations.ObservableOf | PositioningSolver/src/gnss/data_types/ObservationData.py:72-86 | KeyError for an unknown satellite; otherwise an observation of the type exists exactly when one is answered, else NonExistentObservable |
| Observations.HasObservableOf | PositioningSolver/src/gnss/data_types/ObservationData.py:88-93 | KeyError for an unknown satellite; otherwise True exactly when `get_observable` succeeds |
| Observations.SatellitesWithAll | PositioningSolver/src/gnss/data_types/ObservationData.py:98-113 | exactly the listed satellites that have every requested type |
| Observations.Kept | PositioningSolver/src/gnss/data_types/ObservationData.py:125-147 | the observations that pass the test, and only those |
| Observations.RemoveWhere | PositioningSolver/src/gnss/data_types/ObservationData.py:125-147 | KeyError for an unknown satellite; otherwise its list keeps the observations that pass, the satellite is dropped when none does, other satellites are untouched |
| Observations.RemoveObservableOf | PositioningSolver/src/gnss/data_types/ObservationData.py:125-135 | what remains for the satellite is exactly the observations of other types; when nothing remains, all were of that type |
| Observations.RemoveFrequencyOf | PositioningSolver/src/gnss/data_types/ObservationData.py:137-147 | what remains for the satellite is exactly the observations of other frequency bands; when nothing remains, all were of that band |
| Observations.SetThenHas | PositioningSolver/src/gnss/data_types/ObservationData.py:40-93 | an observable just set is found, and `has_observable` says so |
| Observations.RemoveThenAbsent | PositioningSolver/src/gnss/data_types/ObservationData.py:72-135 | after removing a type it is no longer found: NonExistentObservable and False |
| Observations.WithoutSatellite | PositioningSolver/src/gnss/data_types/ObservationData.py:149-151 | the satellite is gone and the others are untouched |
| Observations.EpochData.constructor | PositioningSolver/src/gnss/data_types/ObservationData.py:37-38 | an empty epoch |
| Observations.EpochData.SetObservable | PositioningSolver/src/gnss/data_types/ObservationData.py:40-61 | answers True and the new state is `WithObservable` of the old |
| Observations.EpochData.GetObservables | PositioningSolver/src/gnss/data_types/ObservationData.py:63-70 | the satellite's observations, answered exactly when it has some |
| Observations.EpochData.GetObservable | PositioningSolver/src/gnss/data_types/ObservationData.py:72-86 | the loop answers `ObservableOf` |
| Observations.EpochData.HasObservable | PositioningSolver/src/gnss/data_types/ObservationData.py:88-93 | the loop answers `HasObservableOf` |
| Observations.EpochData.GetSatellites | PositioningSolver/src/gnss/data_types/ObservationData.py:95-96 | exactly the satellites with observations |
| Observations.EpochData.GetSatellitesForDatatypes | PositioningSolver/src/gnss/data_types/ObservationData.py:98-113 | the loop answers `SatellitesWithAll` over the satellites in order |
| Observations.EpochData.HasAllTypes | PositioningSolver/src/gnss/data_types/ObservationData.py:102-107 | the inner loop's flag is True exactly when the satellite has every requested type |
| Observations.EpochData.RemoveObservable | PositioningSolver/src/gnss/data_types/ObservationData.py:125-135 | the new state is `RemoveObservableOf` of the old, or KeyError with nothing changed |
| Observations.EpochData.RemoveForFrequency | PositioningSolver/src/gnss/data_types/ObservationData.py:137-147 | the new state is `RemoveFrequencyOf` of the old, or KeyError with nothing changed |
| Observations.EpochData.RemoveKept | PositioningSolver/src/gnss/data_types/ObservationData.py:125-147 | the filtering loop leaves `RemoveWhere` of the old state |
| Observations.KeptLoop | PositioningSolver/src/gnss/data_types/ObservationData.py:125-147 | the rebuilt list is exactly the observations `keep` accepts, in their order (`Kept`) |
| Observations.EpochData.RemoveSatellite | PositioningSolver/src/gnss/data_types/ObservationData.py:149-151 | the new state is `WithoutSatellite` of the old |
| Observations.WithObservation | PositioningSolver/src/gnss/data_types/ObservationData.py:226-234 | the epoch's data gains the observation (a new epoch starts empty and is appended, unsorted); other epochs are untouched |
| Observations.SeriesWithoutObservable | PositioningSolver/src/gnss/data_types/ObservationData.py:249-267 | KeyError when the epoch has no observations of the satellite; otherwise the type is removed there and an epoch left without satellites is removed; other epochs are untouched |
| Observations.SetObservationThenGet | PositioningSolver/src/gnss/data_types/ObservationData.py:226-234 | an observation just set is found at its epoch |
| Observations.AddOnce | PositioningSolver/src/gnss/data_types/ObservationData.py:237-241 | the value is added to the list when missing; a list without repeats stays without repeats |
| Observations.FirstGap | PositioningSolver/src/gnss/data_types/ObservationData.py:358-367 | the first epoch, stepping back by the rate, with no observations of the satellite: it has none, it lies a whole number of rates before the start, and the step count is zero exactly when the start has none; defined whenever the rate is non-zero or the start has no observations |
| Observations.FirstGapIsFirst | PositioningSolver/src/gnss/data_types/ObservationData.py:358-367 | the gap is reached by repeated `epoch + (-rate)` steps from the start, and every epoch before it on that walk has observations: it is the first gap, not just some gap |
| Observations.ZeroRateStays | PositioningSolver/src/gnss/data_types/ObservationData.py:361-364 | with rate 0 an epoch that has observations steps to itself and still has them: the loop of `get_first_arc_epoch` never ends |
| Observations.StepBack | PositioningSolver/src/gnss/data_types/ObservationData.py:364 | `epoch + (-rate)` is `rate` seconds earlier |
| Observations.StepsIsProduct | PositioningSolver/src/gnss/data_types/ObservationData.py:358-367 | the `n` steps the walk counts cover `n * rate` seconds, so the gap lies `n * rate` seconds before the start |
| Observations.ObservationData.constructor | PositioningSolver/src/gnss/data_types/ObservationData.py:182-185 | an empty series and empty type and satellite lists |
| Observations.ObservationData.SetObservation | PositioningSolver/src/gnss/data_types/ObservationData.py:226-241 | the series gains the observation; the type and satellite are listed once, and afterwards `has_type` and `has_satellite` answer true for them |
| Observations.ObservationData.SetObservable | PositioningSolver/src/gnss/data_types/ObservationData.py:195-224 | TypeError for an argument of the wrong type, changing nothing; otherwise `set_observation` with the new observation |
| Observations.ObservationData.RemoveObservable | PositioningSolver/src/gnss/data_types/ObservationData.py:249-267 | the new series is `SeriesWithoutObservable` of the old, or KeyError with nothing changed |
| Observations.ObservationData.RemoveForFrequency | PositioningSolver/src/gnss/data_types/ObservationData.py:269-283 | KeyError when the epoch or satellite is missing; otherwise that epoch's satellite loses the band, and the epoch is kept even when empty |
| Observations.ObservationData.GetEpochData | PositioningSolver/src/gnss/data_types/ObservationData.py:286-300 | the epoch's data, or NonExistentObservable |
| Observations.ObservationData.GetObservablesAtEpoch | PositioningSolver/src/gnss/data_types/ObservationData.py:302-319 | the observations of the satellite at the epoch, or NonExistentObservable |
| Observations.ObservationData.GetObservableAtEpoch | PositioningSolver/src/gnss/data_types/ObservationData.py:321-338 | an observation of the type for that satellite and epoch, or NonExistentObservable |
| Observations.ObservationData.GetEpochs | PositioningSolver/src/gnss/data_types/ObservationData.py:340-341 | the epochs in ascending order; the series is sorted as a side effect |
| Observations.ObservationData.GetRate | PositioningSolver/src/gnss/data_types/ObservationData.py:352-356 | the gap between the first two epochs when there are more than two, else EmptyObservationData |
| Observations.ObservationData.GetFirstArcEpoch | PositioningSolver/src/gnss/data_types/ObservationData.py:358-367 | for a non-zero rate (or a start without observations) the loop ends and answers the first gap plus one rate |
| RinexLines.DateFields | PositioningSolver/src/io_manager/import_rinex/RinexObsReader.py:145-150 | six date fields: five integers and the floor of the seconds, read in order; a missing field is IndexError, an unparsable one ValueError |
| RinexLines.DateFieldsFrom | PositioningSolver/src/io_manager/import_rinex/RinexObsReader.py:145-150 | the date fields from the `k`-th on, with the same error rules |
| RinexLines.EpochFromFields | PositioningSolver/src/io_manager/import_rinex/RinexObsReader.py:152 | no time system is AttributeError; in GPS time the epoch is the date's offset from the GPS reference; a date that does not exist is an error |
| RinexLines.AllReals | PositioningSolver/src/io_manager/import_rinex/RinexObsReader.py:134 | every field converted to a float, in order, exactly when each converts |
| RinexLines.TimeSystemSet | PositioningSolver/src/io_manager/import_rinex/RinexObsReader.py:202-214 | the stored time system is always "GPS"; the warning is logged exactly when the chosen one (the record's, or the default of the satellite system when blank) is not GPS |
| RinexLines.ChosenTimeSystem | PositioningSolver/src/io_manager/import_rinex/RinexObsReader.py:202-208 | a non-blank time system is kept; a blank one becomes the constellation of the satellite system when the table has it, and "GPS" otherwise |
| RinexLines.VersionRecord | PositioningSolver/src/io_manager/import_rinex/RinexObsReader.py:114-129 | an unparsable version is ValueError with nothing set; a version below 3 or a type other than 'O' is FileError; otherwise the version and the satellite system are stored |
| RinexLines.PositionRecord | PositioningSolver/src/io_manager/import_rinex/RinexObsReader.py:131-134 | the receiver position is the tuple of the record's fields, or ValueError with nothing set |
| RinexLines.LeapRecord | PositioningSolver/src/io_manager/import_rinex/RinexObsReader.py:136-138 | the leap seconds are the record's first integer; IndexError on an empty record, ValueError on a non-integer, nothing set |
| RinexLines.FirstObsRecord | PositioningSolver/src/io_manager/import_rinex/RinexObsReader.py:140-152 | the time system is set to GPS first; the first epoch is set exactly when the date parses and exists |
| RinexLines.LastObsRecord | PositioningSolver/src/io_manager/import_rinex/RinexObsReader.py:154-163 | the last epoch is set from the date in the stored time system; without one it is AttributeError; the time system is untouched |
| RinexLines.ColumnsForFacts | PositioningSolver/src/io_manager/import_rinex/RinexObsReader.py:175-187 | every kept code (three characters, a requested service, a type read) is mapped to its first column, and every entry names a real column holding that code |
| RinexLines.ColumnsFromFacts | PositioningSolver/src/io_manager/import_rinex/RinexObsReader.py:180-186 | the loop over the codes keeps the column map's invariant to the end |
| RinexLines.ObsTypesRecord | PositioningSolver/src/io_manager/import_rinex/RinexObsReader.py:165-187 | the count must parse (else ValueError, or IndexError when missing); when it exceeds the codes on the line the next line is read too; a constellation requested in the services gets the column map of the codes, others are untouched |
| RinexLines.HeaderStep | PositioningSolver/src/io_manager/import_rinex/RinexObsReader.py:110-190 | one header line moves the position forward by one or two lines (two when a continuation line is read) unless the header ends |
| RinexLines.HeaderScan | PositioningSolver/src/io_manager/import_rinex/RinexObsReader.py:110-190 | the header stage reads at least one line, and when it ends without an exception the last line it read holds END OF HEADER or is empty (the end of the file) |
| RinexLines.HeaderStopsAtEnd | PositioningSolver/src/io_manager/import_rinex/RinexObsReader.py:110-190 | a header without any known record ends just past its "END OF HEADER" line, with nothing set |
| RinexLines.SkipsTo | PositioningSolver/src/io_manager/import_rinex/RinexObsReader.py:110-190 | lines without a known record are skipped up to "END OF HEADER" |
| RinexLines.ServicesReadAreRequested | PositioningSolver/src/io_manager/import_rinex/RinexObsReader.py:192-200 | the services read for a constellation are exactly the requested ones that appear as a kept code |
| RinexLines.CellValue | PositioningSolver/src/io_manager/import_rinex/RinexObsReader.py:301-322 | a cell outside the line, a blank cell or one whose signal strength digit is below the threshold gives nothing; otherwise the float of the cell without its last two characters |
| RinexLines.CellRules | PositioningSolver/src/io_manager/import_rinex/RinexObsReader.py:308-322 | a parsed cell is discarded exactly when its signal strength digit is below the threshold; a non-digit strength is ignored |
| RinexLines.CellRecords | PositioningSolver/src/io_manager/import_rinex/RinexObsReader.py:302-325 | one record per column in the map at most, all for the line's satellite |
| RinexLines.EpochRecord | PositioningSolver/src/io_manager/import_rinex/RinexObsReader.py:253-281 | an epoch record needs seven fields with a date and an integer flag; a non-zero flag ignores what follows (and needs a previous epoch, for the log message); a zero flag sets the epoch and ignores it exactly when outside the requested arc |
| RinexLines.DataRecord | PositioningSolver/src/io_manager/import_rinex/RinexObsReader.py:283-325 | an ignored epoch gives nothing; an unknown constellation code is KeyError; a known constellation with a column map gives the records of its cells; before any epoch the line fails with the exception of its first deciding cell (AttributeError for a low-signal value, TypeError for another value) and passes when no cell decides |
| RinexLines.FirstDecisive | PositioningSolver/src/io_manager/import_rinex/RinexObsReader.py:302-325 | the exception of the first deciding cell before any epoch is AttributeError or TypeError |
| RinexLines.FirstDecisiveIsFirst | PositioningSolver/src/io_manager/import_rinex/RinexObsReader.py:302-325 | the answer comes from a deciding cell with no deciding cell before it |
| RinexLines.FirstDecisiveNone | PositioningSolver/src/io_manager/import_rinex/RinexObsReader.py:302-325 | with no deciding cell no cell decides and the line gives no records |
| RinexLines.Tagged | PositioningSolver/src/io_manager/import_rinex/RinexObsReader.py:325 | each record paired with the current epoch, in order |
| RinexLines.StoredEpochsInArc | PositioningSolver/src/io_manager/import_rinex/RinexObsReader.py:273-281 | every observation stored lies inside the requested arc |
| RinexReader.Put | PositioningSolver/src/io_manager/import_rinex/RinexObsReader.py:325 | storing one observation keeps the store's invariant and records the satellite, the type and the observation |
| RinexReader.PutAll | PositioningSolver/src/io_manager/import_rinex/RinexObsReader.py:302-325 | storing many observations keeps the store's invariant |
| RinexReader.PutAllAppend | PositioningSolver/src/io_manager/import_rinex/RinexObsReader.py:246-330 | storing two runs of observations is storing the first, then the second |
| RinexReader.PutAllLists | PositioningSolver/src/io_manager/import_rinex/RinexObsReader.py:246-330 | every stored observation's satellite and type are listed, and nothing listed before is lost |
| RinexReader.CellRecordsAppend | PositioningSolver/src/io_manager/import_rinex/RinexObsReader.py:302-325 | the records of two column maps in sequence are the records of each, in order |
| RinexReader.CellRecordsStep | PositioningSolver/src/io_manager/import_rinex/RinexObsReader.py:302-325 | one more column adds its record exactly when its cell gives a value |
| RinexReader.CellRecordsPrefix | PositioningSolver/src/io_manager/import_rinex/RinexObsReader.py:302-325 | a record from part of the columns means a record from all of them |
| RinexReader.PutAllSnoc | PositioningSolver/src/io_manager/import_rinex/RinexObsReader.py:325 | storing one more record is one more `Put` |
| RinexReader.ScanEpochLine | PositioningSolver/src/io_manager/import_rinex/RinexObsReader.py:253-281 | the scan past an epoch line fails with that line's error, or continues in its new state |
| RinexReader.ScanDataLine | PositioningSolver/src/io_manager/import_rinex/RinexObsReader.py:283-330 | the scan past a data line fails with that line's error, or stores its records before the rest |
| RinexReader.TaggedAppend | PositioningSolver/src/io_manager/import_rinex/RinexObsReader.py:325 | tagging two runs of records is tagging each |
| RinexReader.RinexObsReader.constructor | PositioningSolver/src/io_manager/import_rinex/RinexObsReader.py:62-80 | the lines, the configuration and the store are kept; no column map, a header of Nones, nothing read |
| RinexReader.RinexObsReader.SetTimeSystem | PositioningSolver/src/io_manager/import_rinex/RinexObsReader.py:202-214 | the header's time system becomes GPS; the warning is given exactly when the chosen one is not GPS |
| RinexReader.RinexObsReader.BuildColumnMap | PositioningSolver/src/io_manager/import_rinex/RinexObsReader.py:177-186 | the loop builds `ColumnsFor` of the codes |
| RinexReader.RinexObsReader.HeaderLine | PositioningSolver/src/io_manager/import_rinex/RinexObsReader.py:111-190 | one pass of the header loop is `HeaderStep` |
| RinexReader.RinexObsReader.ReadHeader | PositioningSolver/src/io_manager/import_rinex/RinexObsReader.py:95-190 | the header loop is `HeaderScan` from the current line |
| RinexReader.RinexObsReader.ValidateRequestedObservations | PositioningSolver/src/io_manager/import_rinex/RinexObsReader.py:192-200 | passes exactly when every requested service of every constellation with a column map is read, else ConfigError |
| RinexReader.RinexObsReader.StoreCell | PositioningSolver/src/io_manager/import_rinex/RinexObsReader.py:325 | the store gains the observation by `Put` |
| RinexReader.RinexObsReader.StoreCells | PositioningSolver/src/io_manager/import_rinex/RinexObsReader.py:302-325 | after an epoch the cells of a data line are stored in order; before any epoch nothing is stored and the line fails with the exception of its first deciding cell, or passes when none decides |
| RinexReader.RinexObsReader.ReadObs | PositioningSolver/src/io_manager/import_rinex/RinexObsReader.py:216-330 | the observation loop stores exactly what `ObsScan` collects and ends with its outcome |
| RinexReader.RinexObsReader.ReadDataLine | PositioningSolver/src/io_manager/import_rinex/RinexObsReader.py:283-330 | a data line stores its records, or fails with nothing stored |
| RinexReader.RinexObsReader.ReadRecord | PositioningSolver/src/io_manager/import_rinex/RinexObsReader.py:246-330 | one pass of the observation loop: a blank line stops the loop with the store unchanged; otherwise the line is consumed and what it stores, followed by the scan of the rest, is exactly `ObsScan` from that line |
| RinexReader.RinexObsReader.ReadDataRecord | PositioningSolver/src/io_manager/import_rinex/RinexObsReader.py:283-330 | a data line outside an ignored epoch stores its tagged records and continues, or stops the loop with the line's error |
| RinexReader.RinexObsReader.CellsWithoutEpoch | PositioningSolver/src/io_manager/import_rinex/RinexObsReader.py:302-325 | before any epoch line the cell loop stops at the first deciding cell with AttributeError (low signal) or TypeError (a value), and passes when none decides, nothing being stored |
| RinexReader.RinexObsReader.StoreEpochCells | PositioningSolver/src/io_manager/import_rinex/RinexObsReader.py:302-325 | after an epoch line, every record of the line's cells is stored under that epoch, in column order |
| RinexReader.RinexObsReader.StoreCellAt | PositioningSolver/src/io_manager/import_rinex/RinexObsReader.py:303-325 | one column of the map adds its record to the store exactly when its cell gives a value |
| RinexReader.RinexObsReader.Load | PositioningSolver/src/io_manager/import_rinex/RinexObsReader.py:82-93 | the header is read first; its error, or a missing requested service (ConfigError), stores nothing; otherwise the observations are read from the line after the header |
| RmsManager.Diff | PositioningSolver/src/quality_check/rms_manager.py:19 | the element-wise difference of two vectors of one length |
| RmsManager.SumSquares | PositioningSolver/src/quality_check/rms_manager.py:20 | the sum of squares is never negative |
| RmsManager.RmsAt | PositioningSolver/src/quality_check/rms_manager.py:10-20 | the norm of the difference at an epoch both series hold with vectors of one length; a missing epoch is KeyError, a length mismatch TypeError |
| RmsManager.RmsFrom | PositioningSolver/src/quality_check/rms_manager.py:9-21 | succeeds exactly when every epoch is in both series with vectors of one length (else KeyError or TypeError); each epoch then holds its norm, in the order given when the epochs are distinct and new |
| RmsManager.RmsStep | PositioningSolver/src/quality_check/rms_manager.py:10-20 | one pass of the loop is `RmsAt`; the series keep their data |
| RmsManager.ComputeRmsDynamic | PositioningSolver/src/quality_check/rms_manager.py:6-23 | a fresh series that is `RmsFrom` of the epochs, or its error; the input series keep their data |
| RmsManager.Lookup | PositioningSolver/src/quality_check/rms_manager.py:10 | `get_data_for_epoch`: the epoch's data or KeyError; the data are kept |
| RmsManager.DiffAt | PositioningSolver/src/quality_check/rms_manager.py:32-41 | the difference at an epoch both series hold with vectors of one length of at least three; else KeyError, TypeError, or IndexError at `diff[2]` |
| RmsManager.FirstError | PositioningSolver/src/quality_check/rms_manager.py:31-44 | no error exactly when every epoch has a difference with three components |
| RmsManager.DiffStep | PositioningSolver/src/quality_check/rms_manager.py:32-41 | one pass of the loop computes `DiffAt` |
| RmsManager.SetComponents | PositioningSolver/src/quality_check/rms_manager.py:42-44 | the three series each gain one component of the difference at the epoch |
| RmsManager.ComponentSeriesFacts | PositioningSolver/src/quality_check/rms_manager.py:31-44 | the component series holds exactly the epochs, each with that component of the difference, in the order given when distinct |
| RmsManager.ComponentStep | PositioningSolver/src/quality_check/rms_manager.py:31-44 | one more epoch adds its component to the series |
| RmsManager.FirstErrorStep | PositioningSolver/src/quality_check/rms_manager.py:31-44 | an epoch with a good difference keeps the error-free prefix error-free |
| RmsManager.ErrorStepFacts | PositioningSolver/src/quality_check/rms_manager.py:31-44 | one good epoch extends all three component series |
| RmsManager.ComponentValueStep | PositioningSolver/src/quality_check/rms_manager.py:42-44 | one good epoch extends one component series |
| RmsManager.ErrorDynamic | PositioningSolver/src/quality_check/rms_manager.py:26-46 | succeeds exactly when no epoch fails, else that error; the x, y and z series then hold exactly the epochs with the differences' components |
| RmsManager.ErrorStep | PositioningSolver/src/quality_check/rms_manager.py:31-44 | one pass of the loop extends the three series or fails with `DiffAt`'s error |
| RmsManager.ComputeErrorDynamic | PositioningSolver/src/quality_check/rms_manager.py:26-46 | three fresh series that are `ErrorDynamic`, or its error; the inputs keep their data |
| RmsManager.EntryOf | PositioningSolver/src/quality_check/rms_manager.py:57 | an entry holds the coordinates and their norm |
| RmsManager.Sub | PositioningSolver/src/quality_check/rms_manager.py:55 | `true_pos - receiver` coordinate by coordinate |
| RmsManager.StaticEntry | PositioningSolver/src/quality_check/rms_manager.py:53-64 | in ECEF the entry of the true position minus the receiver's; in ENU the receiver's copy converted to ENU around the true position (its errors are those of the frame setter); any other frame stores nothing |
| RmsManager.StaticFrom | PositioningSolver/src/quality_check/rms_manager.py:52-64 | in ECEF every epoch gets its entry and earlier entries are kept; any frame but ENU passes; a frame other than ECEF and ENU changes nothing |
| RmsManager.StaticStep | PositioningSolver/src/quality_check/rms_manager.py:53-64 | one pass of the loop is `StaticEntry` of the epoch's position |
| RmsManager.ComputeErrorStatic | PositioningSolver/src/quality_check/rms_manager.py:49-64 | the receiver series is sorted and the error series becomes `StaticFrom` over its epochs in order |
| RmsManager.Accumulate | PositioningSolver/src/quality_check/rms_manager.py:75-80 | the 2D sum grows by the x and y terms, the 3D sum by all three; no sum decreases |
| RmsManager.AccumulatorsAdd | PositioningSolver/src/quality_check/rms_manager.py:72-80 | after the loop the 2D sum is the x and y sums together, the 3D sum all three, none negative |
| RmsManager.Stats | PositioningSolver/src/quality_check/rms_manager.py:83-91 | no epochs is ZeroDivisionError at `1 / len(vEpochs)` |
| RmsManager.StatsCompose | PositioningSolver/src/quality_check/rms_manager.py:83-91 | over a true square root, 2D² = x² + y², 3D² = x² + y² + z², and all five statistics are non-negative |
| RmsManager.StatsOf | PositioningSolver/src/quality_check/rms_manager.py:67-98 | the statistics fail exactly when there are no epochs |
| RmsManager.StatsOfCompose | PositioningSolver/src/quality_check/rms_manager.py:67-98 | the statistics over any non-empty series satisfy 2D² = x² + y² and 3D² = x² + y² + z² |
| RmsManager.ComputeRmsStatsStatic | PositioningSolver/src/quality_check/rms_manager.py:67-98 | the loop answers `StatsOf` over the sorted series |
| Services.TableOf | PositioningSolver/src/data_types/gnss/ServiceManager.py:54-58 | the table of available services is GPS's or GAL's by the constellation's name, none otherwise |
| Services.AddAll | PositioningSolver/src/data_types/gnss/ServiceManager.py:61-80 | services are only added; with no table (an unknown constellation) the first item is TypeError and nothing is added; the loop passes exactly when every item, spaces removed, is available, else UnknownService; only available services are added |
| Services.AddFrom | PositioningSolver/src/data_types/gnss/ServiceManager.py:65-80 | the loop from item `i` on, with the same guarantees |
| Services.AddAllAdds | PositioningSolver/src/data_types/gnss/ServiceManager.py:65-80 | the services after the loop are the earlier ones plus exactly the items before the first unknown one, spaces removed |
| Services.AddFromAdds | PositioningSolver/src/data_types/gnss/ServiceManager.py:65-80 | the same from item `i` on |
| Services.AddAllTwice | PositioningSolver/src/data_types/gnss/ServiceManager.py:73-75 | adding the same services twice changes nothing more and gives the same outcome |
| Services.AddFromAgain | PositioningSolver/src/data_types/gnss/ServiceManager.py:73-75 | a set already holding what the loop adds is left as it is |
| Services.ServiceManager.constructor | PositioningSolver/src/data_types/gnss/ServiceManager.py:33-35 | GPS and GAL, each with no services |
| Services.ServiceManager.AddService | PositioningSolver/src/data_types/gnss/ServiceManager.py:37-80 | TypeError for an argument of the wrong type, changing nothing; otherwise a string is split on commas and the new services are `AddAll` of the constellation's |
| Services.ServiceManager.AddEach | PositioningSolver/src/data_types/gnss/ServiceManager.py:64-80 | the loop leaves the constellation's services at `AddAll` |
| Services.ServiceManager.Items | PositioningSolver/src/data_types/gnss/ServiceManager.py:86-87 | exactly the pairs of constellation and services |
| Services.ServiceManager.GetServicesForGPS | PositioningSolver/src/data_types/gnss/ServiceManager.py:89-90 | the services stored for GPS |
| Services.ServiceManager.GetServicesForGAL | PositioningSolver/src/data_types/gnss/ServiceManager.py:92-93 | the services stored for GAL |
| Services.ServiceManager.HasService | PositioningSolver/src/data_types/gnss/ServiceManager.py:95-97 | KeyError exactly for a constellation other than GPS and GAL; otherwise whether the service is stored for it |
| AllanVariance.NextPow10 | PositioningSolver/src/stochastic_process/stats/stats.py:22 | the least power of ten not below the argument: `ceil(log10 m)` |
| AllanVariance.NextPow10Facts | PositioningSolver/src/stochastic_process/stats/stats.py:22 | the search from any exponent below the answer finds that least power |
| AllanVariance.DecadeFromBounds | PositioningSolver/src/stochastic_process/stats/stats.py:26-31 | one decade of the inner loop adds increasing multipliers, at most `maxPerBin` and below the next power of ten |
| AllanVariance.DecadesBounds | PositioningSolver/src/stochastic_process/stats/stats.py:24-31 | the multipliers of the first decades increase and lie in [1, maxPerBin] |
| AllanVariance.AppendDecade | PositioningSolver/src/stochastic_process/stats/stats.py:24-31 | appending one more decade keeps the multipliers increasing and in range |
| AllanVariance.MultipliersIncreasing | PositioningSolver/src/stochastic_process/stats/stats.py:16-31 | the multipliers strictly increase and lie in [1, maxPerBin] |
| AllanVariance.DecadeFromMembers | PositioningSolver/src/stochastic_process/stats/stats.py:26-31 | one decade holds exactly the j·10^i from `j0` to 9 before the first that exceeds `maxPerBin` (the `break`) |
| AllanVariance.DecadesMembers | PositioningSolver/src/stochastic_process/stats/stats.py:24-31 | the first decades hold exactly those numbers over every decade below `count` |
| AllanVariance.MultipliersMembers | PositioningSolver/src/stochastic_process/stats/stats.py:22-31 | the multipliers are exactly the j·10^i, 1 ≤ j ≤ 9, i < ceil(log10 maxPerBin), not above `maxPerBin` |
| AllanVariance.TauMultipliers | PositioningSolver/src/stochastic_process/stats/stats.py:16-31 | none when a ninth of the record times the period is below 1; otherwise the multipliers of `n // 9`; every multiplier leaves at least 9 bins |
| AllanVariance.GetTaus | PositioningSolver/src/stochastic_process/stats/stats.py:16-41 | the loops give `TauMultipliers`, and each tau is its multiplier times the period |
| AllanVariance.DecadeLoop | PositioningSolver/src/stochastic_process/stats/stats.py:26-31 | the inner loop appends one decade |
| AllanVariance.Taus | PositioningSolver/src/stochastic_process/stats/stats.py:34-39 | each tau is its multiplier times the period |
| AllanVariance.FloorDiv | PositioningSolver/src/stochastic_process/stats/stats.py:70 | `floor(n / m)`: integer division for a positive multiplier, at most 0 for a negative one |
| AllanVariance.BinMeans | PositioningSolver/src/stochastic_process/stats/stats.py:76-79 | one mean per bin |
| AllanVariance.Diffs | PositioningSolver/src/stochastic_process/stats/stats.py:82 | one difference fewer than means |
| AllanVariance.Stop | PositioningSolver/src/stochastic_process/stats/stats.py:68-72 | the loop runs until the first multiplier that is zero or leaves fewer than 9 bins |
| AllanVariance.AllanVarianceColumn | PositioningSolver/src/stochastic_process/stats/stats.py:61-87 | the loop answers `AllanColumn`: the Allan variance at every multiplier before the loop ends, 0 after it, ZeroDivisionError for a zero multiplier |
| AllanVariance.AllanColumn | PositioningSolver/src/stochastic_process/stats/stats.py:61-87 | one entry per multiplier, or ZeroDivisionError |
| AllanVariance.AllanColumnFacts | PositioningSolver/src/stochastic_process/stats/stats.py:61-87 | a failure needs a zero multiplier, a zero multiplier the loop reaches fails, and every entry from the multiplier at which the loop breaks onwards stays 0 |
| AllanVariance.EntryNonNegative | PositioningSolver/src/stochastic_process/stats/stats.py:85 | every Allan variance entry is non-negative |
| AllanVariance.BinMeansConstant | PositioningSolver/src/stochastic_process/stats/stats.py:76-79 | a constant signal has that constant as the mean of every bin |
| AllanVariance.ConstantSignalZero | PositioningSolver/src/stochastic_process/stats/stats.py:76-85 | a constant signal has Allan variance 0 at every multiplier |
| AllanVariance.StopAtEnd | PositioningSolver/src/stochastic_process/stats/stats.py:68-72 | a loop that never halts runs to the end |
| AllanVariance.TausNeverStop | PositioningSolver/src/stochastic_process/stats/stats.py:68-72 | on the multipliers `_get_taus` returns the loop never breaks: every entry is the Allan variance |
| AllanVariance.Column | PositioningSolver/src/stochastic_process/stats/stats.py:56 | `x[:, j]`: the column's values in order |
| AllanVariance.AllanVarianceOf | PositioningSolver/src/stochastic_process/stats/stats.py:44-58 | `fs` 0 is ZeroDivisionError; otherwise a fresh (taus x axes) array whose every entry is the Allan variance of that column at that multiplier, and the taus |
| AllanVariance.FillColumn | PositioningSolver/src/stochastic_process/stats/stats.py:55-56 | one column of the result is filled; the others are unchanged |
| AllanVariance.FillColumns | PositioningSolver/src/stochastic_process/stats/stats.py:55-56 | every column of the result holds the Allan variance of the same column of the input, at every multiplier |
| Series.Insert | PositioningSolver/src/data_types/containers/TimeSeries.py:104 | inserting an epoch into a sorted list adds exactly that epoch |
| Series.InsertAscending | PositioningSolver/src/data_types/containers/TimeSeries.py:104 | insertion keeps the list in ascending order |
| Series.SortEpochs | PositioningSolver/src/data_types/containers/TimeSeries.py:104 | `sorted(epochs)`: a permutation in ascending order |
| Series.Empty | PositioningSolver/src/data_types/containers/TimeSeries.py:15-18 | no epochs, and sorted |
| Series.WithData | PositioningSolver/src/data_types/containers/TimeSeries.py:21-27 | setting data keeps the series' invariant: each epoch listed once, exactly the epochs with data |
| Series.SetDataFacts | PositioningSolver/src/data_types/containers/TimeSeries.py:21-27 | the epoch then holds the value and others are untouched; an existing epoch is overwritten in place, a new one is appended and clears the sorted flag |
| Series.RemoveFirst | PositioningSolver/src/data_types/containers/TimeSeries.py:38 | `list.remove(x)`: the list without the first occurrence of the value, the rest in order |
| Series.RemoveFirstDistinct | PositioningSolver/src/data_types/containers/TimeSeries.py:38 | on a list without repeats, exactly the value is removed |
| Series.RemoveFirstAscending | PositioningSolver/src/data_types/containers/TimeSeries.py:38 | removing an epoch keeps the list ascending |
| Series.WithoutEpoch | PositioningSolver/src/data_types/containers/TimeSeries.py:33-39 | KeyError exactly for a missing epoch; otherwise the epoch and its data are removed, the value returned and the sorted flag kept |
| Series.SortedSeries | PositioningSolver/src/data_types/containers/TimeSeries.py:102-110 | the epochs become an ascending permutation of themselves and the data are kept; an already sorted series is unchanged |
| Series.DistinctPermutation | PositioningSolver/src/data_types/containers/TimeSeries.py:104 | a permutation of a list without repeats has none and the same members |
| Series.ClosestIsFloor | PositioningSolver/src/data_types/containers/TimeSeries.py:50-68 | on sorted epochs the answer is the latest epoch not after the one asked; TimeSeriesError exactly when there is none (an empty series, or one that starts later) |
| Series.ClosestIn | PositioningSolver/src/data_types/containers/TimeSeries.py:50-68 | TimeSeriesError exactly for an empty list or a query before the first epoch |
| Series.ScanIsFloor | PositioningSolver/src/data_types/containers/TimeSeries.py:62-68 | the loop's previous epoch ends as that latest epoch |
| Series.CommonEpochs | PositioningSolver/src/data_types/containers/TimeSeries.py:93-98 | exactly the epochs of the first series that the second has, in the first's order, without repeats |
| Series.Copied | PositioningSolver/src/data_types/containers/TimeSeries.py:120-134 | the copy has the same data with the epochs sorted; it is flagged sorted only when empty, as each `set_data` clears the flag |
| Series.TimeSeries.constructor | PositioningSolver/src/data_types/containers/TimeSeries.py:15-18 | an empty series |
| Series.TimeSeries.SetData | PositioningSolver/src/data_types/containers/TimeSeries.py:21-30 | the new state is `WithData` of the old |
| Series.TimeSeries.RemoveData | PositioningSolver/src/data_types/containers/TimeSeries.py:33-39 | the new state is `WithoutEpoch` of the old, returning the removed value, or KeyError with nothing changed |
| Series.TimeSeries.Sort | PositioningSolver/src/data_types/containers/TimeSeries.py:102-110 | the new state is `SortedSeries` of the old |
| Series.TimeSeries.GetAllEpochs | PositioningSolver/src/data_types/containers/TimeSeries.py:42-44 | the series is sorted and its epochs returned |
| Series.TimeSeries.GetDataForEpoch | PositioningSolver/src/data_types/containers/TimeSeries.py:46-48 | the series is sorted; the epoch's data, or KeyError |
| Series.TimeSeries.GetClosestEpoch | PositioningSolver/src/data_types/containers/TimeSeries.py:50-68 | after sorting, the latest epoch not after the one asked, or TimeSeriesError when every epoch is later |
| Series.TimeSeries.GetCommonEpochs | PositioningSolver/src/data_types/containers/TimeSeries.py:70-98 | the loop answers `CommonEpochs` |
| Series.TimeSeries.Copy | PositioningSolver/src/data_types/containers/TimeSeries.py:120-134 | this series is sorted and a fresh series holding `Copied` of it is returned |
| Series.TimeSeries.HasEpoch | PositioningSolver/src/data_types/containers/TimeSeries.py:136-140 | true exactly for an epoch with data |
| Series.TimeSeries.IsEmpty | PositioningSolver/src/data_types/containers/TimeSeries.py:166-167 | the series is sorted; true exactly when it held no data |
| UnitConversions.UnitsOf | PositioningSolver/src/ins/data_mng/unit_conversions.py:17-20 | a single unit string becomes a one-element list |
| UnitConversions.UnitFactor | PositioningSolver/src/ins/data_mng/unit_conversions.py:43-62 | equal units have factor 1, the six known conversions a positive factor, any other pair UnknownConversion |
| UnitConversions.FactorReciprocal | PositioningSolver/src/ins/data_mng/unit_conversions.py:43-57 | every known conversion has its reverse, and the two factors multiply to 1 |
| UnitConversions.ScaleFor | PositioningSolver/src/ins/data_mng/unit_conversions.py:31-63 | ValueError exactly when the lists differ in length; UnknownConversion exactly when some component has no factor; otherwise one factor per component |
| UnitConversions.ScaleReciprocal | PositioningSolver/src/ins/data_mng/unit_conversions.py:31-63 | the scale back multiplies with the scale forward to 1 in every component |
| UnitConversions.UnitConversionScale | PositioningSolver/src/ins/data_mng/unit_conversions.py:31-63 | the loop answers `ScaleFor` |
| UnitConversions.ScaledColumns | PositioningSolver/src/ins/data_mng/unit_conversions.py:81-89 | every column is scaled unless the scale has neither one element nor enough elements, when the loop stops with IndexError at column `len(scale)` |
| UnitConversions.ScaleColumns | PositioningSolver/src/ins/data_mng/unit_conversions.py:79-89 | every column before the failing one is multiplied in place by its factor (one factor for all when the scale has one element); IndexError exactly when the scale is too short |
| UnitConversions.ScaleColumn | PositioningSolver/src/ins/data_mng/unit_conversions.py:86 | one column is multiplied in place, the rest unchanged |
| UnitConversions.ScaleVector | PositioningSolver/src/ins/data_mng/unit_conversions.py:91-96 | element-wise product with a scale of the same length, otherwise by its first element; IndexError only for an empty scale |
| UnitConversions.ScaleValue | PositioningSolver/src/ins/data_mng/unit_conversions.py:76-100 | a scalar times the first factor (IndexError when there is none), a 1-D array by `ScaleVector`, anything else ValueError |
| UnitConversions.ConvertValue | PositioningSolver/src/ins/data_mng/unit_conversions.py:5-28 | as written: the scale's error first; then a plain Python number fails at `data.copy()` with AttributeError |
| UnitConversions.PlainScalarFails | PositioningSolver/src/ins/data_mng/unit_conversions.py:25 | converting the plain number 1.0 from degrees to radians is AttributeError although its scale exists |
| UnitConversions.ConvertValueFixed | PositioningSolver/src/ins/data_mng/unit_conversions.py:5-28 | corrected: the scale's error, else the copy scaled by `ScaleValue`; it agrees with the code as written on every input but a plain number |
| UnitConversions.FixedScalarConverts | PositioningSolver/src/ins/data_mng/unit_conversions.py:25-27 | a plain number converts to itself times the unit factor |
| UnitConversions.ConvertRoundTrip | PositioningSolver/src/ins/data_mng/unit_conversions.py:5-63 | converting there and back returns the original value |
| UnitConversions.ScaleValueRoundTrip | PositioningSolver/src/ins/data_mng/unit_conversions.py:76-100 | scaling by reciprocal scales returns the original value |
| UnitConversions.ScalarRoundTrip | PositioningSolver/src/ins/data_mng/unit_conversions.py:97-98 | a scalar scaled by reciprocal factors is unchanged |
| UnitConversions.ScaleVectorRoundTrip | PositioningSolver/src/ins/data_mng/unit_conversions.py:91-96 | a 1-D array scaled by reciprocal scales is unchanged |
| UnitConversions.ConvertUnit | PositioningSolver/src/ins/data_mng/unit_conversions.py:5-28 | a 2-D array gives the scale's error, IndexError for a short scale, or a fresh scaled copy with the input untouched; other data as `ConvertValueFixed` |
| UnitConversions.ConvertUnitNdarrayScalar | PositioningSolver/src/ins/data_mng/unit_conversions.py:66-101 | a 2-D array is scaled in place column by column (IndexError when the scale is too short); other data as `ScaleValue` |
| Rows.Select | PositioningSolver/src/io_manager/import_timeseries/read_tm.py:68-72 | the rows kept by a test are never more than the rows |
| Rows.Kept | PositioningSolver/src/io_manager/import_timeseries/read_tm.py:70-71 | the indices that pass a test: all below `n`, strictly increasing, and every passing index is there |
| Rows.SelectIsKept | PositioningSolver/src/io_manager/import_timeseries/read_tm.py:70-72 | the `i`-th kept row is the row at the `i`-th passing index, unchanged |
| Rows.FirstKept | PositioningSolver/src/io_manager/import_timeseries/read_tm.py:70-72 | when index 0 passes, the selection starts with the first row |
| Rows.PyMod | PositioningSolver/src/io_manager/import_timeseries/read_tm.py:71 | Python's integer `%`: the remainder lies between 0 and the divisor, on the divisor's side |
| Rows.PyModZero | PositioningSolver/src/io_manager/import_timeseries/read_tm.py:71 | Python's `a % b == 0` holds exactly when `b` divides `a`, whatever the sign of `b` |
| Rows.KeptStride | PositioningSolver/src/io_manager/import_timeseries/read_tm.py:70-71 | a test that accepts the multiples of `k` keeps indices 0, k, 2k, …: ceil(n / k) of them |
| Rows.ScaleRows | PositioningSolver/src/io_manager/import_timeseries/read_tm.py:59-60 | every row is multiplied in place by the factor (one value for all columns or one per column); a factor that does not broadcast is ValueError with nothing changed |
| ImportPvat.ApplyFactor | PositioningSolver/src/io_manager/import_pvat.py:9-16 | no factor changes nothing; a 1-D array is multiplied as a whole, a 2-D one row by row; a factor that does not broadcast is ValueError with nothing changed |
| ImportPvat.Ratio | PositioningSolver/src/io_manager/import_pvat.py:27-30 | ZeroDivisionError exactly when the frequency or the input rate is zero; otherwise the step times the input rate times the frequency is 1 |
| ImportPvat.Downsample | PositioningSolver/src/io_manager/import_pvat.py:25-45 | the ratio's error, or the rows whose index `i` has `i % step == 0`, in order |
| ImportPvat.FirstRowKept | PositioningSolver/src/io_manager/import_pvat.py:31-39 | the first row is always kept |
| ImportPvat.WholeRatio | PositioningSolver/src/io_manager/import_pvat.py:38 | with a whole step `k`, the float test `i % k == 0` is divisibility by `k` |
| ImportPvat.WholeKeeper | PositioningSolver/src/io_manager/import_pvat.py:38 | a whole step keeps exactly the multiples of `k` |
| ImportPvat.WholeRatioStride | PositioningSolver/src/io_manager/import_pvat.py:25-45 | a whole step `k` keeps rows 0, k, 2k, …: ceil(n / k) rows, unchanged |
| ImportPvat.Normalised | PositioningSolver/src/io_manager/import_pvat.py:64 | a column index in [−n, n) names a column, counting from the end when negative; any other is out of bounds |
| ImportPvat.SwapIndex | PositioningSolver/src/io_manager/import_pvat.py:64 | after the swap, column `a` holds old column `b`, column `b` old column `a`, every other column itself |
| ImportPvat.SwapRow | PositioningSolver/src/io_manager/import_pvat.py:64 | one row after the swap: the two values exchanged, the others kept |
| ImportPvat.SwapTwice | PositioningSolver/src/io_manager/import_pvat.py:48-64 | swapping the same two columns twice restores the array |
| ImportPvat.SwapSelf | PositioningSolver/src/io_manager/import_pvat.py:48-64 | swapping a column with itself changes nothing, and the order of the two indices does not matter |
| ImportPvat.SwapColumns | PositioningSolver/src/io_manager/import_pvat.py:48-64 | IndexError for an index out of bounds, with nothing changed; otherwise every row has the two columns exchanged and the others kept |
| ImportPvat.SwapInRow | PositioningSolver/src/io_manager/import_pvat.py:64 | one row has the two columns exchanged, reading both before writing; other rows unchanged |
| ReadTm.ApplyFactor | PositioningSolver/src/io_manager/import_timeseries/read_tm.py:51-62 | no factor changes nothing; a 1-D array is ValueError at the shape unpacking; a 2-D one is multiplied row by row, or ValueError with nothing changed when the factor does not broadcast |
| ReadTm.Row | PositioningSolver/src/io_manager/import_timeseries/read_tm.py:72 | `data[t]`: row `t` in order |
| ReadTm.RowsOf | PositioningSolver/src/io_manager/import_timeseries/read_tm.py:66-72 | the rows of the array, in order |
| ReadTm.Downsample | PositioningSolver/src/io_manager/import_timeseries/read_tm.py:65-77 | a 1-D array is ValueError; a zero rate is ZeroDivisionError when there is a row; otherwise the rows whose index passes `t % rate == 0`, in order |
| ReadTm.FirstRowKept | PositioningSolver/src/io_manager/import_timeseries/read_tm.py:70-72 | the first row is kept for every non-zero rate |
| ReadTm.EveryStride | PositioningSolver/src/io_manager/import_timeseries/read_tm.py:65-77 | a rate `k` ≥ 1 keeps rows 0, k, 2k, …: ceil(n / k) rows, unchanged |
| ReadTm.NegativeRate | PositioningSolver/src/io_manager/import_timeseries/read_tm.py:71 | a negative rate keeps the same rows as its opposite |
| Series.Closest | PositioningSolver/src/data_types/containers/TimeSeries.py:54-68 | the loop answers `ClosestIn` of the epochs |
| RmsManager.ComponentSeries | PositioningSolver/src/quality_check/rms_manager.py:42-44 | the series of one component keeps the series' invariant |

## Left out

- Floating-point rounding, infinities and NaN: reals stand for floats throughout. This includes `math.log10` in `_get_taus`, which the model takes as exact at powers of ten.
- The geodetic and ENU conversions, `exp` and `sqrt`: the conversions and the square root are function parameters, and the Gauss–Markov coefficients are parameters. The gravity formulas (`geo_param`, `get_earth_radii`, the body of `acceleration`) and the attitude matrices are not modelled.
- Random numbers: `np.random.normal` reads a given stream of standard normal samples. White noise and `power_spectral_density` are not modelled.
- File I/O: `open`, `readline` and `np.genfromtxt` are not modelled. The RINEX file is a given sequence of lines, and a loaded CSV is a given array. `read_timeseries` is not modelled. A 0-d array from `genfromtxt` is not modelled.
- ImportPvat.ApplyFactor: the user `function` callback of `read_csv` is not modelled, because it is arbitrary user code.
- Logging, warnings, `print` and the `__str__`/`__repr__` texts of the containers are not modelled. The exception is `Container.__str__`, which is modelled. The RINEX epoch record still needs a previous epoch when its flag is non-zero, because the log message reads it.
- RinexUtils.py, Satellite.py, DataType.py and Observation.py are not part of this model. Their tables, `SatelliteFactory`, `DataTypeFactory` and the parsers of numbers and dates are parameters. A satellite is its identifier string. A data type is its code and frequency band.
- `ObservationHeader` (a time series of headers) is not modelled. The reader's header is a value.
- Navigation.NavigationDataMap.SetHeader: requires that a header's `first_epoch` is an epoch. The source does not check this, and `None` would fail inside `TimeSeries.set_data` comparisons.
- `ObservationData` keeps its `EpochData` objects as values. Aliasing between an `EpochData` handed out and the one stored is not modelled.
- `get_satellites`, `get_types`, `get_satellite_list` and `get_data` return fields directly and have no member of their own.
- FiniteDiff.FiniteDifference: only scalar arguments are modelled; NumPy array arguments are not.
- ImportPvat.SwapColumns: only 2-D arrays are modelled.
- Gravity: only 1-D and 2-D shapes are modelled; deeper arrays are not.
- Argument type checks (`isinstance`) are `Arg` values that are either given or of the wrong type. Other dynamic typing is not modelled.
- The constructor checks of `RinexObsReader` (AttributeError for a wrong argument type) are not modelled, because the Dafny types rule those arguments out.
- GnssState.PositionGNSS.SetFrame: does not model that `self.observer.form = "geodetic"` converts the observer object itself, so a caller that shares that object sees it turn geodetic; the model keeps the observer as a value and promises nothing about other holders of it.
- GnssState.PositionGNSS.SetForm: the same observer conversion happens when a form change first forces the ECEF frame; the caller's observer object is not modelled.
- RmsManager.ComputeErrorStatic: in ENU, `receiver.observer = true_pos` shares the caller's `true_pos`, and the frame change then leaves that object geodetic; the model passes `true_pos` by value and does not promise that side effect.
- Series.TimeSeries.Sort: `sorted` compares epochs with `__gt__`, which normalises both epochs in place (`fix_week`), so stored epochs and the dictionary keys that share them can change their fields; the model keeps epochs as values, compares them normalised, and does not model that mutation.
- Series.TimeSeries.GetClosestEpoch: the query epoch and the stored epochs are normalised in place by the same comparisons; the model does not show that mutation to the caller.
- The in-place normalisation by comparison is modelled only on `Epochs.EpochObject` (its `Gt`, `Ge`, `Le` and `Lt` leave both epochs normalised); the time series, the observation store and the RINEX reader hold epochs as values.
- Observations.ObservationData.GetFirstArcEpoch: with rate 0 and a start epoch that has observations the loop never ends (`Observations.ZeroRateStays`); the method requires a non-zero rate in that case, because there is no result to model, and the intended behaviour for rate 0 is not evident.
- Constellations.NewSatelliteSystem, Constellations.SatelliteSystemFactory and Epochs.Construct: upper- and lower-casing is ASCII only. Python also maps other letters, so `"gpſ".upper() == "GPS"` is accepted by the source and refused by the model.
- The INS mechanization, propagation and dynamics, the DOP and RMS scoring classes, plotting, the configuration JSON loader and the scripts are not part of the modelled core.

## Findings

| source | as written | input that shows it | evidently intended | confidence | as-written member | corrected member |
|---|---|---|---|---|---|---|
| PositioningSolver/src/ins/data_mng/unit_conversions.py:25 | `convert_unit` copies its input with `data.copy()` before scaling it | `convert_unit(1.0, 'deg', 'rad')`: a Python float has no `copy`, so AttributeError | a scalar, as the docstring allows, is scaled by the first factor: `1.0 * DEG2RAD` | not executed | UnitConversions.ConvertValue (shown by UnitConversions.PlainScalarFails) | UnitConversions.ConvertValueFixed (with UnitConversions.FixedScalarConverts and UnitConversions.ConvertRoundTrip) |
| PositioningSolver/src/ins/data_mng/data_sim.py:45-46 | the legend length is compared with the raw `units` argument | `SimulatedData('v', 'velocity', legend=['x'])`, with `units` omitted: `len(None)` raises TypeError | compare with the defaulted units `['']`, so a one-entry legend is accepted | not executed | SimData.InitUnitsAsWritten (shown by SimData.OmittedUnitsFail) | SimData.InitUnits |
