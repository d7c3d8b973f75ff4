# nfv-t-cp predictors and parameter expansion, in Dafny

This project models the predictor layer of nfv-t-cp. That layer holds the regression models that learn a
network function's performance from the configurations profiled so far. The model covers:

- **Parameter expansion** (`expand_parameters`). A configuration value (a scalar, a list, or a
  `{min, max, step}` range dict) becomes the list of values to sweep. Python's `range` is modelled
  by its iteration, and its closed forms (length, element `i`, bounds, monotonicity) are proved.
- **The registry** (`get_by_name`). It resolves exactly the eleven predictor class names, and it
  rejects every other name with NotImplementedError.
- **Naming** (`name`, `short_name`). A short name is the upper-case letters of the class name.
- **The engines**. Each adapter constructor picks an estimator, and each falls back differently
  when a key is missing. An estimator is a record of the arguments it was built with.
- **The `Predictor` class**. Construction with default parameters, `train`, `predict`, the no-op
  `reinitialize` hook, `short_config` and `get_results`. The class keeps `params`, `trained` and
  the estimator `m` as fields, which its methods update.
- **`Predictor.generate`**. It removes `degree` and `epsilon` from the caller's dict in place. It
  then runs nested loops over their expansions, building one fresh, untrained predictor per
  `(degree, epsilon)` point, degree-major.

Python values are modelled by the `Value` datatype, and dicts by `map<string, Value>`. The caller's
configuration dict, which `generate` mutates, is a `DictRef` object.

## Model

| member | source | states |
|---|---|---|
| PyRange.Range | nfvtcp/config.py:71 | `list(range(start, stop, step))`, defined by its iteration; its meaning is given by `RangeLength`, `RangeAt`, `RangeBounds`, `RangeIncreasing` and `RangeDecreasing` below. |
| Config.Expand | nfvtcp/config.py:53-74 | Fails exactly for a string, or for a dict that is not a usable range; the ValueError names the input. Any dict missing `min`, `max` or `step` fails. None, ints, bools and floats become one-element lists. A list is returned unchanged. |
| Config.ExpandScalar | nfvtcp/config.py:58-61 | None and every int, bool or float `p` expand to `[p]`. |
| Config.ExpandRangeUp | nfvtcp/config.py:64-71 | With a positive step, the range dict expands to `max(0, ceil((hi+1-lo)/st))` values. Element `i` is `lo + i*st`, the list is strictly increasing, every value is at most `hi`, and the last one is within one step of `hi`. |
| Config.ExpandRangeEmpty | nfvtcp/config.py:64-71 | When `min` is above `max` and the step is positive, the expansion is the empty list. |
| Config.ExpandRangeDown | nfvtcp/config.py:64-71 | With a negative step, element `i` is `lo + i*st`, the list is strictly decreasing, and every value stays above `max + 1`. |
| Config.ExpandZeroStep | nfvtcp/config.py:65-74 | A zero step makes `range` fail, which surfaces as the ValueError naming the dict. |
| PyRange.RangeLength | nfvtcp/config.py:71 | `range(start, stop, step)` has `max(0, ceil((stop-start)/step))` elements, for either sign of step. |
| PyRange.RangeAt | nfvtcp/config.py:71 | Element `i` of the range is `start + i*step`. |
| PyRange.RangeBounds | nfvtcp/config.py:71 | Every element is on the near side of `stop`, and one step past the last element is not. |
| PyRange.RangeIncreasing | nfvtcp/config.py:71 | With a positive step the range is strictly increasing. |
| PyRange.RangeDecreasing | nfvtcp/config.py:71 | With a negative step the range is strictly decreasing. |
| Registry.ClassName | nfvtcp/predictor.py:101-103 | `name`, the class name of each kind; `GetByNameRoundTrip`, `ClassNameInjective` and `RegistryExact` state that these are exactly the names `get_by_name` accepts, pairwise distinct. |
| Registry.GetByName | nfvtcp/predictor.py:36-59 | A resolved kind has exactly the given class name. A name is rejected, with NotImplementedError carrying it, only when no kind has that class name. |
| Registry.ClassNameInjective | nfvtcp/predictor.py:37-58 | The eleven supported class names are pairwise distinct. |
| Registry.GetByNameRoundTrip | nfvtcp/predictor.py:36-59 | Each kind's class name resolves back to that kind (round trip of `name` and `get_by_name`). |
| Registry.RegistryExact | nfvtcp/predictor.py:36-59 | A name resolves if and only if it is the class name of some kind, and distinct kinds have distinct class names. |
| Naming.UpperOnly | nfvtcp/predictor.py:105-107 | The filtered string has only upper-case ASCII letters and is no longer than its input. With `UpperOnlySingle` and `UpperOnlyAppend` this fixes it as the upper-case letters of the input, in order. |
| Naming.UpperOnlySingle | nfvtcp/predictor.py:107 | A single character is kept when it is an upper-case letter and dropped otherwise. |
| Naming.UpperOnlyNoUpper | nfvtcp/predictor.py:107 | A string with no upper-case letters filters to the empty string: other characters are removed, not replaced. |
| Naming.UpperOnlyAppend | nfvtcp/predictor.py:105-107 | Filtering distributes over concatenation, so letters keep their order. |
| Naming.UpperOnlyIdempotent | nfvtcp/predictor.py:105-107 | Filtering a short name again changes nothing. |
| Naming.UpperOnlyFixed | nfvtcp/predictor.py:105-107 | A string is left unchanged if and only if it consists of upper-case letters only. |
| Naming.ShortName | nfvtcp/predictor.py:101-107 | Every character of a short name is an upper-case ASCII letter. |
| Engines.EngineFor | nfvtcp/predictor.py:198-296 | The estimator each adapter's `__init__` builds; it receives a value for exactly the keys that adapter reads. `EngineReadsOnlyConsumedKeys`, `EngineTakesConfiguredValues` and `DefaultKernelIsRbf` give the rest. |
| Engines.DefaultKernelIsRbf | nfvtcp/predictor.py:198-212 | The generic SVR adapter and the RBF-kernel adapter build the same estimator, with the RBF kernel. |
| Engines.EngineReadsOnlyConsumedKeys | nfvtcp/predictor.py:198-296 | Each adapter's estimator depends only on the keys it reads. Two parameter dicts that agree on those keys give the same estimator. |
| Engines.EngineTakesConfiguredValues | nfvtcp/predictor.py:198-296 | When the parameters hold every key an adapter reads, its estimator receives exactly those values, and no per-adapter fallback is used. |
| Predictors.InitialParams | nfvtcp/predictor.py:88-93 | The constructor's merge of the defaults with the keyword arguments; `InitialParamsMerge` states its keys and values. |
| Predictors.InitialParamsMerge | nfvtcp/predictor.py:88-94 | The merged parameters hold every default key plus every keyword. A keyword overrides its default, and every other default is kept. |
| Predictors.InitialEngine | nfvtcp/predictor.py:173-296 | Every adapter except the polynomial one builds its estimator at construction, unfitted and from the parameters. The polynomial adapter holds none. |
| Predictors.ScaledInput | nfvtcp/predictor.py:128-140 | The matrix handed to the engine by `train` and `predict`; `DefaultsScale` and the contracts of `Train` and `Predict` state when it is rescaled. |
| Predictors.DefaultsScale | nfvtcp/predictor.py:88-92 | With the default parameters, `train` and `predict` rescale their input. |
| Predictors.ShortConfig | nfvtcp/predictor.py:109-118 | Fails with KeyError(`scale_x`) exactly when compression drops `scale_x`. Otherwise the result starts with the short name followed by `_`. |
| Predictors.ResultRow | nfvtcp/predictor.py:153-164 | Fails only through `short_config`, or a missing `scale_x`. Otherwise the row's keys are the parameters without `scale_x`, plus `predictor` and `predictor_conf`. Every parameter keeps its value. `predictor` and `predictor_conf` are the short name and short configuration unless a parameter overrides them. |
| Predictors.Predictor.constructor | nfvtcp/predictor.py:83-95 | A new predictor is untrained and has the merged parameters. Its estimator is the one its adapter builds, and the class invariant holds. |
| Predictors.Predictor.Reinitialize | nfvtcp/predictor.py:120-125 | The per-repetition hook leaves parameters, flag and estimator unchanged. |
| Predictors.Predictor.Train | nfvtcp/predictor.py:127-133 | The estimator the adapter builds is fitted on the input (rescaled when `scale_x` is truthy) and the targets. The parameters are unchanged. `trained` is set for every adapter except the polynomial one, whose `_train` (178-184) builds a fresh estimator and leaves the flag alone. |
| Predictors.Predictor.Predict | nfvtcp/predictor.py:135-151 | The batch reaches the estimator rescaled exactly when `scale_x` is truthy. The "not trained" warning is given exactly when the adapter's own check (149 or 187) fires. Only an untrained polynomial predictor fails. |
| Predictors.Predictor.GetResults | nfvtcp/predictor.py:153-164 | Returns the `ResultRow` of the predictor's parameters. Under the class invariant it fails exactly when compression drops `scale_x`. |
| Predictors.DegreeSpec | nfvtcp/predictor.py:70 | The degree specification, 2 when the configuration has none; `PointsOfEmpty` states its use. |
| Predictors.EpsilonSpec | nfvtcp/predictor.py:71 | The epsilon specification, 0.1 when the configuration has none; `PointsOfEmpty` states its use. |
| Predictors.Row | nfvtcp/predictor.py:77-80 | One inner iteration pairs degree `d` with each epsilon in order. |
| Predictors.Grid | nfvtcp/predictor.py:76-80 | The points the nested loops visit; `GridLength`, `GridAt`, `GridExtend` and `GridShape` state its shape. |
| Predictors.GridExtend | nfvtcp/predictor.py:76-80 | One more outer iteration appends that degree's row to the points visited so far. |
| Predictors.GridLength | nfvtcp/predictor.py:76-80 | The nested loops visit `len(degrees) * len(epsilons)` points. |
| Predictors.GridAt | nfvtcp/predictor.py:76-80 | Point `i*len(epsilons) + j` pairs degree `i` with epsilon `j`. |
| Predictors.GridShape | nfvtcp/predictor.py:76-80 | The sweep is the degree-major product of the two expansions. |
| Predictors.Sweep | nfvtcp/predictor.py:76-80 | Fails exactly when the degree expansion fails, or when it is non-empty and the epsilon expansion fails. A degree error is reported first. |
| Predictors.Points | nfvtcp/predictor.py:70-80 | The sweep over the expansions of the degree and epsilon specifications; `SweepShape` and `PointsOfEmpty` state its shape, and `Generate` builds one predictor per point. |
| Predictors.SweepShape | nfvtcp/predictor.py:76-80 | A successful sweep is empty when there are no degrees. Otherwise it has one point per (degree, epsilon) pair, degree-major. |
| Predictors.PointsOfEmpty | nfvtcp/predictor.py:70-71 | An empty configuration sweeps the single point (degree 2, epsilon 0.1). |
| Predictors.Kwargs | nfvtcp/predictor.py:78-80 | The keyword arguments `degree=d, epsilon=e, **conf` of one instance; `InstanceParams` states the parameters they give. |
| Predictors.InstanceParams | nfvtcp/predictor.py:78-80 | A generated instance takes its point's degree and epsilon and the configuration's other values, with defaults for everything else. |
| Predictors.GenerateRow | nfvtcp/predictor.py:77-80 | The inner loop yields one fresh, untrained, distinct predictor per epsilon, each built from that point's keyword arguments. |
| Predictors.AppendRow | nfvtcp/predictor.py:76-80 | One outer iteration extends the list by one fresh row. It leaves the earlier predictors unchanged and keeps them distinct. |
| Predictors.GenerateSweep | nfvtcp/predictor.py:76-81 | The nested loops return one fresh, untrained predictor per sweep point, in sweep order, all distinct. They fail with the sweep's error exactly when the sweep fails. |
| Predictors.Generate | nfvtcp/predictor.py:64-81 | The caller's dict loses `degree` and `epsilon`, even when expansion fails. The result is one new, untrained, distinct predictor per sweep point of the original configuration, in order, built from the point and the remaining configuration. It fails with the expansion error exactly when the sweep does. |

## Left out

- Reading the YAML configuration and other I/O in nfvtcp/config.py: only `expand_parameters` is modelled.
- Predictors.ScaledInput: the MinMaxScaler rescaling is a function parameter (`scale`); its numerics are not modelled.
- Predictors.Predictor.Train: the scikit-learn estimators' fitting is recorded as "fitted on this sample", not computed.
- Predictors.Predictor.Predict: it returns the batch handed to the estimator, not the estimator's predictions. It also does not model scikit-learn's NotFittedError for an untrained non-polynomial estimator.
- Predictors.ShortConfig: `compress_keys` and `dict_to_short_str` come from nfvtcp/helper.py, which is not part of this model. They are function parameters, and the sorted-dict order they see is folded into the second one.
- Naming.ShortName: the concrete abbreviations (such as `PRP` for the polynomial predictor) are not computed, so their distinctness is not stated.
- Logging, the scipy warning filter and `__repr__` are not modelled.
- Python floats are exact reals; no floating-point arithmetic takes place in the modelled code.
- Dict keys are strings only, which is all the configuration uses.
- Engines.EngineFor: the generic SVR adapter leaves the kernel at scikit-learn's default; the model records that default as the RBF kernel, as the RBF adapter's docstring (nfvtcp/predictor.py:205) says.
- Engines.EngineFor: the per-adapter fallbacks (`alpha` 1.0, 0.0001 and so on) are modelled as written. Because the base constructor always supplies every default key, these fallbacks are never reached (`EngineTakesConfiguredValues`).
- Predictors.GenerateSweep: `generate` in nfvtcp/predictor.py re-expands the epsilon specification in every outer iteration. The model expands it once and consults that result inside the loop. Expansion is a pure function, so both give the same predictors and the same error.
- Python's `bool` being an `int` subclass is kept where it matters: `expand_parameters(True)` gives `[True]`, and a range dict accepts bools as bounds.
