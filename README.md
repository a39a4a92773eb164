# Experiment helpers of `utils.py`, modelled in Dafny

`utils.py` supports a time-series forecasting workflow (dense, LSTM
encoder-decoder, N-BEATS and HARHN networks on the NASDAQ-100 data). Most of it
draws plots or writes files. This project models its sequential logic, with
the I/O removed:

- **Timestamp** (`timestamp.dfy`): `dateandtime_now` builds the
  `YYYYMMDD_HHMM` stamp that names result directories and error files. The
  calendar fields of "now" are a parameter. Month, day, hour and minute are
  zero-padded to two characters. For a four-digit year the stamp has 13
  characters, with `'_'` at index 8. It can be read back into the year, month,
  day, hour and minute it was made from, so two different minutes of years
  1000 to 9999 never share a stamp.
- **ConfigFile** (`config_file.dfy`): `save_config_file` chooses the target
  file and the `sort_keys` flag. `errors` wins over `config`, and `config` wins
  over `indices`. A payload counts as given when it `is not None`; when all
  three are `None` it raises `ValueError`.
- **ModelConfig** (`model_config.dfy`): `make_model` builds the default
  `data_config` and `nn_config`. A loop then lets each keyword argument
  overwrite a key that already exists, and only such a key. The N-BEATS
  `backcast_length` follows `lookback`. The target column `"NDX"` is taken out
  of the CSV's columns and used as the output. The CSV's column names are a
  parameter.
- **MinLoss** (`min_loss.dfy`): `check_min_loss` decides whether the newest
  epoch loss is strictly below every earlier one. It extends the progress
  message and raises, but never lowers, the save flag.
- **LossPanels** (`loss_panels.dfy`): the grouping loop of `plot_loss` assigns
  each history key to a panel. A key whose metric name is already cached reuses
  that panel. Otherwise the key opens the next panel, which is cached under the
  full key. Reading `history['loss']` first raises `KeyError` when there is no
  `loss` key.

Helper modules: `Results` (Option, Result and the raised exceptions), `Decimal`
(`str(n)` for naturals and reading digits back) and `PyValue` (Python values
and the builtin `int(x)`).

Python values are the `PyValue.Value` datatype. Float literals are exact reals
because they are only stored and compared. Keyword arguments are a sequence of
`(name, value)` pairs, and the last binding of a name counts, as in a
dictionary. `make_model`'s keyword loop and `plot_loss`'s grouping loop update
local dictionaries and a counter in place. They are methods with `while` loops
whose invariants tie the local state to the fold functions `Override` and
`Group`. The other three helpers are branch cascades and are functions.

## Model

| member | source | states |
|---|---|---|
| `Decimal.NatToString` | utils.py:141-155 | `str(n)` is a non-empty digit string with no leading zero; it has one character exactly when `n < 10` |
| `Decimal.NatToStringRoundTrip` | utils.py:141-155 | reading the digits of `str(n)` back gives `n` |
| `Timestamp.Pad2` | utils.py:143-155 | a field shorter than two characters gets exactly one leading `'0'` and is otherwise kept; a longer field is unchanged |
| `Timestamp.Format` | utils.py:139-157 | for a valid time the stamp starts with `str(year)`, has `len(str(year)) + 9` characters and has `'_'` right after the four date digits |
| `Timestamp.PaddedField` | utils.py:142-155 | a padded month, day, hour or minute below 100 is exactly its two decimal digits; it starts with `'0'` exactly when the value has one digit |
| `Timestamp.FormatFields` | utils.py:139-157 | the stamp is `str(year)`, then month and day as two digits, `'_'`, then hour and minute as two digits; its length is `len(str(year)) + 9`, with `'_'` after the date |
| `Timestamp.FourDigitYearLayout` | utils.py:148-157 | with a four-digit year the stamp has 13 characters and `'_'` at index 8 |
| `Timestamp.FormatParseRoundTrip` | utils.py:139-157 | for years 1000 to 9999, parsing the stamp gives back year, month, day, hour and minute |
| `Timestamp.FormatInjective` | utils.py:139-157 | two valid times of years 1000 to 9999 that differ in year, month, day, hour or minute never produce the same stamp |
| `ConfigFile.FirstPresent` | utils.py:163-175 | the result is the first candidate that is not `None`, and it is absent only when every candidate is `None` |
| `ConfigFile.SelectTarget` | utils.py:160-175 | fails with `ValueError("")` exactly when `errors`, `config` and `indices` are all `None`; otherwise writes `errors` if it is not `None`, else `config` if it is not `None`, else `indices`, so the payload written is never `None`; `sort_keys` is false only for `config`; the file is `path/errors_<name><stamp>.json`, `path/config.json` or `path/indices.json` by branch |
| `ConfigFile.SelectsFirstPresent` | utils.py:163-175 | the selection succeeds exactly when some payload is given, and then writes the first given one of `errors`, `config`, `indices` |
| `ConfigFile.ErrorsFileInDirectory` | utils.py:165 | the errors file name starts with `path + "/"` and ends with `.json` |
| `ConfigFile.TargetInDirectory` | utils.py:165-172 | every selected file name starts with `path + "/"` and ends with `.json` |
| `ConfigFile.KindsNeverCollide` | utils.py:165-172 | within one directory, the errors, config and indices files never have the same name |
| `PyValue.Truncate` | utils.py:272 | `int(x)` of a float drops the fractional part toward zero: it keeps the sign and loses less than 1 in magnitude |
| `PyValue.IntOf` | utils.py:272 | `int(v)` is `v` for an int, 1 or 0 for a bool and truncation for a float; for a string it is the value of the signed decimal the text spells, and otherwise raises `ValueError("invalid literal for int() with base 10: '<s>'")`; for None, lists, tuples and dicts it raises TypeError |
| `PyValue.ParseIntRoundTrip` | utils.py:272 | `int(str(n))`, `int("-" + str(n))` and `int("+" + str(n))` give `n`, `-n` and `n` |
| `ModelConfig.NnDefaults` | utils.py:233-302 | the default `nn_config['nbeats_options']['backcast_length']` is the backcast length it is built with |
| `ModelConfig.DataDefaults` | utils.py:281-300 | the default `data_config` has `lookback` 15, `inputs` the given columns and `outputs` `["NDX"]` |
| `ModelConfig.Lookup` | utils.py:272 | a keyword is found exactly when some argument names it, and the value found is that of its last binding |
| `ModelConfig.BackcastLength` | utils.py:272 | 15 when `lookback` is not given, and exactly `int(lookback)` (value or exception) when it is; so `n` for the integer `n`, and a failure only for a given `lookback` that is neither an integer nor a float |
| `ModelConfig.FirstIndex` | utils.py:296-297 | the result is the position of the first occurrence of the item |
| `ModelConfig.RemoveFirst` | utils.py:296-297 | `list.remove` fails exactly when the item is absent; otherwise it removes the first occurrence and keeps the rest in order |
| `ModelConfig.RemoveFirstPermutes` | utils.py:296-298 | removing `"NDX"` takes exactly one copy of it out of the columns' multiset |
| `ModelConfig.Override` | utils.py:304-308 | the keyword loop never adds or removes a key: the result has exactly the keys of the defaults |
| `ModelConfig.OverrideSemantics` | utils.py:304-308 | a default key takes the last value any keyword gives it and keeps its default when no keyword names it |
| `ModelConfig.MakeModelSpec` | utils.py:221-318 | fails exactly when `int(lookback)` fails (with that error) or `"NDX"` is not a column (with `list.remove`'s ValueError); otherwise both dictionaries keep their default key sets and the intervals are the six fixed ones |
| `ModelConfig.MakeModel` | utils.py:221-318 | the method with the in-place keyword loop returns exactly `MakeModelSpec` of its arguments |
| `ModelConfig.BackcastFollowsLookback` | utils.py:271-282 | unless `nbeats_options` is itself overridden, `backcast_length` is 15 without `lookback` and `int(lookback)` with it; for an integer `lookback` (or none) it equals `data_config['lookback']` |
| `ModelConfig.TargetIsOutputOnly` | utils.py:294-300 | unless overridden, `outputs` is `["NDX"]` and `inputs` is the CSV's columns with the first `"NDX"` removed |
| `MinLoss.MinOf` | utils.py:205-206 | `np.min` of the earlier losses is one of them and is at most each of them |
| `MinLoss.IsNewRecord` | utils.py:201-210 | `np.less(current, min_loss)` holds exactly when there is an earlier loss and the newest one is strictly below every earlier one |
| `MinLoss.CheckMinLoss` | utils.py:200-218 | raises IndexError exactly on an empty list; the flag becomes `saveFlag or (to_save given and the newest loss is strictly below every earlier one)`; the message gets the rendered loss on an improvement and 14 spaces otherwise |
| `MinLoss.SingleLossNeverImproves` | utils.py:205-216 | with a single loss there is no improvement: 14 spaces are added and the flag is unchanged |
| `MinLoss.FlagNeverReset` | utils.py:213-218 | a flag that is already raised stays raised |
| `MinLoss.RecordsDecrease` | utils.py:200-218 | over one run, each epoch reported as an improvement has a strictly smaller loss than every earlier reported epoch |
| `MinLoss.NewRecordIsUniqueMinimum` | utils.py:205-210 | an improving loss is the strict minimum of all losses so far |
| `LossPanels.Underscore` | utils.py:72 | the result is the position of the first `'_'`, or the length when there is none |
| `LossPanels.UnderscoreAt` | utils.py:72 | the first `'_'` is at `i` when `s[i]` is `'_'` and no earlier character is |
| `LossPanels.JoinedNames` | utils.py:72 | for a key `a_b` with no `'_'` in `a`, `split('_')[1]` is `b` up to its first `'_'`, and the text after the first `'_'` is `b` |
| `LossPanels.MetricName` | utils.py:72 | a key without `'_'` is its own name; otherwise the key is split at its first `'_'`, and the name is the rest of the key, or under `split('_')[1]` the longest prefix of the rest without `'_'` |
| `LossPanels.ValidationName` | utils.py:72 | taking the text after the first `'_'`, the key `val_m` is named `m` |
| `LossPanels.Step` | utils.py:72-83 | one iteration appends one panel and keeps the earlier ones; a key whose name is cached reuses that panel and leaves the cache and the counter alone; any other key takes panel `i`, is cached under its full key with panel `i` (`axis_cache[key] = axis`), and the counter moves to `i + 1` |
| `LossPanels.Group` | utils.py:70-83 | the loop gives exactly one panel per history key |
| `LossPanels.GroupPanels` | utils.py:65-83 | raises `KeyError` exactly when the history has no `loss` key; otherwise the method with the in-place cache and counter returns, for each key, the panel that `Group` gives and the panel count `Group` ends with; the panels used are exactly 1 to that count |
| `LossPanels.GroupWellNumbered` | utils.py:65-83 | after any history, every key's panel is between 1 and `i - 1`, every cached panel is too, and each of these panels is used |
| `LossPanels.GroupExtends` | utils.py:70-83 | later keys never change the panels of earlier keys |
| `LossPanels.CacheKeeps` | utils.py:74-82 | with distinct keys, a panel cached under the key that opened it stays cached under that key |
| `LossPanels.PanelOf` | utils.py:74-83 | key `j` is drawn on the panel cached under its name by the keys before it, or else on the next free panel |
| `LossPanels.TwoKeys` | utils.py:70-83 | two keys share panel 1 exactly when the second key's metric name is the first key; otherwise they get panels 1 and 2 |
| `LossPanels.SecondFieldOfValidation` | utils.py:72 | as written, the key `val_a_b` with no `'_'` in `a` is looked up under the name `a` |
| `LossPanels.TrainingThenValidationLoss` | utils.py:70-83 | for keys `l`, `m`, `val_l` where `l` has no `'_'` and `m` is not named `l`, the panels are 1, 2, 1 |
| `LossPanels.HistoryPanels` | utils.py:70-83 | for keys `l`, `m`, `val_l`, `val_m` with `m = a_b`, the panels are 1, 2, 1, 3 as written and 1, 2, 1, 2 when only the prefix is dropped |
| `LossPanels.KerasHistoryPanels` | utils.py:67-83 | for a Keras history `loss`, `a_b`, `val_loss`, `val_a_b`, the panels are 1, 2, 1, 3 as written and 1, 2, 1, 2 when only the prefix is dropped |
| `LossPanels.SecondFieldSplitsValidationPanel` | utils.py:72-82 | as written, for a metric `a_b` the keys `a_b` and `val_a_b` land on panels 1 and 2; dropping only the prefix puts both on panel 1 |
| `LossPanels.ValidationSharesTrainingPanel` | utils.py:72-82 | with the prefix-dropping rule, `val_m` is always drawn on the panel that the training key `m` opened |

## Findings

| source | as written | input that shows it | evidently intended | confidence | as-written member | corrected member |
|---|---|---|---|---|---|---|
| utils.py:72 | `m_name = key.split('_')[1]` keeps only the part between the first and second `'_'` | history keys `loss`, `mean_squared_error`, `val_loss`, `val_mean_squared_error`: the last is looked up as `mean`, which is not cached, so it opens panel 3 with the label "Training val_mean_squared_error" (lines 79-80) instead of joining panel 2 | the validation curve shares its training panel, i.e. the name is everything after the first `'_'` (`key.split('_', 1)[1]`) | medium; not executed | `LossPanels.KerasHistoryPanels` | `LossPanels.ValidationSharesTrainingPanel` |

`LossPanels.GroupPanels` takes the naming rule as a parameter. `SecondField` is
the rule as written in utils.py:72. `AfterPrefix` is the corrected rule, and the
panel-sharing property is proved for it.

## Left out

- Plotting (`_plot`, `plot_results`, `regplot_using_searborn`, the drawing in `plot_loss`, `set_fig_dim`, `plot_train_test_pred`, `skopt_plots`): matplotlib, seaborn and scikit-optimize calls with no stateable result.
- `LossPanels.GroupPanels`: does not model that matplotlib's `add_subplot(2, 2, i)` fails once a fifth panel is opened, because that check lives in the plotting library.
- `maybe_create_path` and all file-system effects (`os.makedirs`, existence checks, `os.getcwd`, opening and writing the JSON file): only the choice of file name, payload and `sort_keys` is modelled.
- `datetime.datetime.now()`: the current time is a parameter of `Timestamp.Format` and `ConfigFile.SelectTarget`.
- `Timestamp.Format`: the stamp drops seconds and microseconds, so two calls within the same minute give the same stamp (and `save_config_file` the same errors file name); `Timestamp.FormatInjective` is stated for different minutes only. For years below 1000 the year has fewer digits and the stamp is not parsed back.
- `pd.read_csv` of the NASDAQ CSV in `make_model`: its column names are a parameter of `ModelConfig.MakeModel`.
- `get_index`: a pandas datetime conversion with a type check.
- Dictionary insertion order: the configurations are maps, so the key order that `json.dump` without `sort_keys` preserves is not modelled.
- `PyValue.IntOf`: does not accept the surrounding whitespace, `'_'` digit separators or non-ASCII decimal digits (`int("١٥") == 15`) that Python's `int(str)` also allows, quotes the text plainly in the ValueError message where Python uses its `repr`, and floats have no NaN or infinity, because the only input that matters here is a `lookback` number.
- `MinLoss.CheckMinLoss`: the `"{:10.5f}"` rendering of the loss is a parameter, NaN losses are not modelled, and the unused `_epoch` argument is dropped; `to_save` is reduced to whether it is given.
