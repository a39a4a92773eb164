/**
 * `make_model` (utils.py): the default data and network configurations, the
 * keyword overrides applied to them, and the N-BEATS backcast length that
 * follows `lookback`. The column names of the NASDAQ CSV are a parameter.
 */
module ModelConfig {
  import opened Results
  import opened PyValue

  /** The three values `make_model` returns. */
  datatype Config = Config(data: map<string, Value>, nn: map<string, Value>, intervals: seq<(int, int)>)

  function Entry(key: string, v: Value): map<Key, Value> {
    map[Name(key) := v]
  }

  function Layer(units: int, activation: Option<string>): Value {
    var config := Entry("units", VInt(units));
    VDict(Entry("config", VDict(if activation.Some? then config[Name("activation") := VStr(activation.value)] else config)))
  }

  function DropoutLayer(rate: real): Value {
    VDict(Entry("config", VDict(Entry("rate", VFloat(rate)))))
  }

  /** `nn_config` before the keyword overrides; `backcast` is the N-BEATS backcast length. */
  function NnDefaults(backcast: int): (r: map<string, Value>)
    ensures "nbeats_options" in r && r["nbeats_options"].VDict?
    ensures Name("backcast_length") in r["nbeats_options"].entries
    ensures r["nbeats_options"].entries[Name("backcast_length")] == VInt(backcast)
  {
    map[
      "layers" := VDict(map[
        Name("Dense_0") := Layer(64, Some("relu")),
        Name("Dropout_0") := DropoutLayer(0.3),
        Name("Dense_1") := Layer(32, Some("relu")),
        Name("Dropout_1") := DropoutLayer(0.3),
        Name("Dense_2") := Layer(16, Some("relu")),
        Name("Dense_3") := Layer(1, None)]),
      "enc_config" := VDict(map[
        Name("n_h") := VInt(20), Name("n_s") := VInt(20), Name("m") := VInt(20),
        Name("enc_lstm1_act") := VNone, Name("enc_lstm2_act") := VNone]),
      "dec_config" := VDict(map[Name("p") := VInt(30), Name("n_hde0") := VInt(30), Name("n_sde0") := VInt(30)]),
      "composite" := VBool(false),
      "lr" := VFloat(0.0001),
      "optimizer" := VStr("adam"),
      "loss" := VStr("mse"),
      "epochs" := VInt(14),
      "min_val_loss" := VFloat(0.0001),
      "patience" := VInt(100),
      "subsequences" := VInt(3),
      "HARHN_config" := VDict(map[Name("n_conv_lyrs") := VInt(3), Name("enc_units") := VInt(64), Name("dec_units") := VInt(64)]),
      "nbeats_options" := VDict(map[
        Name("backcast_length") := VInt(backcast),
        Name("forecast_length") := VInt(1),
        Name("stack_types") := VTuple([VStr("generic"), VStr("generic")]),
        Name("nb_blocks_per_stack") := VInt(2),
        Name("thetas_dim") := VTuple([VInt(4), VInt(4)]),
        Name("share_weights_in_stack") := VBool(true),
        Name("hidden_layer_units") := VInt(62)]),
      "dense_config" := VDict(map[Index(1) := VDict(Entry("units", VInt(1)))])
    ]
  }

  /** `data_config` before the keyword overrides; `inputs` are the CSV columns other than the target. */
  function DataDefaults(inputs: seq<string>): (r: map<string, Value>)
    ensures "lookback" in r && r["lookback"] == VInt(15)
    ensures "inputs" in r && r["inputs"] == StrList(inputs)
    ensures "outputs" in r && r["outputs"] == VList([VStr(TargetColumn)])
  {
    map[
      "lookback" := VInt(15),
      "batch_size" := VInt(32),
      "val_fraction" := VFloat(0.2),
      "val_data" := VNone,
      "steps_per_epoch" := VNone,
      "test_fraction" := VFloat(0.2),
      "CACHEDATA" := VBool(true),
      "ignore_nans" := VBool(false),
      "use_predicted_output" := VBool(true),
      "metrics" := VNone,
      "inputs" := StrList(inputs),
      "outputs" := VList([VStr(TargetColumn)])
    ]
  }

  /** The CSV column predicted by the network. */
  const TargetColumn: string := "NDX"

  /** The row intervals `make_model` returns. */
  const TotalIntervals: seq<(int, int)> :=
    [(0, 146), (145, 386), (385, 628), (625, 821), (821, 1110), (1110, 1447)]

  /** The position of the first occurrence of `x` in `xs`. */
  function FirstIndex(xs: seq<string>, x: string): (i: nat)
    requires x in xs
    ensures i < |xs| && xs[i] == x && x !in xs[..i]
  {
    if xs[0] == x then 0
    else
      var i := FirstIndex(xs[1..], x);
      assert xs[..i + 1] == [xs[0]] + xs[1..][..i];
      i + 1
  }

  /** `xs.remove(x)`: drops the first occurrence of `x`, or raises ValueError when there is none. */
  function RemoveFirst(xs: seq<string>, x: string): (r: Option<seq<string>>)
    ensures r.None? <==> x !in xs
    ensures r.Some? ==> var i := FirstIndex(xs, x); r.value == xs[..i] + xs[i + 1..]
  {
    if xs == [] then None
    else if xs[0] == x then Some(xs[1..])
    else
      match RemoveFirst(xs[1..], x)
      case None => None
      case Some(rest) =>
        RemoveAfterHead(xs, x);
        Some([xs[0]] + rest)
  }

  /** Removing `x` past a different head is removing it from the tail. */
  lemma RemoveAfterHead(xs: seq<string>, x: string)
    requires |xs| > 0 && xs[0] != x && x in xs[1..]
    ensures var i := FirstIndex(xs[1..], x);
      && FirstIndex(xs, x) == i + 1
      && [xs[0]] + (xs[1..][..i] + xs[1..][i + 1..]) == xs[..i + 1] + xs[i + 2..]
  {
    var i := FirstIndex(xs[1..], x);
    assert xs[..i + 1] == [xs[0]] + xs[1..][..i];
    assert xs[i + 2..] == xs[1..][i + 1..];
  }

  /** Removing `x` loses exactly one copy of `x` and keeps every other element. */
  lemma RemoveFirstPermutes(xs: seq<string>, x: string)
    requires x in xs
    ensures multiset(RemoveFirst(xs, x).value) + multiset{x} == multiset(xs)
  {
    var i := FirstIndex(xs, x);
    assert xs == xs[..i] + [x] + xs[i + 1..];
  }

  /** The value of the last binding of `key` among the keyword arguments, if any. */
  function Lookup(kwargs: seq<(string, Value)>, key: string): (r: Option<Value>)
    ensures r.Some? <==> exists i :: 0 <= i < |kwargs| && kwargs[i].0 == key
    ensures r.Some? ==> exists i :: 0 <= i < |kwargs| && kwargs[i] == (key, r.value)
                                 && forall j :: i < j < |kwargs| ==> kwargs[j].0 != key
  {
    if kwargs == [] then None
    else if kwargs[|kwargs| - 1].0 == key then Some(kwargs[|kwargs| - 1].1)
    else Lookup(kwargs[..|kwargs| - 1], key)
  }

  /** The loop at the end of `make_model`, applied to one dictionary: a keyword overwrites a key only if it exists. */
  function Override(defaults: map<string, Value>, kwargs: seq<(string, Value)>): (m: map<string, Value>)
    ensures m.Keys == defaults.Keys
  {
    if kwargs == [] then defaults
    else
      var earlier := Override(defaults, kwargs[..|kwargs| - 1]);
      var (key, v) := kwargs[|kwargs| - 1];
      if key in earlier then earlier[key := v] else earlier
  }

  /** The N-BEATS backcast length: 15, or `int(kwargs['lookback'])` when `lookback` is given. */
  function BackcastLength(kwargs: seq<(string, Value)>): (r: Result<int>)
    ensures Lookup(kwargs, "lookback").None? ==> r == Success(15)
    ensures Lookup(kwargs, "lookback").Some? ==> r == IntOf(Lookup(kwargs, "lookback").value)
    ensures Lookup(kwargs, "lookback").Some? && Lookup(kwargs, "lookback").value.VInt? ==>
              r == Success(Lookup(kwargs, "lookback").value.i)
    ensures r.Failure? ==> Lookup(kwargs, "lookback").Some?
                           && !Lookup(kwargs, "lookback").value.VInt? && !Lookup(kwargs, "lookback").value.VFloat?
  {
    match Lookup(kwargs, "lookback")
    case None => Success(15)
    case Some(v) => IntOf(v)
  }

  /**
   * What `make_model(**kwargs)` returns, or the exception it raises: the
   * `int(lookback)` error, or the ValueError of removing a missing `"NDX"`.
   */
  function MakeModelSpec(kwargs: seq<(string, Value)>, columns: seq<string>): (r: Result<Config>)
    ensures r.Failure? <==> BackcastLength(kwargs).Failure? || TargetColumn !in columns
    ensures r.Failure? && BackcastLength(kwargs).Success? ==> r.error == ValueError("list.remove(x): x not in list")
    ensures r.Failure? && BackcastLength(kwargs).Failure? ==> r.error == BackcastLength(kwargs).error
    ensures r.Success? ==> r.value.data.Keys == DataDefaults([]).Keys && r.value.nn.Keys == NnDefaults(0).Keys
    ensures r.Success? ==> r.value.intervals == TotalIntervals
  {
    match BackcastLength(kwargs)
    case Failure(e) => Failure(e)
    case Success(backcast) =>
      match RemoveFirst(columns, TargetColumn)
      case None => Failure(ValueError("list.remove(x): x not in list"))
      case Some(inputs) =>
        Success(Config(Override(DataDefaults(inputs), kwargs), Override(NnDefaults(backcast), kwargs), TotalIntervals))
  }

  /** A key of the defaults ends with the last keyword value given for it, or keeps its default. */
  lemma {:induction false} OverrideSemantics(defaults: map<string, Value>, kwargs: seq<(string, Value)>, key: string)
    requires key in defaults
    ensures Override(defaults, kwargs)[key] == match Lookup(kwargs, key)
                                               case Some(v) => v
                                               case None => defaults[key]
  {
    if kwargs != [] {
      OverrideSemantics(defaults, kwargs[..|kwargs| - 1], key);
    }
  }

  /**
   * `make_model(**kwargs)` with the CSV's columns given. The keyword loop
   * updates both dictionaries in place.
   */
  method MakeModel(kwargs: seq<(string, Value)>, columns: seq<string>) returns (r: Result<Config>)
    ensures r == MakeModelSpec(kwargs, columns)
  {
    var backcast: int;
    match BackcastLength(kwargs) {
      case Failure(e) => return Failure(e);
      case Success(b) => backcast := b;
    }
    var nn := NnDefaults(backcast);
    var inputs: seq<string>;
    match RemoveFirst(columns, TargetColumn) {
      case None => return Failure(ValueError("list.remove(x): x not in list"));
      case Some(cols) => inputs := cols;
    }
    var data := DataDefaults(inputs);
    var k := 0;
    while k < |kwargs|
      invariant 0 <= k <= |kwargs|
      invariant data == Override(DataDefaults(inputs), kwargs[..k])
      invariant nn == Override(NnDefaults(backcast), kwargs[..k])
    {
      var (key, v) := kwargs[k];
      assert kwargs[..k + 1][..k] == kwargs[..k];
      if key in data {
        data := data[key := v];
      }
      if key in nn {
        nn := nn[key := v];
      }
      k := k + 1;
    }
    assert kwargs[..k] == kwargs;
    r := Success(Config(data, nn, TotalIntervals));
  }

  /** The list value holding the given column names. */
  function StrList(names: seq<string>): Value {
    VList(seq(|names|, i requires 0 <= i < |names| => VStr(names[i])))
  }

  /**
   * Unless `nbeats_options` is itself overridden, the backcast length is 15 when
   * `lookback` is not given and `int(lookback)` when it is; for an integer `lookback`
   * (or none) it agrees with `data_config['lookback']`.
   */
  lemma BackcastFollowsLookback(kwargs: seq<(string, Value)>, columns: seq<string>)
    requires MakeModelSpec(kwargs, columns).Success?
    requires Lookup(kwargs, "nbeats_options").None?
    ensures var c := MakeModelSpec(kwargs, columns).value;
      && c.nn["nbeats_options"].VDict?
      && Name("backcast_length") in c.nn["nbeats_options"].entries
      && c.nn["nbeats_options"].entries[Name("backcast_length")]
         == VInt(match Lookup(kwargs, "lookback")
                 case None => 15
                 case Some(v) => IntOf(v).value)
      && (Lookup(kwargs, "lookback").None? || Lookup(kwargs, "lookback").value.VInt? ==>
            c.nn["nbeats_options"].entries[Name("backcast_length")] == c.data["lookback"])
  {
    var backcast := BackcastLength(kwargs).value;
    var inputs := RemoveFirst(columns, TargetColumn).value;
    OverrideSemantics(NnDefaults(backcast), kwargs, "nbeats_options");
    OverrideSemantics(DataDefaults(inputs), kwargs, "lookback");
  }

  /**
   * The target column is never an input: unless overridden, `outputs` is `["NDX"]`
   * and `inputs` is the CSV's columns with the first `"NDX"` removed.
   */
  lemma TargetIsOutputOnly(kwargs: seq<(string, Value)>, columns: seq<string>)
    requires MakeModelSpec(kwargs, columns).Success?
    requires Lookup(kwargs, "inputs").None? && Lookup(kwargs, "outputs").None?
    ensures var c := MakeModelSpec(kwargs, columns).value;
      && TargetColumn in columns
      && c.data["outputs"] == VList([VStr(TargetColumn)])
      && c.data["inputs"] == StrList(RemoveFirst(columns, TargetColumn).value)
  {
    var inputs := RemoveFirst(columns, TargetColumn).value;
    OverrideSemantics(DataDefaults(inputs), kwargs, "inputs");
    OverrideSemantics(DataDefaults(inputs), kwargs, "outputs");
  }
}
