/**
 * `save_config_file` (utils.py): which file a payload is written to, and whether
 * its keys are sorted. The JSON writing itself is not modelled.
 */
module ConfigFile {
  import opened Results
  import opened PyValue
  import Timestamp

  /** Where `json.dump` writes, what it writes, and its `sort_keys` flag. */
  datatype Target = Target(file: string, data: Value, sortKeys: bool)

  /** A payload argument is given when it `is not None`; an omitted argument is `None`. */
  predicate Given(v: Value) {
    !v.VNone?
  }

  /** The first candidate that is given, if any. */
  function FirstPresent(candidates: seq<Value>): (r: Option<Value>)
    ensures r.Some? <==> exists i :: 0 <= i < |candidates| && Given(candidates[i])
    ensures r.Some? ==> exists i :: 0 <= i < |candidates| && candidates[i] == r.value && Given(r.value)
                                 && forall j :: 0 <= j < i ==> !Given(candidates[j])
  {
    if candidates == [] then None
    else if Given(candidates[0]) then Some(candidates[0])
    else
      var rest := FirstPresent(candidates[1..]);
      assert forall i :: 1 <= i < |candidates| ==> candidates[i] == candidates[1..][i - 1];
      rest
  }

  /**
   * `save_config_file(path, config, errors, indices, name)` called at time `now`,
   * with `VNone` for an omitted payload: `errors` wins over `config`, `config`
   * over `indices`; when all three are `None` it raises.
   */
  function SelectTarget(path: string, config: Value, errors: Value,
                        indices: Value, name: string, now: Timestamp.DateTime): (r: Result<Target>)
    ensures r.Failure? <==> !Given(errors) && !Given(config) && !Given(indices)
    ensures r.Failure? ==> r.error == ValueError("")
    ensures r.Success? ==> Given(r.value.data)
    ensures r.Success? ==> r.value.data == if Given(errors) then errors
                                            else if Given(config) then config
                                            else indices
    ensures r.Success? ==> (r.value.sortKeys <==> !(!Given(errors) && Given(config)))
    ensures Given(errors) ==> r.Success? && r.value.file == path + "/errors_" + name + Timestamp.Format(now) + ".json"
    ensures !Given(errors) && Given(config) ==> r.Success? && r.value.file == path + "/config.json"
    ensures !Given(errors) && !Given(config) && Given(indices) ==> r.Success? && r.value.file == path + "/indices.json"
  {
    if Given(errors) then
      Success(Target(path + "/errors_" + name + Timestamp.Format(now) + ".json", errors, true))
    else if Given(config) then
      Success(Target(path + "/config.json", config, false))
    else if Given(indices) then
      Success(Target(path + "/indices.json", indices, true))
    else
      Failure(ValueError(""))
  }

  /** The payload written is the first of `errors`, `config`, `indices` that is given. */
  lemma SelectsFirstPresent(path: string, config: Value, errors: Value,
                            indices: Value, name: string, now: Timestamp.DateTime)
    ensures var r := SelectTarget(path, config, errors, indices, name, now);
      && (r.Success? <==> FirstPresent([errors, config, indices]).Some?)
      && (r.Success? ==> FirstPresent([errors, config, indices]) == Some(r.value.data))
  {
    assert [errors, config, indices][1..] == [config, indices];
    assert [config, indices][1..] == [indices];
    assert [indices][1..] == [];
    assert FirstPresent([indices]) == if Given(indices) then Some(indices) else FirstPresent([]);
    assert FirstPresent([config, indices]) == if Given(config) then Some(config) else FirstPresent([indices]);
    assert FirstPresent([errors, config, indices]) == if Given(errors) then Some(errors) else FirstPresent([config, indices]);
  }

  /** `path + stem + ".json"`, for a `stem` starting with `'/'`, starts with `path + "/"` and ends in `.json`. */
  lemma JsonFileShape(path: string, stem: string)
    requires |stem| > 0 && stem[0] == '/'
    ensures var f := path + stem + ".json";
      && |f| > |path| + 5
      && f[..|path| + 1] == path + "/"
      && f[|f| - 5..] == ".json"
  {
    var f := path + stem + ".json";
    assert f[..|path| + 1] == path + [stem[0]];
  }

  /** Every selected file name starts with `path + "/"` and has the `.json` extension. */
  lemma TargetInDirectory(path: string, config: Value, errors: Value,
                          indices: Value, name: string, now: Timestamp.DateTime)
    requires SelectTarget(path, config, errors, indices, name, now).Success?
    ensures var f := SelectTarget(path, config, errors, indices, name, now).value.file;
      && |f| > |path| + 5
      && f[..|path| + 1] == path + "/"
      && f[|f| - 5..] == ".json"
  {
    if Given(errors) {
      ErrorsFileInDirectory(path, name, Timestamp.Format(now));
    } else if Given(config) {
      JsonFileShape(path, "/config");
      assert path + "/config" + ".json" == path + "/config.json";
    } else {
      JsonFileShape(path, "/indices");
      assert path + "/indices" + ".json" == path + "/indices.json";
    }
  }

  /** The errors file name `path/errors_<name><stamp>.json` starts with `path + "/"` and ends in `.json`. */
  lemma ErrorsFileInDirectory(path: string, name: string, stamp: string)
    ensures var f := path + "/errors_" + name + stamp + ".json";
      && |f| > |path| + 5
      && f[..|path| + 1] == path + "/"
      && f[|f| - 5..] == ".json"
  {
    var stem := "/errors_" + name + stamp;
    JsonFileShape(path, stem);
    assert path + stem + ".json" == path + "/errors_" + name + stamp + ".json";
  }

  /**
   * The three kinds of payload never share a file name in one directory: the
   * first character after the separator is 'e', 'c' or 'i' respectively.
   */
  lemma KindsNeverCollide(path: string, name: string, now: Timestamp.DateTime, v: Value, w: Value)
    requires Given(v) && Given(w)
    ensures var errorsFile := SelectTarget(path, VNone, v, VNone, name, now).value.file;
            var configFile := SelectTarget(path, w, VNone, VNone, name, now).value.file;
            var indicesFile := SelectTarget(path, VNone, VNone, w, name, now).value.file;
      errorsFile != configFile && errorsFile != indicesFile && configFile != indicesFile
  {
    var errorsFile := SelectTarget(path, VNone, v, VNone, name, now).value.file;
    var configFile := SelectTarget(path, w, VNone, VNone, name, now).value.file;
    var indicesFile := SelectTarget(path, VNone, VNone, w, name, now).value.file;
    var k := |path| + 1;
    assert errorsFile[k] == 'e';
    assert configFile[k] == 'c';
    assert indicesFile[k] == 'i';
  }
}
