/**
 * The key-validation loop of `LoadEnv` (internal/eda/utils.go). Loading the
 * `.env` file and reading the process environment are folded into one input:
 * either the error `godotenv.Load` returned, or the resulting variables.
 */
module Env {
  import opened Results

  /** What loading the env file left behind. */
  datatype Loaded = LoadError(cause: string) | Environment(vars: map<string, string>)

  /** The two ways `LoadEnv` fails. */
  datatype EnvError =
    | LoadFailed(cause: string)   // godotenv.Load returned an error
    | MissingKey(key: string)     // "<key> does not exist in the env file"

  /** `os.Getenv`: an unset variable reads as the empty string. */
  function Getenv(vars: map<string, string>, key: string): (value: string)
    ensures key !in vars ==> value == ""
    ensures key in vars ==> value == vars[key]
    ensures value != "" ==> key in vars && vars[key] == value
  {
    if key in vars then vars[key] else ""
  }

  /** Every requested key has a non-empty value. */
  ghost predicate AllSet(vars: map<string, string>, keys: seq<string>)
  {
    forall j :: 0 <= j < |keys| ==> Getenv(vars, keys[j]) != ""
  }

  /** keys[i] is the first key whose value is unset or empty. */
  ghost predicate FirstMissingAt(vars: map<string, string>, keys: seq<string>, i: int)
  {
    && 0 <= i < |keys|
    && Getenv(vars, keys[i]) == ""
    && forall j :: 0 <= j < i ==> Getenv(vars, keys[j]) != ""
  }

  /**
   * The `for _, key := range keys` loop: collect each value in key order,
   * stopping at the first key that is unset or empty.
   */
  function LookupAll(vars: map<string, string>, keys: seq<string>): (r: Result<seq<string>, EnvError>)
    ensures r.Success? <==> AllSet(vars, keys)
    ensures r.Success? ==> |r.value| == |keys|
    ensures r.Success? ==> forall j :: 0 <= j < |keys| ==> r.value[j] == Getenv(vars, keys[j]) && r.value[j] != ""
    ensures r.Failure? ==> exists i :: FirstMissingAt(vars, keys, i) && r.error == MissingKey(keys[i])
  {
    if |keys| == 0 then Success([])
    else
      var value := Getenv(vars, keys[0]);
      if value == "" then
        assert FirstMissingAt(vars, keys, 0);
        Failure(MissingKey(keys[0]))
      else
        match LookupAll(vars, keys[1..])
        case Success(rest) => Success([value] + rest)
        case Failure(e) =>
          assert forall i :: FirstMissingAt(vars, keys[1..], i) ==>
                   FirstMissingAt(vars, keys, i + 1) && keys[1..][i] == keys[i + 1];
          Failure(e)
  }

  /** LoadEnv: a load error is returned before any key is looked up. */
  function LoadEnv(loaded: Loaded, keys: seq<string>): (r: Result<seq<string>, EnvError>)
    ensures loaded.LoadError? ==> r == Failure(LoadFailed(loaded.cause))
    ensures loaded.Environment? ==> (r.Success? <==> AllSet(loaded.vars, keys))
    ensures r.Success? ==> |r.value| == |keys|
    ensures r.Success? ==> forall j :: 0 <= j < |keys| ==> r.value[j] == Getenv(loaded.vars, keys[j]) && r.value[j] != ""
    ensures r.Failure? && loaded.Environment? ==>
              exists i :: FirstMissingAt(loaded.vars, keys, i) && r.error == MissingKey(keys[i])
  {
    match loaded
    case LoadError(cause) => Failure(LoadFailed(cause))
    case Environment(vars) => LookupAll(vars, keys)
  }

  /** The first missing key is the one reported, whatever comes after it. */
  lemma FirstMissingReported(vars: map<string, string>, keys: seq<string>, i: int)
    requires FirstMissingAt(vars, keys, i)
    ensures LookupAll(vars, keys) == Failure(MissingKey(keys[i]))
  {
    var r := LookupAll(vars, keys);
    var i' :| FirstMissingAt(vars, keys, i') && r.error == MissingKey(keys[i']);
  }
}
