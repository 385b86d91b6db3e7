/**
 * The start-up configuration check: the four required environment variables
 * are read, and the job refuses to start when any of them is unset or empty.
 * The process environment is a map from variable names to their values; a
 * name that is not a key is unset.
 */
module Config {
  import opened Wrappers
  import opened Filtering

  type Env = map<string, string>

  /** The required variables, in the order in which they are checked and reported. */
  const RequiredVars: seq<string> := ["MONDAY_API_KEY", "BOARD_ID", "SENDGRID_API_KEY", "FROM_EMAIL"]

  /** The settings the rest of the job uses, read once at start-up. */
  datatype Settings = Settings(mondayApiKey: string, boardId: string, sendgridApiKey: string, fromEmail: string)

  /**
   * A variable counts as set when it is present and, by Python truthiness,
   * its value is not the empty string.
   */
  predicate IsSet(env: Env, name: string) {
    name in env && env[name] != ""
  }

  /**
   * The names in `required` that are unset, keeping their order (the list
   * comprehension of the job). Defined by peeling the last name off.
   */
  function MissingVars(required: seq<string>, env: Env): (missing: seq<string>)
    ensures |missing| <= |required|
    ensures forall name :: name in missing <==> name in required && !IsSet(env, name)
  {
    if required == [] then []
    else
      var init, last := required[..|required| - 1], required[|required| - 1];
      MissingVars(init, env) + (if IsSet(env, last) then [] else [last])
  }

  /** The test "unset in `env`", as a value. */
  function Unset(env: Env): string -> bool {
    name => !IsSet(env, name)
  }

  /** The positions in `required` whose names are unset, in increasing order. */
  function MissingPositions(required: seq<string>, env: Env): seq<nat>
  {
    Positions(required, Unset(env))
  }

  /** `MissingVars` lists the names at `MissingPositions`, one for one. */
  lemma {:induction false} MissingVarsAtPositions(required: seq<string>, env: Env)
    ensures var missing, pos := MissingVars(required, env), MissingPositions(required, env);
      && |pos| == |missing|
      && (forall k :: 0 <= k < |pos| ==> pos[k] < |required| && missing[k] == required[pos[k]])
  {
    PositionsExact(required, Unset(env));
    if required != [] {
      var n := |required| - 1;
      var init := required[..n];
      MissingVarsAtPositions(init, env);
      PositionsExact(init, Unset(env));
      var pos0, missing0 := MissingPositions(init, env), MissingVars(init, env);
      forall k | 0 <= k < |pos0|
        ensures required[pos0[k]] == init[pos0[k]]
      {
      }
    }
  }

  /**
   * `MissingVars` is exactly the filter of `required` by "unset", in order:
   * it lists the names at a strictly increasing sequence of positions, and a
   * position appears there if and only if its name is unset.
   */
  lemma {:induction false} MissingVarsIsOrderedFilter(required: seq<string>, env: Env)
    ensures var missing, pos := MissingVars(required, env), MissingPositions(required, env);
      && |pos| == |missing|
      && (forall k :: 0 <= k < |pos| ==> pos[k] < |required| && missing[k] == required[pos[k]])
      && (forall k, l :: 0 <= k < l < |pos| ==> pos[k] < pos[l])
      && (forall i :: 0 <= i < |required| ==> (i in pos <==> !IsSet(env, required[i])))
  {
    PositionsExact(required, Unset(env));
    MissingVarsAtPositions(required, env);
  }

  /**
   * The configuration check: fails with the list of every unset required
   * variable, or yields the settings read from the environment.
   */
  function LoadSettings(env: Env): (r: Result<Settings, seq<string>>)
    ensures r.Failure? <==> exists name :: name in RequiredVars && !IsSet(env, name)
    ensures r.Failure? ==> r.error == MissingVars(RequiredVars, env) && r.error != []
    ensures r.Success? ==>
      && IsSet(env, "MONDAY_API_KEY") && IsSet(env, "BOARD_ID")
      && IsSet(env, "SENDGRID_API_KEY") && IsSet(env, "FROM_EMAIL")
      && r.value == Settings(env["MONDAY_API_KEY"], env["BOARD_ID"], env["SENDGRID_API_KEY"], env["FROM_EMAIL"])
  {
    var missing := MissingVars(RequiredVars, env);
    if missing != [] then
      assert missing[0] in missing;
      Failure(missing)
    else
      assert forall i :: 0 <= i < |RequiredVars| ==> RequiredVars[i] !in missing;
      assert IsSet(env, RequiredVars[0]) && IsSet(env, RequiredVars[1]);
      assert IsSet(env, RequiredVars[2]) && IsSet(env, RequiredVars[3]);
      Success(Settings(env["MONDAY_API_KEY"], env["BOARD_ID"], env["SENDGRID_API_KEY"], env["FROM_EMAIL"]))
  }
}
