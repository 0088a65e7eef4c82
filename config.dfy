/** The `USE_DS_GENERATOR` enable switch, read once when the module is constructed. */
module Config {
  import opened Wrappers

  /**
   * The outcome of looking the parameter up: `NotFound` when `param_find` gives
   * `PARAM_INVALID`; otherwise `Found(Some(v))` when `param_get` stores `v`, and
   * `Found(None)` when `param_get` stores nothing (the C++ module ignores `param_get`'s return code).
   */
  datatype ParamLookup = NotFound | Found(stored: Option<int>)

  /** The in-class initialiser of the enable flag. */
  const DefaultUseDsGenerator: int := 1

  /**
   * The enable flag after construction. The module runs unless the parameter exists and
   * holds 0: a missing parameter, or one whose value could not be read, leaves it enabled.
   */
  function EnableFlag(lookup: ParamLookup): (flag: int)
    ensures flag != 0 <==> lookup != Found(Some(0))
    ensures lookup.Found? && lookup.stored.Some? ==> flag == lookup.stored.value
  {
    match lookup
    case NotFound => 1
    case Found(stored) => stored.GetOr(DefaultUseDsGenerator)
  }
}
