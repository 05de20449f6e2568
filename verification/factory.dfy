/**
 * Engine selection: an explicit source name wins; otherwise, for 9x9 grids
 * only, the configured default engine name (the environment value, passed
 * in here) is consulted; the chosen engine must support the geometry.
 */
module Factory {
  import opened Wrappers
  import opened Engines

  datatype FactoryError =
    | UnknownEnvEngine(name: string)   // the environment names an engine that does not exist
    | UnknownEngine(name: string)      // the explicit source names an engine that does not exist
    | UnsupportedGeometry(size: nat)   // the chosen engine does not support the spec

  /** The engine name selection settles on before looking it up. */
  function ResolveName(spec: GridSpec, source: Option<string>, env: Option<string>)
    : Result<string, FactoryError>
  {
    match source
    case Some(name) => Success(name)
    case None =>
      var envVal := if spec.size == 9 then env else None;
      match envVal
      case None => Success("dokusan")
      case Some(v) => if v == "dokusan" then Success("dokusan") else Failure(UnknownEnvEngine(v))
  }

  function GetEngineFor(spec: GridSpec, source: Option<string>, env: Option<string>)
    : (r: Result<Engine, FactoryError>)
    // an explicit source is used as given, and only "dokusan" is known
    ensures source.Some? && source.value != "dokusan" ==> r == Failure(UnknownEngine(source.value))
    // the environment is consulted only without a source and only for size 9
    ensures source.None? && spec.size == 9 && env.Some? && env.value != "dokusan" ==>
      r == Failure(UnknownEnvEngine(env.value))
    // whatever name is chosen, the engine must support the spec
    ensures r.Success? <==>
      && (source.Some? ==> source.value == "dokusan")
      && (source.None? && spec.size == 9 ==> env.None? || env.value == "dokusan")
      && (spec.size == 4 || spec.size == 6 || spec.size == 9)
    ensures r.Success? ==> r.value == Dokusan && Supports(r.value, spec)
    ensures r.Failure? && r.error.UnsupportedGeometry? ==> !Supports(Dokusan, spec)
  {
    match ResolveName(spec, source, env)
    case Failure(err) => Failure(err)
    case Success(name) =>
      if name == "dokusan" then
        if Supports(Dokusan, spec) then Success(Dokusan) else Failure(UnsupportedGeometry(spec.size))
      else Failure(UnknownEngine(name))
  }

  /** For sizes other than 9 the environment value makes no difference. */
  lemma EnvIgnoredUnlessNine(spec: GridSpec, source: Option<string>, env1: Option<string>, env2: Option<string>)
    requires spec.size != 9
    ensures GetEngineFor(spec, source, env1) == GetEngineFor(spec, source, env2)
  {
  }
}
