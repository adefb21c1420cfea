/** The service that owns the transcription engine: built lazily from the
    configuration on first use, loaded on demand, and dropped on unload. */
module EngineService {
  import opened Wrappers
  import opened WhisperEngine

  /** The configured engine settings, read from the environment. */
  datatype Settings = Settings(modelSize: string, computeType: string, batchSize: int, hfToken: string)

  /** The configuration's defaults when the environment sets nothing. */
  const DefaultSettings: Settings := Settings("large-v2", "float16", 16, "")

  /** What the engine's constructor sees of the machine. */
  datatype Machine = Machine(cudaAvailable: bool, envToken: Option<string>)

  datatype Service = Service(engine: Option<Engine>)

  /** The engine the service builds: the configured size, compute type,
      batch size and token, and the constructor's default device. */
  function Build(cfg: Settings, m: Machine): (r: Engine)
    ensures !IsLoaded(r)
    ensures r.config.modelSize == cfg.modelSize && r.config.batchSize == cfg.batchSize
    ensures m.cudaAvailable ==> r.config.device == "cuda" && r.config.computeType == cfg.computeType
    ensures cfg.hfToken != "" ==> r.config.hfToken == cfg.hfToken
  {
    NewEngine(cfg.modelSize, "cuda", cfg.computeType, cfg.batchSize, Some(cfg.hfToken), m.cudaAvailable, m.envToken)
  }

  /** The `engine` property: the held engine, or a new one kept for later. */
  function GetEngine(svc: Service, cfg: Settings, m: Machine): (r: (Engine, Service))
    ensures r.1.engine == Some(r.0)
    ensures svc.engine.Some? ==> r.0 == svc.engine.value && r.1 == svc
    ensures svc.engine.None? ==> r.0 == Build(cfg, m) && !IsLoaded(r.0)
  {
    if svc.engine.Some? then (svc.engine.value, svc)
    else
      var e := Build(cfg, m);
      (e, Service(Some(e)))
  }

  /** Every access after the first returns that same engine. */
  lemma GetEngineStable(svc: Service, cfg: Settings, cfg2: Settings, m: Machine, m2: Machine)
    ensures var (e, svc1) := GetEngine(svc, cfg, m);
            GetEngine(svc1, cfg2, m2) == (e, svc1)
  {
  }

  /** `ensure_loaded`: the engine, loaded unless it already was. A failed load
      is raised and returns no service: the caller keeps its earlier one, and
      the next call builds the same engine from the same settings. */
  function EnsureLoaded(svc: Service, cfg: Settings, m: Machine,
                        loader: Result<(ModelHandle, ModelHandle), string>): (r: Result<(Engine, Service), string>)
    ensures r.Success? ==> IsLoaded(r.value.0) && r.value.1.engine == Some(r.value.0)
    ensures svc.engine.Some? && IsLoaded(svc.engine.value) ==> r == Success((svc.engine.value, svc))
    ensures r.Failure? ==> loader.Failure? && r.error == loader.error
  {
    var (e, svc1) := GetEngine(svc, cfg, m);
    match Load(e, loader)
    case Failure(msg) => Failure(msg)
    case Success(e1) => Success((e1, Service(Some(e1))))
  }

  /** A second `ensure_loaded` neither reloads nor rebuilds. */
  lemma EnsureLoadedTwice(svc: Service, cfg: Settings, m: Machine,
                          loader: Result<(ModelHandle, ModelHandle), string>,
                          again: Result<(ModelHandle, ModelHandle), string>)
    requires EnsureLoaded(svc, cfg, m, loader).Success?
    ensures var (e, svc1) := EnsureLoaded(svc, cfg, m, loader).value;
            EnsureLoaded(svc1, cfg, m, again) == Success((e, svc1))
  {
  }

  /** `unload`: the engine, if any, is unloaded and forgotten. */
  function UnloadService(svc: Service): (r: Service)
    ensures r.engine.None?
  {
    Service(None)
  }

  /** After an unload the next access builds a fresh, unloaded engine from
      the configuration. */
  lemma UnloadThenRebuild(svc: Service, cfg: Settings, m: Machine)
    ensures var (e, _) := GetEngine(UnloadService(svc), cfg, m);
            e == Build(cfg, m) && !IsLoaded(e)
  {
  }
}
