/** The legacy process-wide model service: one shared instance holding lazily
    created transcriber and summarizer handles. A handle's `id` stands for
    object identity: every construction draws a fresh one. */
module LegacyModels {
  import opened Wrappers

  datatype TranscriberHandle = TranscriberHandle(id: nat)

  /** A summarizer object with the provider it was built for and the model it
      was last asked to use. */
  datatype SummarizerHandle = SummarizerHandle(id: nat, provider: string, model: Option<string>)

  /** The service's two optional handles and the next fresh identity. */
  datatype ModelService = ModelService(
    transcriber: Option<TranscriberHandle>,
    summarizer: Option<SummarizerHandle>,
    nextId: nat)

  /** Every handle the service holds was drawn before `nextId`. */
  predicate Valid(svc: ModelService) {
    && (svc.transcriber.Some? ==> svc.transcriber.value.id < svc.nextId)
    && (svc.summarizer.Some? ==> svc.summarizer.value.id < svc.nextId)
  }

  /** The class-level slot that holds the one instance. */
  datatype Registry = Registry(instance: Option<ModelService>)

  const SingletonError: string := "ModelService is a singleton. Use get_instance() instead."

  /** The constructor: refuses when an instance already exists, and otherwise
      starts with no handles. */
  function NewModelService(reg: Registry): (r: Result<ModelService, string>)
    ensures reg.instance.Some? <==> r.Failure?
    ensures r.Failure? ==> r.error == SingletonError
    ensures r.Success? ==> r.value.transcriber.None? && r.value.summarizer.None? && Valid(r.value)
  {
    if reg.instance.Some? then Failure(SingletonError)
    else Success(ModelService(None, None, 0))
  }

  /** `get_instance`: the stored instance, created on first call. */
  function GetInstance(reg: Registry): (r: (ModelService, Registry))
    ensures r.1.instance == Some(r.0)
    ensures reg.instance.Some? ==> r.0 == reg.instance.value && r.1 == reg
    ensures reg.instance.None? ==> Valid(r.0) && r.0.transcriber.None? && r.0.summarizer.None?
  {
    if reg.instance.Some? then (reg.instance.value, reg)
    else
      var svc := NewModelService(reg).value;
      (svc, Registry(Some(svc)))
  }

  /** Every later call returns the instance the first call returned, and
      constructing the service directly afterwards is refused. */
  lemma GetInstanceIsSingleton(reg: Registry)
    ensures var (svc, reg1) := GetInstance(reg);
            GetInstance(reg1) == (svc, reg1) && NewModelService(reg1).Failure?
  {
  }

  /** `get_transcriber`: the held transcriber, or a new one stored for later. */
  function GetTranscriber(svc: ModelService): (r: (TranscriberHandle, ModelService))
    requires Valid(svc)
    ensures Valid(r.1)
    ensures r.1.transcriber == Some(r.0) && r.1.summarizer == svc.summarizer
    ensures svc.transcriber.Some? ==> r.0 == svc.transcriber.value && r.1 == svc
    ensures svc.transcriber.None? ==> r.0.id == svc.nextId
  {
    if svc.transcriber.Some? then (svc.transcriber.value, svc)
    else
      var h := TranscriberHandle(svc.nextId);
      (h, svc.(transcriber := Some(h), nextId := svc.nextId + 1))
  }

  /** A second `get_transcriber` returns the same object and changes nothing. */
  lemma GetTranscriberStable(svc: ModelService)
    requires Valid(svc)
    ensures var (h, svc1) := GetTranscriber(svc);
            GetTranscriber(svc1) == (h, svc1)
  {
  }

  /** `get_summarizer` as the service is meant to behave: build the summarizer
      for `provider` and `model` when there is none; otherwise switch its
      model when a different one is asked for, and leave it alone when no
      model is given. */
  function GetSummarizer(svc: ModelService, provider: string, model: Option<string>): (r: (SummarizerHandle, ModelService))
    requires Valid(svc)
    ensures Valid(r.1)
    ensures r.1.summarizer == Some(r.0) && r.1.transcriber == svc.transcriber
    ensures svc.summarizer.None? ==> r.0 == SummarizerHandle(svc.nextId, provider, model)
    ensures svc.summarizer.Some? ==>
              && r.0.id == svc.summarizer.value.id
              && r.0.provider == svc.summarizer.value.provider
              && r.0.model == (if model.Some? then model else svc.summarizer.value.model)
              && r.1.nextId == svc.nextId
  {
    if svc.summarizer.None? then
      var h := SummarizerHandle(svc.nextId, provider, model);
      (h, svc.(summarizer := Some(h), nextId := svc.nextId + 1))
    else if model.Some? && svc.summarizer.value.model != model then
      var h := svc.summarizer.value.(model := model);
      (h, svc.(summarizer := Some(h)))
    else (svc.summarizer.value, svc)
  }

  /** The message Python raises when the summarizer's constructor is handed
      the keyword it does not declare. */
  const ModelKeywordError: string := "TypeError: __init__() got an unexpected keyword argument 'model'"

  /** `get_summarizer` as written: it constructs the summarizer with a `model`
      keyword that the summarizer's constructor does not accept, so creating
      one always raises; only an already present summarizer (which this
      path can never produce) is returned or updated. */
  function GetSummarizerAsWritten(svc: ModelService, provider: string, model: Option<string>): (r: Result<(SummarizerHandle, ModelService), string>)
    requires Valid(svc)
    ensures svc.summarizer.None? <==> r.Failure?
    ensures r.Success? ==> r.value == GetSummarizer(svc, provider, model)
  {
    if svc.summarizer.None? then Failure(ModelKeywordError)
    else Success(GetSummarizer(svc, provider, model))
  }

  /** The as-written getter never yields a summarizer from a fresh service,
      whatever provider and model are asked for, while the intended getter
      always does. */
  lemma FreshServiceHasNoSummarizerAsWritten(reg: Registry, provider: string, model: Option<string>)
    requires reg.instance.None?
    ensures var svc := GetInstance(reg).0;
            GetSummarizerAsWritten(svc, provider, model).Failure? &&
            GetSummarizer(svc, provider, model).0.model == model
  {
  }

  /** `release_resources`: both handles are dropped. */
  function ReleaseResources(svc: ModelService): (r: ModelService)
    requires Valid(svc)
    ensures Valid(r)
    ensures r.transcriber.None? && r.summarizer.None?
    ensures r.nextId == svc.nextId
  {
    svc.(transcriber := None, summarizer := None)
  }

  /** After a release the getters build new objects, never the ones held
      before. */
  lemma ReleaseThenFresh(svc: ModelService, provider: string, model: Option<string>)
    requires Valid(svc)
    ensures var r := ReleaseResources(svc);
            && (svc.transcriber.Some? ==> GetTranscriber(r).0 != svc.transcriber.value)
            && (svc.summarizer.Some? ==> GetSummarizer(r, provider, model).0.id != svc.summarizer.value.id)
  {
  }
}
