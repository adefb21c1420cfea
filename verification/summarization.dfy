/** The summarization service: the registry of providers configured at start
    and the provider and model selection of a summary request. Each
    provider's model listing (already reduced to a list, as the providers
    turn their failures into an empty one) and its summary call are inputs. */
module Summarization {
  import opened Wrappers
  import opened Text
  import opened Transcript
  import Prompts

  /** The environment values the registry reads; `None` for an unset key. */
  datatype Env = Env(openaiKey: Option<string>, anthropicKey: Option<string>)

  /** Python's truthiness of an environment value. */
  predicate IsSet(v: Option<string>) {
    v.Some? && v.value != ""
  }

  /** The registered provider names, in registration order: the LAN
      providers always, a cloud provider only when its key is set. */
  function Registry(env: Env): (r: seq<string>)
    ensures |r| >= 2 && r[0] == "ollama" && r[1] == "vllm"
    ensures "openai" in r <==> IsSet(env.openaiKey)
    ensures "anthropic" in r <==> IsSet(env.anthropicKey)
    ensures forall i, j :: 0 <= i < j < |r| ==> r[i] != r[j]
  {
    ["ollama", "vllm"]
    + (if IsSet(env.openaiKey) then ["openai"] else [])
    + (if IsSet(env.anthropicKey) then ["anthropic"] else [])
  }

  /** Python's `repr` of a list of strings. */
  function ReprList(xs: seq<string>): string {
    "[" + Join(", ", ReprEach(xs)) + "]"
  }

  function ReprEach(xs: seq<string>): (r: seq<string>)
    ensures |r| == |xs|
  {
    if xs == [] then [] else ["'" + xs[0] + "'"] + ReprEach(xs[1..])
  }

  function UnknownProviderError(name: string, registry: seq<string>): string {
    "ValueError: Provider '" + name + "' not available. Available: " + ReprList(registry)
  }

  function NoModelsError(name: string): string {
    "ValueError: No models available from provider '" + name + "'"
  }

  datatype SummaryResult = SummaryResult(summary: string, provider: string, model: string)

  /** What a provider is asked: the formatted transcript, the model and the
      system prompt. */
  datatype SummaryRequest = SummaryRequest(transcript: string, model: string, systemPrompt: string)

  /** The model a request runs with: the requested one, or the provider's
      first listed model when none is requested. */
  function ChooseModel(model: string, listed: seq<string>): (r: Result<string, ()>)
    ensures model != "" ==> r == Success(model)
    ensures model == "" ==> (r.Failure? <==> listed == [])
    ensures model == "" && listed != [] ==> r.value == listed[0] && r.value in listed
  {
    if model != "" then Success(model)
    else if listed == [] then Failure(())
    else Success(listed[0])
  }

  /** `summarize`. */
  function Summarize(registry: seq<string>, segs: seq<SegmentDict>, providerName: string, model: string,
                     list: string -> seq<string>,
                     call: (string, SummaryRequest) -> Result<string, string>): (r: Result<SummaryResult, string>)
    ensures providerName !in registry ==> r == Failure(UnknownProviderError(providerName, registry))
    ensures providerName in registry && model == "" && list(providerName) == [] ==> r == Failure(NoModelsError(providerName))
    ensures r.Success? ==>
              && providerName in registry
              && r.value.provider == providerName
              && ChooseModel(model, list(providerName)) == Success(r.value.model)
              && call(providerName, SummaryRequest(Prompts.FormatTranscript(segs), r.value.model,
                                                   Prompts.GetSystemPrompt(|segs|))) == Success(r.value.summary)
    ensures providerName in registry && ChooseModel(model, list(providerName)).Success? ==>
              var m := ChooseModel(model, list(providerName)).value;
              var answer := call(providerName, SummaryRequest(Prompts.FormatTranscript(segs), m,
                                                              Prompts.GetSystemPrompt(|segs|)));
              && (answer.Success? ==> r == Success(SummaryResult(answer.value, providerName, m)))
              && (answer.Failure? ==> r == Failure(answer.error))
  {
    if providerName !in registry then Failure(UnknownProviderError(providerName, registry))
    else match ChooseModel(model, list(providerName))
      case Failure(_) => Failure(NoModelsError(providerName))
      case Success(m) =>
        var req := SummaryRequest(Prompts.FormatTranscript(segs), m, Prompts.GetSystemPrompt(|segs|));
        match call(providerName, req)
        case Failure(e) => Failure(e)
        case Success(summary) => Success(SummaryResult(summary, providerName, m))
  }

  /** A short transcript is summarised with the compact prompt; the model
      named in the result is the one requested, or the first listed. */
  lemma SummarizeSelection(registry: seq<string>, segs: seq<SegmentDict>, providerName: string, model: string,
                           list: string -> seq<string>,
                           call: (string, SummaryRequest) -> Result<string, string>)
    requires Summarize(registry, segs, providerName, model, list, call).Success?
    ensures var res := Summarize(registry, segs, providerName, model, list, call).value;
            && (model != "" ==> res.model == model)
            && (model == "" ==> res.model == list(providerName)[0])
            && (|segs| < Prompts.CompactBelow ==>
                  call(providerName, SummaryRequest(Prompts.FormatTranscript(segs), res.model,
                                                    Prompts.CompactSystemPrompt)).Success?)
  {
  }

  /** `list_all_models`: one entry per registered provider, in registry
      order. */
  function ListAllModels(registry: seq<string>, list: string -> seq<string>): (r: seq<(string, seq<string>)>)
    ensures |r| == |registry|
    ensures forall i :: 0 <= i < |r| ==> r[i].0 == registry[i] && r[i].1 == list(registry[i])
  {
    if registry == [] then [] else [(registry[0], list(registry[0]))] + ListAllModels(registry[1..], list)
  }

  /** Without cloud keys only the two LAN providers answer the listing. */
  lemma ListAllModelsLanOnly(env: Env, list: string -> seq<string>)
    requires !IsSet(env.openaiKey) && !IsSet(env.anthropicKey)
    ensures ListAllModels(Registry(env), list) == [("ollama", list("ollama")), ("vllm", list("vllm"))]
  {
  }
}
