/** The plumbing of the two summarization providers with logic of their own:
    Ollama's base-URL normalisation and chat-model filter, and OpenAI's key
    guard, chat-model filter and reply extraction. The HTTP exchanges are
    inputs: the decoded reply, or the failure of the request. */
module Providers {
  import opened Wrappers
  import opened Text
  import opened Sorting

  // ---------------------------------------------------------------------------
  // Ollama
  // ---------------------------------------------------------------------------

  const OllamaDefaultUrl: string := "http://localhost:11434"

  /** The constructor keeps the URL without its trailing slashes. */
  function OllamaBaseUrl(url: string): (r: string)
    ensures StartsWith(url, r)
    ensures r == [] || r[|r| - 1] != '/'
    ensures forall k :: |r| <= k < |url| ==> url[k] == '/'
  {
    TrimRight(url, {'/'})
  }

  /** Normalising twice changes nothing more. */
  lemma OllamaBaseUrlIdempotent(url: string)
    ensures OllamaBaseUrl(OllamaBaseUrl(url)) == OllamaBaseUrl(url)
  {
    var r := OllamaBaseUrl(url);
    var r2 := OllamaBaseUrl(r);
    assert r2 == r[..|r2|];
  }

  const EmbeddingFamilies: set<string> := {"bert", "nomic-bert", "nomic-bert-moe"}

  /** An entry of the `/api/tags` reply: the model's name (a missing one
      raises) and its family, `""` when the details do not say. */
  datatype OllamaEntry = OllamaEntry(name: Option<string>, family: string)

  /** An embedding-only model: a known embedding family, or "embed" or
      "embedding" in the lower-cased name. */
  predicate IsEmbedding(e: OllamaEntry)
    requires e.name.Some?
  {
    e.family in EmbeddingFamilies
    || Contains(ToLower(e.name.value), "embed")
    || Contains(ToLower(e.name.value), "embedding")
  }

  /** The second keyword adds nothing: a name containing "embedding" already
      contains "embed". */
  lemma EmbeddingKeywordRedundant(e: OllamaEntry)
    requires e.name.Some?
    ensures IsEmbedding(e) <==> e.family in EmbeddingFamilies || Contains(ToLower(e.name.value), "embed")
  {
    if Contains(ToLower(e.name.value), "embedding") {
      ContainsPrefix(ToLower(e.name.value), "embedding", 5);
      assert "embedding"[..5] == "embed";
    }
  }

  predicate AllNamed(es: seq<OllamaEntry>) {
    forall i :: 0 <= i < |es| ==> es[i].name.Some?
  }

  /** The names of the chat-capable entries, in reply order. */
  function ChatNames(es: seq<OllamaEntry>): (r: seq<string>)
    requires AllNamed(es)
    ensures |r| <= |es|
    ensures forall j :: 0 <= j < |r| ==> !Contains(ToLower(r[j]), "embed")
  {
    if es == [] then []
    else
      var rest := ChatNames(es[1..]);
      if IsEmbedding(es[0]) then rest else [es[0].name.value] + rest
  }

  /** The filter decides entry by entry and keeps reply order. */
  lemma {:induction false} ChatNamesAppend(a: seq<OllamaEntry>, b: seq<OllamaEntry>)
    requires AllNamed(a) && AllNamed(b)
    ensures AllNamed(a + b)
    ensures ChatNames(a + b) == ChatNames(a) + ChatNames(b)
  {
    if a != [] {
      assert (a + b)[1..] == a[1..] + b;
      ChatNamesAppend(a[1..], b);
    } else {
      assert a + b == b;
    }
  }

  lemma ChatNamesSingle(e: OllamaEntry)
    requires e.name.Some?
    ensures ChatNames([e]) == (if IsEmbedding(e) then [] else [e.name.value])
  {
  }

  /** `list_models`: any failure, including a nameless entry, yields the
      empty list. */
  function OllamaListModels(reply: Result<seq<OllamaEntry>, string>): (r: seq<string>)
    ensures reply.Failure? ==> r == []
    ensures reply.Success? && AllNamed(reply.value) ==> r == ChatNames(reply.value)
    ensures reply.Success? && !AllNamed(reply.value) ==> r == []
  {
    match reply
    case Failure(_) => []
    case Success(es) => if AllNamed(es) then ChatNames(es) else []
  }

  // ---------------------------------------------------------------------------
  // OpenAI
  // ---------------------------------------------------------------------------

  const ChatPrefixes: seq<string> := ["gpt-4", "gpt-3.5", "o1", "o3"]

  predicate IsChatId(id: string) {
    exists p :: p in ChatPrefixes && StartsWith(id, p)
  }

  /** The constructor's key: the given one, or the environment's when none or
      an empty one is given. */
  function OpenAIKey(apiKey: Option<string>, envKey: Option<string>): (r: string)
    ensures apiKey.Some? && apiKey.value != "" ==> r == apiKey.value
    ensures (apiKey.None? || apiKey.value == "") ==> r == envKey.GetOr("")
  {
    if apiKey.Some? && apiKey.value != "" then apiKey.value else envKey.GetOr("")
  }

  /** The ids of the `/models` reply that name chat models, in reply order. */
  function ChatIds(ids: seq<string>): (r: seq<string>)
    ensures forall j :: 0 <= j < |r| ==> IsChatId(r[j])
    ensures multiset(r) <= multiset(ids)
    ensures forall x :: multiset(r)[x] == (if IsChatId(x) then multiset(ids)[x] else 0)
  {
    if ids == [] then []
    else
      var rest := ChatIds(ids[1..]);
      assert ids == [ids[0]] + ids[1..];
      if IsChatId(ids[0]) then [ids[0]] + rest else rest
  }

  /** Every chat id of the reply is kept. */
  lemma {:induction false} ChatIdsComplete(ids: seq<string>, i: nat)
    requires i < |ids| && IsChatId(ids[i])
    ensures ids[i] in ChatIds(ids)
  {
    if i > 0 {
      ChatIdsComplete(ids[1..], i - 1);
    }
  }

  /** Every entry of the `/models` reply has an `id`. */
  predicate AllIds(entries: seq<Option<string>>) {
    forall i :: 0 <= i < |entries| ==> entries[i].Some?
  }

  /** The ids of a reply whose entries all have one. */
  function IdsOf(entries: seq<Option<string>>): (ids: seq<string>)
    requires AllIds(entries)
    ensures |ids| == |entries| && forall i :: 0 <= i < |ids| ==> entries[i] == Some(ids[i])
  {
    seq(|entries|, i requires 0 <= i < |entries| => entries[i].value)
  }

  /** `list_models`: nothing without a key or on any failure (a missing `id`
      raises); otherwise the chat ids, sorted. */
  function OpenAIListModels(apiKey: string, reply: Result<seq<Option<string>>, string>): (r: seq<string>)
    ensures apiKey == "" || reply.Failure? ==> r == []
    ensures apiKey != "" && reply.Success? && !AllIds(reply.value) ==> r == []
    ensures apiKey != "" && reply.Success? && AllIds(reply.value) ==>
              multiset(r) == multiset(ChatIds(IdsOf(reply.value)))
    ensures SortedBy(r, StringOrder())
    ensures forall j :: 0 <= j < |r| ==> IsChatId(r[j])
  {
    StringOrderIsTotalPreorder();
    if apiKey == "" then []
    else match reply
      case Failure(_) => []
      case Success(entries) =>
        if AllIds(entries) then
          var chat := ChatIds(IdsOf(entries));
          var r := Sort(chat, StringOrder());
          assert forall j :: 0 <= j < |r| ==> r[j] in multiset(chat);
          r
        else []
  }

  /** With a key and a well-formed reply, the listing is exactly the chat ids
      of the reply, each as often as the reply names it. */
  lemma OpenAIListModelsExactly(apiKey: string, entries: seq<Option<string>>, x: string)
    requires apiKey != "" && AllIds(entries)
    ensures var r := OpenAIListModels(apiKey, Success(entries));
            && (x in r <==> x in IdsOf(entries) && IsChatId(x))
            && multiset(r)[x] == (if IsChatId(x) then multiset(IdsOf(entries))[x] else 0)
  {
    var r := OpenAIListModels(apiKey, Success(entries));
    var ids := IdsOf(entries);
    assert multiset(r)[x] == multiset(ChatIds(ids))[x];
    assert x in r <==> multiset(r)[x] > 0;
    assert x in ids <==> multiset(ids)[x] > 0;
  }

  /** A completion choice: the message content, absent when the reply leaves
      out the message or its content. */
  datatype Choice = Choice(content: Option<string>)

  /** `summarize`'s reply extraction: the first choice's content. */
  function FirstChoice(choices: seq<Choice>): (r: string)
    ensures choices == [] ==> r == ""
    ensures choices != [] && choices[0].content.Some? ==> r == choices[0].content.value
    ensures choices != [] && choices[0].content.None? ==> r == ""
  {
    if choices == [] then "" else choices[0].content.GetOr("")
  }

  /** The user message both providers send. */
  function UserMessage(transcript: string): (r: string)
    ensures EndsWith(r, transcript)
  {
    "Please summarize this transcript:\n\n" + transcript
  }
}
