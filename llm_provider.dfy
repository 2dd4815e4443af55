/** The generation fallback: the providers (OpenAI, Gemini and custom ones
    bound to a LangChain model, an HTTP endpoint or a function), how each
    builds its request, how a custom endpoint's JSON reply is read, and the
    registry of named providers. The network and the models behind it are
    one opaque `backend` that answers a request with decoded JSON or an
    error. */
module LlmProvider {
  import opened Common
  import opened OrderedDict
  import opened JsonValue
  import opened Config

  /** A LangChain model object: chat models take messages, the others a
      prompt string. */
  datatype LlmInstance = LlmInstance(name: string, isChatModel: bool)

  /** The backend a custom provider was built around. */
  datatype Binding =
    | LangChain(llm: LlmInstance)
    | Api(endpoint: string, apiKey: Option<string>, headers: map<string, string>)
    | Function(name: string)

  datatype Provider =
    | OpenAI(model: string)
    | Gemini(model: string)
    | Custom(modelName: string, temperature: Json, kwargs: map<string, Json>, binding: Binding)

  datatype Message = SystemMessage(content: string) | HumanMessage(content: string)

  /** What a provider sends to its backend. */
  datatype Request =
    | Messages(messages: seq<Message>)
    | Prompt(prompt: string)
    | Post(endpoint: string, headers: map<string, string>, payload: map<string, Json>)
    | Call(query: string, context: Option<string>)

  /** The keyword names `register_custom_provider` and the provider's
      constructor take as named parameters: Python binds them to those
      parameters, so they never reach the extra arguments. */
  const NamedParameters: set<string> :=
    {"self", "provider_name", "llm_instance", "api_endpoint", "api_key", "custom_function",
     "model_name", "temperature", "headers"}

  /** Extra keyword arguments as `**kwargs` can receive them. */
  predicate ExtraArguments(kwargs: map<string, Json>) {
    kwargs.Keys !! NamedParameters
  }

  /** `CustomLLMProvider`'s default temperature. */
  const DefaultTemperature := JFloat("0.7")

  const ContextInstruction := "Use the following context to answer the question:\n\n"

  /** `headers or {}` with `Authorization: Bearer <key>` added when the key is
      truthy. */
  function ApiHeaders(apiKey: Option<string>, headers: Option<map<string, string>>): (h: map<string, string>)
    ensures Truthy(apiKey) ==> "Authorization" in h && h["Authorization"] == "Bearer " + apiKey.value
    ensures !Truthy(apiKey) ==> h == if headers.Some? then headers.value else map[]
    ensures forall k :: k != "Authorization" ==> (k in h <==> headers.Some? && k in headers.value)
    ensures forall k :: k in h && k != "Authorization" ==> h[k] == headers.value[k]
  {
    var base := if headers.Some? then headers.value else map[];
    if Truthy(apiKey) then base["Authorization" := "Bearer " + apiKey.value] else base
  }

  /** `CustomLLMProvider.__init__`: the first of the three bindings that is
      not None wins; with none of them the constructor raises. */
  function SelectBinding(llmInstance: Option<LlmInstance>, apiEndpoint: Option<string>, apiKey: Option<string>,
                         customFunction: Option<string>, headers: Option<map<string, string>>): (r: Result<Binding>)
    ensures llmInstance.Some? ==> r == Ok(LangChain(llmInstance.value))
    ensures llmInstance.None? && apiEndpoint.Some? ==>
      r == Ok(Api(apiEndpoint.value, apiKey, ApiHeaders(apiKey, headers)))
    ensures llmInstance.None? && apiEndpoint.None? && customFunction.Some? ==> r == Ok(Function(customFunction.value))
    ensures r.Err? <==> llmInstance.None? && apiEndpoint.None? && customFunction.None?
    ensures r.Err? ==> r.error == MissingBackend
  {
    if llmInstance.Some? then Ok(LangChain(llmInstance.value))
    else if apiEndpoint.Some? then Ok(Api(apiEndpoint.value, apiKey, ApiHeaders(apiKey, headers)))
    else if customFunction.Some? then Ok(Function(customFunction.value))
    else Err(MissingBackend)
  }

  /** The prompt of a text model or endpoint: the bare query, or the context
      and the question in a fixed frame when there is a context. */
  function PromptFor(query: string, context: Option<string>): (p: string)
    ensures !Truthy(context) ==> p == query
    ensures Truthy(context) ==> p == "Context:\n" + context.value + "\n\nQuestion: " + query + "\n\nAnswer:"
  {
    if Truthy(context) then "Context:\n" + context.value + "\n\nQuestion: " + query + "\n\nAnswer:" else query
  }

  /** The prompt always carries the query and, when there is one, the context. */
  lemma PromptMentions(query: string, context: Option<string>)
    ensures Contains(PromptFor(query, context), query)
    ensures Truthy(context) ==> Contains(PromptFor(query, context), context.value)
  {
    if Truthy(context) {
      ContainsInfix("Context:\n" + context.value + "\n\nQuestion: ", query, "\n\nAnswer:");
      ContainsInfix("Context:\n", context.value, "\n\nQuestion: " + query + "\n\nAnswer:");
      assert "Context:\n" + context.value + ("\n\nQuestion: " + query + "\n\nAnswer:") == PromptFor(query, context);
    } else {
      ContainsInfix("", query, "");
      assert "" + query + "" == query;
    }
  }

  /** The messages of a chat model: a system message with the context when
      there is one, then the query. */
  function ChatMessages(query: string, context: Option<string>): (ms: seq<Message>)
    ensures |ms| == if Truthy(context) then 2 else 1
    ensures ms[|ms| - 1] == HumanMessage(query)
    ensures Truthy(context) ==> ms[0] == SystemMessage(ContextInstruction + context.value)
  {
    if Truthy(context) then [SystemMessage(ContextInstruction + context.value), HumanMessage(query)]
    else [HumanMessage(query)]
  }

  /** The JSON body posted to a custom endpoint: the prompt and temperature,
      then the extra keyword arguments, which can override the prompt (the
      temperature is a named parameter and never among them). */
  function Payload(prompt: string, temperature: Json, kwargs: map<string, Json>): (m: map<string, Json>)
    ensures m.Keys == {"prompt", "temperature"} + kwargs.Keys
    ensures forall k :: k in kwargs ==> m[k] == kwargs[k]
    ensures "prompt" !in kwargs ==> m["prompt"] == JStr(prompt)
    ensures "temperature" !in kwargs ==> m["temperature"] == temperature
  {
    map["prompt" := JStr(prompt), "temperature" := temperature] + kwargs
  }

  /** `key in j`: a substring test on a string, an element test on a list, a
      key test on a dict; other values are not iterable. */
  function Has(j: Json, key: string): (r: Result<bool>)
    ensures r.Ok? <==> j.JStr? || j.JArr? || j.JObj?
    ensures j.JObj? ==> r == Ok(key in Keys(j.members))
    ensures j.JArr? ==> r == Ok(JStr(key) in j.items)
    ensures j.JStr? ==> r == Ok(Contains(j.s, key))
  {
    match j
    case JStr(s) => Ok(Contains(s, key))
    case JArr(items) => Ok(JStr(key) in items)
    case JObj(ms) => Ok(key in Keys(ms))
    case _ => Err(TypeError("argument of type '" + TypeName(j) + "' is not iterable"))
  }

  /** `j[key]` with a string key: only a dict can be indexed by one. */
  function Index(j: Json, key: string): (r: Result<Json>)
    ensures r.Ok? <==> j.JObj? && key in Keys(j.members)
    ensures r.Ok? ==> Get(j.members, key) == Some(r.value)
    ensures j.JObj? && r.Err? ==> r.error == KeyError("'" + key + "'")
  {
    match j
    case JObj(ms) => match Get(ms, key) {
      case Some(v) => Ok(v)
      case None => Err(KeyError("'" + key + "'"))
    }
    case JArr(_) => Err(TypeError("list indices must be integers or slices, not str"))
    case JStr(_) => Err(TypeError("string indices must be integers, not 'str'"))
    case _ => Err(TypeError("'" + TypeName(j) + "' object is not subscriptable"))
  }

  /** `len(j)`. */
  function Len(j: Json): (r: Result<nat>)
    ensures r.Ok? <==> j.JStr? || j.JArr? || j.JObj?
  {
    match j
    case JStr(s) => Ok(|s|)
    case JArr(items) => Ok(|items|)
    case JObj(ms) => Ok(|ms|)
    case _ => Err(TypeError("object of type '" + TypeName(j) + "' has no len()"))
  }

  /** `j[0]` on a non-empty value: the first element of a list, the first
      character of a string; a dict decoded from JSON has no key 0. */
  function First(j: Json): (r: Result<Json>)
    requires Len(j).Ok? && Len(j).value > 0
    ensures j.JArr? ==> r == Ok(j.items[0])
    ensures j.JObj? ==> r == Err(KeyError("0"))
  {
    match j
    case JArr(items) => Ok(items[0])
    case JStr(s) => Ok(JStr([s[0]]))
    case JObj(_) => Err(KeyError("0"))
  }

  /** The OpenAI-like branch of the reply reader: `choices[0].message.content`
      or `choices[0].text`, None when the first choice has neither (or there
      is no choice), so that the reader falls back to `str(result)`. */
  function FromChoices(choices: Json): (r: Result<Option<Json>>)
    ensures choices.JArr? && |choices.items| == 0 ==> r == Ok(None)
    ensures choices.JArr? && |choices.items| > 0 && choices.items[0].JObj? ==>
      var c := choices.items[0].members;
      (Get(c, "message").Some? && Get(c, "message").value.JObj? ==>
        r == (var m := Get(c, "message").value.members;
              if Get(m, "content").Some? then Ok(Some(Get(m, "content").value)) else Err(KeyError("'content'")))) &&
      (Get(c, "message").None? && Get(c, "text").Some? ==> r == Ok(Some(Get(c, "text").value))) &&
      (Get(c, "message").None? && Get(c, "text").None? ==> r == Ok(None))
  {
    var n :- Len(choices);
    if n == 0 then Ok(None)
    else
      var choice :- First(choices);
      var hasMessage :- Has(choice, "message");
      if hasMessage then
        var message :- Index(choice, "message");
        var content :- Index(message, "content");
        Ok(Some(content))
      else if Has(choice, "text").value then
        var text :- Index(choice, "text");
        Ok(Some(text))
      else Ok(None)
  }

  /** `_generate_with_api`'s reading of the decoded reply: a string as is;
      else the value under "response", "text" or "output", in that order;
      else the first choice of a non-empty "choices"; else `str(result)`.
      The membership tests are Python's `in`, so a list reply is searched
      for those words as elements and a number raises. */
  function Sniff(result: Json): (r: Result<Json>)
    ensures result.JStr? ==> r == Ok(result)
    ensures result.JNull? || result.JBool? || result.JInt? || result.JFloat? ==> r.Err? && r.error.TypeError?
    ensures result.JObj? && "response" in Keys(result.members) ==> r == Ok(Get(result.members, "response").value)
    ensures result.JObj? && "response" !in Keys(result.members) && "text" in Keys(result.members) ==>
      r == Ok(Get(result.members, "text").value)
    ensures (result.JObj? && "response" !in Keys(result.members) && "text" !in Keys(result.members) &&
             "output" in Keys(result.members)) ==> r == Ok(Get(result.members, "output").value)
    ensures (result.JObj? && "response" !in Keys(result.members) && "text" !in Keys(result.members) &&
             "output" !in Keys(result.members) && "choices" in Keys(result.members)) ==>
      (var picked := FromChoices(Get(result.members, "choices").value);
       if picked.Err? then r == Err(picked.error)
       else if picked.value.Some? then r == Ok(picked.value.value)
       else r == Ok(JStr(Show(result))))
    ensures result.JObj? && (forall k :: k in Keys(result.members) ==> k !in ["response", "text", "output", "choices"]) ==>
      r == Ok(JStr(Show(result)))
    ensures result.JArr? && (forall k :: k in ["response", "text", "output", "choices"] ==> JStr(k) !in result.items) ==>
      r == Ok(JStr(Show(result)))
    ensures result.JArr? && JStr("response") in result.items ==> r.Err? && r.error.TypeError?
    ensures result.JArr? && (JStr("text") in result.items || JStr("output") in result.items || JStr("choices") in result.items) ==>
      r.Err? && r.error.TypeError?
  {
    if result.JStr? then Ok(result)
    else
      // Only the first test can raise: past it the reply is a list or a dict.
      var hasResponse :- Has(result, "response");
      if hasResponse then Index(result, "response")
      else if Has(result, "text").value then Index(result, "text")
      else if Has(result, "output").value then Index(result, "output")
      else
        var picked :- if Has(result, "choices").value then (var choices :- Index(result, "choices"); FromChoices(choices))
                      else Ok(None);
        if picked.Some? then Ok(picked.value) else Ok(JStr(Show(result)))
  }

  /** `response if isinstance(response, str) else str(response)`. */
  function AsText(j: Json): (t: Json)
    ensures t.JStr?
    ensures j.JStr? ==> t == j
    ensures !j.JStr? ==> t.s == Show(j)
  {
    if j.JStr? then j else JStr(Show(j))
  }

  /** `get_provider_name`: the provider's kind, then its model in parentheses. */
  function DisplayName(p: Provider): (d: string)
    ensures var m := if p.Custom? then p.modelName else p.model;
      |m| + 2 <= |d| && d[|d| - |m| - 2..] == "(" + m + ")"
  {
    match p
    case OpenAI(model) => "OpenAI (" + model + ")"
    case Gemini(model) => "Google Gemini (" + model + ")"
    case Custom(modelName, _, _, _) => "Custom (" + modelName + ")"
  }

  /** The text each provider puts before the error its backend raised. */
  function ErrorPrefix(p: Provider): (pfx: string)
    ensures |pfx| >= 8 && pfx[|pfx| - 8..] == " error: "
  {
    match p
    case OpenAI(_) => "OpenAI API error: "
    case Gemini(_) => "Gemini API error: "
    case Custom(_, _, _, _) => "Custom LLM error: "
  }

  /** The three ways a custom provider produces a reply, before wrapping. */
  function CustomReply(backend: (Provider, Request) -> Result<Json>, p: Provider, query: string, context: Option<string>)
    : (r: Result<Json>)
    requires p.Custom?
    ensures p.binding.Function? ==>
      var reply := backend(p, Call(query, context));
      (r.Ok? <==> reply.Ok?) && (r.Ok? ==> r.value == AsText(reply.value)) && (r.Err? ==> r.error == reply.error)
    ensures p.binding.LangChain? && !p.binding.llm.isChatModel ==>
      var reply := backend(p, Prompt(PromptFor(query, context)));
      (r.Ok? <==> reply.Ok?) && (r.Ok? ==> r.value == AsText(reply.value)) && (r.Err? ==> r.error == reply.error)
    ensures p.binding.LangChain? && p.binding.llm.isChatModel ==> r == backend(p, Messages(ChatMessages(query, context)))
    ensures p.binding.Api? && backend(p, Post(p.binding.endpoint, p.binding.headers,
        Payload(PromptFor(query, context), p.temperature, p.kwargs))).Err? ==>
      r.Err? && r.error == backend(p, Post(p.binding.endpoint, p.binding.headers,
        Payload(PromptFor(query, context), p.temperature, p.kwargs))).error
    ensures (p.binding.Function? || (p.binding.LangChain? && !p.binding.llm.isChatModel)) && r.Ok? ==> r.value.JStr?
    ensures p.binding.Api? && backend(p, Post(p.binding.endpoint, p.binding.headers,
        Payload(PromptFor(query, context), p.temperature, p.kwargs))).Ok? ==>
      r == Sniff(backend(p, Post(p.binding.endpoint, p.binding.headers,
        Payload(PromptFor(query, context), p.temperature, p.kwargs))).value)
  {
    match p.binding
    case LangChain(llm) =>
      if llm.isChatModel then backend(p, Messages(ChatMessages(query, context)))
      else
        var reply :- backend(p, Prompt(PromptFor(query, context)));
        Ok(AsText(reply))
    case Api(endpoint, _, headers) =>
      var result :- backend(p, Post(endpoint, headers, Payload(PromptFor(query, context), p.temperature, p.kwargs)));
      Sniff(result)
    case Function(_) =>
      var reply :- backend(p, Call(query, context));
      Ok(AsText(reply))
  }

  /** A provider's `generate_response`: the reply, or the raised error
      wrapped in the provider's message. */
  function Generate(backend: (Provider, Request) -> Result<Json>, p: Provider, query: string, context: Option<string>)
    : (r: Result<Json>)
    ensures r.Err? ==> r.error.Wrapped? && r.error.prefix == ErrorPrefix(p)
    ensures !p.Custom? ==> r.Ok? == backend(p, Messages(ChatMessages(query, context))).Ok?
    ensures !p.Custom? && r.Ok? ==> r.value == backend(p, Messages(ChatMessages(query, context))).value
    ensures p.Custom? ==> r.Ok? == CustomReply(backend, p, query, context).Ok?
    ensures p.Custom? && r.Ok? ==> r.value == CustomReply(backend, p, query, context).value
    ensures !p.Custom? && r.Err? ==> r.error == Wrapped(ErrorPrefix(p), backend(p, Messages(ChatMessages(query, context))).error)
    ensures p.Custom? && r.Err? ==> r.error == Wrapped(ErrorPrefix(p), CustomReply(backend, p, query, context).error)
  {
    var reply := if p.Custom? then CustomReply(backend, p, query, context)
                 else backend(p, Messages(ChatMessages(query, context)));
    match reply
    case Ok(j) => Ok(j)
    case Err(e) => Err(Wrapped(ErrorPrefix(p), e))
  }

  /** `str(e)` for the errors the registry raises or wraps. */
  function ErrorText(e: Error): (t: string)
    ensures e.Wrapped? ==> |e.prefix| <= |t| && t[..|e.prefix|] == e.prefix
    ensures e.ProviderNotFound? ==> Contains(t, e.name)
  {
    match e
    case ProviderNotFound(name, available) =>
      var rest := "' not available. Available providers: " + Join(available, ", ");
      ContainsInfix("Provider '", name, rest);
      assert "Provider '" + name + rest == "Provider '" + name + "' not available. Available providers: " + Join(available, ", ");
      "Provider '" + name + "' not available. Available providers: " + Join(available, ", ")
    case MissingBackend => "Must provide one of: llm_instance, api_endpoint, or custom_function"
    case Wrapped(prefix, cause) => prefix + ErrorText(cause)
    case KeyError(key) => key
    case TypeError(reason) => reason
    case Remote(message) => message
    case _ => ""
  }

  /** The message for a missing provider names every registered provider. */
  lemma NotFoundListsProviders(name: string, available: seq<string>, i: nat)
    requires i < |available|
    ensures Contains(ErrorText(ProviderNotFound(name, available)), available[i])
  {
    JoinContains(available, ", ", i);
    ContainsSuffix("Provider '" + name + "' not available. Available providers: ", Join(available, ", "), available[i]);
  }

  /** What `generate_response` returns. */
  datatype Generation = Generation(response: Json, provider: string)

  /** `model_name or provider_name`. */
  function DisplayModel(modelName: Option<string>, providerName: string): (m: string)
    ensures Truthy(modelName) ==> m == modelName.value
    ensures !Truthy(modelName) ==> m == providerName
  {
    if Truthy(modelName) then modelName.value else providerName
  }

  class LLMManager {
    const defaultLlm: string
    const backend: (Provider, Request) -> Result<Json>
    var providers: Dict<Provider>

    /** The registry never binds a name twice, and a custom provider's extra
        arguments are ones `**kwargs` can receive. */
    ghost predicate Valid()
      reads this
    {
      DistinctKeys(providers) &&
      forall n :: Get(providers, n).Some? && Get(providers, n).value.Custom? ==>
        ExtraArguments(Get(providers, n).value.kwargs)
    }

    /** `LLMManager()`: an empty registry, then `_initialize_providers`. The
        flags say whether constructing each built-in client succeeds. */
    constructor(s: Settings, backend: (Provider, Request) -> Result<Json>, openaiBuilds: bool, geminiBuilds: bool)
      ensures Valid()
      ensures this.defaultLlm == s.defaultLlm && this.backend == backend
      ensures Keys(providers) ==
        (if Truthy(s.openaiApiKey) && openaiBuilds then ["openai"] else []) +
        (if Truthy(s.googleApiKey) && geminiBuilds then ["gemini"] else [])
      ensures Truthy(s.openaiApiKey) && openaiBuilds ==> Get(providers, "openai") == Some(OpenAI(s.openaiModel))
      ensures Truthy(s.googleApiKey) && geminiBuilds ==> Get(providers, "gemini") == Some(Gemini(s.geminiModel))
    {
      this.defaultLlm := s.defaultLlm;
      this.backend := backend;
      this.providers := [];
      new;
      InitializeProviders(s, openaiBuilds, geminiBuilds);
    }

    /** `_initialize_providers`: each built-in provider whose key is set is
        registered unless its construction fails; one failing does not keep
        the other from being registered. */
    method InitializeProviders(s: Settings, openaiBuilds: bool, geminiBuilds: bool)
      modifies this`providers
      requires Valid()
      ensures Valid()
      ensures providers ==
        var withOpenAI := if Truthy(s.openaiApiKey) && openaiBuilds then Put(old(providers), "openai", OpenAI(s.openaiModel))
                          else old(providers);
        if Truthy(s.googleApiKey) && geminiBuilds then Put(withOpenAI, "gemini", Gemini(s.geminiModel)) else withOpenAI
    {
      if Truthy(s.openaiApiKey) && openaiBuilds {
        PutKeepsDistinct(providers, "openai", OpenAI(s.openaiModel));
        providers := Put(providers, "openai", OpenAI(s.openaiModel));
      }
      if Truthy(s.googleApiKey) && geminiBuilds {
        PutKeepsDistinct(providers, "gemini", Gemini(s.geminiModel));
        providers := Put(providers, "gemini", Gemini(s.geminiModel));
      }
    }

    /** `register_custom_provider`: builds the provider (the display name
        defaults to the registered name, the temperature to 0.7) and binds
        the name to it, replacing an earlier binding; a construction error is
        raised again and leaves the registry as it was. */
    method RegisterCustomProvider(name: string, llmInstance: Option<LlmInstance>, apiEndpoint: Option<string>,
                                  apiKey: Option<string>, customFunction: Option<string>, modelName: Option<string>,
                                  temperature: Option<Json>, headers: Option<map<string, string>>,
                                  kwargs: map<string, Json>) returns (r: Outcome)
      modifies this`providers
      requires Valid()
      requires ExtraArguments(kwargs)
      ensures Valid()
      ensures var b := SelectBinding(llmInstance, apiEndpoint, apiKey, customFunction, headers);
        var t := if temperature.Some? then temperature.value else DefaultTemperature;
        if b.Err? then r == Fail(b.error) && providers == old(providers)
        else r == Pass && providers == Put(old(providers), name, Custom(DisplayModel(modelName, name), t, kwargs, b.value))
    {
      var b := SelectBinding(llmInstance, apiEndpoint, apiKey, customFunction, headers);
      if b.Err? {
        return Fail(b.error);
      }
      var p := Custom(DisplayModel(modelName, name), if temperature.Some? then temperature.value else DefaultTemperature, kwargs, b.value);
      PutKeepsDistinct(providers, name, p);
      providers := Put(providers, name, p);
      r := Pass;
    }

    /** `unregister_provider`: removes the name when it is bound. */
    method UnregisterProvider(name: string)
      modifies this`providers
      requires Valid()
      ensures Valid()
      ensures providers == Remove(old(providers), name)
      ensures forall i :: 0 <= i < |old(providers)| && old(providers)[i].0 == name ==>
        providers == old(providers)[..i] + old(providers)[i + 1..]
    {
      forall i | 0 <= i < |providers| && providers[i].0 == name
        ensures Remove(providers, name) == providers[..i] + providers[i + 1..]
      {
        RemoveAt(providers, name, i);
      }
      RemoveKeepsDistinct(providers, name);
      providers := Remove(providers, name);
    }

    /** `get_provider`: looks up the given name, or the default one when the
        name is missing or empty; a miss lists the registered names in
        registration order. */
    function GetProvider(name: Option<string>): (r: Result<Provider>)
      reads this
      ensures var n := if Truthy(name) then name.value else defaultLlm;
        (r.Ok? <==> n in Keys(providers)) &&
        (r.Ok? ==> (n, r.value) in providers && Get(providers, n) == Some(r.value)) &&
        (r.Err? ==> r.error == ProviderNotFound(n, Keys(providers)))
    {
      var n := if Truthy(name) then name.value else defaultLlm;
      match Get(providers, n)
      case Some(p) => Ok(p)
      case None => Err(ProviderNotFound(n, Keys(providers)))
    }

    /** `generate_response`: the selected provider's reply and display name. */
    function GenerateResponse(query: string, context: Option<string>, name: Option<string>): (r: Result<Generation>)
      reads this
      ensures GetProvider(name).Err? ==> r == Err(GetProvider(name).error)
      ensures GetProvider(name).Ok? ==>
        var p := GetProvider(name).value;
        (r.Ok? <==> Generate(backend, p, query, context).Ok?) &&
        (r.Ok? ==> r.value == Generation(Generate(backend, p, query, context).value, DisplayName(p))) &&
        (r.Err? ==> r.error == Generate(backend, p, query, context).error)
    {
      var p :- GetProvider(name);
      var response :- Generate(backend, p, query, context);
      Ok(Generation(response, DisplayName(p)))
    }

    /** A selected custom provider posts its own temperature: no extra
        argument can replace it in the payload. */
    lemma CustomPostsTemperature(name: Option<string>, query: string, context: Option<string>)
      requires Valid()
      requires GetProvider(name).Ok? && GetProvider(name).value.Custom?
      ensures var p := GetProvider(name).value;
        Payload(PromptFor(query, context), p.temperature, p.kwargs)["temperature"] == p.temperature
    {
      var n := if Truthy(name) then name.value else defaultLlm;
      assert Get(providers, n) == Some(GetProvider(name).value);
    }

    /** `list_providers`: the registered names in registration order. */
    function ListProviders(): (r: seq<string>)
      reads this
      ensures |r| == |providers|
      ensures forall n :: n in r <==> Get(providers, n).Some?
      ensures forall i :: 0 <= i < |r| ==> r[i] == providers[i].0
    {
      Keys(providers)
    }
  }
}
