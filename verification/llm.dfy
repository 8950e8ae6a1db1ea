/** The two-provider LLM manager: a cached LLM, the name of the active
    backend, a forced-fallback flag and a one-shot retry. Two generations of
    the code share this logic: the modular one (Groq first, Cohere as
    fallback) and the monolithic one (Gemini first, Groq as fallback). */
module Llm {
  import opened Wrappers

  /** Which generation of the code a definition follows. */
  datatype Variant = Modular | Legacy

  /** The backend tried first, and the one used when it is unavailable or
      when the caller forces the fallback. */
  datatype Backend = Primary | Secondary

  function Other(b: Backend): Backend {
    if b == Primary then Secondary else Primary
  }

  /** The name `get_active_model` reports for a backend. */
  function Name(v: Variant, b: Backend): string {
    match (v, b)
    case (Modular, Primary) => "groq"
    case (Modular, Secondary) => "cohere"
    case (Legacy, Primary) => "gemini"
    case (Legacy, Secondary) => "groq"
  }

  /** The provider label `invoke` puts in the combined error message. */
  function Label(v: Variant, b: Backend): string {
    match (v, b)
    case (Modular, Primary) => "Groq"
    case (Modular, Secondary) => "Cohere"
    case (Legacy, Primary) => "Gemini"
    case (Legacy, Secondary) => "Groq"
  }

  /** The backend whose invocation failure makes `invoke` retry: the code
      compares the active model with "cohere" (modular) or "gemini"
      (monolithic). */
  function RetryWhenActive(v: Variant): Backend {
    if v == Modular then Secondary else Primary
  }

  datatype Settings = Settings(temperature: real, maxTokens: int)

  /** What the process environment provides: the configured settings, and
      which backends initialise (an API key is set and the client, plus the
      monolithic code's "Hi" test call, succeeds). */
  datatype Env = Env(settings: Settings, up: Backend -> bool)

  /** A provider reply: `content` is absent when the reply object has no
      `content` attribute; `repr` is `str(reply)`. */
  datatype Reply = Reply(content: Option<string>, repr: string)

  /** One raw `llm.invoke(prompt)` on a backend: a reply or the message of the
      exception it raised. */
  type Call = (string, Backend) -> Result<Reply, string>

  /** Outcomes of the successive invocations `LLMManager.invoke` makes for one
      prompt: attempt 0, then attempt 1 for the retry. */
  type Attempts = (Backend, nat) -> Result<Reply, string>

  datatype Error =
    | InitFailed
    | CallFailed(msg: string)
    | BothFailed(first: Error, second: Error)
    | MissingSetting(name: string)

  /** `str(e)` for the errors the manager raises. */
  function ErrorText(v: Variant, e: Error): string {
    match e
    case InitFailed =>
      if v == Modular then "❌ Both Groq and Cohere models failed to initialize. "
      else "❌ Both Gemini and Groq models failed to initialize. "
    case CallFailed(msg) => msg
    case BothFailed(e1, e2) =>
      "Both models failed. " + Label(v, RetryWhenActive(v)) + ": " + ErrorText(v, e1)
      + ", " + Label(v, Other(RetryWhenActive(v))) + ": " + ErrorText(v, e2)
    case MissingSetting(name) => "'Settings' object has no attribute '" + name + "'"
  }

  /** The manager's state: the settings its clients are built with, the
      cached client (identified by its backend) and the active model. */
  datatype Manager = Manager(settings: Settings, current: Option<Backend>, active: Option<Backend>)

  /** The cached client and the active model always name the same backend. */
  predicate Valid(m: Manager) {
    m.current == m.active
  }

  /** `LLMManager()` in the modular code: settings from the environment,
      nothing cached. */
  function NewManager(env: Env): (m: Manager)
    ensures Valid(m) && m.current == None && m.settings == env.settings
  {
    Manager(env.settings, None, None)
  }

  /** The fields the settings class declares. Reading any other attribute
      of the settings object raises `AttributeError`: environment entries it
      does not declare are ignored, not stored. */
  const DeclaredSettings: set<string> := {
    "GROQ_API_KEY", "GOOGLE_API_KEY", "GROQ_MODEL", "GEMINI_MODEL", "TEMPERATURE", "MAX_TOKENS",
    "COHERE_API_KEY", "DATABASE_URL", "TAVILY_API_KEY", "ENDPOINT_AUTH_KEY"}

  /** The settings attributes the modular `LLMManager()` reads, in order. */
  const ManagerReads: seq<string> :=
    ["COHERE_MODEL", "GROQ_MODEL", "TEMPERATURE", "MAX_TOKENS", "COHERE_API_KEY", "GROQ_API_KEY"]

  /** The same reads with the Cohere model taken from `GROQ_MODEL`, the
      "same model setting" the comment on that line names. */
  const IntendedManagerReads: seq<string> :=
    ["GROQ_MODEL", "GROQ_MODEL", "TEMPERATURE", "MAX_TOKENS", "COHERE_API_KEY", "GROQ_API_KEY"]

  /** The first of `names` the settings object lacks. */
  function FirstMissing(names: seq<string>): (r: Option<string>)
    ensures r.None? <==> forall i :: 0 <= i < |names| ==> names[i] in DeclaredSettings
    ensures r.Some? ==> r.value in names && r.value !in DeclaredSettings
    ensures r.Some? && names[0] in DeclaredSettings ==> r == FirstMissing(names[1..])
    ensures names != [] && names[0] !in DeclaredSettings ==> r == Some(names[0])
  {
    if names == [] then None
    else if names[0] !in DeclaredSettings then Some(names[0])
    else FirstMissing(names[1..])
  }

  /** The modular `LLMManager()` when its constructor reads `fields`: the
      first undeclared attribute raises, otherwise the manager is built. */
  function ConstructModular(env: Env, fields: seq<string>): (r: Result<Manager, Error>)
    ensures r.Success? <==> forall i :: 0 <= i < |fields| ==> fields[i] in DeclaredSettings
    ensures r.Success? ==> r.value == NewManager(env)
    ensures r.Failure? ==> r.error.MissingSetting? && r.error.name in fields && r.error.name !in DeclaredSettings
  {
    match FirstMissing(fields)
    case Some(name) => Failure(MissingSetting(name))
    case None => Success(NewManager(env))
  }

  /** `LLMManager()` as written: the modular constructor reads
      `ManagerReads`; the monolithic one reads the process environment. */
  function ConstructAsWritten(v: Variant, env: Env): Result<Manager, Error> {
    if v == Modular then ConstructModular(env, ManagerReads) else Success(NewManager(env))
  }

  /** The modular constructor reads `COHERE_MODEL`, which the settings class
      does not declare, so it raises in every environment. */
  lemma ModularConstructorRaises(env: Env)
    ensures ConstructAsWritten(Modular, env) == Failure(MissingSetting("COHERE_MODEL"))
    ensures ErrorText(Modular, ConstructAsWritten(Modular, env).error) == "'Settings' object has no attribute 'COHERE_MODEL'"
  {
    assert ManagerReads[0] == "COHERE_MODEL" && "COHERE_MODEL" !in DeclaredSettings;
  }

  /** Reading only declared attributes, the constructor builds the manager
      `NewManager` describes in every environment. */
  lemma IntendedConstructorBuilds(env: Env)
    ensures ConstructModular(env, IntendedManagerReads) == Success(NewManager(env))
  {
    assert forall i :: 0 <= i < |IntendedManagerReads| ==> IntendedManagerReads[i] in DeclaredSettings;
  }

  /** `get_active_model()`. */
  function ActiveModel(v: Variant, m: Manager): (r: Option<string>)
    ensures r.None? <==> m.active.None?
    ensures m.active.Some? ==> r == Some(Name(v, m.active.value))
  {
    match m.active
    case None => None
    case Some(b) => Some(Name(v, b))
  }

  datatype Got = Got(llm: Backend, manager: Manager)

  /** Makes `b` the cached client and the active model. */
  function Activate(m: Manager, b: Backend): Manager {
    m.(current := Some(b), active := Some(b))
  }

  /** `get_llm(force_fallback)`. */
  function GetLlm(m: Manager, up: Backend -> bool, force: bool): (r: Result<Got, Error>)
    // A cached client is returned as is unless the fallback is forced.
    ensures m.current.Some? && !force ==> r == Success(Got(m.current.value, m))
    // Forcing never initialises the primary backend.
    ensures force && r.Success? ==> r.value.llm == Secondary
    // Initialisation fails exactly when every backend it may try is down.
    ensures r.Failure? <==> (force || m.current.None?) && !up(Secondary) && (force || !up(Primary))
    ensures r.Failure? ==> r.error == InitFailed
    // A fresh initialisation caches and activates a backend that is up,
    // preferring the primary one.
    ensures r.Success? && (force || m.current.None?) ==>
      && up(r.value.llm)
      && (r.value.llm == Secondary ==> force || !up(Primary))
      && r.value.manager == Activate(m, r.value.llm)
    ensures r.Success? ==> r.value.manager.settings == m.settings
    ensures Valid(m) && r.Success? ==> Valid(r.value.manager) && r.value.manager.current == Some(r.value.llm)
  {
    if m.current.Some? && !force then Success(Got(m.current.value, m))
    else if !force && up(Primary) then Success(Got(Primary, Activate(m, Primary)))
    else if up(Secondary) then Success(Got(Secondary, Activate(m, Secondary)))
    else Failure(InitFailed)
  }

  /** What an invocation returns and the manager it leaves behind (the
      source mutates the manager even when it then raises). */
  datatype Outcome = Outcome(result: Result<Reply, Error>, manager: Manager)

  /** One attempt: `get_llm(force_fallback)` and a call on the client it
      returns; an initialisation failure leaves the manager as it was. */
  function FirstAttempt(m: Manager, up: Backend -> bool, calls: Attempts, force: bool, attempt: nat): (o: Outcome)
    ensures o.result.Failure? && o.result.error == InitFailed ==> o.manager == m
    ensures Valid(m) ==> Valid(o.manager)
  {
    match GetLlm(m, up, force)
    case Failure(e) => Outcome(Failure(e), m)
    case Success(g) =>
      match calls(g.llm, attempt)
      case Success(reply) => Outcome(Success(reply), g.manager)
      case Failure(msg) => Outcome(Failure(CallFailed(msg)), g.manager)
  }

  /** The condition under which `invoke` retries after a failed attempt. */
  predicate RetryApplies(v: Variant, first: Outcome, force: bool) {
    first.result.Failure? && first.manager.active == Some(RetryWhenActive(v)) && !force
  }

  /** `LLMManager.invoke(prompt, force_fallback)` as written: on any failure,
      retry once with the fallback forced, but only when the active model is
      the one `RetryWhenActive` names and the call was not already forced. */
  function Invoke(v: Variant, m: Manager, up: Backend -> bool, calls: Attempts, force: bool, attempt: nat): (o: Outcome)
    // A successful first attempt is returned; so is every failure outside
    // the retry condition, unchanged (e.g. Groq active in the modular code).
    ensures !RetryApplies(v, FirstAttempt(m, up, calls, force, attempt), force) ==>
      o == FirstAttempt(m, up, calls, force, attempt)
    // When both attempts fail, both errors are reported.
    ensures RetryApplies(v, FirstAttempt(m, up, calls, force, attempt), force) && o.result.Failure? ==>
      o.result.error.BothFailed? && o.result.error.first == FirstAttempt(m, up, calls, force, attempt).result.error
    // In the modular code the retry can never switch to Groq.
    ensures v == Modular && Valid(m) && o.manager.active == Some(Primary) ==>
      o == FirstAttempt(m, up, calls, force, attempt)
    ensures Valid(m) ==> Valid(o.manager)
    decreases if force then 0 else 1
  {
    var first := FirstAttempt(m, up, calls, force, attempt);
    if RetryApplies(v, first, force) then
      var retry := Invoke(v, first.manager, up, calls, true, attempt + 1);
      if retry.result.Success? then retry
      else Outcome(Failure(BothFailed(first.result.error, retry.result.error)), retry.manager)
    else first
  }

  /** In the modular code the retry after a Cohere failure is forced, which
      skips Groq and initialises Cohere again: with Groq up and answering,
      a failing Cohere still makes the whole call fail. */
  lemma ModularRetryStaysOnCohere(settings: Settings, reply: Reply)
    ensures var m := Manager(settings, Some(Secondary), Some(Secondary));
      var up := (b: Backend) => true;
      var calls := (b: Backend, n: nat) => if b == Primary then Success(reply) else Failure("rate limited");
      var o := Invoke(Modular, m, up, calls, false, 0);
      && o.result == Failure(BothFailed(CallFailed("rate limited"), CallFailed("rate limited")))
      && o.manager.active == Some(Secondary)
  {
    var m := Manager(settings, Some(Secondary), Some(Secondary));
    var up := (b: Backend) => true;
    var calls := (b: Backend, n: nat) => if b == Primary then Success(reply) else Failure("rate limited");
    assert FirstAttempt(m, up, calls, false, 0).result == Failure(CallFailed("rate limited"));
    assert FirstAttempt(m, up, calls, true, 1).result == Failure(CallFailed("rate limited"));
  }

  /** Initialises exactly backend `b`, as the retry should. */
  function InitBackend(m: Manager, up: Backend -> bool, b: Backend): (r: Result<Got, Error>)
    ensures r.Success? <==> up(b)
    ensures r.Success? ==> r.value == Got(b, Activate(m, b))
  {
    if up(b) then Success(Got(b, Activate(m, b))) else Failure(InitFailed)
  }

  /** `invoke` as its comments describe it: after a failure of the retried
      backend, try the other backend once. */
  function InvokeOtherBackend(v: Variant, m: Manager, up: Backend -> bool, calls: Attempts, force: bool, attempt: nat): (o: Outcome)
    ensures !RetryApplies(v, FirstAttempt(m, up, calls, force, attempt), force) ==>
      o == FirstAttempt(m, up, calls, force, attempt)
    // A rescued call always ends on the other backend.
    ensures RetryApplies(v, FirstAttempt(m, up, calls, force, attempt), force) && o.result.Success? ==>
      o.manager.active == Some(Other(RetryWhenActive(v)))
    ensures Valid(m) ==> Valid(o.manager)
  {
    var first := FirstAttempt(m, up, calls, force, attempt);
    if RetryApplies(v, first, force) then
      var target := Other(RetryWhenActive(v));
      var retry :=
        match InitBackend(first.manager, up, target)
        case Failure(e) => Outcome(Failure(e), first.manager)
        case Success(g) =>
          match calls(g.llm, attempt + 1)
          case Success(reply) => Outcome(Success(reply), g.manager)
          case Failure(msg) => Outcome(Failure(CallFailed(msg)), g.manager);
      if retry.result.Success? then retry
      else Outcome(Failure(BothFailed(first.result.error, retry.result.error)), retry.manager)
    else first
  }

  /** The intended retry reaches the other backend: when the retried backend
      fails and the other one is up and answers, the call succeeds with that
      answer and the other backend becomes active. */
  lemma OtherBackendRescues(v: Variant, m: Manager, up: Backend -> bool, calls: Attempts, attempt: nat, reply: Reply)
    requires var f := FirstAttempt(m, up, calls, false, attempt);
      f.result.Failure? && f.manager.active == Some(RetryWhenActive(v))
    requires up(Other(RetryWhenActive(v)))
    requires calls(Other(RetryWhenActive(v)), attempt + 1) == Success(reply)
    ensures var o := InvokeOtherBackend(v, m, up, calls, false, attempt);
      o.result == Success(reply) && o.manager.active == Some(Other(RetryWhenActive(v)))
  {
  }

  /** In the monolithic code the forced retry already lands on the other
      backend, so the corrected definition agrees with it everywhere. */
  lemma LegacyInvokeIsOtherBackend(m: Manager, up: Backend -> bool, calls: Attempts, force: bool, attempt: nat)
    ensures Invoke(Legacy, m, up, calls, force, attempt) == InvokeOtherBackend(Legacy, m, up, calls, force, attempt)
  {
    var f := FirstAttempt(m, up, calls, force, attempt);
    if RetryApplies(Legacy, f, force) {
      var g := GetLlm(f.manager, up, true);
      assert g == InitBackend(f.manager, up, Secondary);
    }
  }

  /** The result of the fresh-manager pattern the agent nodes use:
      `LLMManager().get_llm()` followed by a raw `llm.invoke(prompt)`. */
  datatype Answer = Answer(reply: Reply, model: string)

  /** A fresh manager, `get_llm()`, then one raw call (no retry). `model` is
      what `get_active_model()` reports afterwards. */
  function AskFresh(v: Variant, env: Env, llm: Call, prompt: string): (r: Result<Answer, Error>)
    ensures r.Failure? <==>
      || (!env.up(Primary) && !env.up(Secondary))
      || (env.up(Primary) && llm(prompt, Primary).Failure?)
      || (!env.up(Primary) && env.up(Secondary) && llm(prompt, Secondary).Failure?)
    ensures r.Success? ==>
      var b := if env.up(Primary) then Primary else Secondary;
      r.value == Answer(llm(prompt, b).value, Name(v, b))
  {
    match GetLlm(NewManager(env), env.up, false)
    case Failure(e) => Failure(e)
    case Success(g) =>
      match llm(prompt, g.llm)
      case Failure(msg) => Failure(CallFailed(msg))
      case Success(reply) => Success(Answer(reply, Name(v, g.llm)))
  }

  /** `response.content` and the model name from a fresh-manager call;
      `None` wherever the node's `try` catches an exception. */
  function Content(a: Result<Answer, Error>): (r: Option<(string, string)>)
    ensures r.Some? <==> a.Success? && a.value.reply.content.Some?
    ensures r.Some? ==> r.value == (a.value.reply.content.value, a.value.model)
  {
    match a
    case Failure(_) => None
    case Success(ans) =>
      match ans.reply.content
      case None => None
      case Some(text) => Some((text, ans.model))
  }

  /** `response.content` after the fresh-manager pattern, with the model
      name; `None` wherever the node's `try` catches an exception (no backend,
      a failed call, or a reply without `content`). */
  function AskContent(v: Variant, env: Env, llm: Call, prompt: string): (r: Option<(string, string)>)
    ensures r.Some? <==> AskFresh(v, env, llm, prompt).Success? && AskFresh(v, env, llm, prompt).value.reply.content.Some?
    ensures r.Some? ==> r.value == (AskFresh(v, env, llm, prompt).value.reply.content.value, AskFresh(v, env, llm, prompt).value.model)
  {
    Content(AskFresh(v, env, llm, prompt))
  }

  /** The fresh-manager pattern as written: the constructor may raise
      before `get_llm` is reached. */
  function AskFreshAsWritten(v: Variant, env: Env, llm: Call, prompt: string): (r: Result<Answer, Error>)
    ensures ConstructAsWritten(v, env).Failure? ==> r == Failure(ConstructAsWritten(v, env).error)
    ensures ConstructAsWritten(v, env).Success? ==> r == AskFresh(v, env, llm, prompt)
  {
    match ConstructAsWritten(v, env)
    case Failure(e) => Failure(e)
    case Success(_) => AskFresh(v, env, llm, prompt)
  }

  function AskContentAsWritten(v: Variant, env: Env, llm: Call, prompt: string): Option<(string, string)> {
    Content(AskFreshAsWritten(v, env, llm, prompt))
  }

  /** The environment with no backend configured. */
  function Unconfigured(env: Env): Env {
    env.(up := (b: Backend) => false)
  }

  /** As written, every modular LLM step raises at construction, so each
      node that catches it behaves exactly as the model does when no backend
      is configured: no content, whatever the backends would answer. The
      monolithic steps are unaffected. */
  lemma ModularStepsAsUnconfigured(env: Env, llm: Call, prompt: string)
    ensures AskFreshAsWritten(Modular, env, llm, prompt) == Failure(MissingSetting("COHERE_MODEL"))
    ensures AskContentAsWritten(Modular, env, llm, prompt) == None
    ensures AskContentAsWritten(Modular, env, llm, prompt) == AskContent(Modular, Unconfigured(env), llm, prompt)
    ensures AskContentAsWritten(Legacy, env, llm, prompt) == AskContent(Legacy, env, llm, prompt)
  {
    ModularConstructorRaises(env);
  }
}
