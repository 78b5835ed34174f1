/**
 * The `useFormspree` submission controller.
 *
 * The hook owns a status and a message. `submitForm` sets the status to
 * loading, resolves a form id from build-time configuration (a primary
 * variable with an optional fallback), posts the payload to the form
 * service and settles into success or error, firing the optional
 * callbacks; `resetStatus` returns to idle.
 *
 * Configuration is an explicit map, the network's answer is an input
 * (`Reply`), and everything the hook does outside its own state (the
 * request, the callback invocations) is recorded in a ghost trace.
 */
module Formspree {
  import opened Wrappers

  // ---------------------------------------------------------------------
  // Data model
  // ---------------------------------------------------------------------

  /** The four submission states. */
  datatype Status = Idle | Loading | Success | Error

  /** Build-time configuration: variable name to value. */
  type Env = map<string, string>

  /** The data handed to a submit; its JSON serialisation is not modelled. */
  type Payload = map<string, string>

  /** How an optional callback behaves when the hook invokes it. */
  datatype Callback = Absent | Returns | Throws

  /** The options as a caller writes them; `None` is a key left out. */
  datatype Options = Options(
    formIdEnvKey: Option<string>,
    fallbackFormIdEnvKey: Option<string>,
    onSuccess: Callback,
    onError: Callback)

  /** `useFormspree()` called without an argument. */
  const NoOptions := Options(None, None, Absent, Absent)

  /** The options once destructured, with the primary key's default filled in. */
  datatype Config = Config(
    primaryKey: string,
    fallbackKey: Option<string>,
    onSuccess: Callback,
    onError: Callback)

  /**
   * What the transport and the JSON parser make of the one request.
   * `HttpError(None)`: the error body does not parse;
   * `HttpError(Some(field))`: it parses, and `field` is its `error` member.
   */
  datatype Reply = Ok | HttpError(body: Option<Option<string>>) | TransportFailure

  /** Effects of a submit outside the hook's own state. */
  datatype Effect =
    | Request(verb: string, url: string, contentType: string, body: Payload)
    | SuccessCalled
    | ErrorCalled

  /** The hook's observable state together with the effects so far. */
  datatype Hook = Hook(status: Status, message: string, trace: seq<Effect>)

  /** What one settled submit leaves behind; `rejected` means an exception
      escaped the catch block, so the promise `submitForm` returned rejects. */
  datatype Settled = Settled(status: Status, message: string, effects: seq<Effect>, rejected: bool)

  const DefaultFormIdKey := "PUBLIC_FORMSPREE_FORM_ID"
  const Endpoint := "https://formspree.io/f/"
  const JsonContentType := "application/json"
  const SuccessText := "Success!"
  const RejectedText := "Something went wrong. Please try again."
  const FailureText := "Failed to submit. Please try again later."

  // ---------------------------------------------------------------------
  // Form id resolution
  // ---------------------------------------------------------------------

  /** A configuration read: a missing variable reads as `undefined`, which,
      like the empty string, is falsy; both are represented by "". */
  function Lookup(env: Env, key: string): string
  {
    if key in env then env[key] else ""
  }

  /** The variable `key` holds a usable (truthy) value. */
  predicate Configured(env: Env, key: string)
  {
    key in env && env[key] != ""
  }

  /** A fallback key was supplied and is itself truthy. */
  predicate FallbackGiven(fallback: Option<string>)
  {
    fallback.Some? && fallback.value != ""
  }

  /** The form id a submit posts to, or `None` when nothing usable is configured. */
  function ResolveId(env: Env, primary: string, fallback: Option<string>): (r: Option<string>)
    ensures r.Some? ==> r.value != ""
    ensures r.Some? <==> Configured(env, primary) || (FallbackGiven(fallback) && Configured(env, fallback.value))
    ensures Configured(env, primary) ==> r == Some(env[primary])
    ensures !Configured(env, primary) && r.Some? ==> r == Some(env[fallback.value])
  {
    var first := Lookup(env, primary);
    var id := if first == "" && FallbackGiven(fallback) then Lookup(env, fallback.value) else first;
    if id == "" then None else Some(id)
  }

  // ---------------------------------------------------------------------
  // Effects and the settlement table
  // ---------------------------------------------------------------------

  /** The one request a submit with a resolved id issues. */
  function Post(id: string, payload: Payload): Effect
  {
    Request("POST", Endpoint + id, JsonContentType, payload)
  }

  /** `callback?.()`: an absent callback is skipped. */
  function Fire(callback: Callback, called: Effect): seq<Effect>
  {
    if callback.Absent? then [] else [called]
  }

  /** The requests among a trace's effects, in order. */
  function Requests(t: seq<Effect>): (r: seq<Effect>)
    ensures |r| <= |t|
    ensures forall e :: e in r ==> e in t && e.Request?
  {
    if t == [] then []
    else (if t[0].Request? then [t[0]] else []) + Requests(t[1..])
  }

  /** How many callback invocations a trace holds. */
  function Callbacks(t: seq<Effect>): nat
  {
    multiset(t)[SuccessCalled] + multiset(t)[ErrorCalled]
  }

  /** The message of a non-OK response whose body parses: its `error` member
      when that is truthy, else a generic text. */
  function ErrorMessage(field: Option<string>): (m: string)
    ensures m != ""
    ensures field.Some? && field.value != "" ==> m == field.value
    ensures field.None? || field.value == "" ==> m == RejectedText
  {
    if field.Some? && field.value != "" then field.value else RejectedText
  }

  /** The catch block: whatever was thrown, error with the generic failure
      text and `onError`; if that throws too, the exception escapes. */
  function Caught(cfg: Config, before: seq<Effect>): Settled
  {
    Settled(Error, FailureText, before + Fire(cfg.onError, ErrorCalled), cfg.onError.Throws?)
  }

  /** The settlement of one submit, case by case. */
  function Settlement(cfg: Config, env: Env, payload: Payload, reply: Reply): (s: Settled)
    ensures s.status == Success || s.status == Error
    ensures s.message != ""
    ensures s.status == Success <==>
      ResolveId(env, cfg.primaryKey, cfg.fallbackKey).Some? && reply.Ok? && !cfg.onSuccess.Throws?
    ensures s.rejected ==> s.status == Error && s.message == FailureText
    ensures Requests(s.effects) ==
      match ResolveId(env, cfg.primaryKey, cfg.fallbackKey)
      case None => []
      case Some(id) => [Post(id, payload)]
  {
    match ResolveId(env, cfg.primaryKey, cfg.fallbackKey)
    case None => Caught(cfg, [])
    case Some(id) =>
      var sent := [Post(id, payload)];
      match reply
      case Ok =>
        if cfg.onSuccess.Throws? then
          RequestsAppend(sent, [SuccessCalled] + Fire(cfg.onError, ErrorCalled));
          Caught(cfg, sent + [SuccessCalled])
        else Settled(Success, SuccessText, sent + Fire(cfg.onSuccess, SuccessCalled), false)
      case HttpError(Some(field)) =>
        if cfg.onError.Throws? then Caught(cfg, sent + [ErrorCalled])
        else Settled(Error, ErrorMessage(field), sent + Fire(cfg.onError, ErrorCalled), false)
      case HttpError(None) => Caught(cfg, sent)
      case TransportFailure => Caught(cfg, sent)
  }

  // ---------------------------------------------------------------------
  // The hook's transitions, as functions on its state
  // ---------------------------------------------------------------------

  /** The message is shown exactly when a submit has settled. */
  predicate Consistent(h: Hook)
  {
    (h.status == Idle || h.status == Loading) <==> h.message == ""
  }

  function AfterBegin(h: Hook): Hook
  {
    h.(status := Loading, message := "")
  }

  function AfterSettle(cfg: Config, env: Env, h: Hook, payload: Payload, reply: Reply): Hook
  {
    var s := Settlement(cfg, env, payload, reply);
    Hook(s.status, s.message, h.trace + s.effects)
  }

  function AfterSubmit(cfg: Config, env: Env, h: Hook, payload: Payload, reply: Reply): Hook
  {
    AfterSettle(cfg, env, AfterBegin(h), payload, reply)
  }

  function AfterReset(h: Hook): Hook
  {
    h.(status := Idle, message := "")
  }

  // ---------------------------------------------------------------------
  // The hook instance
  // ---------------------------------------------------------------------

  class FormspreeHook {
    const config: Config
    var status: Status
    var message: string
    ghost var trace: seq<Effect>

    ghost function State(): Hook
      reads this
    {
      Hook(status, message, trace)
    }

    ghost predicate Valid()
      reads this
    {
      Consistent(State())
    }

    /** Mounting the hook: options destructured with their defaults, state idle. */
    constructor (options: Options)
      ensures config.primaryKey ==
        (if options.formIdEnvKey.Some? then options.formIdEnvKey.value else DefaultFormIdKey)
      ensures config.fallbackKey == options.fallbackFormIdEnvKey
      ensures config.onSuccess == options.onSuccess && config.onError == options.onError
      ensures State() == Hook(Idle, "", [])
      ensures Valid()
    {
      var primary := if options.formIdEnvKey.Some? then options.formIdEnvKey.value else DefaultFormIdKey;
      config := Config(primary, options.fallbackFormIdEnvKey, options.onSuccess, options.onError);
      status := Idle;
      message := "";
      trace := [];
    }

    /** The first two writes of a submit, before any lookup or request. */
    method Begin()
      modifies this
      ensures State() == AfterBegin(old(State()))
      ensures status == Loading && message == "" && trace == old(trace)
      ensures Valid()
    {
      status := Loading;
      message := "";
    }

    /** Invokes an optional callback; reports whether it threw. */
    method Invoke(callback: Callback, called: Effect) returns (threw: bool)
      modifies this`trace
      ensures trace == old(trace) + Fire(callback, called)
      ensures threw == callback.Throws?
    {
      if !callback.Absent? {
        trace := trace + [called];
      }
      threw := callback.Throws?;
    }

    /** The rest of a submit: resolve the id, post, and map the reply. */
    method Settle(env: Env, payload: Payload, reply: Reply) returns (rejected: bool)
      modifies this
      ensures State() == AfterSettle(config, env, old(State()), payload, reply)
      ensures status == Success || status == Error
      ensures rejected == Settlement(config, env, payload, reply).rejected
      ensures Valid()
    {
      var thrown := false;
      var formspreeId := ResolveId(env, config.primaryKey, config.fallbackKey);
      if formspreeId.None? {
        thrown := true;
      } else {
        trace := trace + [Post(formspreeId.value, payload)];
        match reply
        case Ok =>
          status, message := Success, SuccessText;
          thrown := Invoke(config.onSuccess, SuccessCalled);
        case HttpError(body) =>
          if body.None? {
            thrown := true;
          } else {
            status, message := Error, ErrorMessage(body.value);
            thrown := Invoke(config.onError, ErrorCalled);
          }
        case TransportFailure =>
          thrown := true;
      }
      rejected := false;
      if thrown {
        status, message := Error, FailureText;
        rejected := Invoke(config.onError, ErrorCalled);
      }
    }

    /** `submitForm`: loading first, then settled. */
    method SubmitForm(env: Env, payload: Payload, reply: Reply) returns (rejected: bool)
      modifies this
      ensures State() == AfterSubmit(config, env, old(State()), payload, reply)
      ensures status == Success || status == Error
      ensures rejected == Settlement(config, env, payload, reply).rejected
      ensures Valid()
    {
      Begin();
      rejected := Settle(env, payload, reply);
    }

    /** `resetStatus`: back to idle with no message; no effects. */
    method ResetStatus()
      modifies this
      ensures State() == AfterReset(old(State()))
      ensures status == Idle && message == "" && trace == old(trace)
      ensures Valid()
    {
      status := Idle;
      message := "";
    }
  }

  // ---------------------------------------------------------------------
  // The settlement table, row by row
  // ---------------------------------------------------------------------

  /** No usable id: no request, generic failure, `onError` only. */
  lemma MissingIdFails(cfg: Config, env: Env, payload: Payload, reply: Reply)
    requires ResolveId(env, cfg.primaryKey, cfg.fallbackKey).None?
    ensures var s := Settlement(cfg, env, payload, reply);
      && s.status == Error && s.message == FailureText
      && s.effects == Fire(cfg.onError, ErrorCalled)
      && Requests(s.effects) == []
  {
  }

  /** A resolved id is posted once, as JSON, to the form's endpoint. */
  lemma ResolvedIdIsPosted(cfg: Config, env: Env, payload: Payload, reply: Reply, id: string)
    requires ResolveId(env, cfg.primaryKey, cfg.fallbackKey) == Some(id)
    ensures var s := Settlement(cfg, env, payload, reply);
      && Requests(s.effects) == [Request("POST", Endpoint + id, JsonContentType, payload)]
      && s.effects[0] == Requests(s.effects)[0]
  {
  }

  /** An OK reply: success, `onSuccess` only. */
  lemma OkSucceeds(cfg: Config, env: Env, payload: Payload, id: string)
    requires ResolveId(env, cfg.primaryKey, cfg.fallbackKey) == Some(id)
    requires !cfg.onSuccess.Throws?
    ensures Settlement(cfg, env, payload, Ok) ==
      Settled(Success, SuccessText, [Post(id, payload)] + Fire(cfg.onSuccess, SuccessCalled), false)
  {
  }

  /** A non-OK reply whose body parses: error with the body's `error` text
      when it is truthy, otherwise the generic rejection text; `onError` only. */
  lemma RejectionShowsErrorField(cfg: Config, env: Env, payload: Payload, id: string, field: Option<string>)
    requires ResolveId(env, cfg.primaryKey, cfg.fallbackKey) == Some(id)
    requires !cfg.onError.Throws?
    ensures var s := Settlement(cfg, env, payload, HttpError(Some(field)));
      && s.status == Error
      && s.message == (if field.Some? && field.value != "" then field.value else RejectedText)
      && s.effects == [Post(id, payload)] + Fire(cfg.onError, ErrorCalled)
      && !s.rejected
  {
  }

  /** A transport failure or an unparsable error body: generic failure, `onError`. */
  lemma FailureIsGeneric(cfg: Config, env: Env, payload: Payload, reply: Reply, id: string)
    requires ResolveId(env, cfg.primaryKey, cfg.fallbackKey) == Some(id)
    requires reply == TransportFailure || reply == HttpError(None)
    ensures Settlement(cfg, env, payload, reply) ==
      Settled(Error, FailureText, [Post(id, payload)] + Fire(cfg.onError, ErrorCalled), cfg.onError.Throws?)
  {
  }

  /** With callbacks that return normally, exactly the callback matching the
      final status fires, at most once, and the promise resolves. */
  lemma CallbackDiscipline(cfg: Config, env: Env, payload: Payload, reply: Reply)
    requires !cfg.onSuccess.Throws? && !cfg.onError.Throws?
    ensures var s := Settlement(cfg, env, payload, reply);
      && multiset(s.effects)[SuccessCalled] == (if s.status == Success && cfg.onSuccess.Returns? then 1 else 0)
      && multiset(s.effects)[ErrorCalled] == (if s.status == Error && cfg.onError.Returns? then 1 else 0)
      && !s.rejected
  {
  }

  /** `onSuccess` runs inside the try block: if it throws, the submit ends in
      the generic failure and `onError` fires as well. */
  lemma ThrowingSuccessCallbackIsCaught(cfg: Config, env: Env, payload: Payload, id: string)
    requires ResolveId(env, cfg.primaryKey, cfg.fallbackKey) == Some(id)
    requires cfg.onSuccess.Throws?
    ensures Settlement(cfg, env, payload, Ok) ==
      Settled(Error, FailureText, [Post(id, payload), SuccessCalled] + Fire(cfg.onError, ErrorCalled), cfg.onError.Throws?)
  {
  }

  /** `onError` after a parsed rejection runs inside the try block too: if it
      throws, the catch block calls it a second time, and that throw escapes. */
  lemma ThrowingErrorCallbackRunsTwice(cfg: Config, env: Env, payload: Payload, id: string, field: Option<string>)
    requires ResolveId(env, cfg.primaryKey, cfg.fallbackKey) == Some(id)
    requires cfg.onError.Throws?
    ensures Settlement(cfg, env, payload, HttpError(Some(field))) ==
      Settled(Error, FailureText, [Post(id, payload), ErrorCalled, ErrorCalled], true)
  {
  }

  /** A submit still pending when the hook is reset writes its outcome over
      the reset: there is no cancellation. */
  lemma StaleSettleOverwritesReset(cfg: Config, env: Env, h: Hook, payload: Payload, reply: Reply)
    ensures var late := AfterSettle(cfg, env, AfterReset(AfterBegin(h)), payload, reply);
      && late.status != Idle
      && late == AfterSubmit(cfg, env, h, payload, reply)
  {
  }

  // ---------------------------------------------------------------------
  // Sequences of calls, each awaited before the next
  // ---------------------------------------------------------------------

  datatype Call = Submit(payload: Payload, reply: Reply) | Reset

  function Step(cfg: Config, env: Env, h: Hook, c: Call): Hook
  {
    match c
    case Submit(payload, reply) => AfterSubmit(cfg, env, h, payload, reply)
    case Reset => AfterReset(h)
  }

  function Run(cfg: Config, env: Env, h: Hook, calls: seq<Call>): Hook
    decreases |calls|
  {
    if calls == [] then h else Run(cfg, env, Step(cfg, env, h, calls[0]), calls[1..])
  }

  function SubmitCount(calls: seq<Call>): nat
  {
    if calls == [] then 0 else (if calls[0].Submit? then 1 else 0) + SubmitCount(calls[1..])
  }

  /** The requests a run issues when every submit resolves to `id`. */
  function Posts(id: Option<string>, calls: seq<Call>): (r: seq<Effect>)
    ensures |r| == if id.Some? then SubmitCount(calls) else 0
  {
    if calls == [] || id.None? then []
    else (if calls[0].Submit? then [Post(id.value, calls[0].payload)] else []) + Posts(id, calls[1..])
  }

  lemma {:induction false} RequestsAppend(a: seq<Effect>, b: seq<Effect>)
    ensures Requests(a + b) == Requests(a) + Requests(b)
  {
    if a == [] {
      assert a + b == b;
    } else {
      assert (a + b)[1..] == a[1..] + b;
      RequestsAppend(a[1..], b);
    }
  }

  /** After any non-empty run, the hook is never left loading, it is idle
      exactly when the last call was a reset, and a message is shown exactly
      when it is not idle. */
  lemma {:induction false} RunEndsSettledOrIdle(cfg: Config, env: Env, h: Hook, calls: seq<Call>)
    requires calls != []
    decreases |calls|
    ensures var r := Run(cfg, env, h, calls);
      && r.status != Loading
      && (r.status == Idle <==> calls[|calls| - 1].Reset?)
      && Consistent(r)
  {
    if |calls| > 1 {
      RunEndsSettledOrIdle(cfg, env, Step(cfg, env, h, calls[0]), calls[1..]);
    }
  }

  /** A run issues exactly one request per submit, each a JSON POST of that
      submit's payload to the resolved form, in call order; with no usable
      id it issues none. */
  lemma {:induction false} RunRequests(cfg: Config, env: Env, h: Hook, calls: seq<Call>)
    ensures Requests(Run(cfg, env, h, calls).trace) ==
      Requests(h.trace) + Posts(ResolveId(env, cfg.primaryKey, cfg.fallbackKey), calls)
    decreases |calls|
  {
    if calls != [] {
      var h' := Step(cfg, env, h, calls[0]);
      RunRequests(cfg, env, h', calls[1..]);
      match calls[0]
      case Reset =>
      case Submit(payload, reply) =>
        RequestsAppend(h.trace, Settlement(cfg, env, payload, reply).effects);
    }
  }

  /** With both callbacks supplied and returning normally, every submit of a
      run fires exactly one of them. */
  lemma {:induction false} RunCallbackCount(cfg: Config, env: Env, h: Hook, calls: seq<Call>)
    requires cfg.onSuccess.Returns? && cfg.onError.Returns?
    ensures Callbacks(Run(cfg, env, h, calls).trace) == Callbacks(h.trace) + SubmitCount(calls)
    decreases |calls|
  {
    if calls != [] {
      var h' := Step(cfg, env, h, calls[0]);
      RunCallbackCount(cfg, env, h', calls[1..]);
      match calls[0]
      case Reset =>
      case Submit(payload, reply) =>
        CallbackDiscipline(cfg, env, payload, reply);
    }
  }
}
