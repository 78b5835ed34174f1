# useFormspree submission controller, modelled in Dafny

This project models the `useFormspree` hook, the form-submission
controller shared by the site's newsletter form and reactions widget.
The hook holds a `status` (idle, loading, success, error) and a
`message`. `submitForm` does four things in order:

- it sets the status to loading and clears the message;
- it resolves a form id from build-time configuration, using a primary
  variable (by default `PUBLIC_FORMSPREE_FORM_ID`) and an optional
  fallback variable;
- it posts the payload as JSON to `https://formspree.io/f/<id>`;
- it settles into success or error and fires the optional `onSuccess` or
  `onError` callback.

`resetStatus` returns the hook to idle with an empty message.

Files:

- `wrappers.dfy`: module `Wrappers`, an `Option` type that stands for
  `undefined`.
- `use_formspree.dfy`: module `Formspree`. It holds the data model, the
  pure functions `ResolveId` and `Settlement` (the outcome table), the
  class `FormspreeHook` whose methods update `status` and `message` in
  place, and lemmas about single submits and about sequences of
  awaited calls (`Run`).

Modelling choices:

- The configuration (`import.meta.env`) is an explicit
  `map<string, string>`. A missing variable and an empty value are both
  falsy, so both count as "not configured". The same holds for a
  fallback key that is itself the empty string.
- The network's answer is an input, `Reply`:
  - `Ok`: any 2xx response;
  - `HttpError(Some(field))`: a non-OK response whose body parses, with
    `field` its `error` member;
  - `HttpError(None)`: a non-OK response whose body does not parse;
  - `TransportFailure`: `fetch` itself rejects.
- Effects outside the hook's state go into a ghost trace of `Effect`s:
  the request (verb, URL, content type, body), `SuccessCalled` and
  `ErrorCalled`.
- A callback is `Absent`, `Returns` or `Throws`. This models what the
  `try`/`catch` does when a callback throws. A throwing `onSuccess` is
  caught: the submit ends in the generic failure and `onError` fires too.
  A throwing `onError` after a parsed rejection is caught and called a
  second time. An exception from `onError` inside the catch block
  escapes, so the promise rejects (`rejected`).
- `submitForm` is split into `Begin` (the two writes at lines 44-45) and
  `Settle` (the rest), so the intermediate loading state is observable.
  `SubmitForm` runs the two in sequence.
- The error thrown when no id is configured names the key
  (`useFormspree.ts:56`). The catch block at lines 77-81 replaces it with
  the generic text "Failed to submit. Please try again later.". The
  model follows the code: that generic text is the message shown, not
  one that names the key.

## Model

| member | source | states |
|---|---|---|
| `Formspree.ResolveId` | src/hooks/useFormspree.ts:49-57 | A truthy primary value is used. Otherwise a truthy fallback key with a truthy value supplies the id. Otherwise there is no id. A resolved id is never empty (both directions of "resolves"). |
| `Formspree.ErrorMessage` | src/hooks/useFormspree.ts:74 | The shown message is the body's `error` field when it is non-empty, else "Something went wrong. Please try again."; it is never empty |
| `Formspree.Settlement` | src/hooks/useFormspree.ts:47-82 | Every settled submit ends in success or error, with a non-empty message. It succeeds exactly when an id resolves, the reply is OK and `onSuccess` does not throw. It issues exactly one POST when an id resolves and none otherwise. A rejected promise implies the generic failure state. |
| `Formspree.FormspreeHook.constructor` | src/hooks/useFormspree.ts:33-37 | The primary key defaults to `PUBLIC_FORMSPREE_FORM_ID`; the fallback and callbacks are optional; the hook starts `(idle, "")` with no effects |
| `Formspree.FormspreeHook.Begin` | src/hooks/useFormspree.ts:44-45 | Submitting first sets `(loading, "")`, before any lookup or request (the trace is unchanged) |
| `Formspree.FormspreeHook.Invoke` | src/hooks/useFormspree.ts:70-81 | `callback?.()` records one invocation unless the callback is absent, and reports whether it threw; status and message are untouched |
| `Formspree.FormspreeHook.Settle` | src/hooks/useFormspree.ts:47-82 | The try/catch flow as written produces exactly the state, effects and rejection of `Settlement`, ending in success or error and keeping the message/status invariant |
| `Formspree.FormspreeHook.SubmitForm` | src/hooks/useFormspree.ts:43-83 | A whole submit: loading, then the settlement; the final status is success or error |
| `Formspree.FormspreeHook.ResetStatus` | src/hooks/useFormspree.ts:88-91 | From any state, `(idle, "")`, with no request and no callback |
| `Formspree.MissingIdFails` | src/hooks/useFormspree.ts:55-81 | With no usable id: no request, final state `(error, "Failed to submit. Please try again later.")`, only `onError` fires |
| `Formspree.ResolvedIdIsPosted` | src/hooks/useFormspree.ts:59-65 | With a resolved id, the only request is the first effect: a POST to `https://formspree.io/f/` + id, content type `application/json`, body the payload |
| `Formspree.OkSucceeds` | src/hooks/useFormspree.ts:67-70 | An OK reply ends `(success, "Success!")`; `onSuccess` fires once if present, `onError` never |
| `Formspree.RejectionShowsErrorField` | src/hooks/useFormspree.ts:71-75 | A non-OK reply with a parsed body ends in error with the body's `error` text or the generic rejection text; `onError` fires once if present |
| `Formspree.FailureIsGeneric` | src/hooks/useFormspree.ts:77-81 | A transport failure or an unparsable body ends `(error, "Failed to submit. Please try again later.")` with `onError` fired once if present |
| `Formspree.CallbackDiscipline` | src/hooks/useFormspree.ts:67-81 | With non-throwing callbacks, `onSuccess` fires once exactly when the status is success and `onError` once exactly when it is error; the promise resolves |
| `Formspree.ThrowingSuccessCallbackIsCaught` | src/hooks/useFormspree.ts:67-81 | A throwing `onSuccess` is caught: final state is the generic failure and `onError` fires as well |
| `Formspree.ThrowingErrorCallbackRunsTwice` | src/hooks/useFormspree.ts:71-81 | A throwing `onError` after a parsed rejection is called twice and the promise rejects |
| `Formspree.StaleSettleOverwritesReset` | src/hooks/useFormspree.ts:43-91 | A reset issued while a request is pending is overwritten when that request settles: there is no cancellation |
| `Formspree.RunEndsSettledOrIdle` | src/hooks/useFormspree.ts:43-91 | After any non-empty sequence of awaited calls, the hook is never loading. It is idle exactly when the last call was a reset. A message is shown exactly when it is not idle. |
| `Formspree.RunRequests` | src/hooks/useFormspree.ts:49-65 | A sequence of calls issues one POST per submit, in order, each carrying that submit's payload to the resolved form. With no usable id it issues none. |
| `Formspree.RunCallbackCount` | src/hooks/useFormspree.ts:67-81 | With both callbacks supplied and returning normally, each submit of a sequence fires exactly one of them |

## Left out

- `fetch`, `response.json()` and `JSON.stringify` are foreign calls. The reply is an input, the payload is an opaque `map<string, string>`, and the request body is that payload rather than its JSON text.
- Configuration values that are not strings (Vite's boolean `DEV`/`PROD` flags) are not modelled, because the map holds strings only.
- An `error` member that is not a string is not modelled, because `Reply` carries it as an optional string. A body that parses to `null` makes `.error` throw into the catch block, and a caller represents it as `HttpError(None)`.
- `console.error` at line 78 is I/O only and is left out.
- React's `useState` and re-rendering are not modelled. The status and message are plain mutable fields.
- Overlapping submits are not modelled as a concurrent interleaving. `Begin`/`Settle` and `StaleSettleOverwritesReset` show that a late completion overwrites newer state; no ordering claim is made.
- Callbacks are deterministic in the model: each one always returns or always throws.
- The two widgets, `src/components/NewsletterForm.tsx` and `src/components/Reactions.tsx`, are not part of this model. They only consume the hook. That includes the empty-email guard, clearing the input, the reactions payload and its clock-dependent timestamp.
