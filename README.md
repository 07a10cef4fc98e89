# Side-panel preferences and reconnect handling, in Dafny

This project models the two pieces of the multimodal live console that hold
state beyond rendering:

- **The preference store** (`src/lib/storage.ts`). Three symbolic keys,
  `CONFIG`, `FILTER` and `VOLUME`, are kept under the fixed names
  `app_config`, `logger_filter` and `audio_volume` in the browser's key-value
  medium. `get` parses an entry and returns `null` for a missing, empty or
  unparseable entry, or when the medium fails. `set` and `remove` swallow
  every error.
- **The side panel's state logic** (`src/components/side-panel/SidePanel.tsx`):
  - hydration of the filter, voice, modality and volume selections from the
    store, each with its hard-coded default;
  - the two effects that mirror the selections back, with voice and modality
    always written together as one `CONFIG` record;
  - `handleVolumeChange`;
  - `handleError`, whose retry guard reads the retry count captured when the
    callback was created;
  - `handleSubmit` and dismissal of the error banner.

Files:

- `wrappers.dfy`: `Option`, where `None` stands for JavaScript's `undefined` or `null`.
- `json.dfy`: the JSON values the store holds (null, booleans, numbers,
  strings, objects). It defines JavaScript truthiness and optional property
  access on them. It also defines a JSON-like text form of the model's own,
  with `Serialise` standing for `JSON.stringify` and `Parse` standing for
  `JSON.parse`. `Parse` may fail on arbitrary text, and
  `Parse(Serialise(v)) == Some(v)` is proved for every value.
- `storage.dfy`: the keys and their names. `Read` is what `get` returns while
  the medium works. The class `Store` has the medium as a `map<string, string>`
  field and methods `Get`, `Set` and `Remove`. Each method takes a `failure`
  flag that says whether the medium throws.
- `text.dfy`: `String.prototype.trim` with ECMAScript's white-space set.
- `side_panel.dfy`:
  - the initialisers as functions of what `get` returned, and `Hydrate` of the
    medium's contents;
  - functions that specify one reconnect chain;
  - the class `Panel`, whose fields are the React state. A React setter is a
    field assignment. The calls the panel makes on the session client are
    logged in fields (`connects`, `sent`, `clientVolumes`).

How the model stands in for the environment:

- The session client is an oracle. A sequence of `Outcome`s gives the results
  of successive `connect` calls. An optional message says whether `send`
  throws. A flag says whether the client has `setVolume`.
- Every read and write of the medium takes a failure flag.
- The panel's selections are JSON values, not typed records. `storage.get`
  can hand back any JSON value, and hydration passes any truthy one through.
- `handleError` is a method. It takes the count its closure captured as a
  parameter (`captured`) and increments the `retryCount` field. A loop over the
  outcomes stands for the closure calling itself on every failed connect. The
  guard always sees the captured count, so a single chain is not capped at
  three connects. `ChainNotCapped` states this. Only a closure created once the
  count has reached 3 stops reconnecting.
- `handleSubmit` hands a send failure to the current render's `handleError`.
  That closure captured the current count.

The model follows the code as written. It has no volume clamping
and no reset of the retry count after a successful reconnect. It has no cap of
three attempts per failure chain. It does not ignore errors while a reconnect
is in flight, and it has no backoff. The fallback labels are the ones in the
code: `全部` for the filter and `音频输出` for the modality.

## Model

| member | source | states |
|---|---|---|
| Storage.NamesDistinct | src/lib/storage.ts:5-9 | two keys share a storage name only if they are the same key, so no key's entry aliases another's |
| Storage.Read | src/lib/storage.ts:14-18 | a working medium's `get` gives `null` for an absent key, and otherwise either `null` or exactly what the entry parses to |
| Storage.Store.Get | src/lib/storage.ts:12-20 | `get` never fails: a failing medium yields `null`, a working one yields `Read` of the entry |
| Storage.ReadNullCases | src/lib/storage.ts:14-18 | an absent entry, an empty entry and an entry `JSON.parse` rejects all read as `null` |
| Json.RoundTrip | src/lib/storage.ts:15 | parsing the text `JSON.stringify` wrote gives back the value, for every stored value shape |
| Storage.ReadAfterWrite | src/lib/storage.ts:22-24 | after a successful `set(k, v)`, `get(k)` returns `v` |
| Storage.ReadOtherAfterWrite | src/lib/storage.ts:24 | a write under one key leaves what every other key reads unchanged |
| Storage.Store.Set | src/lib/storage.ts:22-28 | a successful write changes only the entry named for the key, to the serialised value; a failed write leaves the medium as it was |
| Storage.Store.Remove | src/lib/storage.ts:30-36 | a successful removal deletes only the key's entry, present or not; a failed one leaves the medium as it was |
| Storage.ReadAfterRemove | src/lib/storage.ts:30-36 | after a removal the key reads as `null` and every other key reads as before |
| JsText.TrimStart | src/components/side-panel/SidePanel.tsx:117 | leading trim drops an all-white-space prefix and leaves a suffix that starts with a non-space, empty exactly when the text is all white space |
| JsText.TrimEnd | src/components/side-panel/SidePanel.tsx:117 | trailing trim drops an all-white-space suffix and leaves a prefix that ends with a non-space, empty exactly when the text is all white space |
| JsText.Trim | src/components/side-panel/SidePanel.tsx:117 | `trim()` leaves the stretch of the text between an all-white-space head and tail, and that stretch is empty or starts and ends with non-spaces |
| JsText.TrimEmptyIffBlank | src/components/side-panel/SidePanel.tsx:117 | `textInput.trim()` is empty (falsy) exactly when the input holds only white space |
| SidePanel.Or | src/components/side-panel/SidePanel.tsx:50 | `a \|\| b` is `a` when `a` is truthy and `b` otherwise, and is truthy exactly when one of them is |
| SidePanel.PropertyOr | src/components/side-panel/SidePanel.tsx:58 | `a?.name \|\| b` is `b` when `a` is not a record or lacks the member or the member is falsy, and the member's value otherwise |
| SidePanel.InitialFilter | src/components/side-panel/SidePanel.tsx:48-51 | the initial filter is never falsy, whatever the store returned |
| SidePanel.InitialVoice | src/components/side-panel/SidePanel.tsx:56-59 | the initial voice is never falsy, whatever the store returned |
| SidePanel.InitialModality | src/components/side-panel/SidePanel.tsx:64-67 | the initial modality is never falsy, whatever the store returned |
| SidePanel.InitialVolume | src/components/side-panel/SidePanel.tsx:69-71 | the initial volume is never falsy (never 0), whatever the store returned |
| SidePanel.Hydrate | src/components/side-panel/SidePanel.tsx:48-71 | all four hydrated selections are truthy, and each whose entry is absent is its default |
| SidePanel.HydrateNothingStored | src/components/side-panel/SidePanel.tsx:48-71 | with no entries, hydration gives filter `{none, 全部}`, voice `{Aoede, Aoede}`, modality `{audio, 音频输出}` and volume 1 |
| SidePanel.ConfigFieldsIndependent | src/components/side-panel/SidePanel.tsx:56-67 | voice and modality are each taken from their own field of the stored record, and a falsy field falls back to its own default alone |
| SidePanel.ConfigFieldMissing | src/components/side-panel/SidePanel.tsx:56-59 | a stored config that is not a record gives the default voice and modality; a record without `voice` gives the default voice, and one without `modality` the default modality |
| SidePanel.HydrateAfterConfigWrite | src/components/side-panel/SidePanel.tsx:98-103 | after the config effect writes `{voice, modality}`, the next hydration recovers both selections and nothing else changes |
| SidePanel.HydrateAfterFilterWrite | src/components/side-panel/SidePanel.tsx:105-107 | after the filter effect writes a filter, the next hydration recovers it, or the default when it is `null`, and nothing else changes |
| SidePanel.HydrateAfterVolumeWrite | src/components/side-panel/SidePanel.tsx:69-71 | a stored volume hydrates to itself when non-zero and to 1 when 0, unclamped, and nothing else changes |
| SidePanel.HydrationStable | src/components/side-panel/SidePanel.tsx:98-107 | the writes the two effects make on mount leave the next hydration where this one started |
| SidePanel.FirstConnected | src/components/side-panel/SidePanel.tsx:82-86 | the chain reaches the first successful connect: every earlier connect failed, and the one at that index succeeded if there is one |
| SidePanel.ChainAttempts | src/components/side-panel/SidePanel.tsx:78-88 | a chain issues no connect when the captured count is 3 or more; otherwise every handler entered counts a retry and connects, so it issues at least one connect, every connect but the last fails, and the last succeeds or is the one issued after the last supplied failure |
| SidePanel.ChainError | src/components/side-panel/SidePanel.tsx:78-88 | the first error stays on display when the guard is closed or the first connect succeeds; otherwise the message shown is that of the failure just before the first success, or of the last failure |
| SidePanel.ChainGuardClosed | src/components/side-panel/SidePanel.tsx:79-80 | a closure that captured a count of 3 or more issues no connect and only shows the error |
| SidePanel.ChainStopsAtFirstSuccess | src/components/side-panel/SidePanel.tsx:78-88 | below the limit, a chain whose first success is connect k issues k+1 connects and leaves the last failure's message on display |
| SidePanel.ChainNotCapped | src/components/side-panel/SidePanel.tsx:78-88 | below the limit, n failed connects in a row issue n + 1 connects, for any n, because the handler each failure re-enters connects again; the last failure's message is shown |
| SidePanel.Panel.constructor | src/components/side-panel/SidePanel.tsx:44-74 | each selection is its initialiser applied to what its own `get` returned, and a failed read counts as `null`; with no failures the selections are `Hydrate` of the store; the input is empty, there is no error and the count is 0 |
| SidePanel.Panel.PersistConfig | src/components/side-panel/SidePanel.tsx:98-103 | voice and modality are written together as one `CONFIG` record; a failed write changes nothing; a successful one makes the next hydration give both back |
| SidePanel.Panel.PersistFilter | src/components/side-panel/SidePanel.tsx:105-107 | the filter alone is written under `FILTER`; a failed write changes nothing |
| SidePanel.Panel.SelectFilter | src/components/side-panel/SidePanel.tsx:143 | the filter state changes even when its write fails, and the filter entry is written |
| SidePanel.Panel.SelectVoice | src/components/side-panel/SidePanel.tsx:184-185 | the voice state changes and the whole config record is rewritten with the current modality |
| SidePanel.Panel.SelectModality | src/components/side-panel/SidePanel.tsx:168-169 | the modality state changes and the whole config record is rewritten with the current voice |
| SidePanel.Panel.HandleVolumeChange | src/components/side-panel/SidePanel.tsx:91-95 | state, stored entry and client volume all become exactly `value`, unclamped; `setVolume` is called only when present; nothing else changes |
| SidePanel.Panel.HandleError | src/components/side-panel/SidePanel.tsx:78-88 | the error shows the latest message; the retry count and the number of connects both grow by the chain's attempts, which are 0 when the captured count is 3 or more; nothing resets the count |
| SidePanel.Panel.HandleSubmit | src/components/side-panel/SidePanel.tsx:116-128 | blank input changes nothing; otherwise the text is sent once, and the input is cleared on success or handed to `handleError` with the current count on failure |
| SidePanel.Panel.EditText | src/components/side-panel/SidePanel.tsx:213 | typing replaces the input text and nothing else |
| SidePanel.Panel.DismissError | src/components/side-panel/SidePanel.tsx:155 | dismissing clears the error and leaves the retry count and everything else unchanged |

## Left out

- The browser's `localStorage` and `console.error`: the medium is a map field,
  its exceptions are failure flags, and the diagnostics are not modelled.
- JSON's exact text: numbers are written as a mantissa with an optional `e-`
  exponent, not in `JSON.stringify`'s decimal form. Strings escape only `"`
  and `\`. Arrays, white space between tokens, `\uXXXX` escapes, `NaN` and
  `Infinity` are not represented. A stored text holding an array therefore
  reads as `null` here, while `JSON.parse` would return the array.
- Texts written by other programs: `Parse` agrees with `JSON.parse` only on
  texts `Serialise` writes. It accepts `007`, reads the escape `\n` as the
  letter `n` and rejects `0.5`, so `Read` of an entry the real program wrote
  is not modelled (a stored volume of `0.5` reads as `null` here).
- Numbers are decimals compared by their written form. Volume from
  `parseFloat` of the range input is any such number, and only zero against
  non-zero matters to the code.
- React scheduling: the mirroring effects are explicit calls, made by the
  `Select…` methods and available on their own for the run on mount. Effect
  batching, re-renders and async interleaving of several error chains are not
  modelled. A chain runs to the end of its outcome sequence as one step.
- The outcome of the connect issued after the last supplied failure: the
  model counts that connect and its retry, and follows the chain no further.
- The `setConfig` calls in the voice and modality `onChange` handlers. The
  session config object and the argument passed to `connect` are owned
  elsewhere.
- `handleKeyPress`, which keeps the `handleSubmit` of the first render, and
  `inputRef.current.innerText`, because both are view concerns.
- The JSX, the select widgets, the open/closed toggle, `Logger`, the logger
  refs, the duplicate `filterOptions` declaration and the text area's
  `maxLength`, because these are UI and build concerns.
- The session client's own behaviour: `connect`, `send` and `setVolume` are
  oracles, and their calls are logged.
