/**
 * The state logic of the console's side panel (`SidePanel.tsx`): the
 * selections it hydrates from the preference store, the effects that mirror
 * them back, the volume handler, the reconnecting error handler and the
 * submit handler. React state setters are field assignments; the session
 * client's `connect`, `send` and `setVolume` are oracles whose calls are
 * logged in fields.
 */
module SidePanel {
  import opened Wrappers
  import Json
  import Storage
  import JsText

  // ---------------------------------------------------------------------
  // Stored shapes and defaults

  /** A `{value, label}` option of the panel's select widgets. */
  function LabeledOption(optionValue: string, optionLabel: string): Json.Value {
    Json.Obj(Json.Member("value", Json.Str(optionValue), Json.Member("label", Json.Str(optionLabel), Json.NoMembers)))
  }

  /** The record the config effect writes: `{voice, modality}`. */
  function ConfigRecord(voice: Json.Value, modality: Json.Value): Json.Value {
    Json.Obj(Json.Member("voice", voice, Json.Member("modality", modality, Json.NoMembers)))
  }

  const DefaultFilter: Json.Value := LabeledOption("none", "全部")
  const DefaultVoice: Json.Value := LabeledOption("Aoede", "Aoede")
  const DefaultModality: Json.Value := LabeledOption("audio", "音频输出")
  const DefaultVolume: Json.Value := Json.Num(Json.Decimal(1, 0))

  /** JavaScript's `a || b`. */
  function Or(a: Json.Value, b: Json.Value): (r: Json.Value)
    ensures Json.Truthy(a) ==> r == a
    ensures !Json.Truthy(a) ==> r == b
    ensures Json.Truthy(r) <==> Json.Truthy(a) || Json.Truthy(b)
  {
    if Json.Truthy(a) then a else b
  }

  /** JavaScript's `a?.name || b`. */
  function PropertyOr(a: Json.Value, name: string, b: Json.Value): (r: Json.Value)
    ensures !a.Obj? || !Json.HasMember(a.members, name) ==> r == b
    ensures Json.Property(a, name).Some? && Json.Truthy(Json.Property(a, name).value)
         ==> r == Json.Property(a, name).value
    ensures Json.Property(a, name).Some? && !Json.Truthy(Json.Property(a, name).value) ==> r == b
    ensures Json.Truthy(r) <==> Json.Truthy(b) || (Json.Property(a, name).Some? && Json.Truthy(Json.Property(a, name).value))
  {
    match Json.Property(a, name)
    case Some(x) => Or(x, b)
    case None => b
  }

  // ---------------------------------------------------------------------
  // Hydration: the `useState` initialisers, as functions of what `storage.get` returned

  function InitialFilter(saved: Json.Value): (r: Json.Value)
    ensures Json.Truthy(r)
  {
    Or(saved, DefaultFilter)
  }

  function InitialVoice(savedConfig: Json.Value): (r: Json.Value)
    ensures Json.Truthy(r)
  {
    PropertyOr(savedConfig, "voice", DefaultVoice)
  }

  function InitialModality(savedConfig: Json.Value): (r: Json.Value)
    ensures Json.Truthy(r)
  {
    PropertyOr(savedConfig, "modality", DefaultModality)
  }

  function InitialVolume(saved: Json.Value): (r: Json.Value)
    ensures Json.Truthy(r)
  {
    Or(saved, DefaultVolume)
  }

  /** The four persisted selections of the panel. */
  datatype Prefs = Prefs(filter: Json.Value, voice: Json.Value, modality: Json.Value, volume: Json.Value)

  /** The selections a new panel starts with when every read of the medium works. */
  function Hydrate(entries: map<string, string>): (p: Prefs)
    ensures Json.Truthy(p.filter) && Json.Truthy(p.voice) && Json.Truthy(p.modality) && Json.Truthy(p.volume)
    ensures Storage.Name(Storage.Filter) !in entries ==> p.filter == DefaultFilter
    ensures Storage.Name(Storage.Config) !in entries ==> p.voice == DefaultVoice && p.modality == DefaultModality
    ensures Storage.Name(Storage.Volume) !in entries ==> p.volume == DefaultVolume
  {
    var config := Storage.Read(entries, Storage.Config);
    Prefs(
      InitialFilter(Storage.Read(entries, Storage.Filter)),
      InitialVoice(config),
      InitialModality(config),
      InitialVolume(Storage.Read(entries, Storage.Volume)))
  }

  /** With nothing stored the panel starts from the defaults. */
  lemma HydrateNothingStored(entries: map<string, string>)
    requires forall k: Storage.Key :: Storage.Name(k) !in entries
    ensures Hydrate(entries) == Prefs(DefaultFilter, DefaultVoice, DefaultModality, DefaultVolume)
  {
  }

  /** Voice and modality are read from the stored record independently; a falsy field falls back alone. */
  lemma ConfigFieldsIndependent(voice: Json.Value, modality: Json.Value)
    ensures InitialVoice(ConfigRecord(voice, modality)) == if Json.Truthy(voice) then voice else DefaultVoice
    ensures InitialModality(ConfigRecord(voice, modality)) == if Json.Truthy(modality) then modality else DefaultModality
  {
    var last := Json.Member("modality", modality, Json.NoMembers);
    assert "modality" != "voice" by { assert |"modality"| != |"voice"|; }
    assert Json.Lookup(Json.NoMembers, "voice") == None;
    assert Json.Lookup(last, "voice") == None;
    assert Json.Lookup(last, "modality") == Some(modality);
    assert Json.Property(ConfigRecord(voice, modality), "voice") == Some(voice);
    assert Json.Property(ConfigRecord(voice, modality), "modality") == Some(modality);
  }

  /** A stored config record that lacks a field, or a stored value that is not a record, gives that field's default. */
  lemma ConfigFieldMissing(saved: Json.Value)
    ensures !saved.Obj? || !Json.HasMember(saved.members, "voice") ==> InitialVoice(saved) == DefaultVoice
    ensures !saved.Obj? || !Json.HasMember(saved.members, "modality") ==> InitialModality(saved) == DefaultModality
  {
  }

  /** What the config effect writes, a later hydration gives back; nothing else changes. */
  lemma HydrateAfterConfigWrite(entries: map<string, string>, voice: Json.Value, modality: Json.Value)
    requires Json.Truthy(voice) && Json.Truthy(modality)
    ensures Hydrate(entries[Storage.Name(Storage.Config) := Json.Serialise(ConfigRecord(voice, modality))])
         == Hydrate(entries).(voice := voice, modality := modality)
  {
    var text := Json.Serialise(ConfigRecord(voice, modality));
    Storage.ReadAfterWrite(entries, Storage.Config, ConfigRecord(voice, modality));
    ConfigFieldsIndependent(voice, modality);
    Storage.ReadOtherAfterWrite(entries, Storage.Config, Storage.Filter, text);
    Storage.ReadOtherAfterWrite(entries, Storage.Config, Storage.Volume, text);
  }

  /** What the filter effect writes, a later hydration gives back unless it is falsy (`null`). */
  lemma HydrateAfterFilterWrite(entries: map<string, string>, filter: Json.Value)
    ensures Hydrate(entries[Storage.Name(Storage.Filter) := Json.Serialise(filter)])
         == Hydrate(entries).(filter := if Json.Truthy(filter) then filter else DefaultFilter)
  {
    var text := Json.Serialise(filter);
    Storage.ReadAfterWrite(entries, Storage.Filter, filter);
    Storage.ReadOtherAfterWrite(entries, Storage.Filter, Storage.Config, text);
    Storage.ReadOtherAfterWrite(entries, Storage.Filter, Storage.Volume, text);
  }

  /** A stored volume comes back as itself, except a stored 0, which comes back as 1; nothing is clamped. */
  lemma HydrateAfterVolumeWrite(entries: map<string, string>, x: Json.Number)
    ensures Hydrate(entries[Storage.Name(Storage.Volume) := Json.Serialise(Json.Num(x))])
         == Hydrate(entries).(volume := if x.mantissa != 0 then Json.Num(x) else DefaultVolume)
  {
    var text := Json.Serialise(Json.Num(x));
    Storage.ReadAfterWrite(entries, Storage.Volume, Json.Num(x));
    Storage.ReadOtherAfterWrite(entries, Storage.Volume, Storage.Config, text);
    Storage.ReadOtherAfterWrite(entries, Storage.Volume, Storage.Filter, text);
  }

  /**
   * The effects that run when a panel mounts write back what it hydrated,
   * and a later hydration from the result starts from the same selections.
   */
  lemma HydrationStable(entries: map<string, string>)
    ensures var p := Hydrate(entries);
      Hydrate(entries[Storage.Name(Storage.Config) := Json.Serialise(ConfigRecord(p.voice, p.modality))]
                     [Storage.Name(Storage.Filter) := Json.Serialise(p.filter)]) == p
  {
    var p := Hydrate(entries);
    var written := entries[Storage.Name(Storage.Config) := Json.Serialise(ConfigRecord(p.voice, p.modality))];
    HydrateAfterConfigWrite(entries, p.voice, p.modality);
    HydrateAfterFilterWrite(written, p.filter);
  }

  // ---------------------------------------------------------------------
  // The reconnect chain of `handleError`

  /** The result of one `client.connect` call. */
  datatype Outcome = Connected | Refused(message: string)

  /** `handleError` reconnects only while the count its closure captured is below this. */
  const RetryLimit: nat := 3

  /** The index of the first successful connect, or `|outcomes|` when every one fails. */
  function FirstConnected(outcomes: seq<Outcome>): (i: nat)
    ensures i <= |outcomes|
    ensures forall j :: 0 <= j < i ==> outcomes[j].Refused?
    ensures i < |outcomes| ==> outcomes[i].Connected?
  {
    if outcomes == [] || outcomes[0].Connected? then 0 else 1 + FirstConnected(outcomes[1..])
  }

  /**
   * Connect `j` failed with `message`, every connect before it failed too,
   * and it is the last one or the next one succeeds.
   */
  predicate LastFailure(outcomes: seq<Outcome>, j: nat, message: string)
    requires j < |outcomes|
  {
    outcomes[j] == Refused(message)
    && (forall i :: 0 <= i < j ==> outcomes[i].Refused?)
    && (j + 1 == |outcomes| || outcomes[j + 1].Connected?)
  }

  /**
   * The failed connects one chain goes through. Every failure re-enters the
   * same closure, whose guard still sees the captured count.
   */
  function ChainFailures(captured: nat, outcomes: seq<Outcome>): nat {
    if captured < RetryLimit then FirstConnected(outcomes) else 0
  }

  /**
   * The connects one chain issues, one per handler entered below the limit:
   * the failed ones, then the one that succeeds or, when every supplied
   * outcome is a failure, the one the last handler issues.
   */
  function ChainAttempts(captured: nat, outcomes: seq<Outcome>): (r: nat)
    ensures r <= |outcomes| + 1
    ensures captured >= RetryLimit ==> r == 0
    ensures forall j :: 0 <= j < r - 1 ==> outcomes[j].Refused?
    ensures captured < RetryLimit ==> 0 < r && (r == |outcomes| + 1 || outcomes[r - 1].Connected?)
  {
    if captured < RetryLimit then ChainFailures(captured, outcomes) + 1 else 0
  }

  /** The message the chain leaves on display: the last failure's, or the first error's. */
  function ChainError(err: string, captured: nat, outcomes: seq<Outcome>): (r: string)
    ensures captured >= RetryLimit || outcomes == [] || outcomes[0].Connected? ==> r == err
    ensures captured < RetryLimit && outcomes != [] && outcomes[0].Refused?
         ==> exists j :: 0 <= j < |outcomes| && LastFailure(outcomes, j, r)
  {
    var failures := ChainFailures(captured, outcomes);
    if failures == 0 then err
    else
      var j := failures - 1;
      assert LastFailure(outcomes, j, outcomes[j].message);
      outcomes[j].message
  }

  /** A closure that captured a count of 3 or more only shows the error. */
  lemma ChainGuardClosed(err: string, captured: nat, outcomes: seq<Outcome>)
    requires captured >= RetryLimit
    ensures ChainAttempts(captured, outcomes) == 0
    ensures ChainError(err, captured, outcomes) == err
  {
  }

  /** Below the limit, the chain connects until the first success and then stops. */
  lemma ChainStopsAtFirstSuccess(err: string, captured: nat, outcomes: seq<Outcome>, k: nat)
    requires captured < RetryLimit
    requires k < |outcomes| && outcomes[k].Connected?
    requires forall j :: 0 <= j < k ==> outcomes[j].Refused?
    ensures ChainAttempts(captured, outcomes) == k + 1
    ensures ChainError(err, captured, outcomes) == if k == 0 then err else outcomes[k - 1].message
  {
  }

  /**
   * The captured count never changes within a chain, so a chain does not stop
   * after 3 attempts: every failure in a row issues one more connect.
   */
  lemma ChainNotCapped(err: string, captured: nat, outcomes: seq<Outcome>)
    requires captured < RetryLimit
    requires forall j :: 0 <= j < |outcomes| ==> outcomes[j].Refused?
    ensures ChainAttempts(captured, outcomes) == |outcomes| + 1
    ensures outcomes != [] ==> ChainError(err, captured, outcomes) == outcomes[|outcomes| - 1].message
  {
  }

  // ---------------------------------------------------------------------
  // The panel

  /** The panel's state other than its persisted selections, and the client calls it made. */
  datatype Activity = Activity(
    textInput: string,
    error: Option<string>,
    retryCount: nat,
    connects: nat,
    sent: seq<string>,
    clientVolumes: seq<Json.Number>)

  class Panel {
    const store: Storage.Store

    var textInput: string
    var filter: Json.Value
    var voice: Json.Value
    var modality: Json.Value
    var volume: Json.Value
    var error: Option<string>
    var retryCount: nat

    /** How many times `client.connect` was called. */
    var connects: nat
    /** The texts passed to `client.send`, in order. */
    var sent: seq<string>
    /** The levels passed to `client.setVolume`, in order. */
    var clientVolumes: seq<Json.Number>

    function Selections(): Prefs
      reads this
    {
      Prefs(filter, voice, modality, volume)
    }

    function CurrentActivity(): Activity
      reads this
    {
      Activity(textInput, error, retryCount, connects, sent, clientVolumes)
    }

    /**
     * Mounting: each initialiser reads the store once (the config twice); a
     * read that fails yields `null` like an absent entry.
     */
    constructor (store: Storage.Store, filterReadFails: bool, voiceReadFails: bool,
                 modalityReadFails: bool, volumeReadFails: bool)
      ensures this.store == store
      ensures filter == InitialFilter(if filterReadFails then Json.Null else Storage.Read(store.entries, Storage.Filter))
      ensures voice == InitialVoice(if voiceReadFails then Json.Null else Storage.Read(store.entries, Storage.Config))
      ensures modality == InitialModality(if modalityReadFails then Json.Null else Storage.Read(store.entries, Storage.Config))
      ensures volume == InitialVolume(if volumeReadFails then Json.Null else Storage.Read(store.entries, Storage.Volume))
      ensures !filterReadFails && !voiceReadFails && !modalityReadFails && !volumeReadFails ==>
        Selections() == Hydrate(store.entries)
      ensures CurrentActivity() == Activity("", None, 0, 0, [], [])
    {
      this.store := store;
      var saved := store.Get(Storage.Filter, filterReadFails);
      filter := InitialFilter(saved);
      saved := store.Get(Storage.Config, voiceReadFails);
      voice := InitialVoice(saved);
      saved := store.Get(Storage.Config, modalityReadFails);
      modality := InitialModality(saved);
      saved := store.Get(Storage.Volume, volumeReadFails);
      volume := InitialVolume(saved);
      textInput := "";
      error := None;
      retryCount := 0;
      connects := 0;
      sent := [];
      clientVolumes := [];
    }

    /** The effect on `[selectedVoice, selectedModality]`: both go into one `CONFIG` record. */
    method PersistConfig(failure: bool)
      modifies store
      ensures failure ==> store.entries == old(store.entries)
      ensures !failure ==>
        store.entries == old(store.entries)[Storage.Name(Storage.Config) := Json.Serialise(ConfigRecord(voice, modality))]
      ensures !failure && Json.Truthy(voice) && Json.Truthy(modality) ==>
        Hydrate(store.entries) == Hydrate(old(store.entries)).(voice := voice, modality := modality)
    {
      store.Set(Storage.Config, ConfigRecord(voice, modality), failure);
      if !failure && Json.Truthy(voice) && Json.Truthy(modality) {
        HydrateAfterConfigWrite(old(store.entries), voice, modality);
      }
    }

    /** The effect on `[selectedOption]`: the filter is written alone. */
    method PersistFilter(failure: bool)
      modifies store
      ensures failure ==> store.entries == old(store.entries)
      ensures !failure ==>
        store.entries == old(store.entries)[Storage.Name(Storage.Filter) := Json.Serialise(filter)]
      ensures !failure ==>
        Hydrate(store.entries) == Hydrate(old(store.entries)).(filter := InitialFilter(filter))
    {
      store.Set(Storage.Filter, filter, failure);
      if !failure {
        HydrateAfterFilterWrite(old(store.entries), filter);
      }
    }

    /** Choosing a filter: the state changes even when the write fails. */
    method SelectFilter(option: Json.Value, writeFails: bool)
      modifies this, store
      ensures Selections() == old(Selections()).(filter := option)
      ensures CurrentActivity() == old(CurrentActivity())
      ensures writeFails ==> store.entries == old(store.entries)
      ensures !writeFails ==>
        store.entries == old(store.entries)[Storage.Name(Storage.Filter) := Json.Serialise(option)]
    {
      filter := option;
      PersistFilter(writeFails);
    }

    /** Choosing a voice; the whole config record is written again. */
    method SelectVoice(option: Json.Value, writeFails: bool)
      modifies this, store
      ensures Selections() == old(Selections()).(voice := option)
      ensures CurrentActivity() == old(CurrentActivity())
      ensures writeFails ==> store.entries == old(store.entries)
      ensures !writeFails ==>
        store.entries == old(store.entries)[Storage.Name(Storage.Config) := Json.Serialise(ConfigRecord(option, modality))]
    {
      voice := option;
      PersistConfig(writeFails);
    }

    /** Choosing a modality; the whole config record is written again. */
    method SelectModality(option: Json.Value, writeFails: bool)
      modifies this, store
      ensures Selections() == old(Selections()).(modality := option)
      ensures CurrentActivity() == old(CurrentActivity())
      ensures writeFails ==> store.entries == old(store.entries)
      ensures !writeFails ==>
        store.entries == old(store.entries)[Storage.Name(Storage.Config) := Json.Serialise(ConfigRecord(voice, option))]
    {
      modality := option;
      PersistConfig(writeFails);
    }

    /**
     * `handleVolumeChange`: state, store and client all get exactly `value`,
     * unclamped; `client.setVolume` is called only when the client has it.
     */
    method HandleVolumeChange(value: Json.Number, writeFails: bool, clientHasSetVolume: bool)
      modifies this, store
      ensures Selections() == old(Selections()).(volume := Json.Num(value))
      ensures clientVolumes == old(clientVolumes) + (if clientHasSetVolume then [value] else [])
      ensures CurrentActivity() == old(CurrentActivity()).(clientVolumes := clientVolumes)
      ensures writeFails ==> store.entries == old(store.entries)
      ensures !writeFails ==>
        store.entries == old(store.entries)[Storage.Name(Storage.Volume) := Json.Serialise(Json.Num(value))]
      ensures !writeFails ==>
        Hydrate(store.entries) == Hydrate(old(store.entries)).(volume := InitialVolume(Json.Num(value)))
    {
      volume := Json.Num(value);
      store.Set(Storage.Volume, Json.Num(value), writeFails);
      if clientHasSetVolume {
        clientVolumes := clientVolumes + [value];
      }
      if !writeFails {
        HydrateAfterVolumeWrite(old(store.entries), value);
      }
    }

    /**
     * `handleError(err)` as created with `retryCount == captured`: shows the
     * error and, below the limit, counts one retry and connects; each failed
     * connect re-enters the same closure with the new error. `outcomes` are
     * the results of the connects in the order they are issued; the chain is
     * followed up to the first success, or up to the connect issued after the
     * last supplied failure.
     */
    method HandleError(err: string, captured: nat, outcomes: seq<Outcome>)
      modifies this
      ensures retryCount == old(retryCount) + ChainAttempts(captured, outcomes)
      ensures connects == old(connects) + ChainAttempts(captured, outcomes)
      ensures error == Some(ChainError(err, captured, outcomes))
      ensures Selections() == old(Selections())
      ensures textInput == old(textInput) && sent == old(sent) && clientVolumes == old(clientVolumes)
    {
      error := Some(err);
      if captured < RetryLimit {
        var i := 0;
        while i < |outcomes| && outcomes[i].Refused?
          invariant i <= FirstConnected(outcomes)
          invariant retryCount == old(retryCount) + i && connects == old(connects) + i
          invariant error == Some(if i == 0 then err else outcomes[i - 1].message)
          invariant Selections() == old(Selections())
          invariant textInput == old(textInput) && sent == old(sent) && clientVolumes == old(clientVolumes)
        {
          // setRetryCount(prev => prev + 1), then a connect that fails
          retryCount := retryCount + 1;
          connects := connects + 1;
          // the closure re-entered with the new error
          error := Some(outcomes[i].message);
          i := i + 1;
        }
        // setRetryCount(prev => prev + 1), then the connect that succeeds
        // or whose outcome is not supplied
        retryCount := retryCount + 1;
        connects := connects + 1;
      }
    }

    /**
     * `handleSubmit`: nothing happens for blank input; otherwise the text is
     * sent and the input cleared, or, when `send` throws, the error goes to
     * the current render's `handleError`, which captured the current count.
     */
    method HandleSubmit(sendFailure: Option<string>, outcomes: seq<Outcome>)
      modifies this
      ensures Selections() == old(Selections()) && clientVolumes == old(clientVolumes)
      ensures JsText.Blank(old(textInput)) ==> CurrentActivity() == old(CurrentActivity())
      ensures !JsText.Blank(old(textInput)) ==> sent == old(sent) + [old(textInput)]
      ensures !JsText.Blank(old(textInput)) && sendFailure.None? ==>
        CurrentActivity() == old(CurrentActivity()).(textInput := "", sent := sent)
      ensures !JsText.Blank(old(textInput)) && sendFailure.Some? ==>
        && textInput == old(textInput)
        && retryCount == old(retryCount) + ChainAttempts(old(retryCount), outcomes)
        && connects == old(connects) + ChainAttempts(old(retryCount), outcomes)
        && error == Some(ChainError(sendFailure.value, old(retryCount), outcomes))
    {
      JsText.TrimEmptyIffBlank(textInput);
      if JsText.Trim(textInput) == [] {
        return;
      }
      sent := sent + [textInput];
      match sendFailure
      case None =>
        textInput := "";
      case Some(message) =>
        HandleError(message, retryCount, outcomes);
    }

    /** Typing in the text area. */
    method EditText(text: string)
      modifies this
      ensures Selections() == old(Selections())
      ensures CurrentActivity() == old(CurrentActivity()).(textInput := text)
    {
      textInput := text;
    }

    /** Dismissing the error banner clears the message and leaves the retry count as it is. */
    method DismissError()
      modifies this
      ensures Selections() == old(Selections())
      ensures CurrentActivity() == old(CurrentActivity()).(error := None)
    {
      error := None;
    }
  }
}
