/**
 * The upload field: a form value that references a document of an upload
 * collection, the fetched document (`file`), and a flag (`missingFile`)
 * raised when fetching the referenced document failed.
 *
 * The field reacts to five things: the form setting its value, the effect
 * that runs after the value changed (with the outcome of its fetch), the
 * document drawer saving a new upload, the list drawer selecting an existing
 * one, and the remove control of the file details.
 */
module Upload {
  import opened Js

  /** A collection of the configuration, as far as this field looks at it. */
  datatype CollectionInfo = CollectionInfo(slug: string, upload: bool)

  /** The field's props and configuration that the logic depends on. */
  datatype Settings = Settings(serverURL: string, api: string, relationTo: string, readOnly: bool)

  /** `collections.find((coll) => coll.slug === relationTo)`: the first collection with that slug. */
  function FindCollection(collections: seq<CollectionInfo>, relationTo: string): (r: Option<CollectionInfo>)
    ensures r.None? <==> forall i :: 0 <= i < |collections| ==> collections[i].slug != relationTo
    ensures r.Some? ==>
              exists i :: 0 <= i < |collections| && collections[i] == r.value
                          && r.value.slug == relationTo
                          && forall j :: 0 <= j < i ==> collections[j].slug != relationTo
  {
    if collections == [] then None
    else if collections[0].slug == relationTo then
      Some(collections[0])
    else
      var r := FindCollection(collections[1..], relationTo);
      assert forall i :: 1 <= i < |collections| ==> collections[i] == collections[1..][i - 1];
      r
  }

  /** `incomingValue?.id || incomingValue`: what `onChange` stores as the field value. */
  function IncomingId(incoming: Value): (r: Value)
    ensures r == incoming || (incoming.Obj? && "id" in incoming.props && r == incoming.props["id"])
    ensures Truthy(r) == Truthy(incoming)
    ensures IsSet(r) == IsSet(incoming)
  {
    var id := OptionalId(incoming);
    if Truthy(id) then id else incoming
  }

  /**
   * Normalising a document stores its id; anything that is not an object
   * with a truthy id (null, a bare id, an object whose id is falsy) is
   * stored as it is.
   */
  lemma IncomingIdCases(incoming: Value)
    ensures incoming.Obj? && "id" in incoming.props && Truthy(incoming.props["id"]) ==>
              IncomingId(incoming) == incoming.props["id"]
    ensures !incoming.Obj? ==> IncomingId(incoming) == incoming
    ensures IncomingId(Null) == Null
  {
  }

  /** Normalising twice is normalising once, as long as ids are not themselves documents. */
  lemma IncomingIdIdempotent(incoming: Value)
    requires !OptionalId(incoming).Obj?
    ensures IncomingId(IncomingId(incoming)) == IncomingId(incoming)
  {
  }

  /** `value !== null && typeof value !== 'undefined' && value !== ''`: the effect fetches. */
  predicate IsSet(v: Value)
  {
    v != Null && v != Undefined && v != Str("")
  }

  /** Every truthy value is set, but a set value need not be truthy (the id 0). */
  lemma SetIsWeakerThanTruthy(v: Value)
    ensures Truthy(v) ==> IsSet(v)
    ensures IsSet(Num(0)) && !Truthy(Num(0))
  {
  }

  /** `${serverURL}${api}/${relationTo}/`: the part of the URL before the id. */
  function CollectionPath(s: Settings): string
  {
    s.serverURL + s.api + "/" + s.relationTo + "/"
  }

  /**
   * The URL the effect fetches the referenced document from. It lies under
   * the collection's path, and it determines the id: no other id of the same
   * kind (string or number) is fetched from the same URL.
   */
  function FetchURL(s: Settings, value: Value): (url: string)
    ensures CollectionPath(s) <= url
    ensures IsSet(value) ==> |url| > |CollectionPath(s)|
    ensures forall other {:trigger ToText(other)} ::
              SameIdKind(value, other) && CollectionPath(s) + ToText(other) == url ==> other == value
  {
    var url := CollectionPath(s) + ToText(value);
    forall other | SameIdKind(value, other) && CollectionPath(s) + ToText(other) == url
      ensures other == value
    {
      assert ToText(other) == url[|CollectionPath(s)|..] == ToText(value);
      ToTextDeterminesId(value, other);
    }
    url
  }

  /**
   * How the fetch of the referenced document ended: an `ok` response and its
   * JSON body, a response that is not `ok`, or a rejection (the request or
   * the JSON parsing threw), which leaves the effect before either branch.
   */
  datatype FetchOutcome = Fetched(body: Value) | FetchFailed | FetchRejected

  /** The field's state, and every URL it has fetched, oldest first. */
  datatype UploadState = UploadState(value: Value, file: Value, missingFile: bool, requests: seq<string>)

  datatype Event =
    | FormValue(v: Value)           // the form sets the value (initial value, reset, …)
    | Effect(outcome: FetchOutcome) // the effect for the current value ran; the outcome of its fetch, if it made one
    | Saved(doc: Value)             // the document drawer saved a new upload
    | Selected(docID: Value)        // the list drawer selected an existing upload
    | Removed                       // the remove control of the file details

  /** The state after one event. */
  function Step(settings: Settings, s: UploadState, e: Event): (r: UploadState)
    ensures e.Effect? ==> r.value == s.value
    ensures !e.Effect? ==> r.file == s.file && r.requests == s.requests
    ensures e.Effect? && !IsSet(s.value) ==> r.file == Undefined && r.requests == s.requests
    ensures e.Effect? && IsSet(s.value) ==> r.requests == s.requests + [FetchURL(settings, s.value)]
    ensures r.missingFile != s.missingFile ==>
              e.Saved? || e.Selected? || (e == Effect(FetchFailed) && IsSet(s.value))
    ensures e.Effect? && IsSet(s.value) && e.outcome.Fetched? ==>
              r.file == e.outcome.body && r.missingFile == s.missingFile
    ensures e == Effect(FetchFailed) && IsSet(s.value) ==> r.missingFile && r.file == Undefined
    ensures e == Effect(FetchRejected) && IsSet(s.value) ==>
              r.file == s.file && r.missingFile == s.missingFile
    ensures e.FormValue? ==> r.value == e.v && r.missingFile == s.missingFile
    ensures e.Saved? ==> !r.missingFile && r.value == IncomingId(e.doc)
    ensures e.Selected? ==> !r.missingFile && r.value == IncomingId(Obj(map["id" := e.docID]))
    ensures e.Removed? ==> r.value == Null && r.missingFile == s.missingFile
  {
    match e
    case FormValue(v) => s.(value := v)
    case Effect(outcome) =>
      if IsSet(s.value) then
        var requests := s.requests + [FetchURL(settings, s.value)];
        match outcome
        case Fetched(body) => s.(file := body, requests := requests)
        case FetchFailed => s.(missingFile := true, file := Undefined, requests := requests)
        case FetchRejected => s.(requests := requests)
      else
        s.(file := Undefined)
    case Saved(doc) => s.(missingFile := false, value := IncomingId(doc))
    case Selected(docID) => s.(missingFile := false, value := IncomingId(Obj(map["id" := docID])))
    case Removed => s.(value := IncomingId(Null))
  }

  /** The state after a sequence of events. */
  function Run(settings: Settings, s: UploadState, events: seq<Event>): UploadState
    decreases |events|
  {
    if events == [] then s else Run(settings, Step(settings, s, events[0]), events[1..])
  }

  /** Two events in a row. */
  lemma {:induction false} RunTwo(settings: Settings, s: UploadState, a: Event, b: Event)
    ensures Run(settings, s, [a, b]) == Step(settings, Step(settings, s, a), b)
  {
    var e := [a, b];
    assert e[1..] == [b];
    assert Run(settings, s, e) == Run(settings, Step(settings, s, a), [b]);
    assert [b][1..] == [];
    assert Run(settings, Step(settings, s, a), [b]) == Run(settings, Step(settings, Step(settings, s, a), b), []);
  }

  /** `file && !missingFile`: the file details are shown. */
  predicate ShowsDetails(s: UploadState)
  {
    Truthy(s.file) && !s.missingFile
  }

  /** `!file || missingFile`: the upload and choose buttons are shown. */
  predicate ShowsButtons(s: UploadState)
  {
    !Truthy(s.file) || s.missingFile
  }

  /**
   * An event the rendered field can raise: the drawers exist only when the
   * field is not read-only, and the remove control only inside the shown
   * file details.
   */
  predicate Enabled(settings: Settings, s: UploadState, e: Event)
  {
    match e
    case Saved(_) => !settings.readOnly
    case Selected(_) => !settings.readOnly
    case Removed => !settings.readOnly && ShowsDetails(s)
    case _ => true
  }

  /** The file details: the document, and whether the remove control is offered. */
  datatype Details = Details(doc: Value, removable: bool)

  /** What the field renders. `buttonsDisabled` is present when the two buttons are shown. */
  datatype View =
    | Nothing
    | Field(details: Option<Details>, buttonsDisabled: Option<bool>, drawers: bool)

  /**
   * The rendered field. With no collection of that slug, `collection.upload`
   * throws; with a collection that is not an upload collection, nothing is
   * rendered.
   */
  function Render(collections: seq<CollectionInfo>, settings: Settings, s: UploadState): (r: Completion<View>)
    ensures r.Thrown? <==> FindCollection(collections, settings.relationTo).None?
    ensures r.Normal? ==> (r.value.Nothing? <==> !FindCollection(collections, settings.relationTo).value.upload)
    ensures r.Normal? && r.value.Field? ==> (r.value.details.Some? <==> r.value.buttonsDisabled.None?)
    ensures r.Normal? && r.value.Field? ==> (r.value.details.Some? <==> ShowsDetails(s))
    ensures r.Normal? && r.value.Field? && r.value.details.Some? ==>
              r.value.details.value.doc == s.file
              && (r.value.details.value.removable <==> !settings.readOnly)
    ensures r.Normal? && r.value.Field? && r.value.buttonsDisabled.Some? ==>
              (r.value.buttonsDisabled.value <==> settings.readOnly)
    ensures r.Normal? && r.value.Field? ==> (r.value.drawers <==> !settings.readOnly)
  {
    match FindCollection(collections, settings.relationTo)
    case None => Thrown("TypeError: cannot read properties of undefined (reading 'upload')")
    case Some(collection) =>
      if !collection.upload then Normal(Nothing)
      else
        Normal(Field(
          if Truthy(s.file) && !s.missingFile then Some(Details(s.file, !settings.readOnly)) else None,
          if !Truthy(s.file) || s.missingFile then Some(settings.readOnly) else None,
          !settings.readOnly))
  }

  /** Exactly one of the file details and the buttons is shown, in every state. */
  lemma DetailsXorButtons(s: UploadState)
    ensures ShowsDetails(s) != ShowsButtons(s)
  {
  }

  /** Once raised, `missingFile` is lowered only by a drawer saving or selecting a document. */
  lemma {:induction false} MissingFileLoweredOnlyByDrawers(settings: Settings, s: UploadState, events: seq<Event>)
    requires s.missingFile && !Run(settings, s, events).missingFile
    ensures exists i :: 0 <= i < |events| && (events[i].Saved? || events[i].Selected?)
    decreases |events|
  {
    if events == [] {
    } else if events[0].Saved? || events[0].Selected? {
      assert 0 < |events|;
    } else {
      var t := Step(settings, s, events[0]);
      assert t.missingFile;
      MissingFileLoweredOnlyByDrawers(settings, t, events[1..]);
      var i :| 0 <= i < |events[1..]| && (events[1..][i].Saved? || events[1..][i].Selected?);
      assert events[i + 1] == events[1..][i];
    }
  }

  /** `missingFile` is raised only by a failed fetch of a set value. */
  lemma {:induction false} MissingFileRaisedOnlyByFailedFetch(settings: Settings, s: UploadState, events: seq<Event>)
    requires !s.missingFile && Run(settings, s, events).missingFile
    ensures exists i :: 0 <= i < |events| && events[i] == Effect(FetchFailed)
    decreases |events|
  {
    if events == [] {
    } else if events[0] == Effect(FetchFailed) {
      assert 0 < |events|;
    } else {
      var t := Step(settings, s, events[0]);
      assert !t.missingFile;
      MissingFileRaisedOnlyByFailedFetch(settings, t, events[1..]);
      var i :| 0 <= i < |events[1..]| && events[1..][i] == Effect(FetchFailed);
      assert events[i + 1] == events[1..][i];
    }
  }

  /** The fetched-URL log only grows, by one entry per effect that ran on a set value. */
  lemma {:induction false} RequestsOnlyGrow(settings: Settings, s: UploadState, events: seq<Event>)
    ensures |s.requests| <= |Run(settings, s, events).requests| <= |s.requests| + |events|
    ensures Run(settings, s, events).requests[..|s.requests|] == s.requests
    decreases |events|
  {
    if events != [] {
      var t := Step(settings, s, events[0]);
      RequestsOnlyGrow(settings, t, events[1..]);
      assert t.requests[..|s.requests|] == s.requests;
    }
  }

  /**
   * Saving a new upload whose id is truthy, followed by a successful fetch,
   * stores the id, fetches it from the collection's URL and shows the details.
   */
  lemma SaveThenFetchShowsDetails(settings: Settings, s: UploadState, doc: Value, body: Value)
    requires Truthy(OptionalId(doc)) && Truthy(body)
    ensures var t := Run(settings, s, [Saved(doc), Effect(Fetched(body))]);
            && t.value == OptionalId(doc)
            && t.file == body
            && t.requests == s.requests + [FetchURL(settings, OptionalId(doc))]
            && ShowsDetails(t)
  {
    RunTwo(settings, s, Saved(doc), Effect(Fetched(body)));
  }

  /**
   * Selecting an existing upload stores the selected id itself when it is
   * truthy; a falsy id (such as 0) is stored wrapped as `{id: docID}`.
   */
  lemma SelectStoresId(settings: Settings, s: UploadState, docID: Value)
    ensures Truthy(docID) ==> Step(settings, s, Selected(docID)).value == docID
    ensures !Truthy(docID) ==> Step(settings, s, Selected(docID)).value == Obj(map["id" := docID])
    ensures !Step(settings, s, Selected(docID)).missingFile
  {
  }

  /**
   * Removing clears the value; the effect that follows fetches nothing,
   * clears the file, and the buttons come back.
   */
  lemma RemoveThenEffectShowsButtons(settings: Settings, s: UploadState, outcome: FetchOutcome)
    ensures var t := Run(settings, s, [Removed, Effect(outcome)]);
            && t.value == Null && t.file == Undefined
            && t.requests == s.requests
            && t.missingFile == s.missingFile
            && ShowsButtons(t)
  {
    RunTwo(settings, s, Removed, Effect(outcome));
  }

  /**
   * A successful fetch does not lower `missingFile`: after one failed fetch,
   * a value set by the form is fetched and stored, yet the buttons stay.
   */
  lemma StaleMissingFileHidesFetchedFile(settings: Settings, s: UploadState, v: Value, body: Value)
    requires s.missingFile && IsSet(v) && Truthy(body)
    ensures var t := Run(settings, s, [FormValue(v), Effect(Fetched(body))]);
            && t.file == body && t.missingFile
            && ShowsButtons(t) && !ShowsDetails(t)
  {
    RunTwo(settings, s, FormValue(v), Effect(Fetched(body)));
  }

  /**
   * A rejected fetch leaves the previous document in place: after the form
   * sets a new value whose fetch rejects, the details still show the
   * document fetched for the old value.
   */
  lemma RejectedFetchKeepsPreviousFile(settings: Settings, s: UploadState, v: Value)
    requires ShowsDetails(s) && IsSet(v)
    ensures var t := Run(settings, s, [FormValue(v), Effect(FetchRejected)]);
            && t.value == v && t.file == s.file
            && t.requests == s.requests + [FetchURL(settings, v)]
            && ShowsDetails(t)
  {
    RunTwo(settings, s, FormValue(v), Effect(FetchRejected));
  }

  /** The field as a stateful object: each handler changes the state as `Step` says. */
  class UploadField {
    const settings: Settings
    var value: Value
    var file: Value
    var missingFile: bool
    var requests: seq<string>

    function State(): UploadState
      reads this
    {
      UploadState(value, file, missingFile, requests)
    }

    /** Mounting: `file` starts undefined and `missingFile` false. */
    constructor (settings: Settings, initial: Value)
      ensures this.settings == settings
      ensures State() == UploadState(initial, Undefined, false, [])
    {
      this.settings := settings;
      value := initial;
      file := Undefined;
      missingFile := false;
      requests := [];
    }

    /** The `onChange` callback. */
    method OnChange(incoming: Value)
      modifies this`value
      ensures value == IncomingId(incoming)
    {
      var incomingID := OptionalId(incoming);
      if !Truthy(incomingID) {
        incomingID := incoming;
      }
      value := incomingID;
    }

    /** The form sets the value. */
    method SetValue(v: Value)
      modifies this`value
      ensures State() == Step(settings, old(State()), FormValue(v))
    {
      value := v;
    }

    /** The effect that runs after `value` changed, with the outcome of its fetch. */
    method FetchFile(outcome: FetchOutcome)
      modifies this
      ensures State() == Step(settings, old(State()), Effect(outcome))
    {
      if value != Null && value != Undefined && value != Str("") {
        requests := requests + [FetchURL(settings, value)];
        match outcome
        case Fetched(json) =>
          file := json;
        case FetchFailed =>
          missingFile := true;
          file := Undefined;
        case FetchRejected =>
      } else {
        file := Undefined;
      }
    }

    /** The document drawer saved `doc`. */
    method OnSave(doc: Value)
      requires Enabled(settings, State(), Saved(doc))
      modifies this
      ensures State() == Step(settings, old(State()), Saved(doc))
    {
      missingFile := false;
      OnChange(doc);
    }

    /** The list drawer selected the document `docID`. */
    method OnSelect(docID: Value)
      requires Enabled(settings, State(), Selected(docID))
      modifies this
      ensures State() == Step(settings, old(State()), Selected(docID))
    {
      missingFile := false;
      OnChange(Obj(map["id" := docID]));
    }

    /** The remove control of the file details. */
    method Remove()
      requires Enabled(settings, State(), Removed)
      modifies this
      ensures State() == Step(settings, old(State()), Removed)
    {
      OnChange(Null);
    }
  }
}
