/** The language provider: the state `(language, storage, loading)`, the
    one-time initialization that prefers a saved preference over detection,
    location-based detection racing a five-second timer, and explicit language
    changes that write the state and the storage together.

    The browser's geolocation service, the reverse-geocoding request and the
    timer are not called: what they did is an input, either as the outcome of
    the whole detection (`Detection`) or as the order in which their callbacks
    ran (`RaceEvent`). */
module LanguageContext {
  import opened Wrappers

  /** The language used before and without any other information. */
  const DefaultLanguage: string := "en"

  /** The storage key of the saved preference. */
  const StorageKey: string := "language"

  /** How the reverse-geocoding request for a position ended: it threw
      (network failure, unreadable body), answered with a non-ok status, or
      answered ok with a `countryCode` field that may be missing. */
  datatype Geocoding = FetchFailed | NotOk | Found(countryCode: Option<string>)

  /** How detection ended, from the provider's point of view. */
  datatype Detection =
    | NoGeolocation
    | GeolocationError
    | TimedOut
    | Position(geocoding: Geocoding)

  /** The language a country code selects: Portuguese for Brazil and Portugal,
      English for every other code and for a missing one. */
  function CountryLanguage(countryCode: Option<string>): (language: string)
    ensures language == "pt" <==> countryCode == Some("BR") || countryCode == Some("PT")
    ensures language == "pt" || language == DefaultLanguage
  {
    match countryCode
    case Some(code) => if code == "BR" || code == "PT" then "pt" else DefaultLanguage
    case None => DefaultLanguage
  }

  /** The language a detection resolves to. */
  function DetectedLanguage(d: Detection): (language: string)
    ensures language == "pt" || language == "en"
    ensures language == "pt" <==>
      d.Position? && d.geocoding.Found? &&
      (d.geocoding.countryCode == Some("BR") || d.geocoding.countryCode == Some("PT"))
  {
    match d
    case NoGeolocation => DefaultLanguage
    case GeolocationError => DefaultLanguage
    case TimedOut => DefaultLanguage
    case Position(g) =>
      match g
      case FetchFailed => DefaultLanguage
      case NotOk => DefaultLanguage
      case Found(code) => CountryLanguage(code)
  }

  /** A promise's state: once resolved, later resolutions are ignored. */
  datatype Promise = Pending | Resolved(value: string)

  function Resolve(p: Promise, v: string): (q: Promise)
    ensures q.Resolved?
    ensures p.Resolved? ==> q == p
    ensures p.Pending? ==> q == Resolved(v)
  {
    if p.Pending? then Resolved(v) else p
  }

  /** The callbacks that can run while detection is pending, in the order the
      event loop runs them: the timer, the position callback (whose reverse
      geocoding ended as given, or never ends because the request or its body
      never settles) and the geolocation error callback. */
  datatype RaceEvent =
    | TimerFires
    | PositionArrives(geocoding: Geocoding)
    | PositionUnanswered
    | PositionFails

  /** The detection promise and whether the timer is still armed. */
  datatype Race = Race(promise: Promise, timerArmed: bool)

  /** Detection as it starts: resolved at once without geolocation, otherwise
      pending with the timer armed. */
  function StartDetection(hasGeolocation: bool): (r: Race)
    ensures hasGeolocation <==> r.promise.Pending?
    ensures hasGeolocation ==> r.timerArmed
    ensures !hasGeolocation ==> r.promise == Resolved(DefaultLanguage)
  {
    if hasGeolocation then Race(Pending, true) else Race(Resolved(DefaultLanguage), false)
  }

  /** One callback. A timer that fired or was cleared does nothing; both
      geolocation callbacks clear the timer first. The position callback then
      awaits the reverse-geocoding request, which no timer bounds any more:
      when it ends, it settles a pending detection with the language its
      outcome gives, and when it never ends, nothing settles. */
  function Step(r: Race, e: RaceEvent): (s: Race)
    ensures !s.timerArmed
    ensures r.promise.Resolved? ==> s.promise == r.promise
    ensures r.promise.Pending? && (r.timerArmed || !e.TimerFires?) && FirstOutcome(e).Some? ==>
      s.promise == Resolved(DetectedLanguage(FirstOutcome(e).value))
    ensures FirstOutcome(e).None? ==> s.promise == r.promise
    ensures !r.timerArmed && e.TimerFires? ==> s == r
  {
    match e
    case TimerFires =>
      if r.timerArmed then Race(Resolve(r.promise, DefaultLanguage), false) else r
    case PositionArrives(g) =>
      Race(Resolve(r.promise, DetectedLanguage(Position(g))), false)
    case PositionUnanswered =>
      Race(r.promise, false)
    case PositionFails =>
      Race(Resolve(r.promise, DefaultLanguage), false)
  }

  /** The callbacks run in order. Settle-once: a resolved promise keeps its
      value whatever runs later, so a pending detection with the timer armed
      ends with the outcome of the first callback, when that callback ends. */
  function Run(r: Race, events: seq<RaceEvent>): (s: Race)
    ensures r.promise.Resolved? ==> s.promise == r.promise
    ensures r.promise.Pending? && r.timerArmed && |events| > 0 && FirstOutcome(events[0]).Some? ==>
      s.promise == Resolved(DetectedLanguage(FirstOutcome(events[0]).value))
    decreases |events|
  {
    if |events| == 0 then r else Run(Step(r, events[0]), events[1..])
  }

  /** The detection outcome a callback stands for when it runs first; none
      for a position whose reverse geocoding never ends. */
  function FirstOutcome(e: RaceEvent): Option<Detection> {
    match e
    case TimerFires => Some(TimedOut)
    case PositionArrives(g) => Some(Position(g))
    case PositionUnanswered => None
    case PositionFails => Some(GeolocationError)
  }

  /** The first callback decides detection, and the language it resolves to is
      the one `DetectedLanguage` gives its outcome; without geolocation the
      result is the default whatever else happens. */
  lemma FirstCallbackWins(hasGeolocation: bool, events: seq<RaceEvent>)
    requires hasGeolocation ==> |events| > 0
    ensures !hasGeolocation ==>
      Run(StartDetection(hasGeolocation), events).promise == Resolved(DetectedLanguage(NoGeolocation))
    ensures hasGeolocation && FirstOutcome(events[0]).Some? ==>
      Run(StartDetection(hasGeolocation), events).promise
        == Resolved(DetectedLanguage(FirstOutcome(events[0]).value))
  {
  }

  /** A timer that fires before any position resolves detection to English,
      and a position arriving afterwards, even in Brazil, changes nothing. */
  lemma TimeoutIsFinal(late: Geocoding, rest: seq<RaceEvent>)
    ensures Run(StartDetection(true), [TimerFires, PositionArrives(late)] + rest).promise
      == Resolved(DefaultLanguage)
  {
    FirstCallbackWins(true, [TimerFires, PositionArrives(late)] + rest);
  }

  /** Once the position callback has cleared the timer, a reverse-geocoding
      request that never answers leaves detection pending for good: the only
      callback that can still run is the cleared timer, which does nothing.
      On a first load the provider then stays in English with loading on,
      and nothing is saved. */
  lemma {:induction false} UnansweredGeocodingNeverSettles(storage: map<string, string>, rest: seq<RaceEvent>)
    requires forall i :: 0 <= i < |rest| ==> rest[i].TimerFires?
    ensures Run(StartDetection(true), [PositionUnanswered] + rest) == Race(Pending, false)
    ensures NeedsDetection(storage) ==> BeginInitialize(Mount(storage)) == Provider(DefaultLanguage, storage, true)
  {
    var r := Step(StartDetection(true), PositionUnanswered);
    assert ([PositionUnanswered] + rest)[1..] == rest;
    ClearedTimerIdles(r, rest);
  }

  /** With the timer cleared, timer callbacks change nothing. */
  lemma {:induction false} ClearedTimerIdles(r: Race, events: seq<RaceEvent>)
    requires !r.timerArmed
    requires forall i :: 0 <= i < |events| ==> events[i].TimerFires?
    ensures Run(r, events) == r
    decreases |events|
  {
    if |events| > 0 {
      assert events[0].TimerFires?;
      ClearedTimerIdles(r, events[1..]);
    }
  }

  /** The provider's state: the language in use, the browser's storage and
      whether initialization is still running. */
  datatype Provider = Provider(language: string, storage: map<string, string>, loading: bool)

  /** The state on mounting, before initialization has run. */
  function Mount(storage: map<string, string>): (p: Provider)
    ensures p.language == DefaultLanguage && p.loading && p.storage == storage
  {
    Provider(DefaultLanguage, storage, true)
  }

  /** `localStorage.getItem('language')`. */
  function SavedLanguage(storage: map<string, string>): Option<string> {
    if StorageKey in storage then Some(storage[StorageKey]) else None
  }

  /** Detection runs only when there is no saved preference, a missing one
      and an empty one alike. */
  predicate NeedsDetection(storage: map<string, string>) {
    SavedLanguage(storage).None? || SavedLanguage(storage).value == ""
  }

  /** The first part of `initializeLanguage`, which runs before anything
      else can: a non-empty saved preference is applied and loading ends;
      otherwise nothing changes yet and detection starts. */
  function BeginInitialize(p: Provider): (q: Provider)
    ensures !NeedsDetection(p.storage) ==> q == Provider(p.storage[StorageKey], p.storage, false)
    ensures NeedsDetection(p.storage) ==> q == p
  {
    match SavedLanguage(p.storage)
    case Some(saved) => if saved != "" then Provider(saved, p.storage, false) else p
    case None => p
  }

  /** The rest of `initializeLanguage`, once detection has settled: whatever
      the state is by then, the detected language is applied and saved, and
      loading ends. Nothing else in storage changes. */
  function FinishInitialize(p: Provider, d: Detection): (q: Provider)
    ensures q.language == DetectedLanguage(d) && Persisted(q) && !q.loading
    ensures q.storage.Keys == p.storage.Keys + {StorageKey}
    ensures forall k :: k in p.storage && k != StorageKey ==> q.storage[k] == p.storage[k]
  {
    var detected := DetectedLanguage(d);
    Provider(detected, p.storage[StorageKey := detected], false)
  }

  /** `initializeLanguage` when nothing else runs while detection is pending:
      a saved preference is used as it is; otherwise the detected language is
      used and saved. Loading ends on both paths. */
  function Initialize(p: Provider, d: Detection): (q: Provider)
    ensures !q.loading
    ensures !NeedsDetection(p.storage) ==>
      q.language == p.storage[StorageKey] && q.storage == p.storage
    ensures NeedsDetection(p.storage) ==>
      q.language == DetectedLanguage(d) && q.storage == p.storage[StorageKey := DetectedLanguage(d)]
  {
    var begun := BeginInitialize(p);
    if NeedsDetection(p.storage) then FinishInitialize(begun, d) else begun
  }

  /** The storage holds the language in use. */
  predicate Persisted(p: Provider) {
    StorageKey in p.storage && p.storage[StorageKey] == p.language
  }

  /** After initialization the language in use is the saved one, and it is
      never empty, so the next mount skips detection. */
  lemma InitializePersists(p: Provider, d: Detection)
    ensures Persisted(Initialize(p, d))
    ensures !NeedsDetection(Initialize(p, d).storage)
  {
  }

  /** With a saved preference the detection outcome is never consulted. */
  lemma SavedPreferenceSkipsDetection(p: Provider, d1: Detection, d2: Detection)
    requires !NeedsDetection(p.storage)
    ensures Initialize(p, d1) == Initialize(p, d2)
  {
  }

  /** A later page load keeps the language the first one settled on,
      whatever its own detection would have found. */
  lemma ReloadKeepsLanguage(storage: map<string, string>, first: Detection, later: Detection)
    ensures Initialize(Mount(Initialize(Mount(storage), first).storage), later).language
      == Initialize(Mount(storage), first).language
  {
  }

  /** No geolocation and no saved preference: English, saved as English. */
  lemma DefaultWithoutGeolocation(storage: map<string, string>)
    requires NeedsDetection(storage)
    ensures Initialize(Mount(storage), NoGeolocation).language == "en"
    ensures Initialize(Mount(storage), NoGeolocation).storage[StorageKey] == "en"
  {
  }

  /** `changeLanguage`: the language in use and the saved one both become the
      new value; nothing else changes. */
  function ChangeLanguage(p: Provider, language: string): (q: Provider)
    ensures q.language == language && q.loading == p.loading
    ensures Persisted(q)
    ensures forall k :: k in p.storage && k != StorageKey ==> k in q.storage && q.storage[k] == p.storage[k]
    ensures q.storage.Keys == p.storage.Keys + {StorageKey}
  {
    Provider(language, p.storage[StorageKey := language], p.loading)
  }

  /** A language chosen while first-run detection is still pending is
      overwritten when detection settles, in the state and in storage, so the
      next load uses the detected language too. */
  lemma ChangeDuringDetectionIsLost(storage: map<string, string>, language: string, d: Detection, later: Detection)
    requires NeedsDetection(storage)
    ensures var begun := BeginInitialize(Mount(storage));
      var q := FinishInitialize(ChangeLanguage(begun, language), d);
      begun.loading
      && q.language == DetectedLanguage(d) && q.storage[StorageKey] == DetectedLanguage(d)
      && Initialize(Mount(q.storage), later).language == DetectedLanguage(d)
  {
  }

  /** A non-empty language chosen explicitly, and not overwritten by a
      detection that was still pending, survives a reload. */
  lemma ChangeSurvivesReload(p: Provider, language: string, d: Detection)
    requires language != ""
    ensures Initialize(Mount(ChangeLanguage(p, language).storage), d).language == language
  {
  }

  /** `useLanguage()`: the provider's value, or the error raised outside any
      provider. */
  function UseLanguage(context: Option<Provider>): (r: Result<Provider, string>)
    ensures r.Ok? <==> context.Some?
    ensures r.Ok? ==> r.value == context.value
    ensures r.Err? ==> r.error == "useLanguage must be used within a LanguageProvider"
  {
    match context
    case Some(p) => Ok(p)
    case None => Err("useLanguage must be used within a LanguageProvider")
  }
}
