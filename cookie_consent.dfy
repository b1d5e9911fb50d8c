// The cookie consent hook: the consent record kept in local storage, when the
// banner shows, and the three ways of answering it. Local storage is a map
// from keys to texts; `stringify` and `parse` stand for the JSON encoding of
// a record, `now` for the current date as an ISO string.

module CookieConsent {
  import opened Common

  datatype Consent = Consent(
    necessary: bool,
    analytics: bool,
    marketing: bool,
    functional: bool,
    date: string,
    version: string)

  /** The three optional categories a visitor can choose. */
  datatype Choice = Choice(analytics: bool, marketing: bool, functional: bool)

  const StorageKey: string := "cookie-consent-v1"
  const CurrentVersion: string := "1.0.0"

  /** `loadConsent`: nothing when the key is missing or empty, when its text
      does not parse, or when the record is of another version; else the
      stored record as it is. */
  function LoadConsent(storage: map<string, string>, parse: string -> Option<Consent>): (r: Option<Consent>)
    ensures r.Some? <==>
      StorageKey in storage && storage[StorageKey] != "" && parse(storage[StorageKey]).Some?
      && parse(storage[StorageKey]).value.version == CurrentVersion
    ensures r.Some? ==> r == parse(storage[StorageKey])
  {
    if StorageKey !in storage || storage[StorageKey] == "" then None
    else match parse(storage[StorageKey])
      case None => None
      case Some(c) => if c.version != CurrentVersion then None else Some(c)
  }

  /** `{ ...defaultConsent, ...choice, date: now }`. */
  function MakeConsent(choice: Choice, now: string): (c: Consent)
    ensures c.necessary && c.version == CurrentVersion && c.date == now
    ensures c.analytics == choice.analytics && c.marketing == choice.marketing && c.functional == choice.functional
  {
    Consent(true, choice.analytics, choice.marketing, choice.functional, now, CurrentVersion)
  }

  const AllAccepted: Choice := Choice(true, true, true)
  const AllRefused: Choice := Choice(false, false, false)

  /** The encoding the browser uses keeps a record whole and is never empty. */
  predicate RoundTrips(c: Consent, stringify: Consent -> string, parse: string -> Option<Consent>) {
    stringify(c) != "" && parse(stringify(c)) == Some(c)
  }

  /** A record saved by this hook is loaded back as it was, whatever else
      storage holds. */
  lemma SavedConsentLoads(storage: map<string, string>, choice: Choice, now: string,
                          stringify: Consent -> string, parse: string -> Option<Consent>)
    requires RoundTrips(MakeConsent(choice, now), stringify, parse)
    ensures LoadConsent(storage[StorageKey := stringify(MakeConsent(choice, now))], parse) == Some(MakeConsent(choice, now))
  {
  }

  /** A record of another version is never loaded, so the banner asks again. */
  lemma OtherVersionAsksAgain(storage: map<string, string>, c: Consent,
                              stringify: Consent -> string, parse: string -> Option<Consent>)
    requires RoundTrips(c, stringify, parse) && c.version != CurrentVersion
    ensures LoadConsent(storage[StorageKey := stringify(c)], parse).None?
  {
  }

  class ConsentState {
    var storage: map<string, string>
    var consent: Option<Consent>
    var bannerOpen: bool
    var prefsOpen: bool

    /** The first render: the consent loaded from storage, the banner open
        when there is none, the preferences closed. */
    constructor(storage: map<string, string>, parse: string -> Option<Consent>)
      ensures this.storage == storage && consent == LoadConsent(storage, parse)
      ensures bannerOpen <==> consent.None?
      ensures !prefsOpen
    {
      this.storage := storage;
      consent := LoadConsent(storage, parse);
      bannerOpen := LoadConsent(storage, parse).None?;
      prefsOpen := false;
    }

    /** `saveConsent` followed by the state updates the three actions share. */
    method Save(c: Consent, stringify: Consent -> string)
      modifies this
      ensures storage == old(storage)[StorageKey := stringify(c)] && consent == Some(c) && !bannerOpen
      ensures prefsOpen == old(prefsOpen)
    {
      storage := storage[StorageKey := stringify(c)];
      consent := Some(c);
      bannerOpen := false;
    }

    /** `acceptAll`: every category on; the preferences stay as they are. */
    method AcceptAll(now: string, stringify: Consent -> string)
      modifies this
      ensures consent == Some(MakeConsent(AllAccepted, now))
      ensures storage == old(storage)[StorageKey := stringify(consent.value)]
      ensures !bannerOpen && prefsOpen == old(prefsOpen)
    {
      Save(MakeConsent(AllAccepted, now), stringify);
    }

    /** `refuseAll`: every category off; the preferences stay as they are. */
    method RefuseAll(now: string, stringify: Consent -> string)
      modifies this
      ensures consent == Some(MakeConsent(AllRefused, now))
      ensures storage == old(storage)[StorageKey := stringify(consent.value)]
      ensures !bannerOpen && prefsOpen == old(prefsOpen)
    {
      Save(MakeConsent(AllRefused, now), stringify);
    }

    /** `saveCustom`: the visitor's choice, and the preferences close. */
    method SaveCustom(choice: Choice, now: string, stringify: Consent -> string)
      modifies this
      ensures consent == Some(MakeConsent(choice, now))
      ensures storage == old(storage)[StorageKey := stringify(consent.value)]
      ensures !bannerOpen && !prefsOpen
    {
      Save(MakeConsent(choice, now), stringify);
      prefsOpen := false;
    }

    /** `window.__openCookiePrefs`, which the footer calls. */
    method OpenPrefs()
      modifies this`prefsOpen
      ensures prefsOpen
    {
      prefsOpen := true;
    }
  }

  /** A visitor answers the banner with a custom choice and comes back: the
      page loads the same consent and does not show the banner again. */
  method ChooseThenReload(storage: map<string, string>, choice: Choice, now: string,
                          stringify: Consent -> string, parse: string -> Option<Consent>)
    returns (before: ConsentState, after: ConsentState)
    requires RoundTrips(MakeConsent(choice, now), stringify, parse)
    ensures after.consent == before.consent == Some(MakeConsent(choice, now))
    ensures !after.bannerOpen && !after.prefsOpen
  {
    before := new ConsentState(storage, parse);
    before.SaveCustom(choice, now, stringify);
    SavedConsentLoads(storage, choice, now, stringify, parse);
    after := new ConsentState(before.storage, parse);
  }
}
