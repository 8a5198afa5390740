/** The language slice of the Redux store (src/features/language/languageSlice.js): the current
    interface language, remembered in `localStorage` under `preferredLanguage`. */
module LanguageSlice {

  import opened Common

  const PreferredLanguageKey: string := "preferredLanguage"
  const DefaultLanguage: string := "FR"

  /** The language at start-up: the stored preference when it is a non-empty string, else `FR`. */
  function InitialLanguage(storage: map<string, string>): (lang: string)
    ensures Truthy(Lookup(storage, PreferredLanguageKey)) ==> lang == storage[PreferredLanguageKey]
    ensures !Truthy(Lookup(storage, PreferredLanguageKey)) ==> lang == DefaultLanguage
    ensures lang != ""
  {
    var stored := Lookup(storage, PreferredLanguageKey);
    if Truthy(stored) then stored.value else DefaultLanguage
  }

  /** The slice state together with `localStorage`. */
  datatype LanguageState = LanguageState(currentLanguage: string, storage: map<string, string>)

  /** `setLanguage(lang)`: the new current language, also written to storage. */
  function LanguageAfter(s: LanguageState, lang: string): (r: LanguageState)
    ensures r.currentLanguage == lang
    ensures Lookup(r.storage, PreferredLanguageKey) == Some(r.currentLanguage)
    ensures forall k :: k != PreferredLanguageKey ==> Lookup(r.storage, k) == Lookup(s.storage, k)
  {
    LanguageState(lang, s.storage[PreferredLanguageKey := lang])
  }

  /** Setting the same language twice is setting it once. */
  lemma SetLanguageIdempotent(s: LanguageState, lang: string)
    ensures LanguageAfter(LanguageAfter(s, lang), lang) == LanguageAfter(s, lang)
  {
  }

  /** A language set before a reload is the language after it, provided it is not empty. */
  lemma {:induction false} SetLanguageSurvivesReload(s: LanguageState, lang: string)
    ensures lang != "" ==> InitialLanguage(LanguageAfter(s, lang).storage) == lang
    ensures lang == "" ==> InitialLanguage(LanguageAfter(s, lang).storage) == DefaultLanguage
  {
    assert Lookup(LanguageAfter(s, lang).storage, PreferredLanguageKey) == Some(lang);
  }

  /** The slice as the store holds it. */
  class LanguageStore {
    var currentLanguage: string
    var storage: map<string, string>

    function State(): LanguageState
      reads this
    {
      LanguageState(currentLanguage, storage)
    }

    constructor (stored: map<string, string>)
      ensures currentLanguage == InitialLanguage(stored) && storage == stored
    {
      currentLanguage := InitialLanguage(stored);
      storage := stored;
    }

    method SetLanguage(lang: string)
      modifies this
      ensures State() == LanguageAfter(old(State()), lang)
    {
      currentLanguage := lang;
      storage := storage[PreferredLanguageKey := lang];
    }
  }
}
