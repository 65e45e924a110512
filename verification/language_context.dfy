/** The display-language preference (context/LanguageContext.tsx). */
module LanguageContext {

  /** `'es' | 'en'`: the language is one of these two by construction. */
  datatype Language = Es | En

  const InitialLanguage := Es

  /** The updater passed to `setLanguage`: `'es'` becomes `'en'`, anything else `'es'`. */
  function Toggled(l: Language): (r: Language)
    ensures r != l
  {
    if l == Es then En else Es
  }

  /** Toggling twice gives back the language one started with. */
  lemma ToggledTwice(l: Language)
    ensures Toggled(Toggled(l)) == l
  {
  }

  /** The language after `n` toggles starting from `l`. */
  function ToggledTimes(l: Language, n: nat): (r: Language) {
    if n == 0 then l else Toggled(ToggledTimes(l, n - 1))
  }

  /** An even number of toggles changes nothing; an odd number is one toggle. */
  lemma {:induction false} ToggledTimesParity(l: Language, n: nat)
    ensures ToggledTimes(l, n) == if n % 2 == 0 then l else Toggled(l)
  {
    if n > 0 {
      ToggledTimesParity(l, n - 1);
    }
  }

  /**
   * The provider: it exposes the language and the toggle and nothing else, so
   * the language is always what that many toggles make of the initial `'es'`.
   */
  class LanguageProvider {
    var language: Language
    /** How many times the toggle has run since mount. */
    ghost var toggles: nat

    ghost predicate Valid()
      reads this
    {
      language == ToggledTimes(InitialLanguage, toggles)
    }

    constructor ()
      ensures Valid() && language == Es && toggles == 0
    {
      language := InitialLanguage;
      toggles := 0;
    }

    method ToggleLanguage()
      requires Valid()
      modifies this
      ensures Valid() && toggles == old(toggles) + 1
      ensures language == Toggled(old(language))
    {
      language := Toggled(language);
      toggles := toggles + 1;
    }

    /** The language is Spanish exactly after an even number of toggles. */
    lemma SpanishIffEvenToggles()
      requires Valid()
      ensures language == Es <==> toggles % 2 == 0
    {
      ToggledTimesParity(InitialLanguage, toggles);
    }
  }
}
