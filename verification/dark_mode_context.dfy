/** The theme preference (context/DarkModeContext.tsx). */
module DarkModeContext {

  const InitialDarkMode := false

  /** The value after `n` toggles starting from `b`. */
  function FlippedTimes(b: bool, n: nat): (r: bool) {
    if n == 0 then b else !FlippedTimes(b, n - 1)
  }

  /** An even number of toggles changes nothing; an odd number negates. */
  lemma {:induction false} FlippedTimesParity(b: bool, n: nat)
    ensures FlippedTimes(b, n) == (if n % 2 == 0 then b else !b)
  {
    if n > 0 {
      FlippedTimesParity(b, n - 1);
    }
  }

  /** Two toggles in a row give back the value one started with. */
  lemma FlippedTwice(b: bool, n: nat)
    ensures FlippedTimes(b, n + 2) == FlippedTimes(b, n)
  {
  }

  /**
   * The provider exposes the flag and the toggle, with no setter, so the flag
   * is always what that many toggles make of the initial `false`.
   */
  class DarkModeProvider {
    var darkMode: bool
    /** How many times the toggle has run since mount. */
    ghost var toggles: nat

    ghost predicate Valid()
      reads this
    {
      darkMode == FlippedTimes(InitialDarkMode, toggles)
    }

    constructor ()
      ensures Valid() && !darkMode && toggles == 0
    {
      darkMode := InitialDarkMode;
      toggles := 0;
    }

    method ToggleDarkMode()
      requires Valid()
      modifies this
      ensures Valid() && toggles == old(toggles) + 1
      ensures darkMode == !old(darkMode)
    {
      darkMode := !darkMode;
      toggles := toggles + 1;
    }

    /** Dark mode is on exactly after an odd number of toggles. */
    lemma OnIffOddToggles()
      requires Valid()
      ensures darkMode <==> toggles % 2 == 1
    {
      FlippedTimesParity(InitialDarkMode, toggles);
    }
  }
}
