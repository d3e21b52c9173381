/** The light/dark theme switch and its one stored preference. */
module Theme {
  import opened Wrappers

  /** The theme at start-up: `localStorage.getItem('theme') || 'light'`. */
  function InitialTheme(stored: Option<string>): string {
    match stored
    case Some(t) => if t == "" then "light" else t
    case None => "light"
  }

  /** A click on the toggle: "dark" goes to "light", anything else goes to "dark". */
  function Toggle(theme: string): string {
    if theme == "dark" then "light" else "dark"
  }

  /** The theme after n clicks. */
  function Toggled(theme: string, n: nat): string {
    if n == 0 then theme else Toggle(Toggled(theme, n - 1))
  }

  /** A toggle always lands on one of the two themes, flips between them, and undoes itself. */
  lemma ToggleFlips(theme: string)
    ensures Toggle(theme) == "light" || Toggle(theme) == "dark"
    ensures theme == "light" || theme == "dark" ==> Toggle(theme) != theme && Toggle(Toggle(theme)) == theme
    ensures theme != "dark" ==> Toggle(theme) == "dark"
  {
  }

  /** Starting from light, an odd number of clicks gives dark and an even number light. */
  lemma {:induction false} ToggledParity(n: nat)
    ensures Toggled("light", n) == (if n % 2 == 0 then "light" else "dark")
  {
    if n > 0 {
      ToggledParity(n - 1);
    }
  }

  /** What the toggle stores is what the next start-up shows. */
  lemma StoredThemeRestored(theme: string)
    ensures InitialTheme(Some(Toggle(theme))) == Toggle(theme)
    ensures InitialTheme(None) == "light"
  {
  }
}
