/**
 * The theme preference: the body's `dark-mode` class, the toggle's
 * `data-lucide` icon name and the `theme` slot of local storage.
 */
module ThemePref {
  import opened Wrappers

  /** The dark flag, the icon name and the stored value of the `theme` slot. */
  datatype Theme = Theme(dark: bool, icon: string, stored: Option<string>)

  /** The value written to the slot for a mode. */
  function ModeName(dark: bool): string { if dark then "dark" else "light" }

  /** The icon shown on the toggle for a mode. */
  function IconFor(dark: bool): string { if dark then "moon" else "sun" }

  /** The page as served, before the saved theme is applied: light. */
  function Served(icon: string, stored: Option<string>): Theme
  {
    Theme(false, icon, stored)
  }

  /** Store and flag agree: dark exactly when the slot holds "dark", and a
      dark page shows the moon. */
  predicate Consistent(t: Theme)
  {
    (t.dark <==> t.stored == Some("dark")) && (t.dark ==> t.icon == "moon")
  }

  /** The startup step: only the exact value "dark" turns dark mode on. */
  function Load(t: Theme): (r: Theme)
    ensures r.stored == t.stored
    ensures r.dark <==> t.dark || t.stored == Some("dark")
    ensures t.stored == Some("dark") ==> r.icon == "moon"
    ensures t.stored != Some("dark") ==> r == t
  {
    if t.stored == Some("dark") then t.(dark := true, icon := "moon") else t
  }

  /** `toggleTheme`: the mode flips, is written to the slot and shown on the
      icon; a later session loading the slot comes up in the same mode. */
  function Toggle(t: Theme): (r: Theme)
    ensures r.dark == !t.dark
    ensures r.stored == Some(ModeName(r.dark))
    ensures r.icon == "moon" <==> r.dark
    ensures !r.dark ==> r.icon == "sun"
    ensures Consistent(r)
    ensures forall icon :: Load(Served(icon, r.stored)).dark == r.dark
  {
    var dark := !t.dark;
    Theme(dark, IconFor(dark), Some(ModeName(dark)))
  }

  /** Whatever the slot holds, the served page after the startup step is
      consistent: a value other than "dark" (absent, "light" or anything
      else) leaves it light. */
  lemma LoadIsConsistent(icon: string, stored: Option<string>)
    ensures Consistent(Load(Served(icon, stored)))
    ensures Load(Served(icon, stored)).dark <==> stored == Some("dark")
  {
  }

  /** Toggling twice restores the mode and stores it. */
  lemma ToggleTwice(t: Theme)
    ensures Toggle(Toggle(t)).dark == t.dark
    ensures Toggle(Toggle(t)).stored == Some(ModeName(t.dark))
  {
  }
}
