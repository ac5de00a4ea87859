/** The older API's mode store (src/core/appearance.ts): one process-wide
    value, 'system', 'light' or 'dark', changed only by `switch`. */
module Appearance {
  import opened JsValues

  /** The tri-state theme mode. */
  datatype Mode = SystemMode | LightMode | DarkMode

  /** A concrete appearance: what the OS reports, or what a style resolves to. */
  datatype Scheme = Light | Dark

  /** The mode that names a concrete scheme. */
  function SchemeMode(s: Scheme): (m: Mode)
    ensures m != SystemMode
    ensures m == LightMode <==> s == Light
  {
    if s == Light then LightMode else DarkMode
  }

  /** The store's state after `switch(next)`, where `None` stands for a null
      or undefined colour scheme: the enumeration type admits only the three
      mode names, so such a value is refused and the state is kept. */
  function Switched(theme: Mode, next: Option<Mode>): (r: Mode)
    ensures next.Some? ==> r == next.value
    ensures next.None? ==> r == theme
  {
    match next
    case Some(m) => m
    case None => theme
  }

  /** Switching twice to the same value leaves what one switch leaves. */
  lemma SwitchIdempotent(theme: Mode, next: Option<Mode>)
    ensures Switched(Switched(theme, next), next) == Switched(theme, next)
  {
  }

  class AppearanceStore {
    var theme: Mode

    /** The store is created in 'system' mode. */
    constructor ()
      ensures theme == SystemMode
    {
      theme := SystemMode;
    }

    /** The `activeTheme` view. */
    function ActiveTheme(): (m: Mode)
      reads this
      ensures m == theme
    {
      theme
    }

    /** The `switch` action; `ok` is false when the enumeration refuses
        the value (the action throws and nothing changes). */
    method Switch(next: Option<Mode>) returns (ok: bool)
      modifies this
      ensures ok <==> next.Some?
      ensures theme == Switched(old(theme), next)
      ensures ok ==> ActiveTheme() == next.value
    {
      ok := next.Some?;
      if ok {
        theme := next.value;
      }
    }
  }
}
