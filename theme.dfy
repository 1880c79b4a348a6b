/**
 * The theme provider: a three-valued mode, its validation when the stored
 * preference is loaded, the derived dark flag and palette, `setThemeMode`,
 * `toggleTheme`, and the gate that renders nothing until loading is done.
 * The operating system's colour scheme and the storage read are inputs;
 * a storage write is returned as the string the provider asks to persist.
 */
module Theme {
  import opened Wrappers

  datatype Mode = Light | Dark | System

  /** What `useColorScheme` reports: a scheme, or nothing when the platform gives none. */
  datatype Scheme = LightScheme | DarkScheme | NoScheme

  /** The two palettes, `lightTheme` and `darkTheme`. */
  datatype Palette = LightPalette | DarkPalette

  /** What the storage read in `loadTheme` produced: a stored value (or none), or a thrown error. */
  datatype StorageRead = Read(stored: Option<string>) | ReadFailed

  /** The string a mode is stored as. */
  function ModeName(m: Mode): string
  {
    match m
    case Light => "light"
    case Dark => "dark"
    case System => "system"
  }

  /** The validation in `loadTheme`: a stored value is adopted only if it names a mode. */
  function ParseMode(stored: Option<string>): (r: Option<Mode>)
    ensures r.Some? <==> stored.Some? && stored.value in {"light", "dark", "system"}
    ensures r.Some? ==> ModeName(r.value) == stored.value
  {
    if stored.None? then None
    else if stored.value == "light" then Some(Light)
    else if stored.value == "dark" then Some(Dark)
    else if stored.value == "system" then Some(System)
    else None
  }

  /** A mode that was persisted is adopted again on the next load. */
  lemma ParseModeName(m: Mode)
    ensures ParseMode(Some(ModeName(m))) == Some(m)
  {
  }

  /** `isDark`: dark when the mode says so, or when the mode defers to a dark system scheme. */
  predicate IsDark(mode: Mode, os: Scheme)
  {
    mode == Dark || (mode == System && os == DarkScheme)
  }

  /** `theme`: the palette for the mode. */
  function PaletteOf(mode: Mode, os: Scheme): (p: Palette)
    ensures p == DarkPalette <==> IsDark(mode, os)
  {
    if IsDark(mode, os) then DarkPalette else LightPalette
  }

  /** The mode `toggleTheme` sets: the explicit opposite of what is shown. */
  function ToggleTarget(mode: Mode, os: Scheme): (m: Mode)
    ensures m != System
    ensures IsDark(m, os) == !IsDark(mode, os)
  {
    if IsDark(mode, os) then Light else Dark
  }

  /** Toggling never depends on the system scheme once the mode is explicit. */
  lemma ToggleExplicitIgnoresScheme(mode: Mode, os1: Scheme, os2: Scheme)
    requires mode != System
    ensures ToggleTarget(mode, os1) == ToggleTarget(mode, os2)
  {
  }

  /**
   * Two toggles restore what is shown, for any system scheme; they restore
   * the mode itself exactly when it was explicit.
   */
  lemma ToggleTwice(mode: Mode, os: Scheme)
    ensures IsDark(ToggleTarget(ToggleTarget(mode, os), os), os) == IsDark(mode, os)
    ensures ToggleTarget(ToggleTarget(mode, os), os) == mode <==> mode != System
  {
  }

  /** The value the provider passes down, once it renders. */
  datatype ThemeValue = ThemeValue(palette: Palette, mode: Mode, isDark: bool)

  class ThemeState {
    var mode: Mode
    var isLoaded: bool

    constructor ()
      ensures mode == System && !isLoaded
    {
      mode := System;
      isLoaded := false;
    }

    /** `loadTheme`: adopt a valid stored mode, and mark loading done on every path. */
    method LoadTheme(read: StorageRead)
      modifies this
      ensures isLoaded
      ensures read.Read? && ParseMode(read.stored).Some? ==> mode == ParseMode(read.stored).value
      ensures read.ReadFailed? || ParseMode(read.stored).None? ==> mode == old(mode)
    {
      if read.Read? {
        var parsed := ParseMode(read.stored);
        if parsed.Some? {
          mode := parsed.value;
        }
      }
      isLoaded := true;
    }

    /** `setThemeMode`: the mode changes whether or not persisting succeeds; returns the string written. */
    method SetThemeMode(m: Mode) returns (persisted: string)
      modifies this`mode
      ensures mode == m
      ensures ParseMode(Some(persisted)) == Some(m)
    {
      mode := m;
      persisted := ModeName(m);
    }

    /** `toggleTheme`. */
    method ToggleTheme(os: Scheme) returns (persisted: string)
      modifies this`mode
      ensures mode == ToggleTarget(old(mode), os)
      ensures mode != System && IsDark(mode, os) == !IsDark(old(mode), os)
      ensures ParseMode(Some(persisted)) == Some(mode)
    {
      persisted := SetThemeMode(if IsDark(mode, os) then Light else Dark);
    }

    /** What the provider renders: nothing until loading is done, then the derived theme. */
    function Provided(os: Scheme): (v: Option<ThemeValue>)
      reads this
      ensures v.Some? <==> isLoaded
      ensures v.Some? ==> v.value.mode == mode && v.value.isDark == IsDark(mode, os)
                          && (v.value.palette == DarkPalette <==> v.value.isDark)
    {
      if !isLoaded then None else Some(ThemeValue(PaletteOf(mode, os), mode, IsDark(mode, os)))
    }
  }
}
