/**
 * The site-wide colour theme: the mode read back from storage, the palette chosen for it and
 * the effect that writes the mode back.
 */
module Theme {
  import opened Wrappers

  datatype Mode = Light | Dark

  /** The storage key the mode is kept under. */
  const StorageKey := "themeMode"

  /** The name a mode is stored and compared under (`PaletteMode`). */
  function ModeName(m: Mode): (s: string)
    ensures s == "light" || s == "dark"
  {
    match m
    case Light => "light"
    case Dark => "dark"
  }

  /** `getValidThemeMode`: the stored value when it names a mode, otherwise dark. */
  function ValidThemeMode(stored: Option<string>): (m: Mode)
    ensures stored == Some("light") <==> m == Light
    ensures stored != Some("light") ==> m == Dark
  {
    if stored == Some("light") then Light
    else if stored == Some("dark") then Dark
    else Dark
  }

  /** Only the two names are read back as themselves; anything else, missing included, is dark. */
  lemma ModeNameRoundTrip(m: Mode, stored: Option<string>)
    ensures ValidThemeMode(Some(ModeName(m))) == m
    ensures stored.Some? && stored.value != "light" && stored.value != "dark" ==> ValidThemeMode(stored) == Dark
    ensures ValidThemeMode(None) == Dark
  {
  }

  /** A key/value store standing for `localStorage`. */
  type Storage = map<string, string>

  function Read(store: Storage): Option<string>
  {
    if StorageKey in store then Some(store[StorageKey]) else None
  }

  /** The effect: `localStorage.setItem("themeMode", theme.palette.mode)`. */
  function Persist(store: Storage, m: Mode): Storage
  {
    store[StorageKey := ModeName(m)]
  }

  /** Whatever the mode, once the effect has run a later read gives the same mode back, and no other entry changes. */
  lemma PersistThenRead(store: Storage, m: Mode)
    ensures ValidThemeMode(Read(Persist(store, m))) == m
    ensures forall k :: k in store && k != StorageKey ==> k in Persist(store, m) && Persist(store, m)[k] == store[k]
  {
  }

  /** Loading the page twice gives the same mode: the first load's effect stores the mode it read. */
  lemma ReloadKeepsMode(store: Storage)
    ensures ValidThemeMode(Read(Persist(store, ValidThemeMode(Read(store))))) == ValidThemeMode(Read(store))
  {
    PersistThenRead(store, ValidThemeMode(Read(store)));
  }

  datatype Tones = Tones(main: string, light: string, dark: string)
  datatype Background = Background(default: string, paper: string)
  datatype Text = Text(primary: string, secondary: string, duoStreak: string)

  datatype Palette = Palette(mode: Mode, primary: Tones, secondary: Tones, background: Background, text: Text)

  /** The component overrides that depend on the mode. */
  datatype Overrides = Overrides(avatar: string, chip: string, chipHover: string, divider: string)

  /** The palette passed to `createTheme`: every colour a choice between a dark and a light constant. */
  function PaletteFor(m: Mode): (p: Palette)
    ensures p.mode == m
  {
    var dark := m == Dark;
    Palette(
      m,
      Tones(if dark then "#90caf9" else "#1976d2", if dark then "#e3f2fd" else "#42a5f5", if dark then "#1565c0" else "#1565c0"),
      Tones(if dark then "#f48fb1" else "#9c27b0", if dark then "#fce4ec" else "#ba68c8", if dark then "#c2185b" else "#7b1fa2"),
      Background(if dark then "#121212" else "#f5f5f5", if dark then "#1e1e1e" else "#ffffff"),
      Text(if dark then "#ffffff" else "#2c3e50", if dark then "#b0bec5" else "#546e7a", "rgb(255, 171, 51)"))
  }

  function OverridesFor(m: Mode): Overrides
  {
    var dark := m == Dark;
    Overrides(
      if dark then "#90caf9" else "#1976d2",
      if dark then "rgba(144, 202, 249, 0.1)" else "rgba(25, 118, 210, 0.1)",
      if dark then "rgba(144, 202, 249, 0.2)" else "rgba(25, 118, 210, 0.2)",
      if dark then "rgba(255, 255, 255, 0.12)" else "rgba(0, 0, 0, 0.12)")
  }

  /** The identifying colours of each mode, and the ones shared by both. */
  lemma PaletteColours()
    ensures PaletteFor(Dark).primary.main == "#90caf9" && PaletteFor(Dark).background.default == "#121212"
    ensures PaletteFor(Light).primary.main == "#1976d2" && PaletteFor(Light).background.default == "#f5f5f5"
    ensures PaletteFor(Dark).primary.dark == "#1565c0" && PaletteFor(Light).primary.dark == "#1565c0"
    ensures PaletteFor(Dark).text.duoStreak == PaletteFor(Light).text.duoStreak
  {
  }

  /** The two modes are told apart by their main colour, and avatars always wear the primary main colour. */
  lemma ModesDiffer(m: Mode, n: Mode)
    ensures PaletteFor(m).primary.main == PaletteFor(n).primary.main <==> m == n
    ensures OverridesFor(m).avatar == PaletteFor(m).primary.main
  {
  }

  /** The theme the provider renders with, and the mode its effect stores and sets again. */
  function EffectMode(m: Mode): (r: Mode)
    ensures r == m
  {
    PaletteFor(m).mode
  }
}
