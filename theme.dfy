/**
 * The app-wide theme: a dark-mode flag persisted as `{darkMode}` under
 * "appSettings", and the colour palette chosen from it.
 */
module Theme {
  import opened Storage

  datatype Palette = Palette(background: string, card: string, text: string,
                             border: string, primary: string, secondary: string)

  /**
   * The palette for the flag: dark and light differ in background, card,
   * text and border colours and share the accent colours.
   */
  function Colors(isDarkMode: bool): (p: Palette)
    ensures p.primary == "#007AFF" && p.secondary == "#666666"
    ensures p.background != p.text && p.card != p.text && p.border != p.background
    ensures isDarkMode <==> p.text == "#FFFFFF"
  {
    if isDarkMode then
      Palette("#121212", "#1E1E1E", "#FFFFFF", "#333333", "#007AFF", "#666666")
    else
      Palette("#FFFFFF", "#F8F8F8", "#000000", "#DDDDDD", "#007AFF", "#666666")
  }

  class ThemeProvider {
    var isDarkMode: bool

    /** Light mode until a stored flag is loaded. */
    constructor ()
      ensures !isDarkMode
    {
      isDarkMode := false;
    }

    /** The stored record holds the flag shown in memory. */
    predicate Persisted(store: AsyncStorage)
      reads this, store
    {
      ThemeKey in store.items && store.items[ThemeKey] == ThemeRecord(isDarkMode)
    }

    /**
     * `loadTheme`: a stored record supplies the flag; nothing stored, a
     * failed read or a value of another shape leaves it as it was.
     */
    method LoadTheme(store: AsyncStorage, readFails: bool)
      modifies this
      ensures var loaded := !readFails && ThemeKey in store.items && store.items[ThemeKey].ThemeRecord?;
        && (loaded ==> isDarkMode == store.items[ThemeKey].darkMode && Persisted(store))
        && (!loaded ==> isDarkMode == old(isDarkMode))
    {
      var stored := store.GetItem(ThemeKey, readFails);
      if stored.Found? && stored.value.ThemeRecord? {
        isDarkMode := stored.value.darkMode;
      }
    }

    /**
     * `toggleDarkMode`: flips the flag in memory first, then writes the whole
     * record `{darkMode}`; no other key is touched. A failed write is logged;
     * when memory and storage agreed before, it leaves them apart.
     */
    method ToggleDarkMode(store: AsyncStorage, writeFails: bool)
      modifies this, store
      ensures isDarkMode == !old(isDarkMode)
      ensures store.items == if writeFails then old(store.items) else old(store.items)[ThemeKey := ThemeRecord(isDarkMode)]
      ensures forall k :: k != ThemeKey ==> (k in store.items <==> k in old(store.items))
      ensures forall k :: k != ThemeKey && k in store.items ==> store.items[k] == old(store.items)[k]
      ensures !writeFails ==> Persisted(store)
      ensures writeFails && old(Persisted(store)) ==> !Persisted(store)
      ensures WellShaped(old(store.items)) ==> WellShaped(store.items)
    {
      if WellShaped(store.items) {
        WriteKeepsShape(store.items, ThemeKey, ThemeRecord(!isDarkMode));
      }
      var newStatus := !isDarkMode;
      isDarkMode := newStatus;
      var _ := store.SetItem(ThemeKey, ThemeRecord(newStatus), writeFails);
    }
  }

  /** Toggling twice restores the flag, and, when the second write succeeds, the stored record holds it. */
  method ToggleTwice(provider: ThemeProvider, store: AsyncStorage, firstFails: bool, secondFails: bool)
    modifies provider, store
    ensures provider.isDarkMode == old(provider.isDarkMode)
    ensures !secondFails ==> ThemeKey in store.items && store.items[ThemeKey] == ThemeRecord(old(provider.isDarkMode))
  {
    provider.ToggleDarkMode(store, firstFails);
    provider.ToggleDarkMode(store, secondFails);
  }
}
