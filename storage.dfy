/**
 * The device's key-value store as the app uses it. Each key holds one
 * whole structured value, standing in for the JSON text the app writes
 * and parses; reads and writes either succeed or fail as a whole.
 */
module Storage {
  import opened Vocab

  const CardsKey := "vocabCards"
  const SettingsKey := "settings"
  const ThemeKey := "appSettings"

  /** The reminder record `{notificationsEnabled, interval}`; `interval` is in minutes. */
  datatype Settings = Settings(notificationsEnabled: bool, interval: int)

  /** The three shapes of record the app stores. */
  datatype StoredValue =
    | CardList(cards: seq<Card>)
    | SettingsRecord(settings: Settings)
    | ThemeRecord(darkMode: bool)

  /** What a read gives back: a failure, no value under the key, or the value. */
  datatype ReadResult = ReadError | Missing | Found(value: StoredValue)

  /** Each key holds the shape of record the app writes under it. */
  predicate WellShaped(items: map<string, StoredValue>) {
    && (CardsKey in items ==> items[CardsKey].CardList?)
    && (SettingsKey in items ==> items[SettingsKey].SettingsRecord?)
    && (ThemeKey in items ==> items[ThemeKey].ThemeRecord?)
  }

  /** The three keys are distinct strings, so a write under one leaves the others alone. */
  lemma KeysDistinct()
    ensures CardsKey != SettingsKey && CardsKey != ThemeKey && SettingsKey != ThemeKey
  {
    assert |CardsKey| == 10 && |SettingsKey| == 8 && |ThemeKey| == 11;
  }

  /** Writing a record of the shape a key expects keeps every key well shaped. */
  lemma WriteKeepsShape(items: map<string, StoredValue>, key: string, value: StoredValue)
    requires WellShaped(items)
    requires key == CardsKey ==> value.CardList?
    requires key == SettingsKey ==> value.SettingsRecord?
    requires key == ThemeKey ==> value.ThemeRecord?
    ensures WellShaped(items[key := value])
  {
    KeysDistinct();
  }

  class AsyncStorage {
    var items: map<string, StoredValue>

    constructor ()
      ensures items == map[]
    {
      items := map[];
    }

    /** `getItem(key)`; `fails` says whether the backend raises an error. */
    method GetItem(key: string, fails: bool) returns (r: ReadResult)
      ensures fails ==> r == ReadError
      ensures !fails && key !in items ==> r == Missing
      ensures !fails && key in items ==> r == Found(items[key])
    {
      if fails {
        r := ReadError;
      } else if key in items {
        r := Found(items[key]);
      } else {
        r := Missing;
      }
    }

    /** `setItem(key, value)`: replaces the whole value under `key`, or changes nothing when it fails. */
    method SetItem(key: string, value: StoredValue, fails: bool) returns (ok: bool)
      modifies this
      ensures ok == !fails
      ensures items == if ok then old(items)[key := value] else old(items)
    {
      ok := !fails;
      if ok {
        items := items[key := value];
      }
    }
  }
}
