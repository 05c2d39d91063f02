/**
 * The sound preference: a flag that starts enabled, is loaded once from the browser's
 * key-value storage, is flipped and written back by `toggleSound`, and guards `playSound`.
 * The Web Audio beep itself is not modelled; `PlaySound` reports whether it would sound.
 */
module SoundProvider {
  import opened Wrappers

  /** The storage key of the preference. */
  const StorageKey: string := "soundEnabled"

  /** `String(b)`. */
  function StoredText(b: bool): string {
    if b then "true" else "false"
  }

  /** The load effect: no saved value keeps the current flag, otherwise enabled iff the value is exactly "true". */
  function LoadedPreference(current: bool, saved: Option<string>): bool {
    match saved
    case None => current
    case Some(text) => text == "true"
  }

  /** `localStorage.getItem(key)`: `null` for a missing key. */
  function SavedValue(entries: map<string, string>, key: string): Option<string> {
    if key in entries then Some(entries[key]) else None
  }

  /** The provider's flag together with the storage it writes. */
  datatype SoundState = SoundState(enabled: bool, entries: map<string, string>)

  /** Mounting the provider: the flag starts enabled, then the saved preference is loaded. */
  function Mounted(entries: map<string, string>): SoundState {
    SoundState(LoadedPreference(true, SavedValue(entries, StorageKey)), entries)
  }

  function Toggled(s: SoundState): SoundState {
    SoundState(!s.enabled, s.entries[StorageKey := StoredText(!s.enabled)])
  }

  /** The storage holds the flag's own text under the preference key. */
  predicate Synced(s: SoundState) {
    SavedValue(s.entries, StorageKey) == Some(StoredText(s.enabled))
  }

  /** Only the exact text "true" loads as enabled; any other saved text loads as disabled. */
  lemma LoadSpec(current: bool, saved: Option<string>)
    ensures saved.None? ==> LoadedPreference(current, saved) == current
    ensures saved.Some? ==> (LoadedPreference(current, saved) <==> saved.value == "true")
    ensures LoadedPreference(current, Some("false")) == false
  {
  }

  /** What a toggle writes loads back as the flag it set. */
  lemma StoredTextRoundTrip(b: bool)
    ensures LoadedPreference(!b, Some(StoredText(b))) == b
  {
  }

  /** After a toggle the storage agrees with the flag, and mounting again reproduces the flag. */
  lemma ToggleThenReload(s: SoundState)
    ensures Synced(Toggled(s))
    ensures Mounted(Toggled(s).entries) == Toggled(s)
  {
  }

  /** Toggling twice restores the flag and, when the storage agreed with it, the storage too. */
  lemma ToggleTwice(s: SoundState)
    ensures Toggled(Toggled(s)).enabled == s.enabled
    ensures Synced(s) ==> Toggled(Toggled(s)) == s
  {
    if Synced(s) {
      assert Toggled(Toggled(s)).entries == s.entries;
    }
  }

  /** The browser's `localStorage`. */
  class KeyValueStore {
    var entries: map<string, string>

    constructor(entries: map<string, string>)
      ensures this.entries == entries
    {
      this.entries := entries;
    }

    method GetItem(key: string) returns (value: Option<string>)
      ensures value == SavedValue(entries, key)
    {
      if key in entries {
        value := Some(entries[key]);
      } else {
        value := None;
      }
    }

    method SetItem(key: string, value: string)
      modifies this
      ensures entries == old(entries)[key := value]
    {
      entries := entries[key := value];
    }
  }

  class Provider {
    var isSoundEnabled: bool
    const storage: KeyValueStore

    ghost function State(): SoundState
      reads this, storage
    {
      SoundState(isSoundEnabled, storage.entries)
    }

    /** `useState(true)`. */
    constructor(storage: KeyValueStore)
      ensures isSoundEnabled && this.storage == storage
    {
      isSoundEnabled := true;
      this.storage := storage;
    }

    /** The mount effect that reads the saved preference. */
    method Load()
      modifies this
      ensures isSoundEnabled == LoadedPreference(old(isSoundEnabled), SavedValue(storage.entries, StorageKey))
      ensures storage.entries == old(storage.entries)
    {
      var saved := storage.GetItem(StorageKey);
      if saved.Some? {
        isSoundEnabled := saved.value == "true";
      }
    }

    /** `toggleSound`: negate the flag and write its text under the preference key. */
    method ToggleSound()
      modifies this, storage
      ensures State() == Toggled(old(State()))
    {
      var newValue := !isSoundEnabled;
      storage.SetItem(StorageKey, StoredText(newValue));
      isSoundEnabled := newValue;
    }

    /** `playSound`: returns whether the beep sounds, which is exactly when sound is enabled. */
    method PlaySound() returns (played: bool)
      ensures played == isSoundEnabled
    {
      if !isSoundEnabled {
        return false;
      }
      played := true;
    }
  }

  /** Reading the context: the value, or the error thrown outside a provider. */
  datatype Context<T> = Provided(value: T) | Thrown(message: string)

  /** `useSound`: outside a provider the context is `undefined` and the hook throws. */
  function UseSound<T>(context: Option<T>): (r: Context<T>)
    ensures r.Provided? <==> context.Some?
    ensures r.Provided? ==> r.value == context.value
    ensures r.Thrown? ==> r.message == "useSound must be used within a SoundProvider"
  {
    match context
    case None => Thrown("useSound must be used within a SoundProvider")
    case Some(c) => Provided(c)
  }
}
