/**
 * The sound preference (src/utils/soundEffects.js): a flag read from storage
 * when the manager is built, flipped and written back by toggle, and checked
 * by play together with the name of the sound.
 */
module Sound {
  import opened Wrappers
  import opened Storage

  const EnabledKey := "soundEnabled"

  /** The clips the manager loads, by name; audio playback itself is outside the model. */
  const Clips: map<string, string> := map[
    "click" := "/sounds/click.mp3",
    "achievement" := "/sounds/achievement.mp3",
    "combo" := "/sounds/combo.mp3"
  ]

  /** `localStorage.getItem('soundEnabled') !== 'false'`. */
  function EnabledFrom(items: map<string, Value>): (enabled: bool)
    ensures !enabled <==> EnabledKey in items && items[EnabledKey] == Text("false")
    ensures EnabledKey !in items ==> enabled
  {
    !(EnabledKey in items && items[EnabledKey] == Text("false"))
  }

  /** setItem stores the boolean as the string "true" or "false". */
  function Stored(enabled: bool): (v: Value)
    ensures v.Text? && (v.s == "true" || v.s == "false")
    ensures EnabledFrom(map[EnabledKey := v]) == enabled
  {
    Text(if enabled then "true" else "false")
  }

  /** What toggle writes, a manager built afterwards reads back. */
  lemma StoredReadsBack(items: map<string, Value>, enabled: bool)
    ensures EnabledFrom(items[EnabledKey := Stored(enabled)]) == enabled
  {
  }

  class SoundManager {
    var enabled: bool
    var sounds: map<string, string>
    const storage: LocalStorage

    constructor (storage: LocalStorage)
      ensures enabled == EnabledFrom(storage.items)
      ensures sounds == Clips
      ensures this.storage == storage
    {
      enabled := EnabledFrom(storage.items);
      sounds := Clips;
      this.storage := storage;
    }

    /** toggle: flip the flag and store its new value; the clip table is untouched. */
    method Toggle()
      modifies this`enabled, storage
      ensures enabled == !old(enabled)
      ensures sounds == old(sounds)
      ensures storage.items == old(storage.items)[EnabledKey := Stored(enabled)]
    {
      enabled := !enabled;
      storage.SetItem(EnabledKey, Stored(enabled));
    }

    /** play(name): the clip that would be played, if sound is on and the name is known. */
    method Play(name: string) returns (played: Option<string>)
      ensures played.Some? <==> enabled && name in sounds
      ensures played.Some? ==> played.value == sounds[name]
    {
      if enabled && name in sounds {
        played := Some(sounds[name]);
      } else {
        played := None;
      }
    }
  }

  /** Toggling twice gives back the flag, the clips and the stored entry's meaning. */
  method ToggleTwice(m: SoundManager)
    modifies m, m.storage
    ensures m.enabled == old(m.enabled) && m.sounds == old(m.sounds)
    ensures EnabledFrom(m.storage.items) == m.enabled
  {
    m.Toggle();
    m.Toggle();
    StoredReadsBack(old(m.storage.items)[EnabledKey := Stored(!old(m.enabled))], m.enabled);
  }

  /** A page reload after a toggle: the new manager starts with the flag the old one ended with. */
  method ReloadAfterToggle(m: SoundManager) returns (reloaded: SoundManager)
    modifies m, m.storage
    ensures fresh(reloaded) && reloaded.storage == m.storage
    ensures m.enabled == !old(m.enabled)
    ensures reloaded.enabled == m.enabled
    ensures reloaded.sounds == Clips
  {
    m.Toggle();
    StoredReadsBack(old(m.storage.items), m.enabled);
    reloaded := new SoundManager(m.storage);
  }
}
