/** The audio manager (Assets/Scripts/AudioManager.cs): a singleton that,
    when it wakes, copies the bank's definitions into a dictionary keeping
    the first definition of each key, and answers clip lookups from it.
    Mixer routing and playback are not modelled. */
module Audio {
  import opened Wrappers
  import opened AudioBank

  /** The dictionary Awake builds: definitions are added in order, and a
      key already present is skipped. */
  function FirstWins(sounds: seq<SoundDefinition>): map<string, SoundDefinition>
    decreases |sounds|
  {
    if sounds == [] then map[]
    else
      var m := FirstWins(sounds[..|sounds| - 1]);
      var s := sounds[|sounds| - 1];
      if s.key in m then m else m[s.key := s]
  }

  /** The dictionary holds a key exactly when the bank has a definition
      with it, and maps it to the first such definition: the one the
      bank's own lookup finds. */
  lemma {:induction false} FirstWinsAgreesWithBank(sounds: seq<SoundDefinition>, key: string)
    ensures key in FirstWins(sounds) <==> FindFirst(sounds, key).Some?
    ensures key in FirstWins(sounds) ==> FirstWins(sounds)[key] == FindFirst(sounds, key).value
    decreases |sounds|
  {
    if sounds != [] {
      var init := sounds[..|sounds| - 1];
      var s := sounds[|sounds| - 1];
      assert sounds == init + [s];
      FirstWinsAgreesWithBank(init, key);
      FindFirstSnoc(init, s, key);
    }
  }

  /** The manager's GetRandomClip answers exactly what the bank's would. */
  lemma ManagerAgreesWithBank(sounds: seq<SoundDefinition>, key: string, roll: int)
    requires BankRollFits(sounds, key, roll)
    ensures var dict := FirstWins(sounds);
            && (key in dict ==> RollFits(dict[key], roll))
            && (if key in dict then RandomClip(dict[key], roll) else None)
               == AudioBank.GetRandomClip(sounds, key, roll)
  {
    FirstWinsAgreesWithBank(sounds, key);
  }

  /** Where `AudioManager.Instance` points. */
  class Registry {
    var instance: AudioManager?

    constructor ()
      ensures instance == null
    {
      instance := null;
    }
  }

  class AudioManager {
    /** The bank assigned in the inspector, if any. */
    const audioBank: Option<seq<SoundDefinition>>
    var soundDictionary: map<string, SoundDefinition>
    /** Whether Awake destroyed this object as a duplicate. */
    var destroyed: bool

    constructor (audioBank: Option<seq<SoundDefinition>>)
      ensures this.audioBank == audioBank && soundDictionary == map[] && !destroyed
    {
      this.audioBank := audioBank;
      soundDictionary := map[];
      destroyed := false;
    }

    /** Awake: a second manager destroys itself and leaves the registered
        one in place; the first registers itself and loads the bank. */
    method Awake(registry: Registry)
      requires soundDictionary == map[]
      modifies this, registry
      ensures old(registry.instance) != null && old(registry.instance) != this ==>
                && destroyed && registry.instance == old(registry.instance)
                && soundDictionary == map[]
      ensures old(registry.instance) == null || old(registry.instance) == this ==>
                && destroyed == old(destroyed) && registry.instance == this
                && soundDictionary == (if audioBank.Some? then FirstWins(audioBank.value) else map[])
    {
      if registry.instance != null && registry.instance != this {
        destroyed := true;
        return;
      }
      registry.instance := this;
      if audioBank.Some? {
        var sounds := audioBank.value;
        var i := 0;
        while i < |sounds|
          invariant 0 <= i <= |sounds|
          invariant soundDictionary == FirstWins(sounds[..i])
          modifies this`soundDictionary
        {
          var s := sounds[i];
          assert sounds[..i + 1][..i] == sounds[..i];
          if s.key !in soundDictionary {
            soundDictionary := soundDictionary[s.key := s];
          }
          i := i + 1;
        }
        assert sounds[..|sounds|] == sounds;
      }
    }

    /** GetClip: the first variation of the key's definition. */
    method GetClip(key: string) returns (clip: Option<ClipId>)
      ensures clip.Some? <==> key in soundDictionary && HasClips(soundDictionary[key])
      ensures clip.Some? ==> clip.value == soundDictionary[key].clips.value[0]
    {
      if key in soundDictionary {
        var soundDef := soundDictionary[key];
        if soundDef.clips.Some? && |soundDef.clips.value| > 0 {
          return Some(soundDef.clips.value[0]);
        }
      }
      return None;
    }

    /** GetRandomClip: `roll` is the random index, drawn only when the
        definition has clips. */
    method GetRandomClip(key: string, roll: int) returns (clip: Option<ClipId>)
      requires key in soundDictionary ==> RollFits(soundDictionary[key], roll)
      ensures key !in soundDictionary ==> clip.None?
      ensures key in soundDictionary ==> clip == RandomClip(soundDictionary[key], roll)
    {
      if key in soundDictionary {
        return RandomClip(soundDictionary[key], roll);
      }
      return None;
    }
  }
}
