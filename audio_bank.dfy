/** The sound bank (Assets/Scripts/AudioBank.cs): sound definitions keyed
    by name, each with an optional array of clip variations, and a lookup
    that picks a random variation of the first definition with the key.
    The random index is a parameter. */
module AudioBank {
  import opened Wrappers

  /** Identity of an AudioClip asset. */
  type ClipId = nat

  /** A SoundDefinition; `clips` is None when the array is null. */
  datatype SoundDefinition = SoundDefinition(key: string, clips: Option<seq<ClipId>>)

  predicate HasClips(d: SoundDefinition) {
    d.clips.Some? && |d.clips.value| > 0
  }

  /** `roll` stands for `Random.Range(0, clips.Length)`; it is only drawn
      when there is a clip to draw. */
  predicate RollFits(d: SoundDefinition, roll: int) {
    HasClips(d) ==> 0 <= roll < |d.clips.value|
  }

  /** SoundDefinition.GetRandomClip. */
  function RandomClip(d: SoundDefinition, roll: int): (r: Option<ClipId>)
    requires RollFits(d, roll)
    ensures r.None? <==> !HasClips(d)
    ensures r.Some? ==> r.value in d.clips.value
    ensures HasClips(d) && |d.clips.value| == 1 ==> r == Some(d.clips.value[0])
  {
    if HasClips(d) then Some(d.clips.value[roll]) else None
  }

  /** The first definition with the key, searched front to back. */
  function FindFirst(sounds: seq<SoundDefinition>, key: string): (r: Option<SoundDefinition>)
    ensures r.Some? ==> r.value in sounds && r.value.key == key
    ensures r.None? <==> forall i :: 0 <= i < |sounds| ==> sounds[i].key != key
  {
    if sounds == [] then None
    else if sounds[0].key == key then Some(sounds[0])
    else FindFirst(sounds[1..], key)
  }

  /** The definition found precedes every other definition with the key. */
  lemma {:induction false} FindFirstIsFirst(sounds: seq<SoundDefinition>, key: string)
    ensures var r := FindFirst(sounds, key);
            r.Some? ==> exists i :: 0 <= i < |sounds| && sounds[i] == r.value
                                    && forall j :: 0 <= j < i ==> sounds[j].key != key
  {
    if sounds != [] && sounds[0].key != key {
      FindFirstIsFirst(sounds[1..], key);
      var r := FindFirst(sounds, key);
      if r.Some? {
        var i :| 0 <= i < |sounds[1..]| && sounds[1..][i] == r.value
                 && forall j :: 0 <= j < i ==> sounds[1..][j].key != key;
        assert sounds[i + 1] == r.value;
        forall j | 0 <= j < i + 1
          ensures sounds[j].key != key
        {
          if j > 0 {
            assert sounds[j] == sounds[1..][j - 1];
          }
        }
      }
    } else if sounds != [] {
      assert sounds[0] == FindFirst(sounds, key).value;
    }
  }

  /** Searching a bank with one more definition at the end finds what the
      shorter bank finds, and otherwise the new definition if its key
      matches. */
  lemma {:induction false} FindFirstSnoc(sounds: seq<SoundDefinition>, s: SoundDefinition, key: string)
    ensures FindFirst(sounds + [s], key)
         == if FindFirst(sounds, key).Some? then FindFirst(sounds, key)
            else if s.key == key then Some(s) else None
    decreases |sounds|
  {
    if sounds == [] {
      assert [] + [s] == [s];
      assert [s][1..] == [];
    } else {
      assert (sounds + [s])[0] == sounds[0];
      assert (sounds + [s])[1..] == sounds[1..] + [s];
      FindFirstSnoc(sounds[1..], s, key);
    }
  }

  /** The roll a bank lookup needs. */
  predicate BankRollFits(sounds: seq<SoundDefinition>, key: string, roll: int) {
    FindFirst(sounds, key).Some? ==> RollFits(FindFirst(sounds, key).value, roll)
  }

  /** AudioBank.GetRandomClip. */
  function GetRandomClip(sounds: seq<SoundDefinition>, key: string, roll: int): (r: Option<ClipId>)
    requires BankRollFits(sounds, key, roll)
    ensures (forall i :: 0 <= i < |sounds| ==> sounds[i].key != key) ==> r.None?
    ensures r.Some? ==> exists i :: 0 <= i < |sounds| && sounds[i].key == key
                                    && sounds[i].clips.Some? && r.value in sounds[i].clips.value
  {
    var d := FindFirst(sounds, key);
    if d.Some? then RandomClip(d.value, roll) else None
  }

  /** The search stops at the first definition with the key. */
  lemma {:induction false} FindFirstAt(sounds: seq<SoundDefinition>, key: string, i: int)
    requires 0 <= i < |sounds| && sounds[i].key == key
    requires forall j :: 0 <= j < i ==> sounds[j].key != key
    ensures FindFirst(sounds, key) == Some(sounds[i])
    decreases i
  {
    if i > 0 {
      assert sounds[0].key != key;
      forall j | 0 <= j < i - 1
        ensures sounds[1..][j].key != key
      {
        assert sounds[1..][j] == sounds[j + 1];
      }
      FindFirstAt(sounds[1..], key, i - 1);
    }
  }

  /** A lookup draws from the first definition with the key, and returns a
      clip exactly when that definition has one. */
  lemma GetRandomClipFirstMatch(sounds: seq<SoundDefinition>, key: string, roll: int, i: int)
    requires 0 <= i < |sounds| && sounds[i].key == key
    requires forall j :: 0 <= j < i ==> sounds[j].key != key
    requires BankRollFits(sounds, key, roll)
    ensures RollFits(sounds[i], roll)
    ensures GetRandomClip(sounds, key, roll) == RandomClip(sounds[i], roll)
    ensures GetRandomClip(sounds, key, roll).Some? <==> HasClips(sounds[i])
  {
    FindFirstAt(sounds, key, i);
  }

  /** Only the first definition of a key is ever consulted: a later one with
      the same key changes nothing. */
  lemma LaterDuplicateIgnored(sounds: seq<SoundDefinition>, s: SoundDefinition, roll: int)
    requires exists i :: 0 <= i < |sounds| && sounds[i].key == s.key
    requires BankRollFits(sounds, s.key, roll)
    ensures BankRollFits(sounds + [s], s.key, roll)
    ensures GetRandomClip(sounds + [s], s.key, roll) == GetRandomClip(sounds, s.key, roll)
  {
    FindFirstSnoc(sounds, s, s.key);
  }
}
