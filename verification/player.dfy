/**
 The fixed vocabulary of the omxplayer driver as the server uses it: the
 names of its three playback states, the table from HTTP command names to
 driver methods, and the arguments every playback is started with.
 */
module Player {
  import opened Wrappers

  /** Playback state names, indexed by the driver's `getState()` code. */
  const States: seq<string> := ["PLAYING", "PAUSED", "IDLE"]

  /** HTTP command name to driver method name. */
  const OmxCtrlMap: map<string, string> := map[
    "pause" := "pause",
    "speedup" := "increaseSpeed",
    "speeddown" := "decreaseSpeed",
    "nextaudio" := "nextAudioStream",
    "prevaudio" := "previousAudioStream",
    "nextsubtitle" := "nextSubtitleStream",
    "prevsubtitle" := "previousSubtitleStream",
    "togglesubtitle" := "toggleSubtitles",
    "volumeup" := "increaseVolume",
    "volumedown" := "decreaseVolume",
    "forward" := "seekForward",
    "backward" := "seekBackward",
    "fastforward" := "seekFastForward",
    "fastbackward" := "seekFastBackward"
  ]

  /** Audio to ALSA, blank the screen behind the video. */
  const PlayArgs: seq<string> := ["-o", "alsa", "--blank"]

  /** `states[omx.getState()]`: a state name, or `undefined` (`None`) for a
      code outside the array. */
  function StateName(code: int): (r: Option<string>)
    ensures r.Some? <==> 0 <= code < |States|
    ensures r.Some? ==> r.value == States[code]
  {
    if 0 <= code < |States| then Some(States[code]) else None
  }

  /** The three state codes have three different names, so the status
      reply tells the player states apart. */
  lemma StateNameInjective(a: int, b: int)
    requires StateName(a).Some? && StateName(b).Some?
    ensures StateName(a) == StateName(b) ==> a == b
  {
  }

  /** `omxCtrlMap[name]` followed by the truthiness test: the driver method a
      command name selects, if any. */
  function Lookup(name: string): (r: Option<string>)
    ensures r.Some? <==> name in OmxCtrlMap
    ensures r.Some? ==> r.value == OmxCtrlMap[name]
  {
    if name in OmxCtrlMap && OmxCtrlMap[name] != "" then Some(OmxCtrlMap[name]) else None
  }

  /** The command names in two halves. Proving that fourteen string literals
      are pairwise distinct in one step is beyond the solver's budget, so the
      size of the vocabulary is proved half by half: each half has seven
      names, the halves are disjoint, and together they are the keys. */
  const FirstNames: set<string> :=
    {"pause", "speedup", "speeddown", "nextaudio", "prevaudio", "nextsubtitle", "prevsubtitle"}
  const SecondNames: set<string> :=
    {"togglesubtitle", "volumeup", "volumedown", "forward", "backward", "fastforward", "fastbackward"}

  lemma FirstNamesSize()
    ensures |FirstNames| == 7
  {
  }

  lemma SecondNamesSize()
    ensures |SecondNames| == 7
  {
  }

  lemma NamesDisjoint()
    ensures FirstNames !! SecondNames
  {
  }

  lemma KeysWithinNames()
    ensures forall k :: k in OmxCtrlMap ==> k in FirstNames + SecondNames
  {
  }

  lemma NamesWithinKeys()
    ensures forall k :: k in FirstNames + SecondNames ==> k in OmxCtrlMap
  {
  }

  /** The vocabulary has exactly fourteen commands. */
  lemma VocabularySize()
    ensures |OmxCtrlMap.Keys| == 14
  {
    FirstNamesSize();
    SecondNamesSize();
    NamesDisjoint();
    KeysWithinNames();
    NamesWithinKeys();
    assert OmxCtrlMap.Keys == FirstNames + SecondNames;
  }

  /** No two commands drive the same player method. */
  lemma CommandsDistinct(a: string, b: string)
    requires a in OmxCtrlMap && b in OmxCtrlMap
    ensures OmxCtrlMap[a] == OmxCtrlMap[b] ==> a == b
  {
  }

}
