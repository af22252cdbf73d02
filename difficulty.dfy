/** The difficulty presets of the game and the two ways the script looks them up. */
module Difficulty {

  datatype Option<T> = None | Some(value: T)

  /** One preset: round length in seconds, spawn period in milliseconds,
      number of cans needed to win, and points lost per oil tank. */
  datatype Settings = Settings(time: int, spawnMs: int, goalPoints: int, oilPenalty: int)

  const EasySettings := Settings(40, 1000, 15, 3)
  const NormalSettings := Settings(30, 900, 20, 5)
  const HardSettings := Settings(20, 700, 25, 7)

  /** Indexing the preset table by name; only the three preset names are keys. */
  function Lookup(name: string): (r: Option<Settings>)
    ensures r.Some? <==> name == "Easy" || name == "Normal" || name == "Hard"
    ensures r == Some(EasySettings) <==> name == "Easy"
    ensures r == Some(NormalSettings) <==> name == "Normal"
    ensures r == Some(HardSettings) <==> name == "Hard"
  {
    if name == "Easy" then Some(EasySettings)
    else if name == "Normal" then Some(NormalSettings)
    else if name == "Hard" then Some(HardSettings)
    else None
  }

  /** The name read from the difficulty selector. `value` is the selector's value,
      with "" standing both for an empty value and for a missing selector. */
  function SelectedName(value: string): (name: string)
    ensures name != ""
    ensures value == "" ==> name == "Normal"
    ensures value != "" ==> name == value
  {
    if value == "" then "Normal" else value
  }

  /** The settings loaded by a start or a reset: the selected preset, or Normal
      when the selected name is not a preset. */
  function SettingsFor(value: string): (st: Settings)
    ensures st.time > 0 && st.goalPoints > 0 && st.oilPenalty > 0 && st.spawnMs > 0
    ensures value == "" ==> st == NormalSettings
    ensures Lookup(SelectedName(value)).None? ==> st == NormalSettings
    ensures Lookup(SelectedName(value)).Some? ==> st == Lookup(SelectedName(value)).value
  {
    match Lookup(SelectedName(value))
    case Some(st) => st
    case None => NormalSettings
  }

  /** The penalty read when an oil tank is hit. This lookup has no fallback:
      for a name that is not a preset the script fails, which is `None` here. */
  function PenaltyFor(value: string): (p: Option<int>)
    ensures p.Some? <==> Lookup(SelectedName(value)).Some?
    ensures p.Some? ==> p.value > 0 && p.value == SettingsFor(value).oilPenalty
    ensures value == "" ==> p == Some(NormalSettings.oilPenalty)
  {
    match Lookup(SelectedName(value))
    case Some(st) => Some(st.oilPenalty)
    case None => None
  }
}
