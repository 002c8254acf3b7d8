/** Severity levels of the logger and their printable names. */
module Levels {

  /** The C `uint8_t` used for levels and for the output counter. */
  type Uint8 = x: int | 0 <= x < 256

  const LevelSilent: Uint8 := 0
  const LevelError: Uint8 := 1
  const LevelWarning: Uint8 := 2
  const LevelInfo: Uint8 := 3
  const LevelTrace: Uint8 := 4
  const LevelVerbose: Uint8 := 5

  /** The name debugLevelName gives to a level outside SILENT..VERBOSE. */
  const UnknownLevelName: string := "UNKNOWN"

  /** The six defined levels, from the most restrictive to the most verbose. */
  function AllLevels(): (r: seq<Uint8>)
    ensures |r| == 6
    ensures r[0] == LevelSilent && r[5] == LevelVerbose
    ensures forall i :: 0 <= i < |r| ==> r[i] == i
  {
    [LevelSilent, LevelError, LevelWarning, LevelInfo, LevelTrace, LevelVerbose]
  }

  /** The levels are strictly ordered SILENT < ERROR < WARNING < INFO < TRACE < VERBOSE. */
  lemma {:induction false} LevelsStrictlyIncrease(i: int, j: int)
    requires 0 <= i < j < |AllLevels()|
    ensures AllLevels()[i] < AllLevels()[j]
  {
    var r := AllLevels();
    assert r[i] == i && r[j] == j;
  }

  predicate IsDefinedLevel(level: int) {
    LevelSilent <= level <= LevelVerbose
  }

  /** The names of SILENT..VERBOSE, indexed by level. */
  const LevelNames: seq<string> := ["SILENT", "ERROR", "WARNING", "INFO", "TRACE", "VERBOSE"]

  /** Name of a level as shown in a prefix; total, with a sentinel out of range. */
  function DebugLevelName(level: Uint8): (name: string)
    ensures LevelError <= level <= LevelVerbose ==> name != []
    ensures IsDefinedLevel(level) <==> name != UnknownLevelName
  {
    if level < |LevelNames| then LevelNames[level] else UnknownLevelName
  }

  /** Distinct defined levels have distinct names. */
  lemma DebugLevelNameInjective(a: Uint8, b: Uint8)
    requires IsDefinedLevel(a) && IsDefinedLevel(b) && a != b
    ensures DebugLevelName(a) != DebugLevelName(b)
  {
  }
}
