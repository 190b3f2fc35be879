/**
 * The priority levels of the logger and their names.
 *
 * A level is an integer ordinal: the smaller, the more urgent. `Print` sits
 * one below the numeric range and is never filtered; `Crit` .. `Debug5` are
 * the eleven filterable levels, in increasing verbosity.
 */
module Levels {
  import opened Wrappers

  const Print: int := -1
  const Crit: int := 0
  const Err: int := 1
  const Warn: int := 2
  const Note: int := 3
  const Info: int := 4
  const Debug: int := 5
  const Debug1: int := 6
  const Debug2: int := 7
  const Debug3: int := 8
  const Debug4: int := 9
  const Debug5: int := 10

  /** The name of each filterable level, indexed by its ordinal. */
  const Names: seq<string> :=
    ["CRIT", "ERR", "WARN", "NOTE", "INFO", "DEBUG",
     "DEBUG1", "DEBUG2", "DEBUG3", "DEBUG4", "DEBUG5"]

  /** True of the levels a filter name denotes. */
  predicate IsNamed(level: int) {
    Crit <= level <= Debug5
  }

  lemma NamesDistinct()
    ensures |Names| == Debug5 + 1
    ensures forall i, j :: 0 <= i < j < |Names| ==> Names[i] != Names[j]
  {
  }

  /**
   * The name of a level, or None for an ordinal that has none (the
   * unknown label): never an out-of-bounds read.
   */
  function NameOf(level: int): (name: Option<string>)
    ensures name.Some? <==> IsNamed(level)
    ensures name.Some? ==> LevelNamed(name.value) == Some(level)
  {
    if IsNamed(level) then
      NamesDistinct();
      var r := Find(Names, Names[level], 0);
      assert r == Some(level);
      Some(Names[level])
    else
      None
  }

  /** The level a name denotes (exact, case-sensitive match), or None. */
  function LevelNamed(name: string): (level: Option<int>)
    ensures level.Some? ==> IsNamed(level.value) && Names[level.value] == name
    ensures level.None? <==> name !in Names
  {
    Find(Names, name, 0)
  }

  /** The first index at or after `from` at which `table` holds `name`. */
  function Find(table: seq<string>, name: string, from: nat): (r: Option<int>)
    requires from <= |table|
    ensures r.Some? ==> from <= r.value < |table| && table[r.value] == name
    ensures r.Some? ==> name !in table[from..r.value]
    ensures r.None? <==> name !in table[from..]
    decreases |table| - from
  {
    if from == |table| then None
    else if table[from] == name then Some(from)
    else
      var r := Find(table, name, from + 1);
      assert table[from..] == [table[from]] + table[from + 1..];
      if r.Some? then
        assert table[from..r.value] == [table[from]] + table[from + 1..r.value];
        r
      else r
  }
}
