/**
 * The output table shared by every logger: a fixed-size array of LogOutput
 * records and the number of them in use, updated in place.
 */
module OutputRegistry {
  import opened Levels
  import opened OutputTable

  class Registry {
    /** The number of records the array can hold. */
    const capacity: nat
    /** `_outputs`: the records, of which the first `count` are in use. */
    const outputs: array<LogOutput>
    /** `_nOutputs`. */
    var count: nat

    ghost predicate Valid()
      reads this, outputs
    {
      outputs.Length == capacity && capacity < 256 && count <= capacity
      && NoDuplicates(outputs[..count])
    }

    /** The records in use, in registration order. */
    ghost function Table(): seq<LogOutput>
      reads this, outputs
      requires Valid()
    {
      outputs[..count]
    }

    /** An empty table with room for `capacity` outputs. */
    constructor (capacity: nat)
      requires capacity < 256
      ensures Valid() && this.capacity == capacity && Table() == []
      ensures fresh(outputs)
    {
      this.capacity := capacity;
      outputs := new LogOutput[capacity](_ => LogOutput(0, LevelSilent, false, false, false, false, false));
      count := 0;
    }

    /** getLogOutputFromStream: the index of the sink's record, if it has one. */
    method GetLogOutputFromStream(stream: SinkId) returns (r: Option<nat>)
      requires Valid()
      ensures r == Find(Table(), stream)
    {
      var i := 0;
      while i < count
        invariant 0 <= i <= count
        invariant forall j :: 0 <= j < i ==> outputs[j].stream != stream
      {
        if outputs[i].stream == stream {
          FindIs(Table(), stream, Some(i));
          return Some(i);
        }
        i := i + 1;
      }
      FindIs(Table(), stream, None);
      return None;
    }

    /**
     * add: re-initialise the sink's record if it has one; otherwise append
     * a new record while there is room, and ignore the call when full.
     */
    method Add(stream: SinkId, level: Uint8, prefixEnabled: bool := true,
               dateEnabled: bool := true, levelNameEnabled: bool := true)
      requires Valid()
      modifies this, outputs
      ensures Valid()
      ensures Table() == Added(old(Table()), capacity, stream, level,
                               prefixEnabled, dateEnabled, levelNameEnabled)
    {
      AddedProperties(Table(), capacity, stream, level, prefixEnabled, dateEnabled, levelNameEnabled);
      var r := GetLogOutputFromStream(stream);
      var o := InitLogOutput(stream, level, prefixEnabled, dateEnabled, levelNameEnabled);
      match r
      case Some(i) =>
        outputs[i] := o;
      case None =>
        if count < capacity {
          outputs[count] := o;
          count := count + 1;
        }
    }

    /** edit: re-initialise the sink's record if it has one, else do nothing. */
    method Edit(stream: SinkId, level: Uint8, prefixEnabled: bool := true,
                dateEnabled: bool := true, levelNameEnabled: bool := true)
      requires Valid()
      modifies outputs
      ensures Valid()
      ensures Table() == Edited(old(Table()), stream, level,
                                prefixEnabled, dateEnabled, levelNameEnabled)
    {
      EditedProperties(Table(), capacity, stream, level, prefixEnabled, dateEnabled, levelNameEnabled);
      var r := GetLogOutputFromStream(stream);
      match r
      case Some(i) =>
        outputs[i] := InitLogOutput(stream, level, prefixEnabled, dateEnabled, levelNameEnabled);
      case None =>
    }

    /** Set one switch of the sink's record, if it has one. */
    method SetFlag(stream: SinkId, f: Flag, b: bool)
      requires Valid()
      modifies outputs
      ensures Valid()
      ensures Table() == WithFlag(old(Table()), stream, f, b)
    {
      WithFlagProperties(Table(), stream, f, b);
      var r := GetLogOutputFromStream(stream);
      match r
      case Some(i) =>
        outputs[i] := WithFlagValue(outputs[i], f, b);
      case None =>
    }

    method Enable(stream: SinkId)
      requires Valid()
      modifies outputs
      ensures Valid() && Table() == WithFlag(old(Table()), stream, Enabled, true)
    {
      SetFlag(stream, Enabled, true);
    }

    method EnablePrefix(stream: SinkId)
      requires Valid()
      modifies outputs
      ensures Valid() && Table() == WithFlag(old(Table()), stream, PrefixEnabled, true)
    {
      SetFlag(stream, PrefixEnabled, true);
    }

    method EnableDate(stream: SinkId)
      requires Valid()
      modifies outputs
      ensures Valid() && Table() == WithFlag(old(Table()), stream, DateEnabled, true)
    {
      SetFlag(stream, DateEnabled, true);
    }

    method EnableLevelName(stream: SinkId)
      requires Valid()
      modifies outputs
      ensures Valid() && Table() == WithFlag(old(Table()), stream, LevelNameEnabled, true)
    {
      SetFlag(stream, LevelNameEnabled, true);
    }

    method Disable(stream: SinkId)
      requires Valid()
      modifies outputs
      ensures Valid() && Table() == WithFlag(old(Table()), stream, Enabled, false)
    {
      SetFlag(stream, Enabled, false);
    }

    method DisablePrefix(stream: SinkId)
      requires Valid()
      modifies outputs
      ensures Valid() && Table() == WithFlag(old(Table()), stream, PrefixEnabled, false)
    {
      SetFlag(stream, PrefixEnabled, false);
    }

    method DisableDate(stream: SinkId)
      requires Valid()
      modifies outputs
      ensures Valid() && Table() == WithFlag(old(Table()), stream, DateEnabled, false)
    {
      SetFlag(stream, DateEnabled, false);
    }

    method DisableLevelName(stream: SinkId)
      requires Valid()
      modifies outputs
      ensures Valid() && Table() == WithFlag(old(Table()), stream, LevelNameEnabled, false)
    {
      SetFlag(stream, LevelNameEnabled, false);
    }

    /** isEnabled: the sink has a record, it is switched on and lets `level` through. */
    method IsEnabled(stream: SinkId, level: int := LevelSilent) returns (b: bool)
      requires Valid()
      ensures b <==> exists i :: 0 <= i < count && outputs[i].stream == stream
                       && outputs[i].enabled && level <= outputs[i].level
    {
      EnabledAtIff(Table(), stream, level);
      var r := GetLogOutputFromStream(stream);
      match r {
        case Some(i) =>
          b := outputs[i].enabled && level <= outputs[i].level;
        case None =>
          b := false;
      }
      assert b == EnabledAt(Table(), stream, level);
    }

    /** setPrefixOnNextPrint: every record at the start of a line (b) or in the middle (!b). */
    method SetPrefixOnNextPrint(b: bool)
      requires Valid()
      modifies outputs
      ensures Valid()
      ensures Table() == WithPending(old(Table()), b)
    {
      WithPendingProperties(Table(), b);
      var i := 0;
      while i < count
        invariant 0 <= i <= count
        invariant forall j :: 0 <= j < i ==> outputs[j] == old(outputs[j]).(prefixOnNextPrint := b)
        invariant forall j :: i <= j < outputs.Length ==> outputs[j] == old(outputs[j])
      {
        outputs[i] := outputs[i].(prefixOnNextPrint := b);
        i := i + 1;
      }
      assert Table() == WithPending(old(Table()), b);
    }
  }
}
