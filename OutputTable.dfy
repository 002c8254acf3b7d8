/**
 * The output table shared by every logger, as a value: a sequence of
 * LogOutput records in registration order, and the operations that the
 * registry performs on it.
 */
module OutputTable {
  import opened Levels

  datatype Option<T> = None | Some(value: T)

  /** A sink (a `Print` object) is known only by its identity. */
  type SinkId = nat

  /** One registered output. */
  datatype LogOutput = LogOutput(
    stream: SinkId,
    level: Uint8,
    prefixOnNextPrint: bool,
    prefixEnabled: bool,
    dateEnabled: bool,
    levelNameEnabled: bool,
    enabled: bool)

  /** The four switches an enable/disable call flips. */
  datatype Flag = Enabled | PrefixEnabled | DateEnabled | LevelNameEnabled

  function FlagOf(o: LogOutput, f: Flag): bool {
    match f
    case Enabled => o.enabled
    case PrefixEnabled => o.prefixEnabled
    case DateEnabled => o.dateEnabled
    case LevelNameEnabled => o.levelNameEnabled
  }

  function WithFlagValue(o: LogOutput, f: Flag, b: bool): LogOutput {
    match f
    case Enabled => o.(enabled := b)
    case PrefixEnabled => o.(prefixEnabled := b)
    case DateEnabled => o.(dateEnabled := b)
    case LevelNameEnabled => o.(levelNameEnabled := b)
  }

  /** No sink appears twice in the table. */
  ghost predicate NoDuplicates(t: seq<LogOutput>) {
    forall i, j :: 0 <= i < j < |t| ==> t[i].stream != t[j].stream
  }

  /** Two tables list the same sinks in the same order. */
  ghost predicate SameStreams(t: seq<LogOutput>, u: seq<LogOutput>) {
    |t| == |u| && forall i :: 0 <= i < |t| ==> t[i].stream == u[i].stream
  }

  /** Rewriting records in place without touching their sinks keeps them distinct. */
  lemma NoDuplicatesSameStreams(t: seq<LogOutput>, u: seq<LogOutput>)
    requires NoDuplicates(t) && SameStreams(t, u)
    ensures NoDuplicates(u)
  {
  }

  /** getLogOutputFromStream: the index of the first record of `stream`. */
  function Find(t: seq<LogOutput>, stream: SinkId): (r: Option<nat>)
    ensures r.Some? ==> r.value < |t| && t[r.value].stream == stream
    ensures r.Some? ==> forall j :: 0 <= j < r.value ==> t[j].stream != stream
    ensures r.None? ==> forall j :: 0 <= j < |t| ==> t[j].stream != stream
  {
    if t == [] then None
    else if t[0].stream == stream then Some(0)
    else match Find(t[1..], stream)
      case None => None
      case Some(k) => Some(k + 1)
  }

  /** The record of a sink, if it is registered. */
  function Lookup(t: seq<LogOutput>, stream: SinkId): Option<LogOutput> {
    match Find(t, stream)
    case None => None
    case Some(i) => Some(t[i])
  }

  predicate Registered(t: seq<LogOutput>, stream: SinkId) {
    Find(t, stream).Some?
  }

  /** Find is determined by its contract. */
  lemma FindIs(t: seq<LogOutput>, stream: SinkId, r: Option<nat>)
    requires r.Some? ==> r.value < |t| && t[r.value].stream == stream
    requires r.Some? ==> forall j :: 0 <= j < r.value ==> t[j].stream != stream
    requires r.None? ==> forall j :: 0 <= j < |t| ==> t[j].stream != stream
    ensures Find(t, stream) == r
  {
  }

  /** Lookup by sink only depends on where the sinks are. */
  lemma FindSameStreams(t: seq<LogOutput>, u: seq<LogOutput>, stream: SinkId)
    requires SameStreams(t, u)
    ensures Find(t, stream) == Find(u, stream)
  {
    FindIs(u, stream, Find(t, stream));
  }

  /** Lookup in a table extended by one record. */
  lemma FindSnoc(t: seq<LogOutput>, o: LogOutput, stream: SinkId)
    ensures Find(t + [o], stream) ==
      if Registered(t, stream) then Find(t, stream)
      else if o.stream == stream then Some(|t|)
      else None
  {
    var u := t + [o];
    assert forall j :: 0 <= j < |t| ==> u[j] == t[j];
    FindIs(u, stream,
      if Registered(t, stream) then Find(t, stream)
      else if o.stream == stream then Some(|t|)
      else None);
  }

  /** In a table without duplicates, a record is found at its own index. */
  lemma FindAt(t: seq<LogOutput>, i: nat)
    requires NoDuplicates(t) && i < |t|
    ensures Find(t, t[i].stream) == Some(i)
  {
    FindIs(t, t[i].stream, Some(i));
  }

  /** initLogOutput: a configured record, switched on and at the start of a line. */
  function InitLogOutput(stream: SinkId, level: Uint8,
                         prefixEnabled: bool, dateEnabled: bool, levelNameEnabled: bool): (o: LogOutput)
    ensures o.stream == stream && o.level == level
    ensures o.prefixEnabled == prefixEnabled && o.dateEnabled == dateEnabled
    ensures o.levelNameEnabled == levelNameEnabled
    ensures o.enabled && o.prefixOnNextPrint
  {
    LogOutput(stream, level, true, prefixEnabled, dateEnabled, levelNameEnabled, true)
  }

  /** add: overwrite the record of a registered sink, else append while there is room. */
  function Added(t: seq<LogOutput>, capacity: nat, stream: SinkId, level: Uint8,
                 prefixEnabled: bool := true, dateEnabled: bool := true,
                 levelNameEnabled: bool := true): seq<LogOutput>
  {
    var o := InitLogOutput(stream, level, prefixEnabled, dateEnabled, levelNameEnabled);
    match Find(t, stream)
    case Some(i) => t[i := o]
    case None => if |t| < capacity then t + [o] else t
  }

  /** edit: overwrite the record of a registered sink, else nothing. */
  function Edited(t: seq<LogOutput>, stream: SinkId, level: Uint8,
                  prefixEnabled: bool := true, dateEnabled: bool := true,
                  levelNameEnabled: bool := true): seq<LogOutput>
  {
    match Find(t, stream)
    case Some(i) => t[i := InitLogOutput(stream, level, prefixEnabled, dateEnabled, levelNameEnabled)]
    case None => t
  }

  /** enable/disable calls: set one switch of a registered sink, else nothing. */
  function WithFlag(t: seq<LogOutput>, stream: SinkId, f: Flag, b: bool): seq<LogOutput> {
    match Find(t, stream)
    case Some(i) => t[i := WithFlagValue(t[i], f, b)]
    case None => t
  }

  /** setPrefixOnNextPrint: the same pending flag on every record. */
  function WithPending(t: seq<LogOutput>, b: bool): (u: seq<LogOutput>)
    ensures SameStreams(t, u)
  {
    seq(|t|, i requires 0 <= i < |t| => t[i].(prefixOnNextPrint := b))
  }

  /** isEnabled: the sink is registered, switched on, and lets `level` through. */
  function EnabledAt(t: seq<LogOutput>, stream: SinkId, level: int): bool {
    match Find(t, stream)
    case None => false
    case Some(i) => t[i].enabled && level <= t[i].level
  }

  /** A record that differs from `o` only in switch `f`, which is now `b`. */
  predicate ChangedOnly(o: LogOutput, o': LogOutput, f: Flag, b: bool) {
    && FlagOf(o', f) == b
    && o'.stream == o.stream && o'.level == o.level
    && o'.prefixOnNextPrint == o.prefixOnNextPrint
    && forall g: Flag :: g != f ==> FlagOf(o', g) == FlagOf(o, g)
  }

  // ---------------------------------------------------------------------
  // Properties of the registry operations

  /**
   * add keeps the table free of duplicates and within capacity. A registered
   * sink is updated in place and the table does not grow; a new sink is
   * appended when there is room; a full table is left alone. No other sink's
   * record changes.
   */
  lemma AddedProperties(t: seq<LogOutput>, capacity: nat, stream: SinkId, level: Uint8,
                        prefixEnabled: bool, dateEnabled: bool, levelNameEnabled: bool)
    requires NoDuplicates(t) && |t| <= capacity
    ensures var u := Added(t, capacity, stream, level, prefixEnabled, dateEnabled, levelNameEnabled);
      && NoDuplicates(u)
      && |u| <= capacity
      && |u| == (if Registered(t, stream) || |t| == capacity then |t| else |t| + 1)
      && (Registered(t, stream) ==> SameStreams(t, u))
      && (!Registered(t, stream) && |t| < capacity ==> u[..|t|] == t)
      && (!Registered(t, stream) && |t| == capacity ==> u == t)
      && (Registered(t, stream) || |t| < capacity ==>
            Lookup(u, stream) == Some(InitLogOutput(stream, level, prefixEnabled, dateEnabled, levelNameEnabled)))
      && (forall s :: s != stream ==> Lookup(u, s) == Lookup(t, s))
  {
    var o := InitLogOutput(stream, level, prefixEnabled, dateEnabled, levelNameEnabled);
    var u := Added(t, capacity, stream, level, prefixEnabled, dateEnabled, levelNameEnabled);
    match Find(t, stream)
    case Some(i) =>
      assert u == t[i := o];
      assert SameStreams(t, u);
      FindSameStreams(t, u, stream);
      forall s | s != stream
        ensures Lookup(u, s) == Lookup(t, s)
      {
        FindSameStreams(t, u, s);
      }
    case None =>
      if |t| < capacity {
        assert u == t + [o];
        assert u[..|t|] == t;
        FindSnoc(t, o, stream);
        forall s | s != stream
          ensures Lookup(u, s) == Lookup(t, s)
        {
          FindSnoc(t, o, s);
          assert forall j :: 0 <= j < |t| ==> u[j] == t[j];
        }
      }
  }

  /** add with the flags left out shows prefix, date and level name. */
  lemma AddedDefaults(t: seq<LogOutput>, capacity: nat, stream: SinkId, level: Uint8)
    requires NoDuplicates(t) && |t| <= capacity && (Registered(t, stream) || |t| < capacity)
    ensures var o := Lookup(Added(t, capacity, stream, level), stream);
      o.Some? && o.value.prefixEnabled && o.value.dateEnabled && o.value.levelNameEnabled
  {
    AddedProperties(t, capacity, stream, level, true, true, true);
  }

  /** Registering the same configuration twice is the same as once. */
  lemma AddedIdempotent(t: seq<LogOutput>, capacity: nat, stream: SinkId, level: Uint8,
                        prefixEnabled: bool, dateEnabled: bool, levelNameEnabled: bool)
    requires NoDuplicates(t) && |t| <= capacity
    ensures var u := Added(t, capacity, stream, level, prefixEnabled, dateEnabled, levelNameEnabled);
      Added(u, capacity, stream, level, prefixEnabled, dateEnabled, levelNameEnabled) == u
  {
    var o := InitLogOutput(stream, level, prefixEnabled, dateEnabled, levelNameEnabled);
    var u := Added(t, capacity, stream, level, prefixEnabled, dateEnabled, levelNameEnabled);
    AddedProperties(t, capacity, stream, level, prefixEnabled, dateEnabled, levelNameEnabled);
    match Find(u, stream)
    case Some(i) =>
      assert u[i] == o;
      assert u[i := o] == u;
    case None =>
  }

  /**
   * Scenario: a sink just added at threshold `level` lets a write through
   * exactly when the write's level is at most `level`.
   */
  lemma AddedThenEnabledAt(t: seq<LogOutput>, capacity: nat, stream: SinkId, level: Uint8,
                           writeLevel: int)
    requires NoDuplicates(t) && |t| <= capacity && (Registered(t, stream) || |t| < capacity)
    ensures EnabledAt(Added(t, capacity, stream, level), stream, writeLevel) <==> writeLevel <= level
  {
    AddedProperties(t, capacity, stream, level, true, true, true);
  }

  /**
   * edit rewrites a registered sink exactly as add would and never creates
   * a record; on an unknown sink it changes nothing.
   */
  lemma EditedProperties(t: seq<LogOutput>, capacity: nat, stream: SinkId, level: Uint8,
                         prefixEnabled: bool, dateEnabled: bool, levelNameEnabled: bool)
    requires NoDuplicates(t) && |t| <= capacity
    ensures var u := Edited(t, stream, level, prefixEnabled, dateEnabled, levelNameEnabled);
      && NoDuplicates(u)
      && SameStreams(t, u)
      && (!Registered(t, stream) ==> u == t)
      && (Registered(t, stream) ==>
            u == Added(t, capacity, stream, level, prefixEnabled, dateEnabled, levelNameEnabled))
  {
    match Find(t, stream)
    case Some(i) =>
      assert SameStreams(t, Edited(t, stream, level, prefixEnabled, dateEnabled, levelNameEnabled));
    case None =>
  }

  /**
   * Each enable/disable call changes one switch of the matching record;
   * every other field and every other record stays as it was, and an
   * unknown sink is a no-op.
   */
  lemma WithFlagProperties(t: seq<LogOutput>, stream: SinkId, f: Flag, b: bool)
    requires NoDuplicates(t)
    ensures var u := WithFlag(t, stream, f, b);
      && NoDuplicates(u)
      && SameStreams(t, u)
      && (!Registered(t, stream) ==> u == t)
      && (Registered(t, stream) ==>
            Lookup(u, stream).Some? &&
            ChangedOnly(Lookup(t, stream).value, Lookup(u, stream).value, f, b))
      && (forall s :: s != stream ==> Lookup(u, s) == Lookup(t, s))
  {
    var u := WithFlag(t, stream, f, b);
    match Find(t, stream)
    case Some(i) =>
      assert SameStreams(t, u);
      FindSameStreams(t, u, stream);
      forall s | s != stream
        ensures Lookup(u, s) == Lookup(t, s)
      {
        FindSameStreams(t, u, s);
      }
    case None =>
  }

  /** Flipping a switch and flipping it back restores the table. */
  lemma WithFlagRestores(t: seq<LogOutput>, stream: SinkId, f: Flag, b: bool)
    requires NoDuplicates(t) && Registered(t, stream)
    ensures var before := FlagOf(Lookup(t, stream).value, f);
      WithFlag(WithFlag(t, stream, f, b), stream, f, before) == t
  {
    var i := Find(t, stream).value;
    var u := WithFlag(t, stream, f, b);
    assert SameStreams(t, u);
    FindSameStreams(t, u, stream);
    assert WithFlagValue(u[i], f, FlagOf(t[i], f)) == t[i];
    assert u[i := t[i]] == t;
  }

  /** A disabled sink accepts no level at all. */
  lemma DisabledIsNeverEnabled(t: seq<LogOutput>, stream: SinkId, level: int)
    requires NoDuplicates(t)
    ensures !EnabledAt(WithFlag(t, stream, Enabled, false), stream, level)
  {
    WithFlagProperties(t, stream, Enabled, false);
  }

  /** isEnabled holds iff some record of the sink is on and its threshold admits `level`. */
  lemma EnabledAtIff(t: seq<LogOutput>, stream: SinkId, level: int)
    requires NoDuplicates(t)
    ensures EnabledAt(t, stream, level) <==>
      exists i :: 0 <= i < |t| && t[i].stream == stream && t[i].enabled && level <= t[i].level
  {
    if exists i :: 0 <= i < |t| && t[i].stream == stream && t[i].enabled && level <= t[i].level {
      var i :| 0 <= i < |t| && t[i].stream == stream && t[i].enabled && level <= t[i].level;
      FindAt(t, i);
    }
  }

  /** isEnabled at its default level (SILENT) holds for every registered, enabled sink. */
  lemma EnabledAtSilent(t: seq<LogOutput>, stream: SinkId)
    requires Registered(t, stream) && Lookup(t, stream).value.enabled
    ensures EnabledAt(t, stream, LevelSilent)
  {
  }

  /** The pending flag is the only thing setPrefixOnNextPrint changes. */
  lemma WithPendingProperties(t: seq<LogOutput>, b: bool)
    requires NoDuplicates(t)
    ensures var u := WithPending(t, b);
      && NoDuplicates(u)
      && (forall i :: 0 <= i < |u| ==> u[i].prefixOnNextPrint == b)
      && (forall i :: 0 <= i < |u| ==> u[i].(prefixOnNextPrint := t[i].prefixOnNextPrint) == t[i])
  {
  }
}
