/**
 * Loggers: each has the level it writes at, and all of them write through
 * the one shared output registry to the same sinks.
 */
module Logging {
  import opened Levels
  import opened OutputTable
  import opened WritePath
  import opened OutputRegistry

  /** The sinks, each with everything printed to it so far. */
  class Sinks {
    var out: map<SinkId, string>

    constructor ()
      ensures out == map[]
    {
      out := map[];
    }

    /** A sink's print: appends `text` to sink `id`. */
    method Print(id: SinkId, text: string)
      modifies this
      ensures out == Emit(old(out), id, text)
    {
      out := Emit(out, id, text);
    }
  }

  class Logger {
    /** `_levelToOutput`: the level every write of this logger is made at. */
    const levelToOutput: Uint8
    /** `_outputs` and `_nOutputs`, shared by every logger. */
    const registry: Registry
    const sinks: Sinks

    ghost predicate Valid()
      reads this, registry, registry.outputs
    {
      registry.Valid()
    }

    /** The shared table and what every sink has received. */
    ghost function State(): World
      reads this, registry, registry.outputs, sinks
      requires Valid()
    {
      World(registry.Table(), sinks.out)
    }

    /** Logger(levelToOutput). */
    constructor (levelToOutput: Uint8, registry: Registry, sinks: Sinks)
      requires registry.Valid()
      ensures Valid()
      ensures this.levelToOutput == levelToOutput
      ensures this.registry == registry && this.sinks == sinks
    {
      this.levelToOutput := levelToOutput;
      this.registry := registry;
      this.sinks := sinks;
    }

    /** Logger(): a logger at SILENT, which every enabled output lets through. */
    constructor Default(registry: Registry, sinks: Sinks)
      requires registry.Valid()
      ensures Valid()
      ensures levelToOutput == LevelSilent
      ensures this.registry == registry && this.sinks == sinks
    {
      levelToOutput := LevelSilent;
      this.registry := registry;
      this.sinks := sinks;
    }

    /** printPrefix: prints the prefix of output `index` to its sink, piece by piece. */
    method PrintPrefix(index: nat, now: string)
      requires Valid() && index < registry.count
      modifies sinks
      ensures sinks.out == Emit(old(sinks.out), registry.outputs[index].stream,
                                PrefixText(registry.outputs[index], levelToOutput, now))
    {
      var o := registry.outputs[index];
      if o.prefixEnabled {
        var date := if o.dateEnabled then now else "";
        var sep := if o.dateEnabled && o.levelNameEnabled then " " else "";
        var name := if o.levelNameEnabled then DebugLevelName(levelToOutput) else "";
        ghost var m0 := sinks.out;
        sinks.Print(o.stream, "[");
        sinks.Print(o.stream, date);
        EmitTwice(m0, o.stream, "[", date);
        sinks.Print(o.stream, sep);
        EmitTwice(m0, o.stream, "[" + date, sep);
        sinks.Print(o.stream, name);
        EmitTwice(m0, o.stream, "[" + date + sep, name);
        sinks.Print(o.stream, "] ");
        EmitTwice(m0, o.stream, "[" + date + sep + name, "] ");
      }
    }

    /**
     * One step of the loop shared by putch and putstr: if the write reaches
     * output `i`, it prints the pending prefix, leaves the start of the line
     * and prints `text`.
     */
    method WriteTo(i: nat, text: string, now: string)
      requires Valid() && i < registry.count
      modifies registry.outputs, sinks
      ensures registry.outputs[i] == Advance(old(registry.outputs[i]), levelToOutput)
      ensures forall j :: 0 <= j < registry.outputs.Length && j != i ==>
                registry.outputs[j] == old(registry.outputs[j])
      ensures sinks.out == Emit(old(sinks.out), old(registry.outputs[i]).stream,
                                Emitted(old(registry.outputs[i]), levelToOutput, now, text))
    {
      var o := registry.outputs[i];
      ghost var before := sinks.out;
      if o.enabled && levelToOutput <= o.level {
        if o.prefixOnNextPrint {
          PrintPrefix(i, now);
          registry.outputs[i] := o.(prefixOnNextPrint := false);
        }
        sinks.Print(o.stream, text);
        EmitTwice(before, o.stream, PendingPrefix(o, levelToOutput, now), text);
      }
    }

    /**
     * The loop shared by putch and putstr: every output the write reaches
     * first prints its pending prefix and leaves the start of the line,
     * then prints `text`.
     */
    method Write(text: string, now: string)
      requires Valid()
      modifies registry.outputs, sinks
      ensures Valid()
      ensures registry.Table() == Advanced(old(registry.Table()), levelToOutput)
      ensures forall id ::
        Out(sinks.out, id) == Out(old(sinks.out), id) + Received(old(registry.Table()), id, levelToOutput, now, text)
    {
      ghost var t0 := registry.Table();
      ghost var m0 := sinks.out;
      var i := 0;
      while i < registry.count
        invariant 0 <= i <= registry.count == |t0|
        invariant registry.outputs.Length == registry.capacity
        invariant forall j :: 0 <= j < registry.count ==>
                    registry.outputs[j] == if j < i then Advance(t0[j], levelToOutput) else t0[j]
        invariant forall id :: Out(sinks.out, id) == Out(m0, id) + Received(t0[..i], id, levelToOutput, now, text)
      {
        ghost var before := sinks.out;
        WriteTo(i, text, now);
        EmitNextAll(m0, before, t0, i, levelToOutput, now, text);
        i := i + 1;
      }
      assert t0[..i] == t0;
      assert registry.Table() == Advanced(t0, levelToOutput);
      NoDuplicatesSameStreams(t0, registry.Table());
    }

    /** putch: writes one character through this logger. */
    method Putch(c: char, now: string)
      requires Valid()
      modifies registry.outputs, sinks
      ensures Valid() && Same(State(), Apply(old(State()), Put(levelToOutput, [c], now)))
    {
      ghost var w0 := State();
      Write([c], now);
      forall id
        ensures Out(sinks.out, id) == Out(Apply(w0, Put(levelToOutput, [c], now)).sinks, id)
      {
        Delivered(w0.table, w0.sinks, levelToOutput, now, [c], id);
      }
    }

    /** putstr: writes a string through this logger. */
    method Putstr(s: string, now: string)
      requires Valid()
      modifies registry.outputs, sinks
      ensures Valid() && Same(State(), Apply(old(State()), Put(levelToOutput, s, now)))
    {
      ghost var w0 := State();
      Write(s, now);
      forall id
        ensures Out(sinks.out, id) == Out(Apply(w0, Put(levelToOutput, s, now)).sinks, id)
      {
        Delivered(w0.table, w0.sinks, levelToOutput, now, s, id);
      }
    }

    /** endl: put('\n'), then every output is at the start of a line. */
    method Endl(now: string)
      requires Valid()
      modifies registry.outputs, sinks
      ensures Valid() && Same(State(), Apply(old(State()), Request.Endl(levelToOutput, now)))
    {
      Putch('\n', now);
      registry.SetPrefixOnNextPrint(true);
    }

    /** dendl: put('\n') twice, then every output is at the start of a line. */
    method Dendl(now: string)
      requires Valid()
      modifies registry.outputs, sinks
      ensures Valid() && Same(State(), Apply(old(State()), Request.Dendl(levelToOutput, now)))
    {
      ghost var w0 := State();
      ghost var put := Put(levelToOutput, "\n", now);
      Putch('\n', now);
      ApplyRespectsSame(State(), Apply(w0, put), put);
      Putch('\n', now);
      registry.SetPrefixOnNextPrint(true);
    }

    /** np: no prefix on the current line; nothing is printed. */
    method Np()
      requires Valid()
      modifies registry.outputs
      ensures Valid() && Same(State(), Apply(old(State()), Request.Np))
    {
      registry.SetPrefixOnNextPrint(false);
    }
  }
}
