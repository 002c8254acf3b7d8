/**
 * The write path as a function of the output table and of what every sink
 * has received so far: payload writes (putch/putstr), the prefix they print
 * on the first write of a line, and the line markers endl, dendl and np.
 *
 * Requests are replayed on a World (the whole table and every sink) and,
 * one output at a time, on a View (one record and what its sink received).
 * RunProjects says that the two agree, so the line discipline is proved once
 * on views.
 */
module WritePath {
  import opened Levels
  import opened OutputTable

  /** Concatenation is associative (stated apart so that the texts are not unfolded). */
  lemma ConcatAssoc(a: string, b: string, c: string)
    ensures a + b + c == a + (b + c)
  {
  }

  /** Everything a sink has received; a sink nobody wrote to has received nothing. */
  function Out(sinks: map<SinkId, string>, id: SinkId): string {
    if id in sinks then sinks[id] else []
  }

  /** A sink's `print`: appends `text` to sink `id`. */
  function Emit(sinks: map<SinkId, string>, id: SinkId, text: string): (m: map<SinkId, string>)
    ensures Out(m, id) == Out(sinks, id) + text
  {
    if text == [] then sinks else sinks[id := Out(sinks, id) + text]
  }

  /** A print to one sink leaves every other sink alone. */
  lemma EmitOther(sinks: map<SinkId, string>, id: SinkId, text: string, other: SinkId)
    requires other != id
    ensures Out(Emit(sinks, id, text), other) == Out(sinks, other)
  {
  }

  /** Two prints to the same sink are one print of both texts. */
  lemma EmitTwice(sinks: map<SinkId, string>, id: SinkId, a: string, b: string)
    ensures Emit(Emit(sinks, id, a), id, b) == Emit(sinks, id, a + b)
  {
    if a == [] {
      assert a + b == b;
    } else if b == [] {
      assert a + b == a;
    } else {
      var m1 := sinks[id := Out(sinks, id) + a];
      assert Out(m1, id) + b == Out(sinks, id) + (a + b);
      assert m1[id := Out(m1, id) + b] == sinks[id := Out(sinks, id) + (a + b)];
    }
  }

  // ---------------------------------------------------------------------
  // The prefix

  /**
   * printPrefix: nothing when the prefix is off; otherwise '[', the clock
   * text when the date is on, a space when both date and level name are on,
   * the level name of the writing logger when it is on, then "] ".
   */
  function PrefixText(o: LogOutput, levelToOutput: Uint8, now: string): string {
    if !o.prefixEnabled then []
    else
      "[" + (if o.dateEnabled then now else [])
          + (if o.dateEnabled && o.levelNameEnabled then " " else [])
          + (if o.levelNameEnabled then DebugLevelName(levelToOutput) else [])
          + "] "
  }

  /**
   * The prefix is empty exactly when it is switched off; otherwise it is
   * bracketed, starts with the clock text when the date is on and ends with
   * the level name when that is on.
   */
  lemma PrefixTextShape(o: LogOutput, levelToOutput: Uint8, now: string)
    ensures var r := PrefixText(o, levelToOutput, now);
      && (o.prefixEnabled <==> r != [])
      && (o.prefixEnabled ==> |r| >= 3 && r[0] == '[' && r[|r| - 2..] == "] ")
      && (o.prefixEnabled && o.dateEnabled ==> |r| >= 3 + |now| && r[1..1 + |now|] == now)
      && (o.prefixEnabled && o.levelNameEnabled ==>
            var name := DebugLevelName(levelToOutput);
            |r| >= 3 + |name| && r[|r| - 2 - |name|..|r| - 2] == name)
      && (o.prefixEnabled && !o.dateEnabled && !o.levelNameEnabled ==> r == "[] ")
  {
    if o.prefixEnabled {
      var r := PrefixText(o, levelToOutput, now);
      var date := if o.dateEnabled then now else [];
      var sep := if o.dateEnabled && o.levelNameEnabled then " " else [];
      var name := if o.levelNameEnabled then DebugLevelName(levelToOutput) else [];
      assert r == "[" + date + sep + name + "] ";
      assert r[1..1 + |date|] == date;
      assert r[|r| - 2 - |name|..|r| - 2] == name;
    }
  }

  /**
   * Two outputs configured alike except for the level name: the prefixes
   * agree up to the closing bracket, where the one with the name carries the
   * (space-separated, when the date is shown) level name.
   */
  lemma PrefixLevelNameSegment(o: LogOutput, levelToOutput: Uint8, now: string)
    requires o.prefixEnabled
    ensures var without := PrefixText(o.(levelNameEnabled := false), levelToOutput, now);
      var with := PrefixText(o.(levelNameEnabled := true), levelToOutput, now);
      with == without[..|without| - 2]
              + (if o.dateEnabled then " " else []) + DebugLevelName(levelToOutput) + "] "
  {
    var without := PrefixText(o.(levelNameEnabled := false), levelToOutput, now);
    var date := if o.dateEnabled then now else [];
    assert without == "[" + date + "] ";
    assert without[..|without| - 2] == "[" + date;
  }

  /** The prefix text does not depend on whether it is pending. */
  lemma PrefixTextIgnoresPending(o: LogOutput, b: bool, levelToOutput: Uint8, now: string)
    ensures PrefixText(o.(prefixOnNextPrint := b), levelToOutput, now) == PrefixText(o, levelToOutput, now)
  {
  }

  // ---------------------------------------------------------------------
  // One output

  /** A write from a logger at `levelToOutput` reaches the output. */
  predicate Eligible(o: LogOutput, levelToOutput: Uint8) {
    o.enabled && levelToOutput <= o.level
  }

  /** The prefix a write prints first when the output is at the start of a line. */
  function PendingPrefix(o: LogOutput, levelToOutput: Uint8, now: string): string {
    if o.prefixOnNextPrint then PrefixText(o, levelToOutput, now) else []
  }

  /** The record after a write: a reached output is no longer at the start of a line. */
  function Advance(o: LogOutput, levelToOutput: Uint8): LogOutput {
    if Eligible(o, levelToOutput) then o.(prefixOnNextPrint := false) else o
  }

  /** The text one output receives from a payload write. */
  function Emitted(o: LogOutput, levelToOutput: Uint8, now: string, text: string): string {
    if Eligible(o, levelToOutput) then PendingPrefix(o, levelToOutput, now) + text else []
  }

  // ---------------------------------------------------------------------
  // The whole table

  /** The registry's table and the text each sink has received. */
  datatype World = World(table: seq<LogOutput>, sinks: map<SinkId, string>)

  /** The sinks of the table. */
  function StreamsOf(t: seq<LogOutput>): set<SinkId> {
    set i | 0 <= i < |t| :: t[i].stream
  }

  /** What sink `id` receives from one payload write over table `t`. */
  function Received(t: seq<LogOutput>, id: SinkId, levelToOutput: Uint8, now: string, text: string): string {
    match Find(t, id)
    case None => []
    case Some(i) => Emitted(t[i], levelToOutput, now, text)
  }

  /** Appending a record adds what that record emits, when its sink is new. */
  lemma ReceivedSnoc(t: seq<LogOutput>, o: LogOutput, id: SinkId,
                     levelToOutput: Uint8, now: string, text: string)
    requires NoDuplicates(t + [o])
    ensures Received(t + [o], id, levelToOutput, now, text) ==
      Received(t, id, levelToOutput, now, text) + (if o.stream == id then Emitted(o, levelToOutput, now, text) else [])
  {
    var u := t + [o];
    var r := Received(t, id, levelToOutput, now, text);
    FindSnoc(t, o, id);
    if o.stream == id {
      forall j | 0 <= j < |t|
        ensures t[j].stream != id
      {
        assert u[j] == t[j] && u[|t|] == o;
      }
      assert Find(t, id).None?;
      assert r == [];
      var e := Emitted(o, levelToOutput, now, text);
      assert u[|t|] == o;
      assert Received(u, id, levelToOutput, now, text) == e;
      assert [] + e == e;
    } else {
      match Find(t, id)
      case None =>
      case Some(i) => assert u[i] == t[i];
      assert Received(u, id, levelToOutput, now, text) == r;
      assert r + [] == r;
    }
  }

  /**
   * One more record of the loop over the table: printing what it emits to
   * its sink extends what sink `id` has received as Received says.
   */
  lemma EmitNext(m0: map<SinkId, string>, before: map<SinkId, string>, t: seq<LogOutput>, o: LogOutput,
                 levelToOutput: Uint8, now: string, text: string, id: SinkId)
    requires NoDuplicates(t + [o])
    requires Out(before, id) == Out(m0, id) + Received(t, id, levelToOutput, now, text)
    ensures Out(Emit(before, o.stream, Emitted(o, levelToOutput, now, text)), id) == Out(m0, id) + Received(t + [o], id, levelToOutput, now, text)
  {
    var e := Emitted(o, levelToOutput, now, text);
    var r := Received(t, id, levelToOutput, now, text);
    ReceivedSnoc(t, o, id, levelToOutput, now, text);
    if id != o.stream {
      EmitOther(before, o.stream, e, id);
      assert r + [] == r;
    } else {
      ConcatAssoc(Out(m0, id), r, e);
    }
  }

  /**
   * The loop of putch/putstr after records 0..i-1 of `t`: printing what
   * record i emits keeps the account of what every sink has received.
   */
  lemma EmitNextAll(m0: map<SinkId, string>, before: map<SinkId, string>, t: seq<LogOutput>, i: nat,
                    levelToOutput: Uint8, now: string, text: string)
    requires NoDuplicates(t) && i < |t|
    requires forall id :: Out(before, id) == Out(m0, id) + Received(t[..i], id, levelToOutput, now, text)
    ensures forall id :: Out(Emit(before, t[i].stream, Emitted(t[i], levelToOutput, now, text)), id) ==
                         Out(m0, id) + Received(t[..i + 1], id, levelToOutput, now, text)
  {
    assert t[..i + 1] == t[..i] + [t[i]];
    forall id
      ensures Out(Emit(before, t[i].stream, Emitted(t[i], levelToOutput, now, text)), id) ==
              Out(m0, id) + Received(t[..i + 1], id, levelToOutput, now, text)
    {
      EmitNext(m0, before, t[..i], t[i], levelToOutput, now, text, id);
    }
  }

  /** The table after a payload write: every reached record is advanced in place. */
  function Advanced(t: seq<LogOutput>, levelToOutput: Uint8): (u: seq<LogOutput>)
    ensures SameStreams(t, u)
  {
    seq(|t|, i requires 0 <= i < |t| => Advance(t[i], levelToOutput))
  }

  /** The sinks after the loop of putch/putstr over the table. */
  function Deliver(t: seq<LogOutput>, sinks: map<SinkId, string>, levelToOutput: Uint8,
                   now: string, text: string): map<SinkId, string>
  {
    map id | id in sinks.Keys + StreamsOf(t) :: Out(sinks, id) + Received(t, id, levelToOutput, now, text)
  }

  /** Each sink receives exactly what its own record emits; others receive nothing. */
  lemma Delivered(t: seq<LogOutput>, sinks: map<SinkId, string>, levelToOutput: Uint8,
                  now: string, text: string, id: SinkId)
    ensures Out(Deliver(t, sinks, levelToOutput, now, text), id) ==
      Out(sinks, id) + Received(t, id, levelToOutput, now, text)
  {
    if id !in sinks.Keys + StreamsOf(t) {
      assert Find(t, id).None?;
    }
  }

  /** Every record at the start of a line (b) or in the middle of one (!b). */
  function Rearmed(w: World, b: bool): World {
    World(WithPending(w.table, b), w.sinks)
  }

  /** putch / putstr of a logger at `levelToOutput`. */
  function AfterWrite(w: World, levelToOutput: Uint8, now: string, text: string): World {
    World(Advanced(w.table, levelToOutput), Deliver(w.table, w.sinks, levelToOutput, now, text))
  }

  /**
   * One request made through a logger: a payload write (putch/putstr), endl
   * (put('\n'), then every output at the start of a line), dendl (put('\n')
   * twice, then the same) or np (every output in the middle of a line).
   * Each carries the level of the logger and the clock text at that moment.
   */
  datatype Request =
    | Put(level: Uint8, text: string, now: string)
    | Endl(level: Uint8, now: string)
    | Dendl(level: Uint8, now: string)
    | Np

  function Apply(w: World, r: Request): World {
    match r
    case Put(level, text, now) => AfterWrite(w, level, now, text)
    case Endl(level, now) => Rearmed(AfterWrite(w, level, now, "\n"), true)
    case Dendl(level, now) =>
      Rearmed(AfterWrite(AfterWrite(w, level, now, "\n"), level, now, "\n"), true)
    case Np => Rearmed(w, false)
  }

  function Run(w: World, rs: seq<Request>): World
    decreases |rs|
  {
    if rs == [] then w else Run(Apply(w, rs[0]), rs[1..])
  }

  /**
   * Two states that no observer can tell apart: the same table, and every
   * sink has received the same text.
   */
  ghost predicate Same(w: World, w': World) {
    w.table == w'.table && forall id :: Out(w.sinks, id) == Out(w'.sinks, id)
  }

  lemma AfterWriteRespectsSame(w: World, w': World, levelToOutput: Uint8, now: string, text: string)
    requires Same(w, w')
    ensures Same(AfterWrite(w, levelToOutput, now, text), AfterWrite(w', levelToOutput, now, text))
  {
    forall id
      ensures Out(AfterWrite(w, levelToOutput, now, text).sinks, id) ==
              Out(AfterWrite(w', levelToOutput, now, text).sinks, id)
    {
      Delivered(w.table, w.sinks, levelToOutput, now, text, id);
      Delivered(w'.table, w'.sinks, levelToOutput, now, text, id);
    }
  }

  /** What a request does depends only on what can be observed of the state. */
  lemma ApplyRespectsSame(w: World, w': World, r: Request)
    requires Same(w, w')
    ensures Same(Apply(w, r), Apply(w', r))
  {
    match r
    case Put(level, text, now) =>
      AfterWriteRespectsSame(w, w', level, now, text);
    case Endl(level, now) =>
      AfterWriteRespectsSame(w, w', level, now, "\n");
    case Dendl(level, now) =>
      AfterWriteRespectsSame(w, w', level, now, "\n");
      AfterWriteRespectsSame(AfterWrite(w, level, now, "\n"), AfterWrite(w', level, now, "\n"), level, now, "\n");
    case Np =>
  }

  // ---------------------------------------------------------------------
  // One output's view

  /** One output's record and everything its sink has received. */
  datatype View = View(output: LogOutput, received: string)

  function ViewAt(w: World, i: nat): View
    requires i < |w.table|
  {
    View(w.table[i], Out(w.sinks, w.table[i].stream))
  }

  function PutView(v: View, levelToOutput: Uint8, now: string, text: string): View {
    View(Advance(v.output, levelToOutput), v.received + Emitted(v.output, levelToOutput, now, text))
  }

  function RearmView(v: View, b: bool): View {
    View(v.output.(prefixOnNextPrint := b), v.received)
  }

  /** What a request does to one output, seen on its own. */
  function Step(v: View, r: Request): View {
    match r
    case Put(level, text, now) => PutView(v, level, now, text)
    case Endl(level, now) => RearmView(PutView(v, level, now, "\n"), true)
    case Dendl(level, now) =>
      RearmView(PutView(PutView(v, level, now, "\n"), level, now, "\n"), true)
    case Np => RearmView(v, false)
  }

  function Steps(v: View, rs: seq<Request>): View
    decreases |rs|
  {
    if rs == [] then v else Steps(Step(v, rs[0]), rs[1..])
  }

  // ---------------------------------------------------------------------
  // Properties of the write path

  /** A payload write advances every record in place and keeps the table free of duplicates. */
  lemma PutKeepsTable(w: World, levelToOutput: Uint8, now: string, text: string, i: nat)
    requires NoDuplicates(w.table) && i < |w.table|
    ensures var w' := AfterWrite(w, levelToOutput, now, text);
      && NoDuplicates(w'.table)
      && SameStreams(w.table, w'.table)
      && ViewAt(w', i) == PutView(ViewAt(w, i), levelToOutput, now, text)
  {
    var w' := AfterWrite(w, levelToOutput, now, text);
    FindAt(w.table, i);
    Delivered(w.table, w.sinks, levelToOutput, now, text, w.table[i].stream);
  }

  /** setPrefixOnNextPrint keeps the sinks unique and in place and acts on each output alone. */
  lemma RearmKeepsTable(w: World, b: bool, i: nat)
    requires NoDuplicates(w.table) && i < |w.table|
    ensures var w' := Rearmed(w, b);
      && NoDuplicates(w'.table)
      && SameStreams(w.table, w'.table)
      && ViewAt(w', i) == RearmView(ViewAt(w, i), b)
  {
    WithPendingProperties(w.table, b);
  }

  /** The two newlines of `dendl`, seen on one registered output. */
  lemma TwoNewlinesKeepTable(w: World, level: Uint8, now: string, i: nat) returns (w2: World)
    requires NoDuplicates(w.table) && i < |w.table|
    ensures w2 == AfterWrite(AfterWrite(w, level, now, "\n"), level, now, "\n")
    ensures NoDuplicates(w2.table) && SameStreams(w.table, w2.table) && i < |w2.table|
    ensures ViewAt(w2, i) == PutView(PutView(ViewAt(w, i), level, now, "\n"), level, now, "\n")
  {
    var w1 := AfterWrite(w, level, now, "\n");
    PutKeepsTable(w, level, now, "\n", i);
    PutKeepsTable(w1, level, now, "\n", i);
    w2 := AfterWrite(w1, level, now, "\n");
  }

  /** A request seen on one registered output is that output's own Step. */
  lemma ApplyProjects(w: World, r: Request, i: nat)
    requires NoDuplicates(w.table) && i < |w.table|
    ensures var w' := Apply(w, r);
      && NoDuplicates(w'.table)
      && SameStreams(w.table, w'.table)
      && ViewAt(w', i) == Step(ViewAt(w, i), r)
  {
    match r
    case Put(level, text, now) =>
      PutKeepsTable(w, level, now, text, i);
    case Endl(level, now) =>
      var w1 := AfterWrite(w, level, now, "\n");
      PutKeepsTable(w, level, now, "\n", i);
      RearmKeepsTable(w1, true, i);
    case Dendl(level, now) =>
      var w2 := TwoNewlinesKeepTable(w, level, now, i);
      RearmKeepsTable(w2, true, i);
    case Np =>
      RearmKeepsTable(w, false, i);
  }

  /**
   * Any sequence of requests, made through any loggers, does to each
   * registered output exactly what it does to that output on its own.
   */
  lemma {:induction false} RunProjects(w: World, rs: seq<Request>, i: nat)
    requires NoDuplicates(w.table) && i < |w.table|
    ensures var w' := Run(w, rs);
      && NoDuplicates(w'.table)
      && SameStreams(w.table, w'.table)
      && ViewAt(w', i) == Steps(ViewAt(w, i), rs)
    decreases |rs|
  {
    if rs != [] {
      ApplyProjects(w, rs[0], i);
      RunProjects(Apply(w, rs[0]), rs[1..], i);
    }
  }

  /** A sink that is not registered receives nothing, whatever is written. */
  lemma {:induction false} RunSkipsUnregistered(w: World, rs: seq<Request>, id: SinkId)
    requires !Registered(w.table, id)
    ensures !Registered(Run(w, rs).table, id)
    ensures Out(Run(w, rs).sinks, id) == Out(w.sinks, id)
    decreases |rs|
  {
    if rs != [] {
      var w1 := Apply(w, rs[0]);
      match rs[0] {
      case Put(level, text, now) =>
        Delivered(w.table, w.sinks, level, now, text, id);
        FindSameStreams(w.table, w1.table, id);
      case Endl(level, now) =>
        Delivered(w.table, w.sinks, level, now, "\n", id);
        FindSameStreams(w.table, Advanced(w.table, level), id);
        FindSameStreams(Advanced(w.table, level), w1.table, id);
      case Dendl(level, now) =>
        var w0 := AfterWrite(w, level, now, "\n");
        Delivered(w.table, w.sinks, level, now, "\n", id);
        FindSameStreams(w.table, w0.table, id);
        Delivered(w0.table, w0.sinks, level, now, "\n", id);
        FindSameStreams(w0.table, Advanced(w0.table, level), id);
        FindSameStreams(Advanced(w0.table, level), w1.table, id);
      case Np =>
        FindSameStreams(w.table, w1.table, id);
      }
      RunSkipsUnregistered(w1, rs[1..], id);
    }
  }

  /** A payload write reaches a registered output iff isEnabled holds for the writer's level. */
  lemma ReachedIffEnabled(t: seq<LogOutput>, i: nat, levelToOutput: Uint8)
    requires NoDuplicates(t) && i < |t|
    ensures Eligible(t[i], levelToOutput) <==> EnabledAt(t, t[i].stream, levelToOutput)
  {
    FindAt(t, i);
  }

  /**
   * A payload write to a reached output prints the pending prefix, if any,
   * then the text, and leaves the output in the middle of a line; an output
   * not reached receives nothing and keeps its state.
   */
  lemma PutEffect(v: View, levelToOutput: Uint8, now: string, text: string)
    ensures var v' := Step(v, Put(levelToOutput, text, now));
      && v'.output.(prefixOnNextPrint := v.output.prefixOnNextPrint) == v.output
      && (Eligible(v.output, levelToOutput) ==>
            v'.received == v.received + PendingPrefix(v.output, levelToOutput, now) + text
            && !v'.output.prefixOnNextPrint)
      && (!Eligible(v.output, levelToOutput) ==> v' == v)
  {
  }

  /**
   * endl: a reached output receives its pending prefix and one newline (just
   * the newline in the middle of a line); then every output, reached or
   * not, is at the start of a line.
   */
  lemma EndlEffect(v: View, levelToOutput: Uint8, now: string)
    ensures var v' := Step(v, Endl(levelToOutput, now));
      && v'.output == v.output.(prefixOnNextPrint := true)
      && v'.received == v.received +
           (if Eligible(v.output, levelToOutput) then PendingPrefix(v.output, levelToOutput, now) + "\n" else [])
  {
  }

  /** dendl: like endl with two newlines, and still at most one prefix. */
  lemma DendlEffect(v: View, levelToOutput: Uint8, now: string)
    ensures var v' := Step(v, Dendl(levelToOutput, now));
      && v'.output == v.output.(prefixOnNextPrint := true)
      && v'.received == v.received +
           (if Eligible(v.output, levelToOutput) then PendingPrefix(v.output, levelToOutput, now) + "\n\n" else [])
  {
    if Eligible(v.output, levelToOutput) {
      var p := PendingPrefix(v.output, levelToOutput, now);
      assert "\n" + "\n" == "\n\n";
      ConcatAssoc(v.received + p, "\n", "\n");
      ConcatAssoc(v.received, p, "\n\n");
    }
  }

  /** np: prints nothing and leaves the output in the middle of a line. */
  lemma NpEffect(v: View)
    ensures var v' := Step(v, Np);
      v'.received == v.received && v'.output == v.output.(prefixOnNextPrint := false)
  {
  }

  /**
   * Writing two texts one after the other has the same effect as writing
   * them at once: putch character by character is putstr.
   */
  lemma PutConcat(v: View, levelToOutput: Uint8, now: string, later: string, a: string, b: string)
    ensures Steps(v, [Put(levelToOutput, a, now), Put(levelToOutput, b, later)]) ==
            Step(v, Put(levelToOutput, a + b, now))
  {
    var rs := [Put(levelToOutput, a, now), Put(levelToOutput, b, later)];
    var v1 := Step(v, rs[0]);
    assert rs[1..][1..] == [];
    assert Steps(v, rs) == Steps(v1, rs[1..]) == Step(v1, rs[1]);
    if Eligible(v.output, levelToOutput) {
      var p := PendingPrefix(v.output, levelToOutput, now);
      ConcatAssoc(p, a, b);
      ConcatAssoc(v.received, p + a, b);
    }
  }

  /**
   * After endl, the next two payload writes to a reached output carry exactly
   * one prefix between them: before the first.
   */
  lemma PrefixOncePerLine(v: View, levelToOutput: Uint8,
                          now0: string, now1: string, now2: string, a: string, b: string)
    requires Eligible(v.output, levelToOutput)
    ensures var v1 := Step(v, Endl(levelToOutput, now0));
      Steps(v1, [Put(levelToOutput, a, now1), Put(levelToOutput, b, now2)]).received ==
        v1.received + PrefixText(v.output, levelToOutput, now1) + a + b
  {
    var v1 := Step(v, Endl(levelToOutput, now0));
    var rs := [Put(levelToOutput, a, now1), Put(levelToOutput, b, now2)];
    var v2 := Step(v1, rs[0]);
    assert rs[1..][1..] == [];
    assert Steps(v1, rs) == Steps(v2, rs[1..]) == Step(v2, rs[1]);
    var p := PrefixText(v.output, levelToOutput, now1);
    PrefixTextIgnoresPending(v.output, true, levelToOutput, now1);
    assert v1.output == v.output.(prefixOnNextPrint := true);
    assert v2.received == v1.received + (p + a);
    ConcatAssoc(v1.received, p, a);
  }

  /** After dendl, the next payload write to a reached output carries one prefix. */
  lemma PrefixOnceAfterDendl(v: View, levelToOutput: Uint8, now0: string, now1: string, a: string)
    requires Eligible(v.output, levelToOutput)
    ensures var v1 := Step(v, Dendl(levelToOutput, now0));
      Step(v1, Put(levelToOutput, a, now1)).received ==
        v1.received + PrefixText(v.output, levelToOutput, now1) + a
  {
    var v1 := Step(v, Dendl(levelToOutput, now0));
    assert v1.output == v.output.(prefixOnNextPrint := true);
    PrefixTextIgnoresPending(v.output, true, levelToOutput, now1);
  }

  /**
   * np put right after a line terminator suppresses the prefix of that one
   * line; the next endl re-arms it for the line after.
   */
  lemma NpSuppressesOneLine(v: View, levelToOutput: Uint8,
                            now0: string, now1: string, now2: string, now3: string, a: string, b: string)
    requires Eligible(v.output, levelToOutput)
    ensures var v1 := Step(v, Endl(levelToOutput, now0));
      var rs := [Np, Put(levelToOutput, a, now1), Endl(levelToOutput, now2), Put(levelToOutput, b, now3)];
      Steps(v1, rs).received ==
        v1.received + a + "\n" + PrefixText(v.output, levelToOutput, now3) + b
  {
    var v1 := Step(v, Endl(levelToOutput, now0));
    var rs := [Np, Put(levelToOutput, a, now1), Endl(levelToOutput, now2), Put(levelToOutput, b, now3)];
    var v2 := Step(v1, Np);
    var v3 := Step(v2, rs[1]);
    var v4 := Step(v3, rs[2]);
    var v5 := Step(v4, rs[3]);
    assert rs[1..][1..][1..][1..] == [];
    assert Steps(v1, rs) == Steps(v2, rs[1..]) == Steps(v3, rs[1..][1..])
        == Steps(v4, rs[1..][1..][1..]) == Steps(v5, rs[1..][1..][1..][1..]) == v5;
    assert v3.received == v1.received + a;
    assert v4.received == v1.received + a + "\n";
    var p := PrefixText(v.output, levelToOutput, now3);
    assert v4.output == v.output.(prefixOnNextPrint := true);
    PrefixTextIgnoresPending(v.output, true, levelToOutput, now3);
    assert v5.received == v1.received + a + "\n" + (p + b);
    ConcatAssoc(v1.received + a + "\n", p, b);
  }
}
