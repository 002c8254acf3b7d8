# ArduinoLogger: output registry and line-prefix state machine

This project models the core of ArduinoLogger, a level-filtered logger for
Arduino boards that fans each write out to several outputs (`Print` sinks).

- **Levels** (`Levels.dfy`). The six level constants SILENT..VERBOSE and
  `debugLevelName`.
- **The output table as a value** (`OutputTable.dfy`). It holds the
  `LogOutput` records and the operations of the registry as functions on a
  sequence of records: `getLogOutputFromStream`, `initLogOutput`, `add`,
  `edit`, the enable/disable family, `isEnabled` and
  `setPrefixOnNextPrint`. Lemmas state what each operation keeps and
  changes.
- **The write path** (`WritePath.dfy`). It defines:
  - the text of the prefix (`printPrefix`);
  - what one payload write (`putch`/`putstr`) does to the table and to
    what every sink has received;
  - the line markers `endl`, `dendl` and `np`, as requests replayed on the
    whole state (`World`) and on one output (`View`).

  `RunProjects` proves that the two agree. The line discipline is then
  proved per output: one prefix per line, `dendl` gives two newlines and
  still one prefix, and `np` suppresses the prefix of one line.
- **The registry class** (`Registry.dfy`). The static `_outputs` array and
  the `_nOutputs` counter become one `Registry` object that every logger
  shares. Its methods update the array in place, and each is proved against
  the matching function of `OutputTable`.
- **The logger class** (`Logger.dfy`). A `Logger` has the level it writes
  at, the shared `Registry`, and the `Sinks` (what each sink has received).
  - `Write` is the loop over the outputs behind `putch`/`putstr`.
  - `Endl`, `Dendl` and `Np` follow the inline bodies in the header.
  - Each public method is proved to do what `Apply` of the matching request
    does to the whole state.

Sinks are identified by a number (`SinkId`). What a sink has received is a
string in a map. The clock text is passed in as a parameter (`now`).

## Model

| member | source | states |
|---|---|---|
| Levels.AllLevels | src/Logger.h:38-43 | the six levels are 0..5, from SILENT to VERBOSE |
| Levels.LevelsStrictlyIncrease | src/Logger.h:38-43 | SILENT < ERROR < WARNING < INFO < TRACE < VERBOSE |
| Levels.DebugLevelName | src/Logger.h:107 | total on uint8; the names of ERROR..VERBOSE are non-empty, and the sentinel name is returned exactly for levels outside 0..5 |
| Levels.DebugLevelNameInjective | src/Logger.h:107 | distinct defined levels have distinct names |
| OutputTable.Find | src/Logger.h:101 | the index of the first record of the sink, or none when no record has it |
| OutputTable.InitLogOutput | src/Logger.h:102-105 | the record has the given sink, threshold and three switches, is enabled and awaits a prefix |
| OutputTable.AddedProperties | src/Logger.h:63-66 | add keeps sinks unique and the count within capacity. A known sink is rewritten in place and the count is unchanged. A new sink is appended, or the call is a no-op when full. The sink's record is the initialised one and every other sink's record is unchanged |
| OutputTable.AddedDefaults | src/Logger.h:63-66 | add with the switches left out enables prefix, date and level name |
| OutputTable.AddedIdempotent | src/Logger.h:63-66 | adding the same configuration twice is the same as once |
| OutputTable.AddedThenEnabledAt | src/Logger.h:63-66 | after add at threshold L, isEnabled at level x holds iff x <= L |
| OutputTable.EditedProperties | src/Logger.h:68-72 | edit of an unknown sink is a no-op; of a known sink it equals add; sinks stay unique and in place |
| OutputTable.WithFlagProperties | src/Logger.h:74-81 | an enable/disable call changes exactly one switch of the sink's record and nothing else; an unknown sink is a no-op |
| OutputTable.WithFlagRestores | src/Logger.h:74-81 | setting a switch and then setting it back to its old value restores the table |
| OutputTable.DisabledIsNeverEnabled | src/Logger.h:78 | after disable, isEnabled is false for every level |
| OutputTable.EnabledAtIff | src/Logger.h:83-84 | isEnabled holds iff some record of the sink is enabled and its threshold admits the level |
| OutputTable.EnabledAtSilent | src/Logger.h:84 | with the default level SILENT, isEnabled holds for every registered enabled sink |
| OutputTable.WithPendingProperties | src/Logger.h:109 | setPrefixOnNextPrint sets the pending flag of every record and changes nothing else |
| WritePath.Emit | src/Logger.h:47 | printing to a sink appends the text to what it has received |
| WritePath.EmitOther | src/Logger.h:47 | printing to one sink leaves every other sink unchanged |
| WritePath.EmitTwice | src/Logger.h:47 | two prints to one sink equal one print of both texts |
| WritePath.PrefixTextShape | src/Logger.h:108 | the prefix is empty iff the prefix switch is off. Otherwise it starts with '[', ends with "] ", carries the clock text after '[' when the date is on and the level name before "] " when that is on, and is "[] " when both are off |
| WritePath.PrefixTextIgnoresPending | src/Logger.h:108 | the prefix text does not depend on the pending flag |
| WritePath.PrefixLevelNameSegment | src/Logger.h:108 | two outputs that differ only in the level-name switch get prefixes that differ only in the level-name segment |
| WritePath.ReceivedSnoc | src/Logger.h:92-93 | one more record in the loop adds exactly that record's text to its own sink |
| WritePath.EmitNext | src/Logger.h:92-93 | printing one record's text keeps the loop's account of what sink `id` has received |
| WritePath.EmitNextAll | src/Logger.h:92-93 | the same for every sink at once |
| WritePath.Delivered | src/Logger.h:92-93 | after a payload write each sink has received its old text plus what its own record emits, and an unregistered sink nothing |
| WritePath.PutKeepsTable | src/Logger.h:92-93 | a payload write keeps sinks unique and in place, and on each output it acts as that output's own step |
| WritePath.RearmKeepsTable | src/Logger.h:109 | setPrefixOnNextPrint keeps sinks unique and in place and acts on each output alone |
| WritePath.AfterWriteRespectsSame | src/Logger.h:92-93 | a payload write on two states with the same table and the same received texts gives two such states again |
| WritePath.ApplyRespectsSame | src/Logger.h:117-145 | what any request does depends only on the table and on the texts the sinks have received |
| WritePath.ApplyProjects | src/Logger.h:117-145 | every request (put, endl, dendl, np) acts on each registered output as that output's own step |
| WritePath.RunProjects | src/Logger.h:117-145 | any sequence of requests, made through loggers of any level, acts on each registered output as the same sequence run on that output alone |
| WritePath.RunSkipsUnregistered | src/Logger.h:92-93 | a sink that is not registered receives nothing and stays unregistered, whatever is written |
| WritePath.ReachedIffEnabled | src/Logger.h:92-93 | a write reaches a registered output iff isEnabled holds for the writer's level |
| WritePath.PutEffect | src/Logger.h:92-93 | a reached output receives its pending prefix and the text, and leaves the start of the line; an output not reached is unchanged |
| WritePath.EndlEffect | src/Logger.h:117-124 | endl prints one newline (after the pending prefix) to a reached output, then every output awaits a prefix |
| WritePath.DendlEffect | src/Logger.h:126-134 | dendl prints two newlines and at most one prefix to a reached output, then every output awaits a prefix |
| WritePath.NpEffect | src/Logger.h:140-145 | np prints nothing and clears the pending flag |
| WritePath.PutConcat | src/Logger.h:92-93 | writing a then b equals writing a+b |
| WritePath.PrefixOncePerLine | src/Logger.h:117-124 | after endl, the next two writes to a reached output carry exactly one prefix, before the first |
| WritePath.PrefixOnceAfterDendl | src/Logger.h:126-134 | after dendl, the next write to a reached output carries exactly one prefix |
| WritePath.NpSuppressesOneLine | src/Logger.h:136-145 | np right after endl suppresses the prefix of that line only; the next line after endl gets its prefix |
| OutputRegistry.Registry.constructor | src/Logger.h:113-114 | an empty table whose capacity is fixed |
| OutputRegistry.Registry.GetLogOutputFromStream | src/Logger.h:101 | the linear scan returns the index of the first record of the sink, or none |
| OutputRegistry.Registry.Add | src/Logger.h:63-66 | the array is updated in place to Added of the old table; sinks stay unique and the count stays within capacity |
| OutputRegistry.Registry.Edit | src/Logger.h:68-72 | the array is updated in place to Edited of the old table |
| OutputRegistry.Registry.SetFlag | src/Logger.h:74-81 | one switch of the sink's record is set in place |
| OutputRegistry.Registry.Enable | src/Logger.h:74 | sets `enabled` of the sink's record |
| OutputRegistry.Registry.EnablePrefix | src/Logger.h:75 | sets `prefixEnabled` of the sink's record |
| OutputRegistry.Registry.EnableDate | src/Logger.h:76 | sets `dateEnabled` of the sink's record |
| OutputRegistry.Registry.EnableLevelName | src/Logger.h:77 | sets `levelNameEnabled` of the sink's record |
| OutputRegistry.Registry.Disable | src/Logger.h:78 | clears `enabled` of the sink's record |
| OutputRegistry.Registry.DisablePrefix | src/Logger.h:79 | clears `prefixEnabled` of the sink's record |
| OutputRegistry.Registry.DisableDate | src/Logger.h:80 | clears `dateEnabled` of the sink's record |
| OutputRegistry.Registry.DisableLevelName | src/Logger.h:81 | clears `levelNameEnabled` of the sink's record |
| OutputRegistry.Registry.IsEnabled | src/Logger.h:83-84 | true iff some record in use has the sink, is enabled and has a threshold at least the level |
| OutputRegistry.Registry.SetPrefixOnNextPrint | src/Logger.h:109 | the loop sets the pending flag of every record in use, in place |
| Logging.Sinks.Print | src/Logger.h:47 | appends the text to the sink |
| Logging.Logger.constructor | src/Logger.h:60 | the logger writes at the given level through the shared registry |
| Logging.Logger.Default | src/Logger.h:59 | the logger writes at SILENT, which every enabled output lets through |
| Logging.Logger.PrintPrefix | src/Logger.h:108 | the pieces printed to the output's sink add up to its prefix text |
| Logging.Logger.WriteTo | src/Logger.h:92-93 | one output: the pending prefix and the text are printed if the write reaches it, and only its record changes |
| Logging.Logger.Write | src/Logger.h:92-93 | the loop advances every reached record and each sink receives exactly what Received says |
| Logging.Logger.Putch | src/Logger.h:92 | the new table and sinks are those of a Put request with one character |
| Logging.Logger.Putstr | src/Logger.h:93 | the new table and sinks are those of a Put request with the string |
| Logging.Logger.Endl | src/Logger.h:117-124 | the new table and sinks are those of an Endl request |
| Logging.Logger.Dendl | src/Logger.h:126-134 | the new table and sinks are those of a Dendl request |
| Logging.Logger.Np | src/Logger.h:140-145 | the new table is that of an Np request and no sink receives anything |

## Left out

- The `ostream` machinery `seekoff`, `seekpos`, `sync`, `tellpos` and `setflags` (src/Logger.h:94-98), and the calls to `setflags` in `endl` and `dendl`. They belong to the host stream library and do not touch the table or the sinks.
- `operator<<` (src/Logger.h:86): a chain of `<<` is modelled as a sequence of requests (`WritePath.Run`) or of method calls.
- `clock()` and TimeLib (src/Logger.h:30, 100): the clock text is a parameter `now` of each write, and its `HH:MM:SS.mmm` format is not modelled. A write uses one `now` for every output it reaches.
- The `Print` sink (src/Logger.h:47): a sink is a number and an append-only string. Short writes and byte counts are not modelled.
- The SD-card build variant (src/Logger.h:33-36) and the global instances `err`, `warn`, `inf`, `trace`, `verb`, `logger` (src/Logger.h:147-152).
- Levels.DebugLevelName: the strings are in `Logger.cpp`, which is not part of this model. The contract states only that the names of ERROR..VERBOSE are non-empty, that the defined names are distinct and that they differ from the out-of-range name, not their text.
- Levels.DebugLevelName: the name given to SILENT is a placeholder. No contract promises anything about it beyond being distinct from the other names and from the out-of-range name.
- The bodies of the registry methods, `putch`, `putstr`, `printPrefix`, `initLogOutput` and the constructors are in `Logger.cpp`, which is not part of this model. They are modelled from the declarations, their comments and the inline bodies in the header:
  - `initLogOutput` enables the output and leaves it awaiting a prefix;
  - a write clears the pending flag only of the outputs it reaches;
  - `Logger()` writes at SILENT.
- `endl` and `dendl` call `put('\n')`, which is a payload write. So a line ended before any payload still gets its pending prefix before the newline.
- `putstr` takes a NUL-terminated `const char *` and sinks receive bytes (src/Logger.h:93, 47). The model writes a Dafny `string` of characters in full, so it captures neither the stop at an embedded `'\0'` nor the byte encoding.
- Width of the arguments: levels are `uint8_t` values 0..255 (`Uint8`), the level of `isEnabled` is an unbounded `int`, and the table capacity is below 256 because `_nOutputs` is a `uint8_t`. Truncation of wider arguments at the call site is not modelled.
