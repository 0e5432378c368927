/** The leveled, structured logger of pkg/logger: level parsing, construction of the
    one- or two-sink core, the five gated emit operations and field-scoped derivation.
    Records are abstract (level, message, fields) values; a sink is the sequence of
    records appended to it; process exit is a ghost flag. */
module Logger {
  import opened Wrappers

  /** The levels that parseLevel can produce. */
  datatype Level = Debug | Info | Warn | Error | Fatal

  /** zapcore's numeric value of each level (DPanic = 3 and Panic = 4 are never produced here). */
  function Code(l: Level): int {
    match l
    case Debug => -1
    case Info => 0
    case Warn => 1
    case Error => 2
    case Fatal => 5
  }

  /** The levels at or above `threshold` in zap's order debug, info, warn, error, fatal. */
  function AtOrAbove(threshold: Level): set<Level> {
    match threshold
    case Debug => {Debug, Info, Warn, Error, Fatal}
    case Info => {Info, Warn, Error, Fatal}
    case Warn => {Warn, Error, Fatal}
    case Error => {Error, Fatal}
    case Fatal => {Fatal}
  }

  /** A core built at `threshold` accepts a record at level `l` (zapcore.Level.Enabled):
      the comparison of numeric codes admits exactly the levels at or above it. */
  predicate Enabled(threshold: Level, l: Level)
    ensures Enabled(threshold, l) <==> l in AtOrAbove(threshold)
  {
    Code(l) >= Code(threshold)
  }

  /** The gate is the total order debug < info < warn < error < fatal. */
  lemma EnabledIsTotalOrder(a: Level, b: Level, c: Level)
    ensures Enabled(a, a)
    ensures Enabled(a, b) && Enabled(b, a) ==> a == b
    ensures Enabled(a, b) && Enabled(b, c) ==> Enabled(a, c)
    ensures Enabled(a, b) || Enabled(b, a)
    ensures Enabled(Debug, Info) && Enabled(Info, Warn) && Enabled(Warn, Error) && Enabled(Error, Fatal)
    ensures !Enabled(Info, Debug) && !Enabled(Warn, Info) && !Enabled(Error, Warn) && !Enabled(Fatal, Error)
  {
  }

  /** parseLevel: a case-sensitive switch over five names with a silent fallback to info.
      The Go function's error result is always nil, so it is modelled as total. */
  function ParseLevel(name: string): (l: Level)
    ensures l == Debug <==> name == "debug"
    ensures l == Warn <==> name == "warn"
    ensures l == Error <==> name == "error"
    ensures l == Fatal <==> name == "fatal"
    ensures l == Info <==> name != "debug" && name != "warn" && name != "error" && name != "fatal"
  {
    if name == "debug" then Debug
    else if name == "info" then Info
    else if name == "warn" then Warn
    else if name == "error" then Error
    else if name == "fatal" then Fatal
    else Info
  }

  /** Unrecognised names, including other spellings of known ones, configure info. */
  lemma UnknownNamesMeanInfo()
    ensures ParseLevel("info") == Info
    ensures ParseLevel("trace") == Info && ParseLevel("WARN") == Info && ParseLevel("") == Info
    ensures !Enabled(ParseLevel("trace"), Debug)
    ensures Enabled(ParseLevel("trace"), Info) && Enabled(ParseLevel("trace"), Warn)
    ensures Enabled(ParseLevel("trace"), Error) && Enabled(ParseLevel("trace"), Fatal)
  {
  }

  /** fatal is the largest level parseLevel returns, so a fatal record passes every
      gate a logger can be built with. */
  lemma FatalAlwaysEnabled(name: string)
    ensures forall l: Level :: Enabled(l, Fatal)
    ensures Enabled(ParseLevel(name), Fatal)
  {
  }

  /** A context field (zap.Field), reduced to a key and a rendered value. */
  datatype Field = Field(key: string, value: string)

  /** What one emit hands to a sink. */
  datatype Record = Record(level: Level, msg: string, fields: seq<Field>)

  /** Where a sink writes. */
  datatype Target = Stderr | File(path: string)

  /** What os.OpenFile(path, O_APPEND|O_CREATE|O_WRONLY, 0644) reports. */
  datatype OpenResult = Opened | OpenFailed(cause: string)

  /** The error NewLogger returns: os.OpenFile's *PathError. */
  datatype OpenError = PathError(path: string, cause: string)

  /** What a core at `threshold` passes on of the record `r`: all of it or nothing. */
  function Gate(threshold: Level, r: Record): (out: seq<Record>)
    ensures |out| <= 1
    ensures forall x :: x in out ==> x == r
    ensures out != [] <==> r.level in AtOrAbove(threshold)
  {
    if Enabled(threshold, r.level) then [r] else []
  }

  /** The scenario of a logger configured with "warn": debug and info are dropped,
      warn, error and fatal pass. */
  lemma WarnThreshold(msg: string, fields: seq<Field>)
    ensures Gate(ParseLevel("warn"), Record(Debug, msg, fields)) == []
    ensures Gate(ParseLevel("warn"), Record(Info, msg, fields)) == []
    ensures Gate(ParseLevel("warn"), Record(Warn, msg, fields)) == [Record(Warn, msg, fields)]
    ensures Gate(ParseLevel("warn"), Record(Error, msg, fields)) == [Record(Error, msg, fields)]
    ensures Gate(ParseLevel("warn"), Record(Fatal, msg, fields)) == [Record(Fatal, msg, fields)]
  {
  }

  /** An append-only output stream (a zapcore.WriteSyncer). */
  class Sink {
    const target: Target
    var records: seq<Record>

    constructor (target: Target)
      ensures this.target == target && records == []
    {
      this.target := target;
      records := [];
    }

    method Write(r: Record)
      modifies this
      ensures records == old(records) + [r]
    {
      records := records + [r];
    }
  }

  /** The host process: its standard error stream, shared by every logger, and whether
      it has exited. */
  class Process {
    const stderr: Sink
    ghost var exited: bool

    constructor ()
      ensures fresh(stderr) && stderr.target == Stderr && stderr.records == []
      ensures !exited
    {
      stderr := new Sink(Stderr);
      exited := false;
    }
  }

  /** zapLogger together with the zap.Logger and core it wraps: one threshold shared by
      every sink, the accumulated context fields, and the optional file sink teed with
      the process's stderr. Nothing here changes after construction. */
  class ZapLogger {
    const threshold: Level
    const context: seq<Field>
    const file: Sink?
    const process: Process

    ghost predicate Valid() {
      && process.stderr.target == Stderr
      && (file != null ==> file != process.stderr && file.target.File?)
    }

    /** The sinks every emit goes to: stderr alone, or the file and stderr. */
    function Sinks(): set<Sink> {
      if file == null then {process.stderr} else {file, process.stderr}
    }

    constructor (threshold: Level, context: seq<Field>, file: Sink?, process: Process)
      requires process.stderr.target == Stderr
      requires file != null ==> file != process.stderr && file.target.File?
      ensures this.threshold == threshold && this.context == context
      ensures this.file == file && this.process == process
      ensures Valid()
    {
      this.threshold := threshold;
      this.context := context;
      this.file := file;
      this.process := process;
    }

    /** The record an emit at `level` builds: context fields first, then the call's. */
    function RecordOf(level: Level, msg: string, fields: seq<Field>): Record {
      Record(level, msg, context + fields)
    }

    /** zap's check-and-write: each sink's core tests the shared threshold. */
    method Emit(level: Level, msg: string, fields: seq<Field>)
      requires Valid() && !process.exited
      modifies Sinks()
      ensures forall s :: s in Sinks() ==>
                s.records == old(s.records) + Gate(threshold, RecordOf(level, msg, fields))
    {
      var r := RecordOf(level, msg, fields);
      if Enabled(threshold, level) {
        if file != null {
          file.Write(r);
        }
        process.stderr.Write(r);
      }
    }

    method Debug(msg: string, fields: seq<Field>)
      requires Valid() && !process.exited
      modifies Sinks()
      ensures forall s :: s in Sinks() ==>
                s.records == old(s.records) + Gate(threshold, RecordOf(Level.Debug, msg, fields))
    {
      Emit(Level.Debug, msg, fields);
    }

    method Info(msg: string, fields: seq<Field>)
      requires Valid() && !process.exited
      modifies Sinks()
      ensures forall s :: s in Sinks() ==>
                s.records == old(s.records) + Gate(threshold, RecordOf(Level.Info, msg, fields))
    {
      Emit(Level.Info, msg, fields);
    }

    method Warn(msg: string, fields: seq<Field>)
      requires Valid() && !process.exited
      modifies Sinks()
      ensures forall s :: s in Sinks() ==>
                s.records == old(s.records) + Gate(threshold, RecordOf(Level.Warn, msg, fields))
    {
      Emit(Level.Warn, msg, fields);
    }

    method Error(msg: string, fields: seq<Field>)
      requires Valid() && !process.exited
      modifies Sinks()
      ensures forall s :: s in Sinks() ==>
                s.records == old(s.records) + Gate(threshold, RecordOf(Level.Error, msg, fields))
    {
      Emit(Level.Error, msg, fields);
    }

    /** Writes the record to every sink, then the process exits. */
    method Fatal(msg: string, fields: seq<Field>)
      requires Valid() && !process.exited
      modifies Sinks(), process
      ensures forall s :: s in Sinks() ==>
                s.records == old(s.records) + Gate(threshold, RecordOf(Level.Fatal, msg, fields))
      ensures Enabled(threshold, Level.Fatal)
      ensures process.exited
    {
      Emit(Level.Fatal, msg, fields);
      process.exited := true;
    }

    /** A new logger over the same core, its context extended by `fields`; the receiver,
        whose fields are all constant, stays as it was. */
    method With(fields: seq<Field>) returns (l: ZapLogger)
      requires Valid()
      ensures fresh(l) && l.Valid()
      ensures l.threshold == threshold && l.file == file && l.process == process
      ensures l.Sinks() == Sinks()
      ensures l.context == context + fields
      ensures forall lv, m, fs :: l.RecordOf(lv, m, fs) == RecordOf(lv, m, fields + fs)
    {
      l := new ZapLogger(threshold, context + fields, file, process);
      assert forall lv, m, fs :: l.RecordOf(lv, m, fs) == RecordOf(lv, m, fields + fs) by {
        forall fs: seq<Field> ensures (context + fields) + fs == context + (fields + fs) {
        }
      }
    }
  }

  /** NewLogger: the level is parsed leniently; an empty path gives a stderr-only core,
      any other path a tee of the opened file and stderr, or the open error. The
      level-parse error branch cannot be taken. */
  method NewLogger(level: string, outputPath: string, process: Process, open: OpenResult)
    returns (r: Result<ZapLogger, OpenError>)
    requires process.stderr.target == Stderr
    ensures r.Failure? <==> outputPath != "" && open.OpenFailed?
    ensures r.Failure? ==> r.error == PathError(outputPath, open.cause)
    ensures r.Success? ==>
              && fresh(r.value) && r.value.Valid()
              && r.value.threshold == ParseLevel(level)
              && r.value.context == [] && r.value.process == process
              && |r.value.Sinks()| == (if outputPath == "" then 1 else 2)
    ensures r.Success? && outputPath == "" ==> r.value.file == null
    ensures r.Success? && outputPath != "" ==>
              && r.value.file != null && fresh(r.value.file)
              && r.value.file.target == File(outputPath) && r.value.file.records == []
  {
    var threshold := ParseLevel(level);
    if outputPath == "" {
      var l := new ZapLogger(threshold, [], null, process);
      return Success(l);
    }
    if open.OpenFailed? {
      return Failure(PathError(outputPath, open.cause));
    }
    var logFile := new Sink(File(outputPath));
    var l := new ZapLogger(threshold, [], logFile, process);
    return Success(l);
  }
}
