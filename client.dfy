/**
 The logger of client.go: configuration validation, the choice of sinks, the
 logger value that carries a field context, and the error-trace and
 panic-recovery helpers.

 zap is outside the model. A sink (a zapcore.Core) is a record of its kind,
 threshold, encoding and static fields; the base logger is the ordered list
 of sinks plus the service field that is attached to all of them. A log call
 is modelled by the Record it hands to the base logger.
 */
module Client {
  import opened Fields

  /** A Go `interface{}` value, as far as the logger looks into it. */
  datatype Value = Nil | Text(text: string) | ErrorValue(err: GoError) | Opaque(id: nat)

  /** A Go `error`: made by errors.New, wrapped by errors.WithStack, or any other error. */
  datatype GoError = ErrorsNew(text: string) | WithStack(cause: GoError) | OtherError(id: nat)

  datatype Option<T> = None | Some(value: T)

  /** The errors New can return. */
  datatype Error =
    | InvalidFormat(format: string)  // getFormat
    | BadLevel(level: string)        // getLevel
    | Transport(reason: string)      // net.Dial in newLogstashCore

  /** A Go `(T, error)` pair where the error path carries no value (a nil logger). */
  datatype Result<T> = Ok(value: T) | Err(error: Error)

  /** What net.Dial does when the logstash sink connects: the network is an input. */
  datatype DialOutcome = Connected | DialFailed(reason: string)

  // ---------------------------------------------------------------------------
  // Levels and formats

  /** The six zapcore levels the configuration can name. */
  datatype Level = DebugLevel | InfoLevel | WarnLevel | ErrorLevel | PanicLevel | FatalLevel

  /** The int8 zapcore gives each level; level enablers compare these. */
  function Rank(l: Level): (rank: int)
  {
    match l
    case DebugLevel => -1
    case InfoLevel => 0
    case WarnLevel => 1
    case ErrorLevel => 2
    case PanicLevel => 4
    case FatalLevel => 5
  }

  /** The configuration name of each level. */
  function LevelName(l: Level): (name: string)
  {
    match l
    case DebugLevel => "debug"
    case InfoLevel => "info"
    case WarnLevel => "warn"
    case ErrorLevel => "error"
    case FatalLevel => "fatal"
    case PanicLevel => "panic"
  }

  const LevelNames: set<string> := {"debug", "info", "warn", "error", "fatal", "panic"}

  const FormatJSON: string := "json"
  const FormatPretty: string := "pretty"

  /** getFormat: an empty format means JSON; only "json" and "pretty" are accepted. */
  function GetFormat(format: string): (r: Result<string>)
    ensures format == "" ==> r == Ok(FormatJSON)
    ensures format != "" ==> (r.Ok? <==> format == FormatJSON || format == FormatPretty)
    ensures r.Ok? ==> r.value == FormatJSON || r.value == FormatPretty
    ensures r.Ok? && format != "" ==> r.value == format
    ensures r.Err? ==> r.error == InvalidFormat(format)
  {
    if format == "" then Ok(FormatJSON)
    else if format != FormatJSON && format != FormatPretty then Err(InvalidFormat(format))
    else Ok(format)
  }

  /** getLevel: exactly the six level names are accepted, case-sensitively. */
  function GetLevel(level: string): (r: Result<Level>)
    ensures r.Ok? <==> level in LevelNames
    ensures r.Ok? ==> LevelName(r.value) == level
    ensures r.Err? ==> r.error == BadLevel(level)
  {
    if level == "debug" then Ok(DebugLevel)
    else if level == "info" then Ok(InfoLevel)
    else if level == "warn" then Ok(WarnLevel)
    else if level == "error" then Ok(ErrorLevel)
    else if level == "fatal" then Ok(FatalLevel)
    else if level == "panic" then Ok(PanicLevel)
    else Err(BadLevel(level))
  }

  /** Every level is parsed back from its name, so the six names denote six distinct levels. */
  lemma GetLevelOfName(l: Level)
    ensures GetLevel(LevelName(l)) == Ok(l)
    ensures forall m: Level :: LevelName(m) == LevelName(l) ==> m == l
  {
  }

  /** A format getFormat accepted is accepted again unchanged. */
  lemma GetFormatIdempotent(format: string)
    requires GetFormat(format).Ok?
    ensures GetFormat(GetFormat(format).value) == GetFormat(format)
  {
  }

  // ---------------------------------------------------------------------------
  // Sinks

  datatype Encoding = JsonEncoding | ConsoleEncoding

  datatype SinkKind = Stdout | Logstash(protocol: string, addr: string)

  /** A zapcore.Core as built here: where it writes, its threshold, its encoder and its static fields. */
  datatype Sink = Sink(kind: SinkKind, threshold: Level, encoding: Encoding, staticFields: map<string, string>)
  {
    /** The level enabler both core constructors install: `level >= zapLevel`. */
    predicate Accepts(level: Level)
    {
      Rank(level) >= Rank(threshold)
    }
  }

  /** A sink that accepts a level accepts every more severe one, and always its own threshold. */
  lemma AcceptsUpward(s: Sink, l: Level, m: Level)
    requires s.Accepts(l) && Rank(l) <= Rank(m)
    ensures s.Accepts(m) && s.Accepts(s.threshold)
  {
  }

  /** Debug, info, warn and error are ordered, and error lies below both panic and fatal. */
  lemma LevelOrder()
    ensures Rank(DebugLevel) < Rank(InfoLevel) < Rank(WarnLevel) < Rank(ErrorLevel)
    ensures Rank(ErrorLevel) < Rank(PanicLevel) && Rank(ErrorLevel) < Rank(FatalLevel)
  {
  }

  /** newStdoutCore: writes to stdout, JSON only for "json", filtering by the threshold. */
  function NewStdoutCore(zapLevel: Level, format: string): (s: Sink)
    ensures s.kind == Stdout && s.threshold == zapLevel
    ensures s.encoding == JsonEncoding <==> format == FormatJSON
    ensures forall l :: s.Accepts(l) <==> Rank(l) >= Rank(zapLevel)
    ensures s.staticFields == map[]
  {
    Sink(Stdout, zapLevel, if format == FormatJSON then JsonEncoding else ConsoleEncoding, map[])
  }

  /** newLogstashCore: dials first; on success a JSON sink carrying @version and type. */
  function NewLogstashCore(zapLevel: Level, protocol: string, addr: string, dial: DialOutcome): (r: Result<Sink>)
    ensures r.Err? <==> dial.DialFailed?
    ensures r.Err? ==> r.error == Transport(dial.reason)
    ensures r.Ok? ==> r.value.kind == Logstash(protocol, addr) && r.value.encoding == JsonEncoding
    ensures r.Ok? ==> forall l :: r.value.Accepts(l) <==> Rank(l) >= Rank(zapLevel)
    ensures r.Ok? ==> r.value.staticFields == map["@version" := "1", "type" := "log"]
  {
    match dial
    case DialFailed(reason) => Err(Transport(reason))
    case Connected => Ok(Sink(Logstash(protocol, addr), zapLevel, JsonEncoding, map["@version" := "1", "type" := "log"]))
  }

  /** The zap logger: the tee of the sinks, each record also carrying the service field. */
  datatype Base = Base(cores: seq<Sink>, service: string)

  function Kinds(cores: seq<Sink>): (kinds: seq<SinkKind>)
  {
    seq(|cores|, i requires 0 <= i < |cores| => cores[i].kind)
  }

  /**
   newZapLogger: a stdout sink unless disabled, then a logstash sink when a URI
   is set; a failed dial is the only error, and no sink at all is allowed.
   */
  method NewZapLogger(zapLevel: Level, service: string, logstashProtocol: string, logstashURI: string,
                      disableStdout: bool, formatStdout: string, dial: DialOutcome)
    returns (r: Result<Base>)
    ensures r.Err? <==> logstashURI != "" && dial.DialFailed?
    ensures r.Err? ==> r.error == Transport(dial.reason)
    ensures r.Ok? ==> r.value.service == service
    ensures r.Ok? ==> |r.value.cores| == (if disableStdout then 0 else 1) + (if logstashURI == "" then 0 else 1)
    ensures r.Ok? ==> (Stdout in Kinds(r.value.cores) <==> !disableStdout)
    ensures r.Ok? ==> (Logstash(logstashProtocol, logstashURI) in Kinds(r.value.cores) <==> logstashURI != "")
    ensures r.Ok? && !disableStdout ==> r.value.cores[0] == NewStdoutCore(zapLevel, formatStdout)
    ensures r.Ok? && logstashURI != "" ==>
      r.value.cores[|r.value.cores| - 1] == NewLogstashCore(zapLevel, logstashProtocol, logstashURI, dial).value
    ensures r.Ok? ==> forall s :: s in r.value.cores ==> s.threshold == zapLevel
  {
    var cores: seq<Sink> := [];
    if !disableStdout {
      cores := cores + [NewStdoutCore(zapLevel, formatStdout)];
    }
    if logstashURI != "" {
      var logstashCore := NewLogstashCore(zapLevel, logstashProtocol, logstashURI, dial);
      if logstashCore.Err? {
        return Err(logstashCore.error);
      }
      cores := cores + [logstashCore.value];
    }
    assert Kinds(cores) == (if disableStdout then [] else [Stdout])
                         + (if logstashURI == "" then [] else [Logstash(logstashProtocol, logstashURI)]);
    r := Ok(Base(cores, service));
  }

  // ---------------------------------------------------------------------------
  // The logger value

  /** A logged call as handed to the base logger: level, message and the flattened fields. */
  datatype Record = Record(level: Level, body: Body, context: seq<Elem<Value>>)

  /** The arguments of a leveled call: `Info(parts...)` or `Infof(format, args...)`. */
  datatype Body = Parts(parts: seq<Value>) | Format(format: string, args: seq<Value>)

  /** loggerImpl: a value holding the shared base logger and its own field context. */
  datatype LoggerValue = LoggerValue(base: Base, fields: map<string, Value>)
  {
    /** With: a new value whose fields are merged with `x`; the receiver is a copy and is left alone. */
    function With(x: map<string, Value>): (r: LoggerValue)
      ensures r.base == base
      ensures forall k :: r.GetField(k) == if k in x then (x[k], true) else GetField(k)
    {
      LoggerValue(base, Merged(fields, x))
    }

    /** Namespace: With a single "namespace" field. */
    function Namespace(namespace: string): (r: LoggerValue)
      ensures r.base == base
      ensures r.GetField("namespace") == (Text(namespace), true)
      ensures forall k :: k != "namespace" ==> r.GetField(k) == GetField(k)
    {
      With(map["namespace" := Text(namespace)])
    }

    /** GetField: the stored value and true, or nil and false for a missing key. */
    function GetField(fieldName: string): (r: (Value, bool))
      ensures r.1 <==> fieldName in fields
      ensures r.1 ==> r.0 == fields[fieldName]
      ensures !r.1 ==> r.0 == Nil
    {
      if fieldName in fields then (fields[fieldName], true) else (Nil, false)
    }
  }

  /** Calling Namespace twice keeps only the last namespace. */
  lemma NamespaceTwice(l: LoggerValue, first: string, second: string)
    ensures l.Namespace(first).Namespace(second) == l.Namespace(second)
  {
    MergedOverride(l.fields, map["namespace" := Text(first)], map["namespace" := Text(second)]);
  }

  /** Two With calls are one With of the merged additions. */
  lemma WithTwice(l: LoggerValue, a: map<string, Value>, b: map<string, Value>)
    ensures l.With(a).With(b) == l.With(Merged(a, b))
  {
    MergedTwice(l.fields, a, b);
  }

  /** Loggers derived from the same logger do not see each other's fields, nor does their parent. */
  lemma WithIsolation(l: LoggerValue, a: string, va: Value, b: string, vb: Value)
    requires a != b && a !in l.fields && b !in l.fields
    ensures l.With(map[a := va]).GetField(b) == (Nil, false)
    ensures l.With(map[b := vb]).GetField(a) == (Nil, false)
    ensures l.GetField(a) == (Nil, false) && l.GetField(b) == (Nil, false)
    ensures l.With(map[a := va]).GetField(a) == (va, true)
  {
  }

  /**
   New: an empty level means "info"; the format is checked before the level,
   and each failure returns at once with no logger. The logger starts with
   the namespace field.
   */
  method New(config: LoggingConfig, dial: DialOutcome) returns (r: Result<LoggerValue>)
    ensures GetFormat(config.formatStdout).Err? ==> r == Err(InvalidFormat(config.formatStdout))
    ensures GetFormat(config.formatStdout).Ok? && config.level != "" && GetLevel(config.level).Err? ==>
      r == Err(BadLevel(config.level))
    ensures r.Ok? <==>
      && GetFormat(config.formatStdout).Ok?
      && (config.level == "" || config.level in LevelNames)
      && (config.logstashURI == "" || dial.Connected?)
    ensures r.Err? && r.error.Transport? ==> dial == DialFailed(r.error.reason)
    ensures
      && GetFormat(config.formatStdout).Ok?
      && (config.level == "" || config.level in LevelNames)
      && config.logstashURI != "" && dial.DialFailed?
      ==> r == Err(Transport(dial.reason))
    ensures r.Ok? ==> r.value.fields == map["namespace" := Text(config.namespace)]
    ensures r.Ok? ==> r.value.base.service == config.service
    ensures r.Ok? ==> |r.value.base.cores| == (if config.disableStdout then 0 else 1) + (if config.logstashURI == "" then 0 else 1)
    ensures r.Ok? ==> (Stdout in Kinds(r.value.base.cores) <==> !config.disableStdout)
    ensures r.Ok? ==> (Logstash(config.logstashProtocol, config.logstashURI) in Kinds(r.value.base.cores) <==> config.logstashURI != "")
    ensures r.Ok? && config.level == "" ==> forall s :: s in r.value.base.cores ==> s.threshold == InfoLevel
    ensures r.Ok? && config.level != "" ==> forall s :: s in r.value.base.cores ==> LevelName(s.threshold) == config.level
    ensures r.Ok? && !config.disableStdout ==>
      r.value.base.cores[0] == NewStdoutCore(GetLevel(if config.level == "" then "info" else config.level).value,
                                             GetFormat(config.formatStdout).value)
    ensures r.Ok? && config.logstashURI != "" ==>
      r.value.base.cores[|r.value.base.cores| - 1]
        == NewLogstashCore(GetLevel(if config.level == "" then "info" else config.level).value,
                           config.logstashProtocol, config.logstashURI, dial).value
  {
    var level := config.level;
    if level == "" {
      level := "info";
    }

    var format := GetFormat(config.formatStdout);
    if format.Err? {
      return Err(format.error);
    }

    var zapLevel := GetLevel(level);
    if zapLevel.Err? {
      return Err(zapLevel.error);
    }

    var zapLogger := NewZapLogger(zapLevel.value, config.service, config.logstashProtocol, config.logstashURI,
                                  config.disableStdout, format.value, dial);
    if zapLogger.Err? {
      return Err(zapLogger.error);
    }

    r := Ok(LoggerValue(zapLogger.value, map["namespace" := Text(config.namespace)]));
  }

  /** LoggingConfig: what New reads. */
  datatype LoggingConfig = LoggingConfig(
    service: string,
    level: string,
    namespace: string,
    disableStdout: bool,
    formatStdout: string,
    logstashURI: string,
    logstashProtocol: string)

  /** DefaultConfig: the package's stock configuration. */
  const DefaultConfig: LoggingConfig := LoggingConfig(
    service := "awesome-service",
    level := "debug",
    namespace := "awesome-namespace",
    disableStdout := false,
    formatStdout := FormatJSON,
    logstashURI := "",
    logstashProtocol := "udp")

  /** The stock configuration passes both validators: JSON output at debug level. */
  lemma DefaultConfigAccepted()
    ensures GetFormat(DefaultConfig.formatStdout) == Ok(FormatJSON)
    ensures GetLevel(DefaultConfig.level) == Ok(DebugLevel)
  {
  }

  // ---------------------------------------------------------------------------
  // Log calls

  /** A record whose context is the flattened field context of `fields`. */
  ghost predicate Carries(rec: Record, fields: map<string, Value>)
  {
    Alternating(rec.context) && multiset(PairsOf(rec.context)) == multiset(Entries(Kept(fields)))
  }

  /**
   prepare: flatten the fields into a pooled buffer, let the base logger copy
   them, and return the buffer to the pool.
   */
  method Prepare(l: LoggerValue, pool: FlattenPool<Value>) returns (context: seq<Elem<Value>>)
    requires pool.Valid()
    modifies pool
    ensures pool.Valid()
    ensures pool.free == if old(pool.free) == [] then [[]] else old(pool.free)
    ensures Alternating(context) && multiset(PairsOf(context)) == multiset(Entries(Kept(l.fields)))
  {
    var flatten := Flatten(l.fields, pool);
    context := flatten;
    PutFlatten(pool, flatten);
    assert old(pool.free) != [] ==> old(pool.free) == old(pool.free)[..|old(pool.free)| - 1] + [[]];
  }

  /** Debug, Info, ..., Fatalf: prepare, then hand the call to the base logger at its level. */
  method Log(l: LoggerValue, pool: FlattenPool<Value>, level: Level, body: Body) returns (rec: Record)
    requires pool.Valid()
    modifies pool
    ensures pool.Valid()
    ensures pool.free == if old(pool.free) == [] then [[]] else old(pool.free)
    ensures rec.level == level && rec.body == body
    ensures Carries(rec, l.fields)
  {
    var context := Prepare(l, pool);
    rec := Record(level, body, context);
  }

  /** The body of Trace's Errorf call: the error wrapped with its stack, printed with "%+v". */
  function TraceBody(err: GoError): (body: Body)
  {
    Format("%+v", [ErrorValue(WithStack(err))])
  }

  /** Trace: nothing for a nil error, otherwise one error-level record of the error. */
  method Trace(l: LoggerValue, pool: FlattenPool<Value>, err: Option<GoError>) returns (records: seq<Record>)
    requires pool.Valid()
    modifies pool
    ensures pool.Valid()
    ensures err.None? ==> records == [] && pool.free == old(pool.free)
    ensures err.Some? ==> |records| == 1 && records[0].level == ErrorLevel && records[0].body == TraceBody(err.value)
    ensures forall i :: 0 <= i < |records| ==> Carries(records[i], l.fields)
  {
    records := [];
    if err.Some? {
      var rec := Log(l, pool, ErrorLevel, TraceBody(err.value));
      records := [rec];
    }
  }

  /** The body of Recover's Panicf call. */
  function RecoveredBody(msg: string, payload: Value): (body: Body)
  {
    Format("recovered %s from %v", [Text(msg), payload])
  }

  /**
   Recover, given what recover() returned: nothing for nil; otherwise an error
   payload is traced as it is, a string payload is traced as errors.New of it,
   any other payload is not traced, and then a panic-level record follows.
   */
  method Recover(l: LoggerValue, pool: FlattenPool<Value>, msg: string, payload: Value) returns (records: seq<Record>)
    requires pool.Valid()
    modifies pool
    ensures pool.Valid()
    ensures payload == Nil ==> records == [] && pool.free == old(pool.free)
    ensures payload != Nil ==>
      && |records| >= 1
      && records[|records| - 1].level == PanicLevel
      && records[|records| - 1].body == RecoveredBody(msg, payload)
    ensures payload.ErrorValue? ==> |records| == 2 && records[0].level == ErrorLevel && records[0].body == TraceBody(payload.err)
    ensures payload.Text? ==> |records| == 2 && records[0].level == ErrorLevel && records[0].body == TraceBody(ErrorsNew(payload.text))
    ensures payload.Opaque? ==> |records| == 1
    ensures forall i :: 0 <= i < |records| ==> Carries(records[i], l.fields)
  {
    records := [];
    if payload != Nil {
      match payload {
        case ErrorValue(v) =>
          records := Trace(l, pool, Some(v));
        case Text(v) =>
          records := Trace(l, pool, Some(ErrorsNew(v)));
        case _ =>
      }
      var panicked := Log(l, pool, PanicLevel, RecoveredBody(msg, payload));
      records := records + [panicked];
    }
  }
}
