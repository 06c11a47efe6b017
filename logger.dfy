/** The logger package: the tracing hook that copies request-scoped context values into every
    log event, the level filter of the process-wide logger and the choice of its outputs. */
module Logger {
  import opened Wrappers
  import opened Uuids
  import opened Config

  const BrowserIdTrackingKey := "browserId"
  const BrowserProfileTrackingKey := "browserProfile"
  const SessionIdTrackingKey := "sessionId"

  /** The keys the hook looks up, in the order it looks them up. */
  const TrackingKeys: seq<string> := [SessionIdTrackingKey, BrowserIdTrackingKey, BrowserProfileTrackingKey]

  /** A value stored in a context under a key, told apart by its dynamic type. */
  datatype CtxValue = StrVal(s: string) | UuidVal(u: UUID) | OtherVal

  /** The values a context.Context chain holds, by key; a later WithValue hides an earlier one. */
  type Ctx = map<string, CtxValue>

  /** A string field of a log event. */
  datatype Field = Field(key: string, value: string)

  /** Reference definition of what the hook records for a key: the string held under it, or
      the text form of the UUID held under it unless that UUID is Nil; nothing otherwise. */
  function Traced(ctx: Ctx, key: string): Option<string> {
    if key in ctx && ctx[key].StrVal? then Some(ctx[key].s)
    else if key in ctx && ctx[key].UuidVal? && ctx[key].u != Nil then Some(Format(ctx[key].u))
    else None
  }

  /** TracingHook.addKeyToEventIfExists: appends at most one field, under `key`. */
  function AddKeyToEventIfExists(fields: seq<Field>, ctx: Ctx, key: string): (r: seq<Field>)
    ensures Traced(ctx, key).None? ==> r == fields
    ensures Traced(ctx, key).Some? ==> r == fields + [Field(key, Traced(ctx, key).value)]
  {
    if key !in ctx then fields
    else match ctx[key]
      case StrVal(s) => fields + [Field(key, s)]
      case UuidVal(u) => if u != Nil then fields + [Field(key, Format(u))] else fields
      case OtherVal => fields
  }

  /** TracingHook.Run: the hook applied to an event that already carries `fields`. */
  function Run(fields: seq<Field>, ctx: Ctx): seq<Field> {
    var withSession := AddKeyToEventIfExists(fields, ctx, SessionIdTrackingKey);
    var withBrowser := AddKeyToEventIfExists(withSession, ctx, BrowserIdTrackingKey);
    AddKeyToEventIfExists(withBrowser, ctx, BrowserProfileTrackingKey)
  }

  /** Where a tracking key stands in the hook's order. */
  function KeyRank(key: string): nat
    requires key in TrackingKeys
  {
    if key == SessionIdTrackingKey then 0 else if key == BrowserIdTrackingKey then 1 else 2
  }

  /** Field f comes before field g in the hook's order. */
  predicate Precedes(f: Field, g: Field) {
    f.key in TrackingKeys && g.key in TrackingKeys && KeyRank(f.key) < KeyRank(g.key)
  }

  predicate InTrackingOrder(added: seq<Field>) {
    forall i, j :: 0 <= i < j < |added| ==> Precedes(added[i], added[j])
  }

  /** The field a tracking key contributes, as a sequence of at most one element. */
  function Piece(ctx: Ctx, key: string): seq<Field> {
    if Traced(ctx, key).Some? then [Field(key, Traced(ctx, key).value)] else []
  }

  /** The fields the hook adds, tracking key by tracking key. */
  function Added(ctx: Ctx): seq<Field> {
    Piece(ctx, SessionIdTrackingKey) + Piece(ctx, BrowserIdTrackingKey) + Piece(ctx, BrowserProfileTrackingKey)
  }

  lemma AddedMembership(ctx: Ctx)
    ensures forall f :: f in Added(ctx) <==> f.key in TrackingKeys && Traced(ctx, f.key) == Some(f.value)
  {
    var s, b, p := Piece(ctx, SessionIdTrackingKey), Piece(ctx, BrowserIdTrackingKey), Piece(ctx, BrowserProfileTrackingKey);
    forall f ensures f in s + b + p <==> f in s || f in b || f in p {
    }
  }

  lemma OrderConcat(x: seq<Field>, y: seq<Field>)
    requires InTrackingOrder(x) && InTrackingOrder(y)
    requires forall f, g :: f in x && g in y ==> Precedes(f, g)
    ensures InTrackingOrder(x + y)
  {
    var z := x + y;
    forall i, j | 0 <= i < j < |z|
      ensures Precedes(z[i], z[j])
    {
      if j < |x| {
        assert z[i] == x[i] && z[j] == x[j];
      } else if i >= |x| {
        assert z[i] == y[i - |x|] && z[j] == y[j - |x|];
      } else {
        assert z[i] == x[i] && z[j] == y[j - |x|];
        assert x[i] in x && y[j - |x|] in y;
      }
    }
  }

  lemma AddedOrder(ctx: Ctx)
    ensures InTrackingOrder(Added(ctx))
  {
    var s, b, p := Piece(ctx, SessionIdTrackingKey), Piece(ctx, BrowserIdTrackingKey), Piece(ctx, BrowserProfileTrackingKey);
    OrderConcat(s, b);
    OrderConcat(s + b, p);
  }

  /** The hook keeps the event's fields, then adds exactly the traced tracking keys, each once,
      in the order sessionId, browserId, browserProfile. */
  lemma RunFields(fields: seq<Field>, ctx: Ctx)
    ensures |Run(fields, ctx)| >= |fields| && Run(fields, ctx)[..|fields|] == fields
    ensures forall f :: f in Run(fields, ctx)[|fields|..] <==>
      f.key in TrackingKeys && Traced(ctx, f.key) == Some(f.value)
    ensures InTrackingOrder(Run(fields, ctx)[|fields|..])
  {
    assert Run(fields, ctx) == fields + Added(ctx);
    assert Run(fields, ctx)[|fields|..] == Added(ctx);
    AddedMembership(ctx);
    AddedOrder(ctx);
  }

  /** A context with nothing traced adds no field; one that holds only Nil as its session id
      (as an instance released for reuse does) adds none for it. */
  lemma NilSessionNotTraced(fields: seq<Field>, ctx: Ctx)
    requires SessionIdTrackingKey in ctx && ctx[SessionIdTrackingKey] == UuidVal(Nil)
    ensures forall f :: f in Run(fields, ctx)[|fields|..] ==> f.key != SessionIdTrackingKey
  {
    RunFields(fields, ctx);
  }

  /** zerolog's numeric levels. */
  function LevelRank(l: Level): int {
    match l
    case Trace => -1
    case Debug => 0
    case Info => 1
    case Warn => 2
    case Error => 3
    case Fatal => 4
    case Panic => 5
  }

  /** The level filter set by Level(conf.LogLevel): an event is written iff its level is at or
      above the configured one. */
  predicate Enabled(configured: Level, event: Level) {
    LevelRank(event) >= LevelRank(configured)
  }

  /** A logger at the default info level drops debug and trace events and keeps the rest;
      one at debug level keeps all but trace. */
  lemma LevelFilter(event: Level)
    ensures Enabled(Info, event) <==> event != Debug && event != Trace
    ensures Enabled(Debug, event) <==> event != Trace
  {
  }

  datatype Output = ConsoleStdout | Stderr | RotatingFile(path: string, maxBackups: nat, maxAgeDays: nat, compress: bool)

  /** logger.Get: console output on standard output, unless a log file is configured, in which
      case standard error plus a rotating file (10 backups, 14 days, compressed). */
  function Outputs(conf: LoggerConfig): (r: seq<Output>)
    ensures conf.logFilePath == "" <==> r == [ConsoleStdout]
    ensures conf.logFilePath != "" ==> Stderr in r && RotatingFile(conf.logFilePath, 10, 14, true) in r
    ensures ConsoleStdout in r ==> |r| == 1
  {
    if |conf.logFilePath| > 0 then [Stderr, RotatingFile(conf.logFilePath, 10, 14, true)] else [ConsoleStdout]
  }
}
