/** The chrome package: one Chromium instance. NewChrome's launch flags and initial state, the
    session and idle state the pool and the proxy drive, the browser-event listener, the
    per-tick idle and shutdown decision, and the metadata read from the running browser.
    Launching the process, the DevTools calls and the HTTP fetch of /json/version are outcomes
    given as parameters. Tickers and goroutines are left out: each tick or browser event is one
    call, and a send on the event channel is an append to the receiver's log. */
module Chrome {
  import opened Wrappers
  import opened Strconv
  import opened Uuids
  import opened Config
  import opened Logger
  import opened ChromeProfile

  datatype EventType = TargetToDestroy | BrowserDestroyed | BrowserIdle

  datatype EventData = EventData(browserId: UUID, eventType: EventType)

  /** The channel every instance of a pool reports to: the events sent on it, in order. */
  class EventReceiver {
    var sent: seq<EventData>

    constructor ()
      ensures sent == []
    {
      sent := [];
    }
  }

  /** A chromedp.Flag: a named command-line switch with a string or boolean value. */
  datatype FlagValue = Text(text: string) | Switch(on: bool)
  datatype Flag = Flag(name: string, value: FlagValue)

  datatype CreateChromePayload = CreateChromePayload(
    port: int, sessionId: UUID, eventReceiver: EventReceiver, options: ChromeConfigOptions)

  /** The profile directory the instance is started with: the stored profile for the requested
      tag, only when custom profiles are enabled and a tag is requested. */
  function ProfileDirectory(conf: ChromeConfig, options: ChromeConfigOptions, profiles: map<string, string>): Option<string> {
    if conf.enableCustomChromeProfiles && |options.profile| > 0 && options.profile in profiles
    then Some(profiles[options.profile]) else None
  }

  /** The flags NewChrome appends to chromedp's defaults: the debugging port and disabled
      extensions, then the profile flags when a stored profile applies, then headless=false
      when the configuration turns headless mode off. */
  function AddedFlags(port: int, conf: ChromeConfig, options: ChromeConfigOptions, profiles: map<string, string>): seq<Flag> {
    var profileFlags := match ProfileDirectory(conf, options, profiles)
      case Some(dir) => [Flag("user-data-dir", Text(ProfilesDir)), Flag("profile-directory", Text(dir))]
      case None => [];
    var headlessFlags := if !conf.headless then [Flag("headless", Switch(conf.headless))] else [];
    [Flag("remote-debugging-port", Text(Itoa(port))), Flag("disable-extensions", Switch(true))] + profileFlags + headlessFlags
  }

  /** NewChrome's flags: chromedp's defaults, then the added ones. */
  function LaunchFlags(defaults: seq<Flag>, port: int, conf: ChromeConfig, options: ChromeConfigOptions,
                       profiles: map<string, string>): (flags: seq<Flag>)
    ensures |flags| >= |defaults| && flags[..|defaults|] == defaults
    ensures flags[|defaults|..] == AddedFlags(port, conf, options, profiles)
  {
    var added := AddedFlags(port, conf, options, profiles);
    assert (defaults + added)[|defaults|..] == added;
    defaults + added
  }

  /** The first two added flags are always the debugging port and disabled extensions; the
      profile flags are present exactly when a stored profile applies, naming its directory;
      a headless flag is present exactly when headless mode is off, and then it is false and
      last. */
  lemma AddedFlagsShape(port: int, conf: ChromeConfig, options: ChromeConfigOptions, profiles: map<string, string>)
    ensures |AddedFlags(port, conf, options, profiles)| >= 2
    ensures AddedFlags(port, conf, options, profiles)[0] == Flag("remote-debugging-port", Text(Itoa(port)))
    ensures AddedFlags(port, conf, options, profiles)[1] == Flag("disable-extensions", Switch(true))
    ensures forall dir :: Flag("profile-directory", Text(dir)) in AddedFlags(port, conf, options, profiles) <==>
      ProfileDirectory(conf, options, profiles) == Some(dir)
    ensures Flag("user-data-dir", Text(ProfilesDir)) in AddedFlags(port, conf, options, profiles) <==>
      ProfileDirectory(conf, options, profiles).Some?
    ensures (exists on :: Flag("headless", Switch(on)) in AddedFlags(port, conf, options, profiles)) <==> !conf.headless
    ensures !conf.headless ==>
      AddedFlags(port, conf, options, profiles)[|AddedFlags(port, conf, options, profiles)| - 1] == Flag("headless", Switch(false))
  {
    var fixed := [Flag("remote-debugging-port", Text(Itoa(port))), Flag("disable-extensions", Switch(true))];
    var profileFlags := match ProfileDirectory(conf, options, profiles)
      case Some(dir) => [Flag("user-data-dir", Text(ProfilesDir)), Flag("profile-directory", Text(dir))]
      case None => [];
    var headlessFlags := if !conf.headless then [Flag("headless", Switch(conf.headless))] else [];
    var added := AddedFlags(port, conf, options, profiles);
    assert added == fixed + profileFlags + headlessFlags;
    forall f ensures f in added <==> f in fixed || f in profileFlags || f in headlessFlags {
    }
    if !conf.headless {
      assert Flag("headless", Switch(false)) in headlessFlags;
    }
  }

  /** The logging context NewChrome attaches to the instance. */
  function InitialLogCtx(sessionId: UUID, profile: string): (ctx: Ctx)
    ensures Traced(ctx, SessionIdTrackingKey) == if sessionId != Nil then Some(Format(sessionId)) else None
    ensures Traced(ctx, BrowserProfileTrackingKey) == if profile != "" then Some(profile) else None
    ensures Traced(ctx, BrowserIdTrackingKey) == None
  {
    var empty: Ctx := map[];
    var withSession := if sessionId != Nil then empty[SessionIdTrackingKey := UuidVal(sessionId)] else empty;
    if |profile| > 0 then withSession[BrowserProfileTrackingKey := StrVal(profile)] else withSession
  }

  /** A DevTools event the browser listener receives. */
  datatype BrowserEvent = TargetDestroyed(targetId: string) | OtherBrowserEvent

  /** What one tick of the instance's ticker does. */
  datatype TickAction = SetIdle | ReportIdle | HintAutoShutdown | NoAction

  /** onTick's decision for one tick at time `now` (nanoseconds), with both comparisons strict
      as time.After is: an instance in use past the idle timeout is released; otherwise one
      past the shutdown timeout is reported to the pool, or, with auto-shutdown disabled,
      the hint to enable it is logged. */
  function TickDecision(now: int, last: int, isIdle: bool, conf: ChromeConfig): TickAction {
    if now > last + conf.browserAutoSetIdleTimeout && !isIdle then SetIdle
    else if now > last + conf.browserAutoShutdownTimeout then
      if conf.enableBrowserAutoShutdown then ReportIdle else HintAutoShutdown
    else NoAction
  }

  /** Before both deadlines a tick does nothing; with auto-shutdown enabled and the idle timeout
      no longer than the shutdown timeout, an instance is reported to the pool exactly when it
      is idle and past the shutdown deadline, so an instance in use is never reported. */
  lemma TickDeadlines(now: int, last: int, isIdle: bool, conf: ChromeConfig)
    ensures now <= last + conf.browserAutoSetIdleTimeout && now <= last + conf.browserAutoShutdownTimeout ==>
      TickDecision(now, last, isIdle, conf) == NoAction
    ensures conf.enableBrowserAutoShutdown && conf.browserAutoSetIdleTimeout <= conf.browserAutoShutdownTimeout ==>
      (TickDecision(now, last, isIdle, conf) == ReportIdle <==> isIdle && now > last + conf.browserAutoShutdownTimeout)
    ensures TickDecision(now, last, isIdle, conf) == SetIdle ==> !isIdle
  {
  }

  /** The regular expression's match at position i: 36 characters of the 8-4-4-4-12 hex shape. */
  predicate UuidAt(s: string, i: int) {
    0 <= i && i + 36 <= |s| && IsUuidText(s[i..i + 36])
  }

  /** The leftmost match position at or after `from`. */
  function FirstUuidFrom(s: string, from: nat): (r: Option<nat>)
    ensures r.Some? ==> from <= r.value && UuidAt(s, r.value)
    ensures r.Some? ==> forall j :: from <= j < r.value ==> !UuidAt(s, j)
    ensures r.None? ==> forall j :: from <= j ==> !UuidAt(s, j)
    decreases |s| - from
  {
    if from + 36 > |s| then None
    else if IsUuidText(s[from..from + 36]) then Some(from)
    else FirstUuidFrom(s, from + 1)
  }

  /** regexp.FindString with the UUID pattern: the leftmost match, or "" when there is none. */
  function FindUuid(s: string): (r: string)
    ensures r == "" <==> forall j :: !UuidAt(s, j)
    ensures r != "" ==> IsUuidText(r)
  {
    match FirstUuidFrom(s, 0)
    case None => ""
    case Some(i) => s[i..i + 36]
  }

  /** The error fetchAndSetMeta returns: the fetch error, no browser id in the debugger URL,
      the target-list error, or an empty target list, in that order. */
  function MetaError(version: Result<string>, targets: Result<seq<string>>): (err: Option<string>)
    ensures err.None? <==> version.Ok? && FindUuid(version.value) != "" && targets.Ok? && |targets.value| > 0
    ensures version.Ok? && FindUuid(version.value) == "" ==> err == Some("unable to parse browser id")
  {
    if version.Err? then Some(version.error)
    else if FindUuid(version.value) == "" then Some("unable to parse browser id")
    else if targets.Err? then Some(targets.error)
    else if |targets.value| < 1 then Some("no targets created")
    else None
  }

  class Chrome {
    const port: int
    const conf: ChromeConfig
    const options: ChromeConfigOptions
    const flags: seq<Flag>
    const receiver: EventReceiver
    var sessionId: UUID
    var logCtx: Ctx
    var debugUrl: string
    var browserId: UUID
    var firstPageTargetId: string
    var isIdle: bool
    var isNew: bool
    var isPaused: bool
    var lastEventTimestamp: int
    var idleHintLogged: bool
    var cancelled: bool

    /** NewChrome: the instance starts idle, new and with its ticker paused. */
    constructor (payload: CreateChromePayload, conf: ChromeConfig, defaults: seq<Flag>, store: ProfileStore)
      ensures port == payload.port && sessionId == payload.sessionId && options == payload.options
      ensures this.conf == conf && receiver == payload.eventReceiver
      ensures flags == LaunchFlags(defaults, payload.port, conf, payload.options, store.tagProfileMap)
      ensures logCtx == InitialLogCtx(payload.sessionId, payload.options.profile)
      ensures isIdle && isNew && isPaused && !idleHintLogged && !cancelled
      ensures debugUrl == "" && browserId == Nil && firstPageTargetId == ""
    {
      var opts := defaults + [Flag("remote-debugging-port", Text(Itoa(payload.port))), Flag("disable-extensions", Switch(true))];
      if conf.enableCustomChromeProfiles && |payload.options.profile| > 0 {
        var profile, found := store.GetProfileByTag(payload.options.profile);
        if found {
          opts := opts + [Flag("user-data-dir", Text(ProfilesDir))];
          opts := opts + [Flag("profile-directory", Text(profile))];
        }
      }
      if !conf.headless {
        opts := opts + [Flag("headless", Switch(conf.headless))];
      }
      var ctx: Ctx := map[];
      if payload.sessionId != Nil {
        ctx := ctx[SessionIdTrackingKey := UuidVal(payload.sessionId)];
      }
      if |payload.options.profile| > 0 {
        ctx := ctx[BrowserProfileTrackingKey := StrVal(payload.options.profile)];
      }
      port, sessionId, options, this.conf := payload.port, payload.sessionId, payload.options, conf;
      receiver, flags, logCtx := payload.eventReceiver, opts, ctx;
      debugUrl, browserId, firstPageTargetId := "", Nil, "";
      isIdle, isNew, isPaused := true, true, true;
      lastEventTimestamp, idleHintLogged, cancelled := 0, false, false;
    }

    method SetSessionId(id: UUID)
      modifies this`sessionId, this`logCtx
      ensures sessionId == id && logCtx == old(logCtx)[SessionIdTrackingKey := UuidVal(id)]
    {
      sessionId := id;
      logCtx := logCtx[SessionIdTrackingKey := UuidVal(id)];
    }

    /** Marks the instance in use; once it has been in use it is never new again. */
    method SetNotIdle()
      modifies this`isIdle, this`isNew
      ensures !isIdle && !isNew
    {
      isIdle := false;
      isNew := false;
    }

    /** Ends a session: with reuse enabled the instance becomes idle for the next session;
        otherwise, if it carried a session, the pool is told the browser is destroyed. */
    method SetIdleOrStop()
      modifies this`isIdle, this`sessionId, this`logCtx, receiver`sent
      ensures conf.enableBrowserReuse ==>
        isIdle && sessionId == Nil && logCtx == old(logCtx)[SessionIdTrackingKey := UuidVal(Nil)] &&
        receiver.sent == old(receiver.sent)
      ensures !conf.enableBrowserReuse && old(sessionId) != Nil ==>
        isIdle == old(isIdle) && sessionId == Nil && logCtx == old(logCtx)[SessionIdTrackingKey := UuidVal(Nil)] &&
        receiver.sent == old(receiver.sent) + [EventData(browserId, BrowserDestroyed)]
      ensures !conf.enableBrowserReuse && old(sessionId) == Nil ==>
        isIdle == old(isIdle) && sessionId == Nil && logCtx == old(logCtx) && receiver.sent == old(receiver.sent)
    {
      if conf.enableBrowserReuse {
        isIdle := true;
        SetSessionId(Nil);
      } else if sessionId != Nil {
        SetSessionId(Nil);
        receiver.sent := receiver.sent + [EventData(browserId, BrowserDestroyed)];
      }
    }

    /** Stops the ticker; a paused ticker stays paused. */
    method PauseTicker()
      modifies this`isPaused
      ensures isPaused
    {
      if !isPaused {
        isPaused := true;
      }
    }

    /** Starts the ticker and the idle clock; a running ticker is left as it is. */
    method StartTicker(now: int)
      modifies this`isPaused, this`lastEventTimestamp
      ensures !isPaused
      ensures old(isPaused) ==> lastEventTimestamp == now
      ensures !old(isPaused) ==> lastEventTimestamp == old(lastEventTimestamp)
    {
      if isPaused {
        isPaused := false;
        lastEventTimestamp := now;
      }
    }

    /** Stop: pauses the ticker and cancels the browser's contexts. */
    method Stop()
      modifies this`isPaused, this`cancelled
      ensures isPaused && cancelled
    {
      PauseTicker();
      cancelled := true;
    }

    /** onBrowserEvent: the first page's target closing means the browser is gone; any other
        event is activity. */
    method OnBrowserEvent(ev: BrowserEvent, now: int)
      modifies receiver`sent, this`lastEventTimestamp
      ensures ev.TargetDestroyed? && ev.targetId == firstPageTargetId ==>
        receiver.sent == old(receiver.sent) + [EventData(browserId, BrowserDestroyed)] &&
        lastEventTimestamp == old(lastEventTimestamp)
      ensures ev.TargetDestroyed? && ev.targetId != firstPageTargetId ==>
        receiver.sent == old(receiver.sent) && lastEventTimestamp == old(lastEventTimestamp)
      ensures ev.OtherBrowserEvent? ==> receiver.sent == old(receiver.sent) && lastEventTimestamp == now
    {
      match ev
      case TargetDestroyed(targetId) =>
        if targetId == firstPageTargetId {
          receiver.sent := receiver.sent + [EventData(browserId, BrowserDestroyed)];
        }
      case OtherBrowserEvent =>
        lastEventTimestamp := now;
    }

    /** One tick of a running ticker at time `now`. */
    method OnTick(now: int)
      requires !isPaused
      modifies this`isIdle, this`sessionId, this`logCtx, receiver`sent, this`idleHintLogged
      ensures TickDecision(now, lastEventTimestamp, old(isIdle), conf) == SetIdle ==>
        isIdle == conf.enableBrowserReuse && sessionId == Nil && idleHintLogged == old(idleHintLogged) &&
        receiver.sent == old(receiver.sent) +
          (if !conf.enableBrowserReuse && old(sessionId) != Nil then [EventData(browserId, BrowserDestroyed)] else []) &&
        logCtx == if conf.enableBrowserReuse || old(sessionId) != Nil
                  then old(logCtx)[SessionIdTrackingKey := UuidVal(Nil)] else old(logCtx)
      ensures TickDecision(now, lastEventTimestamp, old(isIdle), conf) == ReportIdle ==>
        receiver.sent == old(receiver.sent) + [EventData(browserId, BrowserIdle)] &&
        isIdle == old(isIdle) && sessionId == old(sessionId) && idleHintLogged == old(idleHintLogged) &&
        logCtx == old(logCtx)
      ensures TickDecision(now, lastEventTimestamp, old(isIdle), conf) == HintAutoShutdown ==>
        idleHintLogged && receiver.sent == old(receiver.sent) && isIdle == old(isIdle) && sessionId == old(sessionId) &&
        logCtx == old(logCtx)
      ensures TickDecision(now, lastEventTimestamp, old(isIdle), conf) == NoAction ==>
        receiver.sent == old(receiver.sent) && isIdle == old(isIdle) && sessionId == old(sessionId) &&
        idleHintLogged == old(idleHintLogged) && logCtx == old(logCtx)
    {
      if now > lastEventTimestamp + conf.browserAutoSetIdleTimeout && !isIdle {
        SetIdleOrStop();
        return;
      }
      if now > lastEventTimestamp + conf.browserAutoShutdownTimeout {
        if conf.enableBrowserAutoShutdown {
          receiver.sent := receiver.sent + [EventData(browserId, BrowserIdle)];
        } else {
          idleHintLogged := true;
        }
      }
    }

    /** fetchAndSetMeta: the debugger URL from /json/version (`version`, or the error fetching
        and decoding it), the browser id found in it, and the first page's target, which is the
        last of the browser's targets. Each step returns before the later fields are set. */
    method FetchAndSetMeta(version: Result<string>, targets: Result<seq<string>>) returns (err: Option<string>)
      modifies this`debugUrl, this`logCtx, this`browserId, this`firstPageTargetId
      ensures err == MetaError(version, targets)
      ensures version.Err? ==> debugUrl == old(debugUrl)
      ensures version.Ok? ==> debugUrl == version.value
      ensures version.Err? || FindUuid(version.value) == "" ==>
        logCtx == old(logCtx) && browserId == old(browserId)
      ensures version.Ok? && FindUuid(version.value) != "" ==>
        logCtx == old(logCtx)[BrowserIdTrackingKey := StrVal(FindUuid(version.value))] &&
        browserId == Parse(FindUuid(version.value))
      ensures err.Some? ==> firstPageTargetId == old(firstPageTargetId)
      ensures err.None? ==> firstPageTargetId == targets.value[|targets.value| - 1]
    {
      if version.Err? {
        return Some(version.error);
      }
      debugUrl := version.value;
      var id := FindUuid(debugUrl);
      if |id| == 0 {
        return Some("unable to parse browser id");
      }
      logCtx := logCtx[BrowserIdTrackingKey := StrVal(id)];
      browserId := Parse(id);
      if targets.Err? {
        return Some(targets.error);
      }
      if |targets.value| < 1 {
        return Some("no targets created");
      }
      firstPageTargetId := targets.value[|targets.value| - 1];
      return None;
    }

    /** Start: runs the browser (`runErr` is chromedp.Run's outcome), reads its metadata, then
        starts the ticker. */
    method Start(runErr: Option<string>, version: Result<string>, targets: Result<seq<string>>, now: int)
      returns (err: Option<string>)
      modifies this`debugUrl, this`logCtx, this`browserId, this`firstPageTargetId, this`isPaused, this`lastEventTimestamp
      ensures err == if runErr.Some? then runErr else MetaError(version, targets)
      ensures runErr.Some? ==>
        debugUrl == old(debugUrl) && browserId == old(browserId) && logCtx == old(logCtx) &&
        firstPageTargetId == old(firstPageTargetId)
      // Once the browser runs, the metadata fields are as far as fetchAndSetMeta got.
      ensures runErr.None? && version.Err? ==> debugUrl == old(debugUrl)
      ensures runErr.None? && version.Ok? ==> debugUrl == version.value
      ensures runErr.None? && (version.Err? || FindUuid(version.value) == "") ==>
        logCtx == old(logCtx) && browserId == old(browserId)
      ensures runErr.None? && version.Ok? && FindUuid(version.value) != "" ==>
        logCtx == old(logCtx)[BrowserIdTrackingKey := StrVal(FindUuid(version.value))] &&
        browserId == Parse(FindUuid(version.value))
      ensures err.Some? ==> firstPageTargetId == old(firstPageTargetId)
      ensures err.Some? ==> isPaused == old(isPaused) && lastEventTimestamp == old(lastEventTimestamp)
      ensures err.None? ==>
        debugUrl == version.value && browserId == Parse(FindUuid(version.value)) &&
        firstPageTargetId == targets.value[|targets.value| - 1] && !isPaused &&
        lastEventTimestamp == (if old(isPaused) then now else old(lastEventTimestamp))
    {
      if runErr.Some? {
        return runErr;
      }
      err := FetchAndSetMeta(version, targets);
      if err.Some? {
        return err;
      }
      StartTicker(now);
    }
  }
}
