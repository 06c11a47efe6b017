/** The chromepool package: the ordered pool of Chromium instances, the FIFO list of free
    debug ports, creation bounded by MAX_BROWSER_INSTANCES, removal that tops the pool back up to
    MIN_BROWSER_INSTANCES, the lookups, and the decision ladder that hands an instance to a
    session. Each method that takes the pool's mutex is one sequential step. What the outside
    world does when an instance is created (the port freeport finds, the browser's start-up) is
    a Launch parameter. */
module ChromePool {
  import opened Wrappers
  import opened Uuids
  import opened Config
  import opened ChromeProfile
  import C = Chrome
  import Logger

  const MaxInstancesError := "MAX_BROWSER_INSTANCES have been created already"
  const NoDebugPortsError := "no available debug ports"
  const NoBrowserError := "no browser available for use"

  /** What creating one instance meets: freeport's answer, chromedp.Run's outcome, the
      /json/version debugger URL, the browser's targets, and the time the ticker starts. */
  datatype Launch = Launch(freePort: Result<int>, runErr: Option<string>, version: Result<string>,
                           targets: Result<seq<string>>, now: int)

  /** The browser starts and its metadata can be read. */
  predicate Starts(launch: Launch) {
    launch.runErr.None? && C.MetaError(launch.version, launch.targets).None?
  }

  predicate IdleWith(c: C.Chrome, hash: string)
    reads c
  {
    c.isIdle && c.options.hash == hash
  }

  /** The position of the first idle instance with options hash `hash`, or |s| if none. */
  function IdleIndex(s: seq<C.Chrome>, hash: string): (k: nat)
    reads s
    ensures k <= |s|
    ensures k < |s| ==> IdleWith(s[k], hash)
    ensures forall i :: 0 <= i < k ==> !IdleWith(s[i], hash)
    decreases |s|
  {
    if s == [] then 0 else if IdleWith(s[0], hash) then 0 else 1 + IdleIndex(s[1..], hash)
  }

  /** The position of the first instance with browser id `id`, or |s| if none. */
  function BrowserIndex(s: seq<C.Chrome>, id: UUID): (k: nat)
    reads s
    ensures k <= |s|
    ensures k < |s| ==> s[k].browserId == id
    ensures forall i :: 0 <= i < k ==> s[i].browserId != id
    decreases |s|
  {
    if s == [] then 0 else if s[0].browserId == id then 0 else 1 + BrowserIndex(s[1..], id)
  }

  /** The debug ports the instances hold, in pool order. */
  function InstancePorts(s: seq<C.Chrome>): (r: seq<int>)
    ensures |r| == |s|
  {
    if s == [] then [] else [s[0].port] + InstancePorts(s[1..])
  }

  lemma {:induction false} InstancePortsConcat(a: seq<C.Chrome>, b: seq<C.Chrome>)
    ensures InstancePorts(a + b) == InstancePorts(a) + InstancePorts(b)
    decreases |a|
  {
    if a == [] {
      assert a + b == b;
    } else {
      assert (a + b)[0] == a[0] && (a + b)[1..] == a[1..] + b;
      InstancePortsConcat(a[1..], b);
      var p, pa, pb := [a[0].port], InstancePorts(a[1..]), InstancePorts(b);
      assert p + (pa + pb) == (p + pa) + pb;
    }
  }

  lemma InstancePortsStep(s: seq<C.Chrome>, n: nat)
    requires n < |s|
    ensures s[..n + 1] == s[..n] + [s[n]]
    ensures InstancePorts(s[..n + 1]) == InstancePorts(s[..n]) + [s[n].port]
  {
    assert s[..n + 1] == s[..n] + [s[n]];
    InstancePortsConcat(s[..n], [s[n]]);
  }

  /** Handing the head of the free list to a new instance keeps the port pool. */
  lemma PortMovedToInstance(free: seq<int>, pool: seq<C.Chrome>, c: C.Chrome)
    requires |free| > 0 && c.port == free[0]
    ensures multiset(free) + multiset(InstancePorts(pool)) == multiset(free[1..]) + multiset(InstancePorts(pool + [c]))
  {
    InstancePortsConcat(pool, [c]);
    assert free == [free[0]] + free[1..];
  }

  /** Taking one element out of a sequence takes one copy of it out of its multiset. */
  lemma MultisetSplice(a: seq<int>, x: int, b: seq<int>)
    ensures multiset(a + ([x] + b)) == multiset(a + b) + multiset{x}
  {
  }

  lemma InstancePortsCons(c: C.Chrome, b: seq<C.Chrome>)
    ensures InstancePorts([c] + b) == [c.port] + InstancePorts(b)
  {
    assert ([c] + b)[0] == c && ([c] + b)[1..] == b;
  }

  /** The instances' ports around the instance at index k. */
  lemma InstancePortsSplit(s: seq<C.Chrome>, k: nat)
    requires k < |s|
    ensures InstancePorts(s) == InstancePorts(s[..k]) + ([s[k].port] + InstancePorts(s[k + 1..]))
  {
    var a, cb := s[..k], s[k..];
    assert s == a + cb;
    InstancePortsConcat(a, cb);
    assert cb == [s[k]] + s[k + 1..];
    InstancePortsCons(s[k], s[k + 1..]);
  }

  /** Removing the instance at index k moves its port out of the instances' ports. */
  lemma InstancePortsWithout(s: seq<C.Chrome>, k: nat)
    requires k < |s|
    ensures multiset(InstancePorts(s)) == multiset(InstancePorts(s[..k] + s[k + 1..])) + multiset{s[k].port}
  {
    InstancePortsSplit(s, k);
    InstancePortsConcat(s[..k], s[k + 1..]);
    MultisetSplice(InstancePorts(s[..k]), s[k].port, InstancePorts(s[k + 1..]));
  }

  /** The pool after the instance at index k of `before` was removed: the others in their
      order, then at most one replacement, which is a new idle instance with no session and
      the default options and is only started when the pool fell below the minimum. */
  predicate RemovalOutcome(before: seq<C.Chrome>, k: nat, after: seq<C.Chrome>, min: int, defaultOptions: ChromeConfigOptions)
    reads after
  {
    k < |before| &&
    (|after| == |before| - 1 || (|after| == |before| && |before| - 1 < min)) &&
    after[..|before| - 1] == before[..k] + before[k + 1..] &&
    (|after| == |before| ==>
      after[|after| - 1] !in before && after[|after| - 1].sessionId == Nil && after[|after| - 1].options == defaultOptions &&
      after[|after| - 1].isIdle && after[|after| - 1].isNew)
  }

  lemma RemovalOutcomeIntro(before: seq<C.Chrome>, k: nat, rest: seq<C.Chrome>, after: seq<C.Chrome>,
                            min: int, defaultOptions: ChromeConfigOptions)
    requires k < |before| && rest == before[..k] + before[k + 1..]
    requires after == rest ||
      (|rest| < min && |after| == |rest| + 1 && after[..|rest|] == rest && after[|rest|] !in before &&
       after[|rest|].sessionId == Nil && after[|rest|].options == defaultOptions &&
       after[|rest|].isIdle && after[|rest|].isNew)
    ensures RemovalOutcome(before, k, after, min, defaultOptions)
  {
    if after == rest {
      assert after[..|before| - 1] == after;
    }
  }

  /** Removing one instance from a pool of n brings a replacement: the pool falls below MIN
      while still below MAX, a port is at hand (with fixed ports the one just freed always is)
      and the browser starts. */
  predicate Replenishes(n: int, c: Config, launch: Launch) {
    n - 1 < c.chromePool.minBrowserInstances && n - 1 < c.chromePool.maxBrowserInstances &&
    (c.chromePool.enableAutoAssignDebugPort ==> launch.freePort.Ok?) && Starts(launch)
  }

  /** With fixed ports, the replacement after removing one instance from a pool of n is tried
      and pops the head of the free list, whether or not its browser then starts. */
  predicate TriesFixedPort(n: int, c: Config) {
    !c.chromePool.enableAutoAssignDebugPort &&
    n - 1 < c.chromePool.minBrowserInstances && n - 1 < c.chromePool.maxBrowserInstances
  }

  /** The free list after an instance holding `freed` left a pool of n: the freed port goes to
      the back, and a tried replacement with fixed ports pops the head. */
  function FreeAfterRemoval(free: seq<int>, freed: int, n: int, c: Config): (r: seq<int>)
    ensures |r| == |free| + 1 || (TriesFixedPort(n, c) && |r| == |free|)
  {
    if TriesFixedPort(n, c) then (free + [freed])[1..] else free + [freed]
  }

  /** What removing the instance at index k and replenishing leaves: the outcome's shape, a
      replacement exactly when `Replenishes`, the free list, and the replacement's port. */
  predicate RemovedWith(before: seq<C.Chrome>, k: nat, after: seq<C.Chrome>, free: seq<int>, freeAfter: seq<int>,
                        c: Config, launch: Launch)
    reads after
  {
    RemovalOutcome(before, k, after, c.chromePool.minBrowserInstances, c.chrome.defaultOptions) &&
    (|after| == |before| <==> Replenishes(|before|, c, launch)) &&
    freeAfter == FreeAfterRemoval(free, before[k].port, |before|, c) &&
    (|after| == |before| ==>
      after[|after| - 1].port == if c.chromePool.enableAutoAssignDebugPort then launch.freePort.value else (free + [before[k].port])[0])
  }

  /** With fixed ports, removal and replenishment keep every port, free or held, except the one
      popped for a replacement whose browser does not start, which is lost. */
  lemma RemovalPorts(before: seq<C.Chrome>, k: nat, after: seq<C.Chrome>, free: seq<int>, freeAfter: seq<int>,
                     c: Config, launch: Launch)
    requires RemovedWith(before, k, after, free, freeAfter, c, launch)
    requires !c.chromePool.enableAutoAssignDebugPort
    ensures !TriesFixedPort(|before|, c) || Starts(launch) ==>
      multiset(freeAfter) + multiset(InstancePorts(after)) == multiset(free) + multiset(InstancePorts(before))
    ensures TriesFixedPort(|before|, c) && !Starts(launch) ==>
      multiset(freeAfter) + multiset(InstancePorts(after)) + multiset{(free + [before[k].port])[0]} ==
      multiset(free) + multiset(InstancePorts(before))
  {
    var n, pushed := |before|, free + [before[k].port];
    assert |after| == n <==> TriesFixedPort(n, c) && Starts(launch);
    RemovalPortsCore(before, k, after, free, freeAfter, TriesFixedPort(n, c));
  }

  /** What removeInstanceByBrowserIdWLocked leaves, from what its two steps state: `rest` and
      `mid` are the pool and the free list once the instance at k is spliced out, and a
      replacement is tried iff the pool fell below MIN; createChromeWLocked then succeeds iff
      the pool is below MAX, a port is at hand and the browser starts, and with fixed ports it
      pops the head of the free list whenever it gets that far. */
  lemma ReplenishedAfterRemoval(before: seq<C.Chrome>, k: nat, rest: seq<C.Chrome>, after: seq<C.Chrome>,
                                free: seq<int>, mid: seq<int>, freeAfter: seq<int>, c: Config, launch: Launch,
                                created: bool)
    requires k < |before| && rest == before[..k] + before[k + 1..] && mid == free + [before[k].port]
    requires |rest| >= c.chromePool.minBrowserInstances ==> after == rest && freeAfter == mid
    requires |rest| < c.chromePool.minBrowserInstances ==>
      (created <==> |rest| < c.chromePool.maxBrowserInstances &&
                    (c.chromePool.enableAutoAssignDebugPort ==> launch.freePort.Ok?) && Starts(launch)) &&
      freeAfter == (if !c.chromePool.enableAutoAssignDebugPort && |rest| < c.chromePool.maxBrowserInstances
                    then mid[1..] else mid) &&
      (!created ==> after == rest) &&
      (created ==>
        |after| == |rest| + 1 && after[..|rest|] == rest && after[|rest|] !in before &&
        after[|rest|].sessionId == Nil && after[|rest|].options == c.chrome.defaultOptions &&
        after[|rest|].isIdle && after[|rest|].isNew &&
        after[|rest|].port == if c.chromePool.enableAutoAssignDebugPort then launch.freePort.value else mid[0])
    ensures RemovedWith(before, k, after, free, freeAfter, c, launch)
  {
    var n := |before|;
    ReplenishCount(n, |rest|, |after|, c, launch, created);
    FreeListAfter(free, before[k].port, mid, freeAfter, n, c);
    RemovalOutcomeIntro(before, k, rest, after, c.chromePool.minBrowserInstances, c.chrome.defaultOptions);
    if |after| == n {
      assert after[|after| - 1] == after[|rest|];
    }
  }

  /** The length half of `ReplenishedAfterRemoval`: the pool is back to n iff `Replenishes`. */
  lemma ReplenishCount(n: int, restLen: int, afterLen: int, c: Config, launch: Launch, created: bool)
    requires restLen == n - 1
    requires restLen >= c.chromePool.minBrowserInstances ==> afterLen == restLen
    requires restLen < c.chromePool.minBrowserInstances ==>
      (created <==> restLen < c.chromePool.maxBrowserInstances &&
                    (c.chromePool.enableAutoAssignDebugPort ==> launch.freePort.Ok?) && Starts(launch)) &&
      afterLen == if created then restLen + 1 else restLen
    ensures afterLen == n <==> Replenishes(n, c, launch)
  {
  }

  /** The free-list half of `ReplenishedAfterRemoval`. */
  lemma FreeListAfter(free: seq<int>, freed: int, mid: seq<int>, freeAfter: seq<int>, n: int, c: Config)
    requires mid == free + [freed]
    requires n - 1 >= c.chromePool.minBrowserInstances ==> freeAfter == mid
    requires n - 1 < c.chromePool.minBrowserInstances ==>
      freeAfter == if !c.chromePool.enableAutoAssignDebugPort && n - 1 < c.chromePool.maxBrowserInstances
                   then mid[1..] else mid
    ensures freeAfter == FreeAfterRemoval(free, freed, n, c)
  {
  }

  /** The port arithmetic of a removal: the freed port is pushed, a tried replacement pops the
      head, and a replacement that is there holds the popped port. */
  lemma RemovalPortsCore(before: seq<C.Chrome>, k: nat, after: seq<C.Chrome>, free: seq<int>, freeAfter: seq<int>,
                         tries: bool)
    requires k < |before| && (|after| == |before| - 1 || |after| == |before|)
    requires after[..|before| - 1] == before[..k] + before[k + 1..]
    requires freeAfter == if tries then (free + [before[k].port])[1..] else free + [before[k].port]
    requires |after| == |before| ==> tries && after[|after| - 1].port == (free + [before[k].port])[0]
    ensures |after| == |before| || !tries ==>
      multiset(freeAfter) + multiset(InstancePorts(after)) == multiset(free) + multiset(InstancePorts(before))
    ensures |after| < |before| && tries ==>
      multiset(freeAfter) + multiset(InstancePorts(after)) + multiset{(free + [before[k].port])[0]} ==
      multiset(free) + multiset(InstancePorts(before))
  {
    var n, rest := |before|, before[..k] + before[k + 1..];
    InstancePortsWithout(before, k);
    if |after| == n {
      ReplacementPorts(rest, after);
    } else {
      assert after == rest by { assert after == after[..n - 1]; }
    }
    PortArithmetic(free, before[k].port, multiset(InstancePorts(before)), multiset(InstancePorts(rest)),
                   multiset(InstancePorts(after)), freeAfter, |after| == n, tries);
  }

  lemma PortArithmetic(free: seq<int>, f: int, mb: multiset<int>, mr: multiset<int>, ma: multiset<int>,
                       freeAfter: seq<int>, replaced: bool, tries: bool)
    requires mb == mr + multiset{f}
    requires freeAfter == if tries then (free + [f])[1..] else free + [f]
    requires replaced ==> tries && ma == mr + multiset{(free + [f])[0]}
    requires !replaced ==> ma == mr
    ensures replaced || !tries ==> multiset(freeAfter) + ma == multiset(free) + mb
    ensures !replaced && tries ==> multiset(freeAfter) + ma + multiset{(free + [f])[0]} == multiset(free) + mb
  {
    var pushed := free + [f];
    var mp := multiset(pushed);
    assert mp == multiset(free) + multiset{f};
    assert mp + mr == multiset(free) + mb;
    if tries {
      PopHead(pushed);
      var tail, head := multiset(pushed[1..]), multiset{pushed[0]};
      assert tail + head == mp;
      if replaced {
        assert tail + (mr + head) == mp + mr;
      } else {
        assert tail + mr + head == mp + mr;
      }
    }
  }

  lemma PopHead(s: seq<int>)
    requires |s| > 0
    ensures multiset(s[1..]) + multiset{s[0]} == multiset(s)
  {
    assert s == [s[0]] + s[1..];
  }

  lemma ReplacementPorts(rest: seq<C.Chrome>, after: seq<C.Chrome>)
    requires |after| == |rest| + 1 && after[..|rest|] == rest
    ensures multiset(InstancePorts(after)) == multiset(InstancePorts(rest)) + multiset{after[|rest|].port}
  {
    assert after == rest + [after[|rest|]];
    InstancePortsConcat(rest, [after[|rest|]]);
    assert InstancePorts([after[|rest|]]) == [after[|rest|].port];
  }

  class ChromePool {
    var instancePool: seq<C.Chrome>
    var availableDebuggingPorts: seq<int>
    /** The event-receiving loop runs until ShutDownPool stops it. */
    var receiving: bool
    const receiver: C.EventReceiver
    const conf: Config
    const store: ProfileStore
    /** chromedp's default launch flags. */
    const defaults: seq<C.Flag>

    /** Creating an instance for `launch` succeeds: the pool is below its maximum, a port is
        at hand and the browser starts. */
    predicate CanCreate(launch: Launch)
      reads this
    {
      |instancePool| < conf.chromePool.maxBrowserInstances &&
      (if conf.chromePool.enableAutoAssignDebugPort then launch.freePort.Ok? else |availableDebuggingPorts| > 0) &&
      Starts(launch)
    }

    /** With fixed ports, creating an instance gets as far as popping the head of the free
        list. */
    predicate TakesPort()
      reads this
    {
      !conf.chromePool.enableAutoAssignDebugPort && |instancePool| < conf.chromePool.maxBrowserInstances &&
      |availableDebuggingPorts| > 0
    }

    /** The free ports plus the ports the instances hold. */
    function PortPool(): multiset<int>
      reads this
    {
      multiset(availableDebuggingPorts) + multiset(InstancePorts(instancePool))
    }

    /** The pool struct Get builds: no instances, the configured debug ports free. */
    constructor (conf: Config, store: ProfileStore, defaults: seq<C.Flag>)
      ensures instancePool == [] && availableDebuggingPorts == conf.chromePool.debugPorts && !receiving
      ensures this.conf == conf && this.store == store && this.defaults == defaults
      ensures fresh(receiver) && receiver.sent == []
    {
      instancePool := [];
      availableDebuggingPorts := conf.chromePool.debugPorts;
      receiving := false;
      receiver := new C.EventReceiver();
      this.conf, this.store, this.defaults := conf, store, defaults;
    }

    /** The reuse step of getAvailableChrome: the idle instance takes the session, is marked
        busy and has its ticker running. */
    static method HandOut(crm: C.Chrome, sessionId: UUID, now: int)
      modifies crm`sessionId, crm`logCtx, crm`isIdle, crm`isNew, crm`isPaused, crm`lastEventTimestamp
      ensures crm.sessionId == sessionId
      ensures crm.logCtx == old(crm.logCtx)[Logger.SessionIdTrackingKey := Logger.UuidVal(sessionId)]
      ensures !crm.isIdle && !crm.isNew && !crm.isPaused
      ensures crm.lastEventTimestamp == if old(crm.isPaused) then now else old(crm.lastEventTimestamp)
    {
      crm.SetSessionId(sessionId);
      crm.SetNotIdle();
      crm.StartTicker(now);
    }

    /** getIdleChromeLocked: the first idle instance whose options hash equals `hash`. */
    method GetIdleChrome(hash: string) returns (crm: C.Chrome?)
      ensures IdleIndex(instancePool, hash) < |instancePool| ==> crm == instancePool[IdleIndex(instancePool, hash)]
      ensures IdleIndex(instancePool, hash) == |instancePool| ==> crm == null
    {
      for i := 0 to |instancePool|
        invariant forall j :: 0 <= j < i ==> !IdleWith(instancePool[j], hash)
      {
        if instancePool[i].isIdle && instancePool[i].options.hash == hash {
          return instancePool[i];
        }
      }
      return null;
    }

    /** getInstanceByBrowserIDLocked: the first instance with browser id `id`, with the pool's
        length. */
    method GetInstanceByBrowserID(id: UUID) returns (crm: C.Chrome?, l: int)
      ensures l == |instancePool|
      ensures BrowserIndex(instancePool, id) < |instancePool| ==> crm == instancePool[BrowserIndex(instancePool, id)]
      ensures BrowserIndex(instancePool, id) == |instancePool| ==> crm == null
    {
      l := |instancePool|;
      for i := 0 to l
        invariant forall j :: 0 <= j < i ==> instancePool[j].browserId != id
      {
        if id == instancePool[i].browserId {
          return instancePool[i], l;
        }
      }
      return null, l;
    }

    /** hasIdleChromeInstanceLocked */
    method HasIdleChromeInstance() returns (b: bool)
      ensures b <==> exists i :: 0 <= i < |instancePool| && instancePool[i].isIdle
    {
      for i := 0 to |instancePool|
        invariant forall j :: 0 <= j < i ==> !instancePool[j].isIdle
      {
        if instancePool[i].isIdle {
          return true;
        }
      }
      return false;
    }

    /** hasChromeInstanceForHashLocked: despite its name it takes no hash and answers whether
        any instance is idle. */
    method HasChromeInstanceForHash() returns (b: bool)
      ensures b <==> exists i :: 0 <= i < |instancePool| && instancePool[i].isIdle
    {
      b := false;
      for i := 0 to |instancePool|
        invariant b <==> exists j :: 0 <= j < i && instancePool[j].isIdle
      {
        if instancePool[i].isIdle {
          b := true;
        }
      }
    }

    method IsPoolAtCapacity() returns (b: bool)
      ensures b <==> |instancePool| >= conf.chromePool.maxBrowserInstances
    {
      return |instancePool| >= conf.chromePool.maxBrowserInstances;
    }

    /** getAvailablePortLocked: with auto-assignment off, the head of the free list; with it
        on, the port freeport finds, leaving the free list alone. */
    method GetAvailablePort(freePort: Result<int>) returns (port: int, err: Option<string>)
      modifies this`availableDebuggingPorts
      ensures !conf.chromePool.enableAutoAssignDebugPort && |old(availableDebuggingPorts)| == 0 ==>
        port == -1 && err == Some(NoDebugPortsError) && availableDebuggingPorts == old(availableDebuggingPorts)
      ensures !conf.chromePool.enableAutoAssignDebugPort && |old(availableDebuggingPorts)| > 0 ==>
        port == old(availableDebuggingPorts)[0] && err.None? && availableDebuggingPorts == old(availableDebuggingPorts)[1..]
      ensures conf.chromePool.enableAutoAssignDebugPort ==>
        availableDebuggingPorts == old(availableDebuggingPorts) &&
        (freePort.Ok? ==> port == freePort.value && err.None?) && (freePort.Err? ==> err == Some(freePort.error))
    {
      if !conf.chromePool.enableAutoAssignDebugPort {
        if |availableDebuggingPorts| == 0 {
          return -1, Some(NoDebugPortsError);
        }
        port := availableDebuggingPorts[0];
        availableDebuggingPorts := availableDebuggingPorts[1..];
        return port, None;
      }
      match freePort
      case Ok(p) => return p, None;
      case Err(e) => return 0, Some(e);
    }

    /** NewChrome followed by Start: a new instance for `sessionId` on `port`; the pool itself
        is not touched. */
    method NewStartedChrome(sessionId: UUID, options: ChromeConfigOptions, port: int, launch: Launch)
      returns (crm: C.Chrome, err: Option<string>)
      ensures fresh(crm)
      ensures crm.port == port && crm.sessionId == sessionId && crm.options == options
      ensures crm.receiver == receiver && crm.conf == conf.chrome && crm.isIdle && crm.isNew
      ensures err.None? <==> Starts(launch)
      ensures err.Some? ==> err == if launch.runErr.Some? then launch.runErr else C.MetaError(launch.version, launch.targets)
      ensures err.None? ==> !crm.isPaused && crm.browserId == Parse(C.FindUuid(launch.version.value))
    {
      crm := new C.Chrome(C.CreateChromePayload(port, sessionId, receiver, options), conf.chrome, defaults, store);
      err := crm.Start(launch.runErr, launch.version, launch.targets, launch.now);
    }

    /** createChromeWLocked as written: a port taken from the free list for an instance whose
        start fails is not given back. */
    method CreateChromeAsWritten(sessionId: UUID, options: ChromeConfigOptions, launch: Launch)
      returns (crm: C.Chrome?, err: Option<string>)
      modifies this`instancePool, this`availableDebuggingPorts
      ensures crm != null <==> err.None?
      ensures err.None? <==> old(CanCreate(launch))
      ensures |old(instancePool)| >= conf.chromePool.maxBrowserInstances ==> err == Some(MaxInstancesError)
      ensures availableDebuggingPorts ==
        if old(TakesPort()) then old(availableDebuggingPorts)[1..] else old(availableDebuggingPorts)
      ensures err.Some? ==> instancePool == old(instancePool)
      ensures err.None? ==>
        fresh(crm) && instancePool == old(instancePool) + [crm] &&
        crm.sessionId == sessionId && crm.options == options && crm.isIdle && crm.isNew && !crm.isPaused &&
        crm.browserId == Parse(C.FindUuid(launch.version.value)) &&
        crm.port == if conf.chromePool.enableAutoAssignDebugPort then launch.freePort.value else old(availableDebuggingPorts)[0]
      ensures !conf.chromePool.enableAutoAssignDebugPort && (!old(TakesPort()) || err.None?) ==>
        PortPool() == old(PortPool())
      ensures old(TakesPort()) && err.Some? ==>
        PortPool() + multiset{old(availableDebuggingPorts)[0]} == old(PortPool())
    {
      if |instancePool| >= conf.chromePool.maxBrowserInstances {
        return null, Some(MaxInstancesError);
      }
      var port, portErr := GetAvailablePort(launch.freePort);
      if portErr.Some? {
        return null, portErr;
      }
      var c, startErr := NewStartedChrome(sessionId, options, port, launch);
      if startErr.Some? {
        if !conf.chromePool.enableAutoAssignDebugPort {
          assert old(availableDebuggingPorts) == [port] + availableDebuggingPorts;
        }
        return null, startErr;
      }
      instancePool := instancePool + [c];
      if !conf.chromePool.enableAutoAssignDebugPort {
        PortMovedToInstance(old(availableDebuggingPorts), old(instancePool), c);
      }
      return c, None;
    }

    /** createChromeWLocked with the port given back when the start fails: the pool and its
        ports are then as before the call. When only the metadata step failed, the launched
        browser was not stopped and may still be bound to the port given back; a complete
        correction would also stop it, which this model of the pool does not track. */
    method CreateChrome(sessionId: UUID, options: ChromeConfigOptions, launch: Launch)
      returns (crm: C.Chrome?, err: Option<string>)
      modifies this`instancePool, this`availableDebuggingPorts
      ensures crm != null <==> err.None?
      ensures err.None? <==> old(CanCreate(launch))
      ensures |old(instancePool)| >= conf.chromePool.maxBrowserInstances ==> err == Some(MaxInstancesError)
      ensures err.Some? ==> instancePool == old(instancePool) && availableDebuggingPorts == old(availableDebuggingPorts)
      ensures err.None? ==>
        fresh(crm) && instancePool == old(instancePool) + [crm] &&
        crm.sessionId == sessionId && crm.options == options && crm.isIdle && crm.isNew && !crm.isPaused &&
        crm.browserId == Parse(C.FindUuid(launch.version.value))
      ensures err.None? && !conf.chromePool.enableAutoAssignDebugPort ==> |old(availableDebuggingPorts)| > 0
      ensures err.None? && conf.chromePool.enableAutoAssignDebugPort ==> launch.freePort.Ok?
      ensures err.None? && !conf.chromePool.enableAutoAssignDebugPort ==>
        crm.port == old(availableDebuggingPorts)[0] && availableDebuggingPorts == old(availableDebuggingPorts)[1..]
      ensures err.None? && conf.chromePool.enableAutoAssignDebugPort ==>
        crm.port == launch.freePort.value && availableDebuggingPorts == old(availableDebuggingPorts)
      ensures !conf.chromePool.enableAutoAssignDebugPort ==> PortPool() == old(PortPool())
    {
      if |instancePool| >= conf.chromePool.maxBrowserInstances {
        return null, Some(MaxInstancesError);
      }
      var port, portErr := GetAvailablePort(launch.freePort);
      if portErr.Some? {
        return null, portErr;
      }
      var c, startErr := NewStartedChrome(sessionId, options, port, launch);
      if startErr.Some? {
        if !conf.chromePool.enableAutoAssignDebugPort {
          availableDebuggingPorts := [port] + availableDebuggingPorts;
        }
        return null, startErr;
      }
      instancePool := instancePool + [c];
      if !conf.chromePool.enableAutoAssignDebugPort {
        PortMovedToInstance(old(availableDebuggingPorts), old(instancePool), c);
      }
      return c, None;
    }

    /** CreateNewInstance: an instance with no session, for scaling up or the minimum, made by
        createChromeWLocked as written: a failed start with fixed ports loses the popped port. */
    method CreateNewInstance(options: ChromeConfigOptions, launch: Launch) returns (err: Option<string>)
      modifies this`instancePool, this`availableDebuggingPorts
      ensures err.None? <==> old(CanCreate(launch))
      ensures |old(instancePool)| >= conf.chromePool.maxBrowserInstances ==> err == Some(MaxInstancesError)
      ensures availableDebuggingPorts ==
        if old(TakesPort()) then old(availableDebuggingPorts)[1..] else old(availableDebuggingPorts)
      ensures err.Some? ==> instancePool == old(instancePool)
      ensures err.None? ==>
        |instancePool| == |old(instancePool)| + 1 && instancePool[..|old(instancePool)|] == old(instancePool) &&
        fresh(instancePool[|old(instancePool)|]) && instancePool[|old(instancePool)|].sessionId == Nil &&
        instancePool[|old(instancePool)|].options == options && instancePool[|old(instancePool)|].isIdle &&
        instancePool[|old(instancePool)|].isNew && !instancePool[|old(instancePool)|].isPaused &&
        instancePool[|old(instancePool)|].browserId == Parse(C.FindUuid(launch.version.value)) &&
        instancePool[|old(instancePool)|].port ==
          if conf.chromePool.enableAutoAssignDebugPort then launch.freePort.value else old(availableDebuggingPorts)[0]
      ensures !conf.chromePool.enableAutoAssignDebugPort && (!old(TakesPort()) || err.None?) ==>
        PortPool() == old(PortPool())
      ensures old(TakesPort()) && err.Some? ==>
        PortPool() + multiset{old(availableDebuggingPorts)[0]} == old(PortPool())
    {
      var crm;
      crm, err := CreateChromeAsWritten(Nil, options, launch);
    }

    /** removeInstanceAtIndexWLocked: frees the instance's port at the back of the list, stops
        it, and splices it out keeping the others' order. */
    method RemoveAt(i: nat)
      requires i < |instancePool|
      modifies this`instancePool, this`availableDebuggingPorts, (instancePool[i] as C.Chrome)`isPaused, (instancePool[i] as C.Chrome)`cancelled
      ensures instancePool == old(instancePool[..i] + instancePool[i + 1..])
      ensures availableDebuggingPorts == old(availableDebuggingPorts) + [old(instancePool[i]).port]
      ensures old(instancePool[i]).isPaused && old(instancePool[i]).cancelled
    {
      var crm := instancePool[i];
      availableDebuggingPorts := availableDebuggingPorts + [crm.port];
      crm.Stop();
      instancePool := instancePool[..i] + instancePool[i + 1..];
    }

    /** The body of removeInstanceByBrowserIdWLocked once the instance is found at index i:
        remove it, then try one replacement, made as createChromeWLocked makes it, if the pool
        fell below the minimum. */
    method RemoveAndReplenish(i: nat, launch: Launch)
      requires i < |instancePool|
      modifies this`instancePool, this`availableDebuggingPorts,
        (instancePool[i] as C.Chrome)`isPaused, (instancePool[i] as C.Chrome)`cancelled
      ensures RemovedWith(old(instancePool), i, instancePool, old(availableDebuggingPorts), availableDebuggingPorts, conf, launch)
      ensures old(instancePool[i]).isPaused && old(instancePool[i]).cancelled
      ensures !conf.chromePool.enableAutoAssignDebugPort && (!TriesFixedPort(|old(instancePool)|, conf) || Starts(launch)) ==>
        PortPool() == old(PortPool())
      ensures TriesFixedPort(|old(instancePool)|, conf) && !Starts(launch) ==>
        PortPool() + multiset{(old(availableDebuggingPorts) + [old(instancePool[i]).port])[0]} == old(PortPool())
    {
      ghost var before, free := instancePool, availableDebuggingPorts;
      RemoveAt(i);
      ghost var rest, mid := instancePool, availableDebuggingPorts;
      ghost var created := false;
      if |instancePool| < conf.chromePool.minBrowserInstances {
        var err := CreateNewInstance(conf.chrome.defaultOptions, launch);
        created := err.None?;
      }
      ReplenishedAfterRemoval(before, i, rest, instancePool, free, mid, availableDebuggingPorts, conf, launch, created);
      if !conf.chromePool.enableAutoAssignDebugPort {
        RemovalPorts(before, i, instancePool, free, availableDebuggingPorts, conf, launch);
      }
    }

    /** The instance with browser id `id` that the pool would act on, if there is one. */
    function Found(id: UUID): set<C.Chrome>
      reads this, instancePool
    {
      var k := BrowserIndex(instancePool, id);
      if k < |instancePool| then {instancePool[k]} else {}
    }

    /** removeInstanceByBrowserIdWLocked: removes the first instance with browser id `id` and,
        when the pool falls below the minimum, tries to start one replacement with no session
        and the default options; a failed replacement leaves the removal standing. Only the
        removed instance is touched: it is stopped. */
    method RemoveByBrowserId(id: UUID, launch: Launch)
      modifies this`instancePool, this`availableDebuggingPorts, Found(id)`isPaused, Found(id)`cancelled
      ensures old(BrowserIndex(instancePool, id)) == |old(instancePool)| ==>
        instancePool == old(instancePool) && availableDebuggingPorts == old(availableDebuggingPorts)
      ensures old(BrowserIndex(instancePool, id)) < |old(instancePool)| ==>
        RemovedWith(old(instancePool), old(BrowserIndex(instancePool, id)), instancePool,
                    old(availableDebuggingPorts), availableDebuggingPorts, conf, launch) &&
        old(instancePool)[old(BrowserIndex(instancePool, id))].isPaused &&
        old(instancePool)[old(BrowserIndex(instancePool, id))].cancelled
    {
      var i := 0;
      while i < |instancePool|
        invariant i <= |instancePool|
        invariant instancePool == old(instancePool) && availableDebuggingPorts == old(availableDebuggingPorts)
        invariant forall j :: 0 <= j < i ==> instancePool[j].browserId != id
      {
        if id == instancePool[i].browserId {
          assert BrowserIndex(instancePool, id) == i;
          RemoveAndReplenish(i, launch);
          return;
        }
        i := i + 1;
      }
    }

    /** checkInstanceByBrowserIdToRemove: an instance reported idle is kept, with its ticker
        paused, when it was never used, the pool is at its minimum and it has the default
        options; otherwise it is removed. An unknown id changes nothing. */
    method CheckInstanceByBrowserIdToRemove(id: UUID, launch: Launch)
      modifies this`instancePool, this`availableDebuggingPorts, Found(id)`isPaused, Found(id)`cancelled
      ensures old(BrowserIndex(instancePool, id)) == |old(instancePool)| ==>
        instancePool == old(instancePool) && availableDebuggingPorts == old(availableDebuggingPorts)
      ensures old(BrowserIndex(instancePool, id)) < |old(instancePool)| && old(KeptWhenIdle(BrowserIndex(instancePool, id))) ==>
        instancePool == old(instancePool) && availableDebuggingPorts == old(availableDebuggingPorts) &&
        old(instancePool)[old(BrowserIndex(instancePool, id))].isPaused &&
        old(instancePool)[old(BrowserIndex(instancePool, id))].cancelled == old(instancePool[BrowserIndex(instancePool, id)].cancelled)
      ensures old(BrowserIndex(instancePool, id)) < |old(instancePool)| && !old(KeptWhenIdle(BrowserIndex(instancePool, id))) ==>
        RemovedWith(old(instancePool), old(BrowserIndex(instancePool, id)), instancePool,
                    old(availableDebuggingPorts), availableDebuggingPorts, conf, launch) &&
        old(instancePool)[old(BrowserIndex(instancePool, id))].isPaused &&
        old(instancePool)[old(BrowserIndex(instancePool, id))].cancelled
    {
      var crm, l := GetInstanceByBrowserID(id);
      if crm == null {
        return;
      }
      if crm.isNew && l == conf.chromePool.minBrowserInstances && crm.options.hash == conf.chrome.defaultOptions.hash {
        crm.PauseTicker();
        return;
      }
      RemoveByBrowserId(id, launch);
    }

    /** The instance at index k is new, the pool is at its minimum size and the instance has
        the default options. */
    predicate KeptWhenIdle(k: nat)
      reads this, instancePool
      requires k < |instancePool|
    {
      instancePool[k].isNew && |instancePool| == conf.chromePool.minBrowserInstances &&
      instancePool[k].options.hash == conf.chrome.defaultOptions.hash
    }

    /** One event taken from the channel by chromiumEventReceiver. */
    method HandleEvent(ev: C.EventData, launch: Launch)
      modifies this`instancePool, this`availableDebuggingPorts, Found(ev.browserId)`isPaused, Found(ev.browserId)`cancelled
      ensures old(BrowserIndex(instancePool, ev.browserId)) == |old(instancePool)| ==>
        instancePool == old(instancePool) && availableDebuggingPorts == old(availableDebuggingPorts)
      ensures !ev.eventType.BrowserIdle? && old(BrowserIndex(instancePool, ev.browserId)) < |old(instancePool)| ==>
        RemovedWith(old(instancePool), old(BrowserIndex(instancePool, ev.browserId)), instancePool,
                    old(availableDebuggingPorts), availableDebuggingPorts, conf, launch)
      ensures ev.eventType.BrowserIdle? && old(BrowserIndex(instancePool, ev.browserId)) < |old(instancePool)| ==>
        if old(KeptWhenIdle(BrowserIndex(instancePool, ev.browserId)))
        then instancePool == old(instancePool) && availableDebuggingPorts == old(availableDebuggingPorts)
        else RemovedWith(old(instancePool), old(BrowserIndex(instancePool, ev.browserId)), instancePool,
                         old(availableDebuggingPorts), availableDebuggingPorts, conf, launch)
      // The found instance is stopped when removed, and only paused when kept.
      ensures old(BrowserIndex(instancePool, ev.browserId)) < |old(instancePool)| ==>
        old(instancePool)[old(BrowserIndex(instancePool, ev.browserId))].isPaused
      ensures old(BrowserIndex(instancePool, ev.browserId)) < |old(instancePool)| &&
              !(ev.eventType.BrowserIdle? && old(KeptWhenIdle(BrowserIndex(instancePool, ev.browserId)))) ==>
        old(instancePool)[old(BrowserIndex(instancePool, ev.browserId))].cancelled
      ensures old(BrowserIndex(instancePool, ev.browserId)) < |old(instancePool)| &&
              ev.eventType.BrowserIdle? && old(KeptWhenIdle(BrowserIndex(instancePool, ev.browserId))) ==>
        old(instancePool)[old(BrowserIndex(instancePool, ev.browserId))].cancelled ==
        old(instancePool[BrowserIndex(instancePool, ev.browserId)].cancelled)
    {
      match ev.eventType
      case BrowserDestroyed => RemoveByBrowserId(ev.browserId, launch);
      case TargetToDestroy => RemoveByBrowserId(ev.browserId, launch);
      case BrowserIdle => CheckInstanceByBrowserIdToRemove(ev.browserId, launch);
    }

    /** The first idle instance with options hash `hash`, if there is one. */
    function IdleFound(hash: string): set<C.Chrome>
      reads this, instancePool
    {
      var k := IdleIndex(instancePool, hash);
      if k < |instancePool| then {instancePool[k]} else {}
    }

    /** GetAvailableChrome as written: an instance it creates for the session is left idle,
        so a later request with the same options hash is handed the same browser. */
    method GetAvailableChromeAsWritten(sessionId: UUID, options: ChromeConfigOptions, launch: Launch)
      returns (crm: C.Chrome?, err: Option<string>)
      modifies this`instancePool, this`availableDebuggingPorts,
        IdleFound(options.hash)`sessionId, IdleFound(options.hash)`logCtx, IdleFound(options.hash)`isIdle,
        IdleFound(options.hash)`isNew, IdleFound(options.hash)`isPaused, IdleFound(options.hash)`lastEventTimestamp
      ensures crm != null <==> err.None?
      ensures err.None? ==> crm in instancePool && crm.sessionId == sessionId && crm.options.hash == options.hash
      ensures old(|instancePool| > 0 && IdleIndex(instancePool, options.hash) < |instancePool|) ==>
        crm == old(instancePool[IdleIndex(instancePool, options.hash)]) && instancePool == old(instancePool) &&
        availableDebuggingPorts == old(availableDebuggingPorts) && !crm.isIdle && !crm.isNew && !crm.isPaused &&
        crm.logCtx == old(instancePool[IdleIndex(instancePool, options.hash)].logCtx)[Logger.SessionIdTrackingKey := Logger.UuidVal(sessionId)] &&
        crm.lastEventTimestamp == if old(instancePool[IdleIndex(instancePool, options.hash)].isPaused) then launch.now
                                  else old(instancePool[IdleIndex(instancePool, options.hash)].lastEventTimestamp)
      ensures old(|instancePool| == 0 || (IdleIndex(instancePool, options.hash) == |instancePool| &&
                                          options.hash != conf.chrome.defaultOptions.hash)) ==>
        (err.None? <==> old(CanCreate(launch))) &&
        (err.None? ==> fresh(crm) && instancePool == old(instancePool) + [crm] && crm.options == options &&
                       crm.isIdle && crm.isNew && !crm.isPaused && crm.browserId == Parse(C.FindUuid(launch.version.value)) &&
                       crm.port == if conf.chromePool.enableAutoAssignDebugPort then launch.freePort.value
                                   else old(availableDebuggingPorts)[0]) &&
        (err.Some? ==> instancePool == old(instancePool)) &&
        (|old(instancePool)| >= conf.chromePool.maxBrowserInstances ==> err == Some(MaxInstancesError)) &&
        availableDebuggingPorts ==
          (if old(TakesPort()) then old(availableDebuggingPorts)[1..] else old(availableDebuggingPorts)) &&
        (!conf.chromePool.enableAutoAssignDebugPort && (!old(TakesPort()) || err.None?) ==>
          PortPool() == old(PortPool())) &&
        (old(TakesPort()) && err.Some? ==> PortPool() + multiset{old(availableDebuggingPorts)[0]} == old(PortPool()))
      ensures old(|instancePool| > 0 && IdleIndex(instancePool, options.hash) == |instancePool| &&
                  options.hash == conf.chrome.defaultOptions.hash) ==>
        err == Some(NoBrowserError) && instancePool == old(instancePool) &&
        availableDebuggingPorts == old(availableDebuggingPorts)
    {
      if |instancePool| == 0 {
        crm, err := CreateChromeAsWritten(sessionId, options, launch);
        return;
      }
      var idle := GetIdleChrome(options.hash);
      if idle != null {
        HandOut(idle, sessionId, launch.now);
        return idle, None;
      }
      if options.hash != conf.chrome.defaultOptions.hash {
        crm, err := CreateChromeAsWritten(sessionId, options, launch);
        return;
      }
      return null, Some(NoBrowserError);
    }

    /** GetAvailableChrome: create when the pool is empty; otherwise reuse the first idle
        instance with the requested options hash; otherwise create when the options are not the
        default ones; otherwise fail. The instance handed out carries the session and is not
        idle, whether it was reused or created. */
    method GetAvailableChrome(sessionId: UUID, options: ChromeConfigOptions, launch: Launch)
      returns (crm: C.Chrome?, err: Option<string>)
      modifies this`instancePool, this`availableDebuggingPorts,
        IdleFound(options.hash)`sessionId, IdleFound(options.hash)`logCtx, IdleFound(options.hash)`isIdle,
        IdleFound(options.hash)`isNew, IdleFound(options.hash)`isPaused, IdleFound(options.hash)`lastEventTimestamp
      ensures crm != null <==> err.None?
      ensures err.None? ==>
        crm in instancePool && crm.sessionId == sessionId && crm.options.hash == options.hash &&
        !crm.isIdle && !crm.isNew && !crm.isPaused
      ensures old(|instancePool| > 0 && IdleIndex(instancePool, options.hash) < |instancePool|) ==>
        crm == old(instancePool[IdleIndex(instancePool, options.hash)]) && instancePool == old(instancePool) &&
        availableDebuggingPorts == old(availableDebuggingPorts) &&
        crm.logCtx == old(instancePool[IdleIndex(instancePool, options.hash)].logCtx)[Logger.SessionIdTrackingKey := Logger.UuidVal(sessionId)] &&
        crm.lastEventTimestamp == if old(instancePool[IdleIndex(instancePool, options.hash)].isPaused) then launch.now
                                  else old(instancePool[IdleIndex(instancePool, options.hash)].lastEventTimestamp)
      ensures old(|instancePool| == 0 || (IdleIndex(instancePool, options.hash) == |instancePool| &&
                                          options.hash != conf.chrome.defaultOptions.hash)) ==>
        (err.None? <==> old(CanCreate(launch))) &&
        (err.None? ==> fresh(crm) && instancePool == old(instancePool) + [crm] && crm.options == options &&
                       crm.browserId == Parse(C.FindUuid(launch.version.value)) &&
                       crm.port == if conf.chromePool.enableAutoAssignDebugPort then launch.freePort.value
                                   else old(availableDebuggingPorts)[0]) &&
        (err.None? ==> availableDebuggingPorts == if conf.chromePool.enableAutoAssignDebugPort
                                                  then old(availableDebuggingPorts) else old(availableDebuggingPorts)[1..]) &&
        (err.Some? ==> instancePool == old(instancePool) && availableDebuggingPorts == old(availableDebuggingPorts)) &&
        (|old(instancePool)| >= conf.chromePool.maxBrowserInstances ==> err == Some(MaxInstancesError))
      ensures old(|instancePool| > 0 && IdleIndex(instancePool, options.hash) == |instancePool| &&
                  options.hash == conf.chrome.defaultOptions.hash) ==>
        err == Some(NoBrowserError) && instancePool == old(instancePool) &&
        availableDebuggingPorts == old(availableDebuggingPorts)
      ensures !conf.chromePool.enableAutoAssignDebugPort ==> PortPool() == old(PortPool())
    {
      if |instancePool| == 0 {
        crm, err := CreateChrome(sessionId, options, launch);
        if crm != null {
          crm.SetNotIdle();
        }
        return;
      }
      var idle := GetIdleChrome(options.hash);
      if idle != null {
        HandOut(idle, sessionId, launch.now);
        return idle, None;
      }
      if options.hash != conf.chrome.defaultOptions.hash {
        crm, err := CreateChrome(sessionId, options, launch);
        if crm != null {
          crm.SetNotIdle();
        }
        return;
      }
      return null, Some(NoBrowserError);
    }

    /** ShutDownPool: removes the instance at index 0 until the pool is empty, then stops the
        event loop. Every instance is stopped and its port freed, in pool order. */
    method ShutDownPool()
      modifies this`instancePool, this`availableDebuggingPorts, this`receiving,
        (set c | c in instancePool)`isPaused, (set c | c in instancePool)`cancelled
      ensures instancePool == [] && !receiving
      ensures availableDebuggingPorts == old(availableDebuggingPorts) + InstancePorts(old(instancePool))
      ensures forall c :: c in old(instancePool) ==> c.isPaused && c.cancelled
    {
      ghost var all, n := instancePool, 0;
      while |instancePool| > 0
        invariant n <= |all| && instancePool == all[n..]
        invariant availableDebuggingPorts == old(availableDebuggingPorts) + InstancePorts(all[..n])
        invariant forall j :: 0 <= j < n ==> all[j].isPaused && all[j].cancelled
        decreases |instancePool|
      {
        assert instancePool[0] == all[n] && all[n] in all;
        RemoveAt(0);
        assert instancePool == all[n + 1..];
        InstancePortsStep(all, n);
        n := n + 1;
      }
      assert all[..n] == all;
      forall c | c in all
        ensures c.isPaused && c.cancelled
      {
        var j :| 0 <= j < |all| && all[j] == c;
      }
      receiving := false;
    }
  }

  /** A browser as chromepool.Get starts it: no session, the default options, idle and new. */
  predicate StartedDefault(c: C.Chrome, conf: Config)
    reads c
  {
    c.sessionId == Nil && c.options == conf.chrome.defaultOptions && c.isIdle && c.isNew
  }

  /** chromepool.Get: the pool with the configured ports free and MIN_BROWSER_INSTANCES
      instances with no session and the default options; the first creation that fails is
      fatal. `launches(i)` is what creating the i-th instance meets. */
  method Get(conf: Config, store: ProfileStore, defaults: seq<C.Flag>, launches: nat -> Launch)
    returns (cp: ChromePool, fatal: Option<string>)
    ensures fresh(cp) && cp.conf == conf
    ensures fatal.None? ==>
      cp.receiving &&
      |cp.instancePool| == (if conf.chromePool.minBrowserInstances > 0 then conf.chromePool.minBrowserInstances else 0)
    ensures fatal.Some? ==> |cp.instancePool| < conf.chromePool.minBrowserInstances
    ensures forall c :: c in cp.instancePool ==>
      fresh(c) && c.sessionId == Nil && c.options == conf.chrome.defaultOptions && c.isIdle && c.isNew
    ensures fatal.None? && !conf.chromePool.enableAutoAssignDebugPort ==> cp.PortPool() == multiset(conf.chromePool.debugPorts)
  {
    cp := new ChromePool(conf, store, defaults);
    fatal := None;
    var i := 0;
    while i < conf.chromePool.minBrowserInstances
      invariant fresh(cp) && cp.conf == conf
      invariant i == 0 || i <= conf.chromePool.minBrowserInstances
      invariant |cp.instancePool| == i
      invariant forall j :: 0 <= j < i ==> fresh(cp.instancePool[j]) && StartedDefault(cp.instancePool[j], conf)
      invariant !conf.chromePool.enableAutoAssignDebugPort ==> cp.PortPool() == multiset(conf.chromePool.debugPorts)
      decreases conf.chromePool.minBrowserInstances - i
    {
      ghost var before := cp.instancePool;
      var err := cp.CreateNewInstance(conf.chrome.defaultOptions, launches(i));
      if err.Some? {
        fatal := err;
        break;
      }
      forall j | 0 <= j < i + 1
        ensures fresh(cp.instancePool[j]) && StartedDefault(cp.instancePool[j], conf)
      {
        if j < i {
          assert cp.instancePool[j] == before[j];
        }
      }
      i := i + 1;
    }
    if fatal.None? {
      cp.receiving := true;
    }
    forall c | c in cp.instancePool
      ensures fresh(c) && StartedDefault(c, conf)
    {
      var j :| 0 <= j < |cp.instancePool| && cp.instancePool[j] == c;
    }
  }

  /** The idle-after-create finding as written: on an empty pool, two sessions asking in turn
      for the same options are handed the same browser, which ends up carrying the second
      session. */
  method SharedBrowserAsWritten(conf: Config, store: ProfileStore, defaults: seq<C.Flag>,
                                options: ChromeConfigOptions, first: UUID, second: UUID, launch: Launch)
    returns (a: C.Chrome?, b: C.Chrome?)
    requires conf.chromePool.maxBrowserInstances >= 1 && conf.chromePool.enableAutoAssignDebugPort
    requires launch.freePort.Ok? && Starts(launch)
    ensures a != null && a == b && a.sessionId == second
  {
    var cp := new ChromePool(conf, store, defaults);
    var err;
    a, err := cp.GetAvailableChromeAsWritten(first, options, launch);
    b, err := cp.GetAvailableChromeAsWritten(second, options, launch);
  }

  /** The same two requests with the corrected ladder: the second session never gets the
      first one's browser. */
  method SharedBrowserCorrected(conf: Config, store: ProfileStore, defaults: seq<C.Flag>,
                                options: ChromeConfigOptions, first: UUID, second: UUID, launch: Launch)
    returns (a: C.Chrome?, b: C.Chrome?)
    requires conf.chromePool.maxBrowserInstances >= 1 && conf.chromePool.enableAutoAssignDebugPort
    requires launch.freePort.Ok? && Starts(launch)
    ensures a != null && b != a
  {
    var cp := new ChromePool(conf, store, defaults);
    var err;
    a, err := cp.GetAvailableChrome(first, options, launch);
    assert cp.instancePool == [a] && !a.isIdle;
    assert IdleIndex(cp.instancePool, options.hash) == 1;
    b, err := cp.GetAvailableChrome(second, options, launch);
  }

  /** The port-leak finding as written: with fixed debug ports, an instance whose start fails
      takes its port out of circulation for good. */
  method PortLostAsWritten(conf: Config, store: ProfileStore, defaults: seq<C.Flag>, launch: Launch)
    returns (before: multiset<int>, after: multiset<int>)
    requires !conf.chromePool.enableAutoAssignDebugPort && |conf.chromePool.debugPorts| > 0
    requires conf.chromePool.maxBrowserInstances >= 1 && launch.runErr.Some?
    ensures |after| + 1 == |before| && before == multiset(conf.chromePool.debugPorts)
  {
    var cp := new ChromePool(conf, store, defaults);
    before := cp.PortPool();
    var crm, err := cp.CreateChromeAsWritten(Nil, conf.chrome.defaultOptions, launch);
    after := cp.PortPool();
  }

  /** The corrected creation after the same failed start: every configured port is still free
      or held. */
  method PortKeptCorrected(conf: Config, store: ProfileStore, defaults: seq<C.Flag>, launch: Launch)
    returns (before: multiset<int>, after: multiset<int>)
    requires !conf.chromePool.enableAutoAssignDebugPort && |conf.chromePool.debugPorts| > 0
    requires conf.chromePool.maxBrowserInstances >= 1 && launch.runErr.Some?
    ensures after == before && before == multiset(conf.chromePool.debugPorts)
  {
    var cp := new ChromePool(conf, store, defaults);
    before := cp.PortPool();
    var crm, err := cp.CreateChrome(Nil, conf.chrome.defaultOptions, launch);
    after := cp.PortPool();
  }
}
