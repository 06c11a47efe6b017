# chromium-websocket-proxy, modelled in Dafny

chromium-websocket-proxy is a Go server that keeps a pool of Chromium instances and relays
WebSocket sessions between clients and those browsers. A client connects to `/connect`, optionally
with a `profile` and an `accessToken` query parameter. The request passes an access-token gate,
waits in a FIFO proxy queue until the pool has a browser for it, and is then relayed message by
message until one side closes. Each browser reports lifecycle events (idle, shutdown) back to the
pool, which removes stopped instances and keeps `MIN_BROWSER_INSTANCES` of them alive. Debug ports
come either from `freeport` or from a fixed `CHROME_DEBUG_PORTS` list that the pool hands out and
takes back. Configuration is read from environment variables. Browser profiles are `.zip` archives
unpacked at start-up with a Zip-Slip check.

The model has one Dafny module per Go package:

| module | file | what it holds |
|---|---|---|
| `Config` | config.dfy | environment parsing, the `Validate` rules, `NewCreateOptions`, `Get` |
| `Logger` | logger.dfy | the tracing hook, the level filter, the output selection |
| `Chrome` | chrome.dfy | one instance as a class: launch flags, idle/new/paused state, ticks, events, metadata |
| `ChromePool` | chromepool.dfy | the pool as a class over `Chrome` objects and a free-port list |
| `ChromeProfile` | chromeprofile.dfy | archive extraction and the tag → profile map |
| `ProxyQueue` | proxyqueue.dfy | the waiting list, the dispatch step, `proxy`'s call sequence and result |
| `WebsocketProxy` | websocketproxy.dfy | one relay step between two connections |
| `ServeMux` | servemux.dfy | routes, the access-token gate, session ids |
| `Client` | client.dfy | the example client script |

Some helper modules stand in for the Go and JavaScript standard library the core leans on:

- `Wrappers`: Option and Result.
- `Strings`: `strings.HasPrefix`, `Split`, `Join`, `CutSuffix`, substring search.
- `Strconv`: `Atoi`, `Itoa`, `ParseBool`.
- `Uuids`: `uuid.UUID`, `Parse`, `String`.
- `Paths`: the lexical part of `path/filepath`, that is `Clean`, `Join` and `Ext`.

The code changes state in place in `Chrome`, `ChromePool`, `ChromeProfile.ProfileStore`,
`ProxyQueue`, `WebsocketProxy`, `ServeMux` and the client's `SearchParams`. There it is modelled as
classes whose methods state their whole new state. Each of those methods is proved against
specification functions, and the properties are proved about those functions.

Concurrency is abstracted away. Each locked method, tick body or dispatch goroutine is one atomic
step. Everything the code gets from outside is a parameter of that step:

- what `freeport` returns;
- `chromedp.Run`'s outcome;
- the `/json/version` and `/json/list` answers;
- read and write errors;
- the proxy outcome;
- the UUID `uuid.New()` draws;
- which client step throws.

## Model

| member | source | states |
|---|---|---|
| Config.EnvValByKey | config/config.go:236-239 | a variable counts as set exactly when it is present and non-empty, and then its value is returned |
| Config.BoolFromEnv | config/config.go:241-252 | unset or unparsable gives the default, otherwise the parsed boolean |
| Config.IntFromEnv | config/config.go:273-283 | unset or not an integer gives the default, otherwise `Atoi`'s value |
| Config.StringFromEnv | config/config.go:297-303 | the value when set and non-empty, otherwise the default |
| Config.LogLevelFromEnv | config/config.go:305-316 | only the exact text "debug" selects a level other than the default |
| Config.SecTimeDurationFromEnv | config/config.go:318-320 | the seconds times 10^9 nanoseconds when that fits in int64; otherwise the int64 wrap-around of it (`Wrap64`) |
| Config.AtoiAll | config/config.go:262-269 | the list parses exactly when every piece parses, and then element i is piece i's value |
| Config.IntArrayFromEnv | config/config.go:254-271 | the loop returns the default when unset or when any piece fails to parse; otherwise all pieces parsed, in order |
| Config.IntArrayRoundTrip | config/config.go:254-271 | a port list written as numbers joined by "," reads back as the same list |
| Config.PortRules | config/config.go:206-213 | "required" fires iff auto-assign is off and no ports are given; "too few" fires iff it is off and 0 < ports < max |
| Config.CountRules | config/config.go:215-219 | a negative min fires alone; otherwise a max <= 0 fires |
| Config.TokenRules | config/config.go:221-223 | fires iff validation is on and the token is empty |
| Config.ThresholdRules | config/config.go:225-227 | fires iff the throughput threshold is <= 0 |
| Config.ViolationsInOrder | config/config.go:203-228 | the violated rules come in the order `Validate` checks them |
| Config.ViolationsFire | config/config.go:203-228 | each of the six rules is in the violations iff its condition holds |
| Config.FiredRules | config/config.go:203-228 | the checks append exactly the violated rules, in the order the rules are listed (`Violations`) |
| Config.Validate | config/config.go:229-234 | nil iff no rule fires; otherwise the prefix followed by every violated rule's message joined with ",\n", in rule order |
| Config.NewCreateOptions | config/config.go:322-330 | succeeds iff hashing succeeds, and then carries the profile and its hash; otherwise the hashing error |
| Config.Load | config/config.go:131-177 | each of the pool, browser, logger and server settings is read from its own variable with its default; the threshold is the parsed value; the default options are the profile's options, or Go's zero value when hashing fails |
| Config.DefaultConfigIsValid | config/config.go:15-54 | an empty environment yields a configuration that passes `Validate` |
| Logger.AddKeyToEventIfExists | logger/logger.go:36-49 | appends nothing unless the key holds a string or a non-Nil UUID; otherwise appends exactly that field |
| Logger.RunFields | logger/logger.go:27-34 | the event's fields are kept; the added fields are exactly the traced tracking keys, in the order sessionId, browserId, browserProfile |
| Logger.AddedMembership | logger/logger.go:28-49 | a field is added iff its key is a tracking key whose context value traces to that string |
| Logger.AddedOrder | logger/logger.go:31-33 | added fields follow the order of the three calls |
| Logger.NilSessionNotTraced | logger/logger.go:43-46 | a Nil session id adds no sessionId field |
| Logger.LevelFilter | logger/logger.go:72-73 | at info, debug and trace events are dropped and the rest kept; at debug, only trace is dropped |
| Logger.Outputs | logger/logger.go:58-70 | the console on stdout iff no log file is set; otherwise stderr plus a rotating file (10 backups, 14 days, compressed) |
| Chrome.LaunchFlags | chrome/chrome.go:91-107 | chromedp's defaults come first, unchanged, followed by the added flags |
| Chrome.AddedFlagsShape | chrome/chrome.go:91-107 | the port flag then the disable-extensions flag; profile flags iff custom profiles are on, a profile is asked for and it is stored; a headless flag iff not headless |
| Chrome.InitialLogCtx | chrome/chrome.go:128-137 | the session id is traced iff it is not Nil, the profile iff it is non-empty; no browser id |
| Chrome.TickDeadlines | chrome/listeners.go:29-75 | no action before both deadlines; with shutdown on and idle timeout <= shutdown timeout, the idle report fires iff the instance is idle and past the shutdown deadline; SetIdle only for a busy instance |
| Chrome.FirstUuidFrom | chrome/meta.go:23-47 | the leftmost position at or after `from` where a UUID-shaped match starts, or none |
| Chrome.FindUuid | chrome/meta.go:44-47 | "" iff there is no match anywhere; otherwise a well-formed UUID text |
| Chrome.MetaError | chrome/meta.go:22-63 | no error iff the version fetch worked, its URL holds a UUID and the target list is non-empty; otherwise "unable to parse browser id" when no UUID is found |
| Chrome.Chrome.constructor | chrome/chrome.go:85-142 | a new instance is idle, new and paused, with the launch flags and the logging context above |
| Chrome.Chrome.SetSessionId | chrome/chrome.go:156-159 | sets the session and records it in the logging context |
| Chrome.Chrome.SetNotIdle | chrome/chrome.go:189-194 | the instance is in use and never new again |
| Chrome.Chrome.SetIdleOrStop | chrome/chrome.go:196-209 | with reuse on, it becomes idle with a Nil session, recorded in the logging context; with reuse off, an instance holding a session drops it and reports BrowserDestroyed, and a session-less one is left alone |
| Chrome.Chrome.PauseTicker | chrome/chrome.go:217-223 | the ticker is paused |
| Chrome.Chrome.StartTicker | chrome/chrome.go:225-232 | the ticker runs, and the idle clock restarts only if it was paused |
| Chrome.Chrome.Stop | chrome/chrome.go:211-215 | the ticker is paused and the contexts are cancelled |
| Chrome.Chrome.OnBrowserEvent | chrome/listeners.go:11-27 | destruction of the first page's target sends BrowserDestroyed; destruction of another target does nothing; any other event refreshes the idle clock |
| Chrome.Chrome.OnTick | chrome/listeners.go:29-75 | the new idle flag, session, logging context, events sent and hint flag follow `TickDecision` for each of its four outcomes |
| Chrome.Chrome.FetchAndSetMeta | chrome/meta.go:22-63 | the error is `MetaError`; debugUrl, browserId and first target are set only as far as the fetches got |
| Chrome.Chrome.Start | chrome/chrome.go:235-255 | a run error is returned before any metadata is read, leaving it all unchanged; otherwise the metadata error, with debugger URL, browser id and logging context set as far as the fetch got; on success the first target is set and the ticker runs |
| ChromePool.IdleIndex | chromepool/read_locked.go:19-26 | the leftmost idle instance with the options hash, or the pool length |
| ChromePool.BrowserIndex | chromepool/read_locked.go:28-36 | the leftmost instance with the browser id, or the pool length |
| ChromePool.InstancePortsWithout | chromepool/write_locked.go:49-56 | removing an instance moves exactly its port out of the instances' ports |
| ChromePool.ChromePool.constructor | chromepool/chromepool.go:43-54 | an empty pool whose free ports are the configured list |
| ChromePool.ChromePool.GetIdleChrome | chromepool/read_locked.go:19-26 | the instance at `IdleIndex`, or null |
| ChromePool.ChromePool.GetInstanceByBrowserID | chromepool/read_locked.go:28-36 | the instance at `BrowserIndex`, or null, together with the pool length |
| ChromePool.ChromePool.HasIdleChromeInstance | chromepool/chromepool.go:138-142 | true iff some instance is idle |
| ChromePool.ChromePool.HasChromeInstanceForHash | chromepool/read_locked.go:47-54 | true iff some instance is idle; the hash is not consulted |
| ChromePool.ChromePool.IsPoolAtCapacity | chromepool/chromepool.go:132-136 | true iff the pool holds at least MAX_BROWSER_INSTANCES |
| ChromePool.ChromePool.GetAvailablePort | chromepool/read_locked.go:61-72 | auto-assign takes freeport's answer; otherwise the list's head is popped, and an empty list is "no available debug ports" |
| ChromePool.ChromePool.NewStartedChrome | chromepool/write_locked.go:34-43 | a fresh idle, new instance for the session on the port; it starts iff the launch starts, and its error is the run or metadata error |
| ChromePool.ChromePool.CreateChromeAsWritten | chromepool/write_locked.go:21-47 | succeeds iff below max, a port is available and the browser starts; the created instance is appended idle, new, running and with the browser id read at start; a failed start keeps the pool but loses the popped port |
| ChromePool.ChromePool.CreateChrome | chromepool/write_locked.go:21-47 | as above (the created instance idle, new, running, with the browser id read at start), but a failed start gives the port back, so free ports plus instance ports never change with fixed ports |
| ChromePool.ChromePool.CreateNewInstance | chromepool/chromepool.go:68-73 | as `CreateChromeAsWritten` with no session: a session-less, idle, new, running instance with the options, its port and the browser id read at start is appended iff creation can succeed; with fixed ports the pool of ports is kept, except that a failed start loses the popped port |
| ChromePool.ReplenishedAfterRemoval | chromepool/write_locked.go:58-76 | splicing the instance out and then trying one creation only below MIN yields `RemovedWith`: the replacement exists iff creation can succeed, with the free list and the replacement's port it implies |
| ChromePool.RemovalPorts | chromepool/write_locked.go:29-76 | with fixed ports, a removal keeps every port, free or held, except the one popped for a replacement whose browser does not start |
| ChromePool.ChromePool.RemoveAt | chromepool/write_locked.go:49-56 | the instance is spliced out, its port appended to the free list, and it is stopped |
| ChromePool.ChromePool.RemoveAndReplenish | chromepool/write_locked.go:58-76 | the others stay in order; a fresh idle, new default instance follows iff the pool fell below MIN, is below MAX, a port is at hand and the browser starts; the freed port goes to the back of the free list, and a tried replacement pops its head; the removed instance is stopped; fixed ports are conserved except the port popped for a replacement that fails to start |
| ChromePool.ChromePool.RemoveByBrowserId | chromepool/write_locked.go:58-76 | the loop finds the first instance with the id and removes and replenishes it as `RemoveAndReplenish` states; an unknown id changes nothing; only the found instance is touched |
| ChromePool.ChromePool.CheckInstanceByBrowserIdToRemove | chromepool/chromepool.go:93-124 | an instance reported idle that is new, has the default options hash and sits in a pool of exactly MIN instances is kept and paused, not cancelled, with pool and ports unchanged; any other found instance is stopped (paused and cancelled) and removed and replenished as `RemoveAndReplenish` states; an unknown id changes nothing |
| ChromePool.ChromePool.HandleEvent | chromepool/chromepool.go:75-91 | BrowserIdle goes through the keep-or-remove check; other events remove and replenish the instance as `RemoveAndReplenish` states; a found instance is always paused, and cancelled unless it is kept; unknown ids change nothing |
| ChromePool.ChromePool.HandOut | chromepool/chromepool.go:163-165 | the reused instance carries the session, also in its log context, is busy and not new, its ticker runs, and its idle clock restarts only if the ticker was paused |
| ChromePool.ChromePool.GetAvailableChromeAsWritten | chromepool/chromepool.go:144-175 | the ladder as written: reuse of the first idle match hands it out busy with the session, the session in its log context and the idle clock restarted if its ticker was paused, pool and ports unchanged; creation on an empty pool or for a non-default hash follows `CreateChromeAsWritten` (succeeds iff `CanCreate`, MaxInstancesError at MAX, the free list, the new port, the port lost on a failed start), and the created instance, running with the browser id read at start, stays idle and new; otherwise "no browser available for use" with pool and free ports unchanged |
| ChromePool.ChromePool.GetAvailableChrome | chromepool/chromepool.go:144-175 | create on an empty pool; otherwise reuse the first idle match (session set also in its log context, busy, ticker running with the idle clock restarted if it was paused, pool unchanged); otherwise create for a non-default hash; otherwise "no browser available for use" with the pool unchanged; creation follows `CreateChrome` (the new port and browser id, the free list, nothing changed on failure); the returned instance is busy; fixed ports are conserved |
| ChromePool.ChromePool.ShutDownPool | chromepool/chromepool.go:177-189 | the pool empties, every instance is stopped, the ports return in pool order, and event receiving stops |
| ChromePool.Get | chromepool/chromepool.go:43-66 | creates MIN instances unless one fails, which is fatal; every instance is session-less, idle, new, with the default options; with fixed ports and no fatal error, free ports plus instance ports are exactly the configured list |
| ChromePool.SharedBrowserAsWritten | chromepool/chromepool.go:144-175 | on an empty pool, two sessions in turn get the same browser, and it ends up holding the second session |
| ChromePool.SharedBrowserCorrected | chromepool/chromepool.go:144-175 | with the corrected ladder, the second session gets a different browser |
| ChromePool.PortLostAsWritten | chromepool/write_locked.go:29-43 | after a failed start with fixed ports, one configured port is gone from the pool for good |
| ChromePool.PortKeptCorrected | chromepool/write_locked.go:29-43 | after the same failure with the corrected creation, every configured port is still there |
| ChromeProfile.UnzipFile | chromeprofile/unzip.go:40-77 | an entry outside the destination gives "invalid file path: …"; it is extracted iff contained and its I/O worked; directory iff the entry is one |
| ChromeProfile.ExtractedBelow | chromeprofile/unzip.go:42-45 | under an absolute destination, whatever is extracted lies strictly below it |
| ChromeProfile.CollectInOrder | chromeprofile/unzip.go:27-35 | every result before the stopping point is an Ok one, in order, and the reported error is the first Err |
| ChromeProfile.CollectStops | chromeprofile/unzip.go:31-34 | once a result has failed, the results after it change nothing |
| ChromeProfile.ExtractAllInOrder | chromeprofile/unzip.go:27-35 | entries are extracted in archive order up to the first failure, whose error is returned |
| ChromeProfile.ExtractEntries | chromeprofile/unzip.go:27-35 | the profile is the first entry's name; what is extracted and the error are exactly `ExtractAll`'s |
| ChromeProfile.UnzipSource | chromeprofile/unzip.go:12-38 | the profile name and error of the archive (`UnzipOutcome`): a trailing "/" is dropped only on success; nothing is extracted when the archive or destination fails |
| ChromeProfile.ZipEntryName | chromeprofile/chromeprofile.go:47-49 | an entry counts as an archive iff its name ends in ".zip" |
| ChromeProfile.LoadStepKeys | chromeprofile/chromeprofile.go:46-59 | one directory entry adds exactly the tag it loads, if any, and keeps every other tag |
| ChromeProfile.LoadedKeys | chromeprofile/chromeprofile.go:46-59 | the tags after loading are the earlier ones plus those of the `.zip` entries that extracted |
| ChromeProfile.ProfileStore.GetProfileByTag | chromeprofile/chromeprofile.go:64-67 | the stored profile and true, or "" and false |
| ChromeProfile.ProfileStore.LoadProfiles | chromeprofile/chromeprofile.go:22-62 | runs once; nothing is loaded when profiles are off, the directory is missing or unreadable; otherwise the map becomes `Loaded` |
| Paths.ContainedIff | chromeprofile/unzip.go:42-45 | under an absolute destination, the Zip-Slip test passes iff the resolved entry has the destination's elements as a proper prefix |
| Paths.PlainNameAccepted | chromeprofile/unzip.go:42-45 | a name without ".." that names something is accepted |
| Paths.DestinationAndParentRejected | chromeprofile/unzip.go:42-45 | "", "." and ".." are rejected |
| Paths.SiblingRejected | chromeprofile/unzip.go:42-45 | "../x" is rejected unless x re-enters the destination by its own name |
| Paths.RootDestinationRejectsAll | chromeprofile/unzip.go:42-45 | a destination that cleans to "/" accepts nothing |
| Paths.ExtZip | chromeprofile/chromeprofile.go:48-49 | `Ext` is ".zip" iff the path ends in ".zip" |
| ProxyQueue.QueryGet | proxyqueue/proxyqueue.go:78-80 | the first value under the key, or "" |
| ProxyQueue.NewElementData | proxyqueue/proxyqueue.go:74-93 | fails with "unable to create options for chrome startup" iff `NewCreateOptions` fails; otherwise carries the profile's options |
| ProxyQueue.Classify | proxyqueue/proxyqueue.go:302-318 | Succeeded iff there is no error, a normal, going-away or no-status close, or a closed connection; SessionTimedOut iff otherwise cancelled; Failed iff neither |
| ProxyQueue.ClassifyPrecedence | proxyqueue/proxyqueue.go:302-318 | a normal close or closed connection wins over cancellation; a bare cancellation is a timeout |
| ProxyQueue.Proxy | proxyqueue/proxyqueue.go:222-319 | UnableToGetChrome iff the pool fails; ConnectionError iff dial or accept fails; the relay runs iff both worked and then decides the result; the browser is released whenever one was obtained |
| ProxyQueue.WithoutMembers | proxyqueue/proxyqueue.go:104-110 | removal keeps exactly the elements with other handles |
| ProxyQueue.WithoutAt | proxyqueue/proxyqueue.go:104-110 | removing a present handle splices out exactly that element |
| ProxyQueue.Requeued | proxyqueue/proxyqueue.go:149-155 | the request goes back right after the current front, or becomes the front |
| ProxyQueue.DispatchSpec | proxyqueue/proxyqueue.go:129-160 | an empty list is left alone; otherwise the front is proxied and either its result delivered or it is requeued second |
| ProxyQueue.StaleHandleAsWritten | proxyqueue/proxyqueue.go:146-156 | after a requeue, removing by the handle the handler holds is a no-op, and the request stays queued |
| ProxyQueue.CancelAfterRequeue | proxyqueue/proxyqueue.go:146-156 | with the corrected requeue, the same removal takes the request out and leaves the rest in order |
| ProxyQueue.ProxyQueue.constructor | proxyqueue/proxyqueue.go:55-66 | an empty list with nothing delivered |
| ProxyQueue.ProxyQueue.AddToList | proxyqueue/proxyqueue.go:95-102 | the request is appended with a handle no element has |
| ProxyQueue.ProxyQueue.RemoveFromList | proxyqueue/proxyqueue.go:104-110 | the list becomes `Without(list, h)`, and handles stay distinct |
| ProxyQueue.ProxyQueue.DispatchFrontAsWritten | proxyqueue/proxyqueue.go:129-160 | the list and the deliveries follow the as-written dispatch |
| ProxyQueue.ProxyQueue.DispatchFront | proxyqueue/proxyqueue.go:129-160 | the list and the deliveries follow the corrected dispatch; handles stay distinct |
| ProxyQueue.ProxyQueue.Tick | proxyqueue/proxyqueue.go:120-160 | nothing happens unless a request waits and an idle browser exists; otherwise one dispatch as written (`DispatchListAsWritten`) |
| ProxyQueue.ProxyQueue.TickCorrected | proxyqueue/proxyqueue.go:120-160 | the same tick with the corrected dispatch (`DispatchList`) |
| WebsocketProxy.TruncatedString | websocketproxy/websocketproxy.go:61-67 | bodies up to 200 bytes are kept; longer ones become their first 200 bytes plus "..." |
| WebsocketProxy.TruncatedIdempotent | websocketproxy/websocketproxy.go:61-67 | truncating twice is truncating once |
| WebsocketProxy.ProxyShortCircuits | websocketproxy/websocketproxy.go:113-131 | a wait error reads nothing; a read error writes nothing; a read message is written unchanged with its type; a Writer error writes nothing; a Write error skips Close; otherwise Close's error |
| WebsocketProxy.WebsocketProxy.constructor | websocketproxy/websocketproxy.go:36-51 | the read side is set and the write side is unset |
| WebsocketProxy.WebsocketProxy.SetWriteConnection | websocketproxy/websocketproxy.go:53-59 | sets the write side and nothing else |
| WebsocketProxy.WebsocketProxy.Read | websocketproxy/websocketproxy.go:69-99 | a Reader failure gives type -1 and no bytes; a ReadAll failure gives the partial body; otherwise the message |
| WebsocketProxy.WebsocketProxy.WriteMessage | websocketproxy/websocketproxy.go:101-111 | Writer, Write, Close, stopping at the first error, which is returned |
| WebsocketProxy.WebsocketProxy.Proxy | websocketproxy/websocketproxy.go:113-131 | the calls and error follow `ProxyCalls`/`ProxyErr` |
| ServeMux.MismatchBodyAsWritten | servemux/servemux.go:22-30 | as written, the 401 body is "{}\n", lacks the message, and is the same for every response |
| ServeMux.PlainUnescaped | servemux/servemux.go:66 | text without quotes, backslashes, HTML-special or control characters, U+2028 or U+2029 is written unescaped |
| ServeMux.EncodeCarriesMessage | servemux/servemux.go:57-66 | the corrected encoding carries the escaped message |
| ServeMux.AccessTokenGate | servemux/servemux.go:47-71 | invoke iff validation is off or the query token equals the configured one; otherwise 401 with JSON content type and the body "{}\n", which lacks the message |
| ServeMux.AccessTokenGateCorrected | servemux/servemux.go:47-71 | the same decision, with the message in the 401 body once the fields are exported |
| ServeMux.MissingTokenRejected | servemux/servemux.go:47-71 | with a configuration that passes `Validate`, a request without a token is rejected when validation is on |
| ServeMux.HealthCheckResponse | servemux/servemux.go:80-82 | status 200 with no body |
| ServeMux.PatternsClean | servemux/servemux.go:42-43 | both registered patterns are clean paths, so they are served and not redirected |
| ServeMux.RoutesSpec | servemux/servemux.go:42-43 | /healthcheck gives 200; /connect reaches the proxy handler iff the gate admits, else the 401; a path that is not clean gets a 301 to its clean form with the query kept; any other clean path gives 404 |
| ServeMux.ServeMux.constructor | servemux/servemux.go:36-45 | exactly the two routes are registered |
| ServeMux.ServeMux.ServeHTTP | servemux/servemux.go:73-78 | routes as `Route` does, with the fresh session id stored under the sessionId key, other context values kept; a proxied request went to /connect, and a non-Nil id is traced |
| Client.SetParamSpec | scripts/client.mjs:18-24 | after `set`, exactly one entry has the name with the value; the other entries are unchanged in order; a new name is appended |
| Client.FormEncodeEncoded | scripts/client.mjs:28 | the serializer writes only unreserved characters, '+' and '%' |
| Client.SerializeSplits | scripts/client.mjs:28 | the query string splits at '&' into one piece per entry, and each piece at '=' into the encoded name and value |
| Client.QueryParams | scripts/client.mjs:18-24 | profile first, then accessToken, each only when truthy; no empty value |
| Client.EndpointShape | scripts/client.mjs:4 | `ws://localhost:<PORT>/connect?<query>` with PORT defaulting to 3000; it ends in '?' when there are no parameters |
| Client.NormalRun | scripts/client.mjs:27-45 | connect, newPage, goto with networkidle2, screenshot, page.close, exactly one disposal (close iff closeBrowser), then the log |
| Client.ThrowSkipsLater | scripts/client.mjs:17-48 | an exception at step k skips every later step; no disposal before step 5; no success log |
| Client.LogAfterDisposal | scripts/client.mjs:40-45 | the success message only ever follows the disposal |
| Client.BuildQuery | scripts/client.mjs:18-24 | the serialized parameters are `QueryParams` |
| Client.RunSteps | scripts/client.mjs:27-48 | the attempted steps and the rejection follow `Attempted` and `Throws` |
| Client.SaveImgSearchScreenshot | scripts/client.mjs:12-49 | the whole run, with `closeBrowser` defaulting to false and every exception ending in a ReferenceError rejection |

## Left out

- Concurrency:
  - the mutexes, goroutines, channels, tickers and `sync.Once` singletons are not modelled;
  - each locked method, tick body or dispatch goroutine is one atomic step;
  - the `select` in servemux/proxy.go that waits on the result or the request's cancellation is modelled only as the removal it triggers (`StaleHandleAsWritten`, `CancelAfterRequeue`).
- The throughput scale-up branch of the proxy queue's ticker and the metrics counters: floating point and sampling. `Validate` keeps the threshold only for its sign check, as a `real`.
- Config.Load: `getFloat64FromEnv` is not modelled; the threshold is a parameter. `hashstructure`'s hash is an opaque function parameter, and `NewCreateOptions`' error path appears only where the caller handles it (`NewElementData`).
- Foreign libraries stand behind parameters:
  - chromedp (run, exec allocator, contexts), freeport, the `coder/websocket` dial, accept and read/write, and puppeteer;
  - the HTTP GET and JSON decoding in chrome/meta.go are the `version`/`targets` parameters.
- Filesystem effects: `os.Stat`, `Mkdir`, `ReadDir`, `OpenFile` and `io.Copy` are given as outcomes. The model keeps the path check, the profile naming and the map updates.
- Logging text: log lines other than the tracing fields and the level filter are not modelled, nor is the debug-level logging of truncated bodies; `TruncatedString` is modelled on its own.
- Process exit: `log.Fatal` in `chromepool.Get` is the `fatal` result.
- `GetInstancePoolLen` (chromepool/chromepool.go:191-195) is the length of `instancePool`, which every method states; it has no member of its own.
- `proxyqueue.Get` and `Stop` (proxyqueue/proxyqueue.go:55-72) only start and stop the ticker goroutine; the constructor stands for the list they create.
- Uuids: `uuid.New()`'s randomness is a parameter (`sessionId`); `Uuids.Parse`/`Format` cover the text form.
- ServeMux.ServeHTTP: the proxy handler behind `/connect` (servemux/proxy.go) is the `Proxied` outcome; queuing and the 422 response on an options error are not modelled further.
- Client.SaveImgSearchScreenshot: `console.log` is assumed not to throw; only the six library calls can.
- Client.SaveImgSearchScreenshot: the catch block evidently means to log the error and return, but its message references an undeclared `search`, so every exception rejects the promise with a ReferenceError; the model follows the code.
- Client.SaveImgSearchScreenshot: `browser.disconnect()` (scripts/client.mjs:43) is called without `await`, so a rejection of its promise would escape the try block as an unhandled rejection; the model treats a failure of that step like one thrown inside the try.
- Client.SetParamSpec: percent-encoding covers UTF-8 and the form-urlencoded byte set; no decoder is modelled, so the partner property is the split into name=value pieces rather than a full decode round trip.
- ChromePool.ChromePool.RemoveAt: its ensures states the new lists rather than the port multiset, which `RemoveAndReplenish` (through `RemovalPorts`) and `ShutDownPool` state.
- Chrome.Chrome.FetchAndSetMeta: the type assertion `result["webSocketDebuggerUrl"].(string)` (chrome/meta.go:41) panics when the key is missing or not a string; the model takes the decoded URL as a string and does not model the panic.
- ServeMux.Route: only exact patterns and the redirect of non-clean paths are modelled; the method, the host and wildcard patterns play no part, since the two registered patterns use none of them.
- ServeMux.EscapeChar: follows encoding/json as of Go 1.22, which writes backspace and form feed as `\b` and `\f`; earlier releases write `\u0008` and `\u000c`. Invalid UTF-8, which Go writes as `\ufffd`, cannot occur in a Dafny string.
- Chrome.Chrome.FetchAndSetMeta: the browser id is parsed from the first UUID-shaped text with a hand-written matcher in place of the `regexp` package.

## Findings

| source | as written | input that shows it | evidently intended | confidence | as-written member | corrected member |
|---|---|---|---|---|---|---|
| chromepool/chromepool.go:148-153, 169-172 | an instance created for a session is returned still idle and new | empty pool; session A asks, then session B asks with the same options | a created instance is handed out busy, like a reused one | not executed | ChromePool.SharedBrowserAsWritten | ChromePool.SharedBrowserCorrected |
| chromepool/write_locked.go:29-43 | with fixed debug ports, a port popped for an instance whose start fails is never returned, on creation and on the replacement after a removal alike | `ENABLE_AUTO_ASSIGN_DEBUG_PORT=false`, one port, the browser fails to start | the port goes back on the free list | not executed | ChromePool.PortLostAsWritten | ChromePool.PortKeptCorrected |
| proxyqueue/proxyqueue.go:146-156 | a requeued request is pushed as a new list element, so the element its handler holds for cancellation no longer matches | a request gets UnableToGetChrome, then its client disconnects | cancellation removes the request from the queue | not executed | ProxyQueue.StaleHandleAsWritten | ProxyQueue.CancelAfterRequeue |
| servemux/servemux.go:22-30, 57-66 | `ServeResponse` has only unexported fields, so the JSON encoder writes `{}` | any request with a wrong access token | the body carries the id, code and message | not executed | ServeMux.MismatchBodyAsWritten | ServeMux.AccessTokenGateCorrected |
