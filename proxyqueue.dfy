/** The proxyqueue package: the FIFO list of waiting proxy requests, the dispatch step the
    queue ticker runs (take the front request, proxy it, requeue it when no browser was
    available, otherwise deliver the result on its channel), and the classification of how a
    proxy session ended. List elements are told apart by handles, which stand for the
    *list.Element references; channel sends are appended to a log. */
module ProxyQueue {
  import opened Wrappers
  import opened Uuids
  import opened Config
  import opened Strings

  datatype ProxyResult = Succeeded | ConnectionError | SessionTimedOut | UnableToGetChrome | Failed

  const OptionsError := "unable to create options for chrome startup"
  const ClosedConnectionText := "use of closed network connection"
  const StatusNormalClosure := 1000
  const StatusGoingAway := 1001
  const StatusNoStatusRcvd := 1005

  /** A queued request: the session id its context carries, the channel its result is
      delivered on, and the browser options it asks for. */
  datatype ElementData = ElementData(sessionId: UUID, channel: nat, chromeOptions: ChromeConfigOptions)

  /** url.Values.Get: the first value under `key`, or "". */
  function QueryGet(query: map<string, seq<string>>, key: string): (v: string)
    ensures key !in query || query[key] == [] ==> v == ""
    ensures key in query && query[key] != [] ==> v == query[key][0]
  {
    if key in query && |query[key]| > 0 then query[key][0] else ""
  }

  /** NewElementData: the options `NewCreateOptions` makes for the `profile` query parameter;
      a hashing failure is the only way to fail, and its message is replaced. */
  function NewElementData(query: map<string, seq<string>>, sessionId: UUID, channel: nat,
                          hashOf: string -> Result<string>): (r: Result<ElementData>)
    ensures r.Err? <==> hashOf(QueryGet(query, "profile")).Err?
    ensures r.Err? ==> r.error == OptionsError
    ensures r.Ok? ==>
      r.value.sessionId == sessionId && r.value.channel == channel &&
      r.value.chromeOptions.profile == QueryGet(query, "profile") &&
      r.value.chromeOptions.hash == hashOf(QueryGet(query, "profile")).value
  {
    match NewCreateOptions(QueryGet(query, "profile"), hashOf)
    case Err(_) => Err(OptionsError)
    case Ok(co) => Ok(ElementData(sessionId, channel, co))
  }

  /** The error that ended a relay: its text, the WebSocket close status it carries (-1 when
      it is not a close error), and whether it wraps context.Canceled. */
  datatype RelayError = RelayError(text: string, closeStatus: int, canceled: bool)

  /** The relay ended the way a session normally ends: no error, a normal, going-away or
      no-status close, or the connection already closed by the other side. */
  predicate NormalEnd(err: Option<RelayError>) {
    err.None? ||
    err.value.closeStatus in {StatusNormalClosure, StatusGoingAway, StatusNoStatusRcvd} ||
    Contains(err.value.text, ClosedConnectionText)
  }

  /** The classification at the end of proxy. */
  function Classify(err: Option<RelayError>): (r: ProxyResult)
    ensures r == Succeeded <==> NormalEnd(err)
    ensures r == SessionTimedOut <==> !NormalEnd(err) && err.value.canceled
    ensures r == Failed <==> !NormalEnd(err) && !err.value.canceled
  {
    if err.None? then Succeeded
    else if err.value.closeStatus == StatusNormalClosure || err.value.closeStatus == StatusGoingAway ||
            err.value.closeStatus == StatusNoStatusRcvd then Succeeded
    else if Contains(err.value.text, ClosedConnectionText) then Succeeded
    else if err.value.canceled then SessionTimedOut
    else Failed
  }

  /** The checks are ordered: a normal close, or an already closed connection, wins over a
      cancelled context. */
  lemma ClassifyPrecedence(text: string, status: int)
    ensures Classify(Some(RelayError(text, StatusGoingAway, true))) == Succeeded
    ensures Classify(Some(RelayError("read: " + ClosedConnectionText, status, true))) == Succeeded
    ensures status !in {StatusNormalClosure, StatusGoingAway, StatusNoStatusRcvd} ==>
      Classify(Some(RelayError("context canceled", status, true))) == SessionTimedOut
  {
    var t := "read: " + ClosedConnectionText;
    assert t[6..] == ClosedConnectionText;
    ContainsAt(t, ClosedConnectionText, 6);
    NoClosedConnectionText();
  }

  lemma NoClosedConnectionText()
    ensures !Contains("context canceled", ClosedConnectionText)
  {
    ShortNotContains("context canceled", ClosedConnectionText);
  }

  /** The calls proxy makes, in order. */
  datatype ProxyStep = GetChrome | Dial | Accept | Relay | ReleaseChrome

  datatype ProxyRun = ProxyRun(result: ProxyResult, steps: seq<ProxyStep>)

  /** proxy: ask the pool for a browser, dial its debugger URL, accept the client's WebSocket,
      relay until the first error, and hand the browser back (the deferred SetIdleOrStop) on
      every path after the pool answered with one. Each argument is the error that call meets;
      only non-nil relay errors reach the classification. */
  function Proxy(chromeErr: Option<string>, dialErr: Option<string>, acceptErr: Option<string>, relayEnd: RelayError)
    : (run: ProxyRun)
    ensures |run.steps| >= 1 && run.steps[0] == GetChrome
    ensures run.result == UnableToGetChrome <==> chromeErr.Some?
    ensures chromeErr.Some? ==> run.steps == [GetChrome]
    ensures chromeErr.None? ==> run.steps[|run.steps| - 1] == ReleaseChrome && Dial in run.steps
    ensures run.result == ConnectionError <==> chromeErr.None? && (dialErr.Some? || acceptErr.Some?)
    ensures Accept in run.steps <==> chromeErr.None? && dialErr.None?
    ensures Relay in run.steps <==> chromeErr.None? && dialErr.None? && acceptErr.None?
    ensures Relay in run.steps ==> run.result == Classify(Some(relayEnd))
  {
    if chromeErr.Some? then ProxyRun(UnableToGetChrome, [GetChrome])
    else if dialErr.Some? then ProxyRun(ConnectionError, [GetChrome, Dial, ReleaseChrome])
    else if acceptErr.Some? then ProxyRun(ConnectionError, [GetChrome, Dial, Accept, ReleaseChrome])
    else ProxyRun(Classify(Some(relayEnd)), [GetChrome, Dial, Accept, Relay, ReleaseChrome])
  }

  /** A list element: the handle standing for its *list.Element, and its data. */
  datatype Element = Element(handle: nat, data: ElementData)

  predicate DistinctHandles(s: seq<Element>) {
    forall i, j :: 0 <= i < j < |s| ==> s[i].handle != s[j].handle
  }

  /** list.Remove: the element with handle h out, the others in order; nothing when no element
      has that handle any more. */
  function Without(s: seq<Element>, h: nat): (r: seq<Element>)
    ensures |r| <= |s|
  {
    if s == [] then []
    else if s[0].handle == h then Without(s[1..], h)
    else [s[0]] + Without(s[1..], h)
  }

  /** What removal keeps: exactly the elements with another handle. */
  lemma {:induction false} WithoutMembers(s: seq<Element>, h: nat)
    ensures forall e :: e in Without(s, h) <==> e in s && e.handle != h
    decreases |s|
  {
    if s != [] {
      WithoutMembers(s[1..], h);
      assert forall e :: e in s <==> e == s[0] || e in s[1..];
    }
  }

  /** Removing the element at index k of a list with distinct handles leaves exactly the others,
      in their order. */
  lemma {:induction false} WithoutAt(s: seq<Element>, k: nat)
    requires DistinctHandles(s) && k < |s|
    ensures Without(s, s[k].handle) == s[..k] + s[k + 1..]
    decreases k
  {
    if k == 0 {
      WithoutAbsent(s[1..], s[0].handle);
    } else {
      var t := s[1..];
      assert DistinctHandles(t);
      assert t[k - 1] == s[k];
      WithoutAt(t, k - 1);
      assert s[0].handle != s[k].handle;
      assert Without(s, s[k].handle) == [s[0]] + Without(t, s[k].handle);
      assert t[..k - 1] == s[1..k];
      assert t[k..] == s[k + 1..];
      assert s[..k] == [s[0]] + s[1..k];
    }
  }

  /** A handle no element has removes nothing. */
  lemma {:induction false} WithoutAbsent(s: seq<Element>, h: nat)
    requires forall i :: 0 <= i < |s| ==> s[i].handle != h
    ensures Without(s, h) == s
    decreases |s|
  {
    if s != [] {
      WithoutAbsent(s[1..], h);
    }
  }

  /** The list after a request that found no browser is put back: right after the current
      front, or at the front of an empty list. */
  function Requeued(rest: seq<Element>, e: Element): (r: seq<Element>)
    ensures |r| == |rest| + 1
    ensures rest == [] ==> r == [e]
    ensures rest != [] ==> r[0] == rest[0] && r[1] == e && r[2..] == rest[1..]
  {
    if rest == [] then [e] else [rest[0], e] + rest[1..]
  }

  /** The list after the dispatch step as written: the requeued request comes back as a new
      element with handle `next`. */
  function DispatchListAsWritten(l: seq<Element>, next: nat, outcome: ElementData -> ProxyResult): seq<Element> {
    if l == [] then []
    else if outcome(l[0].data) == UnableToGetChrome then Requeued(l[1..], Element(next, l[0].data))
    else l[1..]
  }

  /** The list after the dispatch step when the requeued request keeps its element, so the
      handle its handler holds still names it. */
  function DispatchList(l: seq<Element>, outcome: ElementData -> ProxyResult): seq<Element> {
    if l == [] then []
    else if outcome(l[0].data) == UnableToGetChrome then Requeued(l[1..], l[0])
    else l[1..]
  }

  /** The results the dispatch step sends: the front request's, unless it is requeued. */
  function Delivered(l: seq<Element>, outcome: ElementData -> ProxyResult): seq<(nat, ProxyResult)> {
    if l == [] || outcome(l[0].data) == UnableToGetChrome then []
    else [(l[0].data.channel, outcome(l[0].data))]
  }

  /** The dispatch step: an empty list is left alone; otherwise the front request is proxied
      and either delivered (and gone from the list) or put back second, keeping every other
      request in its place; no request is lost and none is delivered twice. */
  lemma DispatchSpec(l: seq<Element>, outcome: ElementData -> ProxyResult)
    ensures l == [] ==> DispatchList(l, outcome) == [] && Delivered(l, outcome) == []
    ensures l != [] && outcome(l[0].data) != UnableToGetChrome ==>
      DispatchList(l, outcome) == l[1..] && Delivered(l, outcome) == [(l[0].data.channel, outcome(l[0].data))]
    ensures l != [] && outcome(l[0].data) == UnableToGetChrome ==>
      Delivered(l, outcome) == [] &&
      (|l| == 1 ==> DispatchList(l, outcome) == l) &&
      (|l| >= 2 ==> DispatchList(l, outcome) == [l[1], l[0]] + l[2..])
  {
  }

  /** The stale-handle finding as written: once a request was requeued, the handle its handler
      holds names nothing, so removing the request on cancellation leaves it queued. */
  lemma StaleHandleAsWritten(l: seq<Element>, next: nat, outcome: ElementData -> ProxyResult)
    requires l != [] && outcome(l[0].data) == UnableToGetChrome
    requires DistinctHandles(l) && forall i :: 0 <= i < |l| ==> l[i].handle < next
    ensures Without(DispatchListAsWritten(l, next, outcome), l[0].handle) == DispatchListAsWritten(l, next, outcome)
    ensures Element(next, l[0].data) in Without(DispatchListAsWritten(l, next, outcome), l[0].handle)
  {
    var r := DispatchListAsWritten(l, next, outcome);
    forall i | 0 <= i < |r| ensures r[i].handle != l[0].handle {
      if |l| >= 2 && i >= 2 {
        assert r[i] == l[i];
      }
    }
    WithoutAbsent(r, l[0].handle);
  }

  /** The same cancellation after the corrected requeue: the request is gone and the others
      are left in order. */
  lemma CancelAfterRequeue(l: seq<Element>, outcome: ElementData -> ProxyResult)
    requires l != [] && outcome(l[0].data) == UnableToGetChrome && DistinctHandles(l)
    ensures Without(DispatchList(l, outcome), l[0].handle) == l[1..]
  {
    var r := DispatchList(l, outcome);
    if |l| == 1 {
      assert r == [l[0]];
    } else {
      SwapFrontDistinct(l, l[0].handle + 1 + MaxHandle(l));
      WithoutAt(r, 1);
      assert r[..1] + r[2..] == [l[1]] + l[2..];
      assert l[1..] == [l[1]] + l[2..];
    }
  }

  class ProxyQueue {
    var list: seq<Element>
    /** The handle the next list element gets. */
    var nextHandle: nat
    /** Every result sent on a request's channel, with the channel it went to. */
    var delivered: seq<(nat, ProxyResult)>

    ghost predicate Valid()
      reads this
    {
      DistinctHandles(list) && forall i :: 0 <= i < |list| ==> list[i].handle < nextHandle
    }

    constructor ()
      ensures Valid() && list == [] && delivered == []
    {
      list, nextHandle, delivered := [], 0, [];
    }

    /** AddToList: the request goes to the back as a new element, whose handle it returns. */
    method AddToList(d: ElementData) returns (h: nat)
      requires Valid()
      modifies this`list, this`nextHandle
      ensures Valid()
      ensures list == old(list) + [Element(h, d)]
      ensures forall i :: 0 <= i < |old(list)| ==> old(list)[i].handle != h
    {
      h := nextHandle;
      list := list + [Element(h, d)];
      nextHandle := nextHandle + 1;
    }

    /** RemoveFromList */
    method RemoveFromList(h: nat)
      requires Valid()
      modifies this`list
      ensures Valid()
      ensures list == Without(old(list), h)
    {
      list := Without(list, h);
      WithoutDistinct(old(list), h);
      WithoutMembers(old(list), h);
      assert forall i :: 0 <= i < |list| ==> list[i] in old(list);
    }

    /** The dispatch goroutine as written: take the front element, proxy it, then requeue it as
        a new element or deliver its result. */
    method DispatchFrontAsWritten(outcome: ElementData -> ProxyResult)
      requires Valid()
      modifies this`list, this`nextHandle, this`delivered
      ensures Valid()
      ensures list == DispatchListAsWritten(old(list), old(nextHandle), outcome)
      ensures delivered == old(delivered) + Delivered(old(list), outcome)
    {
      if list == [] {
        return;
      }
      var pqe := list[0].data;
      list := list[1..];
      var res := outcome(pqe);
      if res == UnableToGetChrome {
        var e := Element(nextHandle, pqe);
        nextHandle := nextHandle + 1;
        if list != [] {
          list := [list[0], e] + list[1..];
        } else {
          list := [e];
        }
      } else {
        delivered := delivered + [(pqe.channel, res)];
      }
    }

    /** The dispatch goroutine with the requeued request keeping its element. */
    method DispatchFront(outcome: ElementData -> ProxyResult)
      requires Valid()
      modifies this`list, this`delivered
      ensures Valid()
      ensures list == DispatchList(old(list), outcome)
      ensures delivered == old(delivered) + Delivered(old(list), outcome)
    {
      if list == [] {
        return;
      }
      var el := list[0];
      list := list[1..];
      var res := outcome(el.data);
      if res == UnableToGetChrome {
        if list != [] {
          list := [list[0], el] + list[1..];
        } else {
          list := [el];
        }
        SwapFrontDistinct(old(list), nextHandle);
      } else {
        delivered := delivered + [(el.data.channel, res)];
      }
    }

    /** One tick of the queue ticker: a dispatch, as written, starts only when a request waits
        and the pool has an idle instance. */
    method Tick(hasIdle: bool, outcome: ElementData -> ProxyResult)
      requires Valid()
      modifies this`list, this`nextHandle, this`delivered
      ensures Valid()
      ensures old(list) == [] || !hasIdle ==>
        list == old(list) && nextHandle == old(nextHandle) && delivered == old(delivered)
      ensures old(list) != [] && hasIdle ==>
        list == DispatchListAsWritten(old(list), old(nextHandle), outcome) &&
        delivered == old(delivered) + Delivered(old(list), outcome)
    {
      if |list| == 0 || !hasIdle {
        return;
      }
      DispatchFrontAsWritten(outcome);
    }

    /** The same tick with the corrected dispatch, which requeues the request's own element. */
    method TickCorrected(hasIdle: bool, outcome: ElementData -> ProxyResult)
      requires Valid()
      modifies this`list, this`delivered
      ensures Valid()
      ensures old(list) == [] || !hasIdle ==> list == old(list) && delivered == old(delivered)
      ensures old(list) != [] && hasIdle ==>
        list == DispatchList(old(list), outcome) && delivered == old(delivered) + Delivered(old(list), outcome)
    {
      if |list| == 0 || !hasIdle {
        return;
      }
      DispatchFront(outcome);
    }
  }

  lemma WithoutDistinct(s: seq<Element>, h: nat)
    requires DistinctHandles(s)
    ensures DistinctHandles(Without(s, h))
    decreases |s|
  {
    if s != [] {
      assert DistinctHandles(s[1..]);
      WithoutDistinct(s[1..], h);
      var r := Without(s, h);
      if s[0].handle != h {
        assert r == [s[0]] + Without(s[1..], h);
        WithoutMembers(s[1..], h);
        forall j | 1 <= j < |r| ensures r[j].handle != s[0].handle {
          assert r[j] in Without(s[1..], h);
          assert r[j] in s[1..];
        }
      }
    }
  }

  /** Putting the front element back second keeps the handles distinct and below `next`. */
  lemma SwapFrontDistinct(l: seq<Element>, next: nat)
    requires l != [] && DistinctHandles(l) && forall i :: 0 <= i < |l| ==> l[i].handle < next
    ensures DistinctHandles(Requeued(l[1..], l[0]))
    ensures forall i :: 0 <= i < |l| ==> Requeued(l[1..], l[0])[i].handle < next
  {
    var r := Requeued(l[1..], l[0]);
    if |l| >= 2 {
      forall i | 0 <= i < |r| ensures r[i] == l[if i == 0 then 1 else if i == 1 then 0 else i] {
        if i >= 2 {
          assert r[i] == r[2..][i - 2];
        }
      }
    }
  }

  /** A bound on the handles of a list. */
  function MaxHandle(l: seq<Element>): (m: nat)
    ensures forall i :: 0 <= i < |l| ==> l[i].handle <= m
  {
    if l == [] then 0 else var m := MaxHandle(l[1..]); if l[0].handle > m then l[0].handle else m
  }
}
