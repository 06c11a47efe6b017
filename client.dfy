/** The example client script: it builds the query string from the optional profile and access
    token, attaches to the server's /connect endpoint, takes one screenshot of a page, closes the
    page and then either closes or disconnects from the browser. Every awaited library call is a
    step that may throw; which one throws, if any, is a parameter. The steps the run attempts are
    returned as a trace. */
module Client {
  import opened Wrappers
  import opened Strings

  const DefaultServerPort := "3000"
  const ScreenshotFilePath := "scripts/example.png"
  const TargetUrl := "https://news.ycombinator.com"
  const WaitUntil := "networkidle2"
  const ProfileParam := "profile"
  const AccessTokenParam := "accessToken"
  const SavedMessage := "screenshot saved at " + ScreenshotFilePath
  /** What the catch block throws: its message names `search`, which is declared nowhere, so
      building the message raises a ReferenceError and the returned promise rejects with it. */
  const ReferenceErrorText := "ReferenceError: search is not defined"

  /** A string argument that may be undefined is truthy when it is defined and not empty. */
  predicate Truthy(o: Option<string>) {
    o.Some? && o.value != ""
  }

  // ---------------------------------------------------------------------------------------
  // URLSearchParams

  datatype Param = Param(name: string, value: string)

  /** The entries not named `name`, in order. */
  function Others(ps: seq<Param>, name: string): (r: seq<Param>)
    ensures |r| <= |ps|
  {
    if ps == [] then []
    else if ps[0].name == name then Others(ps[1..], name)
    else [ps[0]] + Others(ps[1..], name)
  }

  /** The entries named `name`, in order. */
  function Named(ps: seq<Param>, name: string): (r: seq<Param>)
    ensures |r| <= |ps|
  {
    if ps == [] then []
    else if ps[0].name == name then [ps[0]] + Named(ps[1..], name)
    else Named(ps[1..], name)
  }

  /** URLSearchParams.set: the first entry with the name takes the value and any later ones
      go; without one, the pair is appended. */
  function SetParam(ps: seq<Param>, name: string, value: string): seq<Param> {
    if ps == [] then [Param(name, value)]
    else if ps[0].name == name then [Param(name, value)] + Others(ps[1..], name)
    else [ps[0]] + SetParam(ps[1..], name, value)
  }

  lemma {:induction false} OthersIdempotent(ps: seq<Param>, name: string)
    ensures Others(Others(ps, name), name) == Others(ps, name)
    ensures Named(Others(ps, name), name) == []
  {
    if ps != [] {
      OthersIdempotent(ps[1..], name);
    }
  }

  /** After set, exactly one entry has the name and it holds the value; the other entries are
      the ones before, in their order; a name not present before is appended. */
  lemma {:induction false} SetParamSpec(ps: seq<Param>, name: string, value: string)
    ensures Named(SetParam(ps, name, value), name) == [Param(name, value)]
    ensures Others(SetParam(ps, name, value), name) == Others(ps, name)
    ensures Named(ps, name) == [] ==> SetParam(ps, name, value) == ps + [Param(name, value)]
  {
    if ps != [] {
      if ps[0].name == name {
        OthersIdempotent(ps[1..], name);
      } else {
        SetParamSpec(ps[1..], name, value);
      }
    }
  }

  /** The characters the form-urlencoded serializer writes as they are. */
  predicate Unreserved(c: char) {
    ('A' <= c <= 'Z') || ('a' <= c <= 'z') || ('0' <= c <= '9') || c == '*' || c == '-' || c == '.' || c == '_'
  }

  /** A Unicode scalar value as its UTF-8 bytes. */
  function Utf8(cp: nat): (bytes: seq<nat>)
    requires cp < 0x110000
    ensures 1 <= |bytes| <= 4 && forall i :: 0 <= i < |bytes| ==> bytes[i] < 256
  {
    if cp < 0x80 then [cp]
    else if cp < 0x800 then [0xC0 + cp / 0x40, 0x80 + cp % 0x40]
    else if cp < 0x10000 then [0xE0 + cp / 0x1000, 0x80 + cp / 0x40 % 0x40, 0x80 + cp % 0x40]
    else [0xF0 + cp / 0x40000, 0x80 + cp / 0x1000 % 0x40, 0x80 + cp / 0x40 % 0x40, 0x80 + cp % 0x40]
  }

  function UpperHex(n: nat): char
    requires n < 16
  {
    if n < 10 then ('0' as int + n) as char else ('A' as int + n - 10) as char
  }

  function PercentBytes(bytes: seq<nat>): string
    requires forall i :: 0 <= i < |bytes| ==> bytes[i] < 256
  {
    if bytes == [] then "" else ['%', UpperHex(bytes[0] / 16), UpperHex(bytes[0] % 16)] + PercentBytes(bytes[1..])
  }

  /** application/x-www-form-urlencoded: unreserved characters stay, a space becomes '+', every
      other character becomes its UTF-8 bytes as %XX. */
  function FormEncode(s: string): string {
    if s == [] then ""
    else
      var c := s[0];
      (if Unreserved(c) then [c] else if c == ' ' then "+" else PercentBytes(Utf8(c as nat))) + FormEncode(s[1..])
  }

  /** What the serializer writes: unreserved characters, '+', '%'. */
  predicate Encoded(c: char) {
    Unreserved(c) || c == '+' || c == '%'
  }

  lemma {:induction false} PercentBytesEncoded(bytes: seq<nat>)
    requires forall i :: 0 <= i < |bytes| ==> bytes[i] < 256
    ensures forall c :: c in PercentBytes(bytes) ==> Encoded(c)
  {
    if bytes != [] {
      PercentBytesEncoded(bytes[1..]);
    }
  }

  /** Encoded text holds neither '&' nor '=', so the serialized query splits back cleanly. */
  lemma {:induction false} FormEncodeEncoded(s: string)
    ensures forall c :: c in FormEncode(s) ==> Encoded(c)
  {
    if s != [] {
      var c := s[0];
      if !Unreserved(c) && c != ' ' {
        PercentBytesEncoded(Utf8(c as nat));
      }
      FormEncodeEncoded(s[1..]);
    }
  }

  /** Each entry as name=value. */
  function Pieces(ps: seq<Param>): (r: seq<string>)
    ensures |r| == |ps|
  {
    if ps == [] then [] else [FormEncode(ps[0].name) + "=" + FormEncode(ps[0].value)] + Pieces(ps[1..])
  }

  /** URLSearchParams.toString */
  function Serialize(ps: seq<Param>): string {
    Join(Pieces(ps), "&")
  }

  /** The serialized query splits at '&' into one name=value piece per entry, and each piece
      splits at '=' into the encoded name and value. */
  lemma {:induction false} SerializeSplits(ps: seq<Param>)
    requires |ps| >= 1
    ensures Split(Serialize(ps), '&') == Pieces(ps)
    ensures forall i :: 0 <= i < |ps| ==>
      Split(Pieces(ps)[i], '=') == [FormEncode(ps[i].name), FormEncode(ps[i].value)]
  {
    PiecesSplit(ps);
    SplitJoin(Pieces(ps), '&');
  }

  lemma {:induction false} PiecesSplit(ps: seq<Param>)
    ensures forall i :: 0 <= i < |ps| ==> '&' !in Pieces(ps)[i]
    ensures forall i :: 0 <= i < |ps| ==>
      Split(Pieces(ps)[i], '=') == [FormEncode(ps[i].name), FormEncode(ps[i].value)]
  {
    if ps != [] {
      var n, v := FormEncode(ps[0].name), FormEncode(ps[0].value);
      FormEncodeEncoded(ps[0].name);
      FormEncodeEncoded(ps[0].value);
      assert '&' !in n + "=" + v;
      SplitAfterPiece(n, '=', v);
      SplitNoSeparator(v, '=');
      assert n + "=" + v == n + ['='] + v;
      PiecesSplit(ps[1..]);
      assert forall i :: 1 <= i < |ps| ==> Pieces(ps)[i] == Pieces(ps[1..])[i - 1];
    }
  }

  /** The query parameters a run sends: the profile when truthy, then the access token when
      truthy. */
  function QueryParams(profile: Option<string>, accessToken: Option<string>): (r: seq<Param>)
    ensures |r| == (if Truthy(profile) then 1 else 0) + (if Truthy(accessToken) then 1 else 0)
    ensures forall i :: 0 <= i < |r| ==> r[i].value != ""
    ensures Truthy(profile) ==> r[0] == Param(ProfileParam, profile.value)
    ensures Truthy(accessToken) ==> r[|r| - 1] == Param(AccessTokenParam, accessToken.value)
    ensures Named(r, ProfileParam) == (if Truthy(profile) then [Param(ProfileParam, profile.value)] else [])
    ensures Named(r, AccessTokenParam) == (if Truthy(accessToken) then [Param(AccessTokenParam, accessToken.value)] else [])
  {
    (if Truthy(profile) then [Param(ProfileParam, profile.value)] else []) +
    (if Truthy(accessToken) then [Param(AccessTokenParam, accessToken.value)] else [])
  }

  class SearchParams {
    var entries: seq<Param>

    constructor ()
      ensures entries == []
    {
      entries := [];
    }

    method Set(name: string, value: string)
      modifies this
      ensures entries == SetParam(old(entries), name, value)
    {
      entries := SetParam(entries, name, value);
    }
  }

  // ---------------------------------------------------------------------------------------
  // The run

  /** process.env.PORT || 3000 */
  function ServerPort(envPort: Option<string>): string {
    if Truthy(envPort) then envPort.value else DefaultServerPort
  }

  function Endpoint(envPort: Option<string>, query: string): string {
    "ws://localhost:" + ServerPort(envPort) + "/connect?" + query
  }

  /** The endpoint is the /connect path on localhost at PORT, or 3000 when PORT is unset or
      empty, followed by '?' and the query, so with no parameters it ends in '?'. */
  lemma EndpointShape(envPort: Option<string>, query: string)
    ensures HasPrefix(Endpoint(envPort, query), "ws://localhost:" + ServerPort(envPort) + "/connect?")
    ensures HasSuffix(Endpoint(envPort, query), "/connect?" + query)
    ensures !Truthy(envPort) ==> HasPrefix(Endpoint(envPort, query), "ws://localhost:3000/connect?")
    ensures query == "" ==> Endpoint(envPort, query)[|Endpoint(envPort, query)| - 1] == '?'
  {
    var e := Endpoint(envPort, query);
    var head := "ws://localhost:" + ServerPort(envPort) + "/connect?";
    assert e == head + query;
    assert e[..|head|] == head;
    assert e[|e| - |"/connect?" + query|..] == "/connect?" + query;
  }

  /** A library call the script makes, or its success log line. */
  datatype Step =
    | Connect(endpoint: string)
    | NewPage
    | Goto(url: string, waitUntil: string)
    | Screenshot(path: string)
    | ClosePage
    | CloseBrowser
    | Disconnect
    | Log(message: string)

  predicate Disposal(s: Step) {
    s.CloseBrowser? || s.Disconnect?
  }

  datatype Outcome = Resolved | Rejected(error: string)

  /** The steps of a run that meets no exception. */
  function PlannedSteps(endpoint: string, closeBrowser: bool): seq<Step> {
    [Connect(endpoint), NewPage, Goto(TargetUrl, WaitUntil), Screenshot(ScreenshotFilePath), ClosePage,
     if closeBrowser then CloseBrowser else Disconnect, Log(SavedMessage)]
  }

  /** The index of the disposal call among the planned steps. */
  const DisposalIndex := 5

  /** Whether one of the library calls (the first six steps) throws. */
  predicate Throws(throwsAt: Option<nat>) {
    throwsAt.Some? && throwsAt.value <= DisposalIndex
  }

  /** The steps attempted: up to and including the one that throws. */
  function Attempted(planned: seq<Step>, throwsAt: Option<nat>): seq<Step>
    requires |planned| > DisposalIndex
  {
    if Throws(throwsAt) then planned[..throwsAt.value + 1] else planned
  }

  /** On a run without exception: connect, newPage, goto with networkidle2, screenshot,
      page.close, then exactly one disposal call (close when closeBrowser, disconnect
      otherwise), then the success log. */
  lemma NormalRun(endpoint: string, closeBrowser: bool, throwsAt: Option<nat>)
    requires !Throws(throwsAt)
    ensures var t := Attempted(PlannedSteps(endpoint, closeBrowser), throwsAt);
      |t| == 7 && t[0] == Connect(endpoint) && t[1] == NewPage && t[2] == Goto(TargetUrl, WaitUntil) &&
      t[3] == Screenshot(ScreenshotFilePath) && t[4] == ClosePage &&
      (t[DisposalIndex] == CloseBrowser <==> closeBrowser) && (t[DisposalIndex] == Disconnect <==> !closeBrowser) &&
      (forall i :: 0 <= i < |t| && i != DisposalIndex ==> !Disposal(t[i])) &&
      t[6] == Log(SavedMessage)
  {
  }

  /** An exception at step k: the steps up to k are attempted and none after it; no disposal
      happens unless k is the disposal itself, and the success log never appears. */
  lemma ThrowSkipsLater(endpoint: string, closeBrowser: bool, throwsAt: Option<nat>)
    requires Throws(throwsAt)
    ensures var t := Attempted(PlannedSteps(endpoint, closeBrowser), throwsAt);
      |t| == throwsAt.value + 1 && t == PlannedSteps(endpoint, closeBrowser)[..throwsAt.value + 1] &&
      (forall i :: 0 <= i < |t| ==> !t[i].Log?) &&
      (throwsAt.value < DisposalIndex ==> forall i :: 0 <= i < |t| ==> !Disposal(t[i])) &&
      (throwsAt.value < 4 ==> ClosePage !in t)
  {
  }

  /** The success message appears only after the disposal call. */
  lemma LogAfterDisposal(endpoint: string, closeBrowser: bool, throwsAt: Option<nat>)
    ensures var t := Attempted(PlannedSteps(endpoint, closeBrowser), throwsAt);
      forall i :: 0 <= i < |t| && t[i].Log? ==> DisposalIndex < i && Disposal(t[DisposalIndex])
  {
  }

  /** The query-building part of the run: the URLSearchParams it fills, serialized. */
  method BuildQuery(profile: Option<string>, accessToken: Option<string>) returns (query: string)
    ensures query == Serialize(QueryParams(profile, accessToken))
  {
    var params := new SearchParams();
    if Truthy(profile) {
      params.Set(ProfileParam, profile.value);
    }
    if Truthy(accessToken) {
      SetParamSpec(params.entries, AccessTokenParam, accessToken.value);
      params.Set(AccessTokenParam, accessToken.value);
    }
    query := Serialize(params.entries);
  }

  /** The awaited steps inside the try block and the catch that follows them. */
  method RunSteps(endpoint: string, close: bool, throwsAt: Option<nat>) returns (trace: seq<Step>, outcome: Outcome)
    ensures trace == Attempted(PlannedSteps(endpoint, close), throwsAt)
    ensures outcome == if Throws(throwsAt) then Rejected(ReferenceErrorText) else Resolved
  {
    ghost var planned := PlannedSteps(endpoint, close);
    trace := [Connect(endpoint)];
    if throwsAt == Some(0) {
      assert trace == planned[..1];
      return trace, Rejected(ReferenceErrorText);
    }
    trace := trace + [NewPage];
    if throwsAt == Some(1) {
      assert trace == planned[..2];
      return trace, Rejected(ReferenceErrorText);
    }
    trace := trace + [Goto(TargetUrl, WaitUntil)];
    if throwsAt == Some(2) {
      assert trace == planned[..3];
      return trace, Rejected(ReferenceErrorText);
    }
    trace := trace + [Screenshot(ScreenshotFilePath)];
    if throwsAt == Some(3) {
      assert trace == planned[..4];
      return trace, Rejected(ReferenceErrorText);
    }
    trace := trace + [ClosePage];
    if throwsAt == Some(4) {
      assert trace == planned[..5];
      return trace, Rejected(ReferenceErrorText);
    }
    if close {
      trace := trace + [CloseBrowser];
    } else {
      trace := trace + [Disconnect];
    }
    if throwsAt == Some(5) {
      assert trace == planned[..6];
      return trace, Rejected(ReferenceErrorText);
    }
    trace := trace + [Log(SavedMessage)];
    outcome := Resolved;
  }

  /** saveImgSearchScreenshot, with `closeBrowser` absent meaning false and `throwsAt` the step
      whose call throws. */
  method SaveImgSearchScreenshot(profile: Option<string>, accessToken: Option<string>, closeBrowser: Option<bool>,
                                 envPort: Option<string>, throwsAt: Option<nat>)
    returns (trace: seq<Step>, outcome: Outcome)
    ensures trace == Attempted(PlannedSteps(Endpoint(envPort, Serialize(QueryParams(profile, accessToken))),
                                            closeBrowser == Some(true)), throwsAt)
    ensures outcome == if Throws(throwsAt) then Rejected(ReferenceErrorText) else Resolved
  {
    var close := if closeBrowser.Some? then closeBrowser.value else false;
    var query := BuildQuery(profile, accessToken);
    trace, outcome := RunSteps(Endpoint(envPort, query), close, throwsAt);
  }
}
