/** The web layer: route tagging, handler signature analysis, and how a
    request handler assembles the keyword arguments of the function it wraps. */
module Coroweb {
  import opened Values
  import opened Apis

  // ---------------------------------------------------------------------------
  // Signatures
  // ---------------------------------------------------------------------------

  /** `inspect.Parameter.kind`. */
  datatype Kind = PositionalOnly | PositionalOrKeyword | VarPositional | KeywordOnly | VarKeyword

  /** A parameter: its name, kind, and whether it declares a default. */
  datatype Param = Param(name: string, kind: Kind, hasDefault: bool)

  /** A signature's parameters, in declaration order. */
  type Signature = seq<Param>

  /** Names of the keyword-only parameters, in order. */
  function NamedKwArgs(ps: Signature): seq<string>
  {
    if ps == [] then []
    else NamedKwArgs(ps[..|ps| - 1]) + (if ps[|ps| - 1].kind == KeywordOnly then [ps[|ps| - 1].name] else [])
  }

  /** Names of the keyword-only parameters without a default, in order. */
  function RequiredKwArgs(ps: Signature): seq<string>
  {
    if ps == [] then []
    else
      var p := ps[|ps| - 1];
      RequiredKwArgs(ps[..|ps| - 1]) + (if p.kind == KeywordOnly && !p.hasDefault then [p.name] else [])
  }

  predicate HasKind(ps: Signature, k: Kind)
  {
    exists i :: 0 <= i < |ps| && ps[i].kind == k
  }

  /** `get_required_kw_args`. */
  method GetRequiredKwArgs(ps: Signature) returns (args: seq<string>)
    ensures args == RequiredKwArgs(ps)
  {
    args := [];
    var i := 0;
    while i < |ps|
      invariant 0 <= i <= |ps|
      invariant args == RequiredKwArgs(ps[..i])
    {
      assert ps[..i + 1][..i] == ps[..i];
      if ps[i].kind == KeywordOnly && !ps[i].hasDefault {
        args := args + [ps[i].name];
      }
      i := i + 1;
    }
    assert ps[..i] == ps;
  }

  /** `get_name_kw_args`. */
  method GetNameKwArgs(ps: Signature) returns (args: seq<string>)
    ensures args == NamedKwArgs(ps)
  {
    args := [];
    var i := 0;
    while i < |ps|
      invariant 0 <= i <= |ps|
      invariant args == NamedKwArgs(ps[..i])
    {
      assert ps[..i + 1][..i] == ps[..i];
      if ps[i].kind == KeywordOnly {
        args := args + [ps[i].name];
      }
      i := i + 1;
    }
    assert ps[..i] == ps;
  }

  /** `has_named_kw_args` (its `None` is false here). */
  method HasNamedKwArgs(ps: Signature) returns (r: bool)
    ensures r <==> HasKind(ps, KeywordOnly)
  {
    var i := 0;
    while i < |ps|
      invariant 0 <= i <= |ps|
      invariant forall j :: 0 <= j < i ==> ps[j].kind != KeywordOnly
    {
      if ps[i].kind == KeywordOnly {
        return true;
      }
      i := i + 1;
    }
    return false;
  }

  /** `has_var_kw_arg` (its `None` is false here). */
  method HasVarKwArg(ps: Signature) returns (r: bool)
    ensures r <==> HasKind(ps, VarKeyword)
  {
    var i := 0;
    while i < |ps|
      invariant 0 <= i <= |ps|
      invariant forall j :: 0 <= j < i ==> ps[j].kind != VarKeyword
    {
      if ps[i].kind == VarKeyword {
        return true;
      }
      i := i + 1;
    }
    return false;
  }

  datatype RouteError =
    | RequestNotLast    // `request` is followed by a parameter that can be passed by position
    | NotDecorated      // the function carries no method or no route

  /** The kinds that may follow `request`. */
  predicate MayFollowRequest(k: Kind)
  {
    k == VarKeyword || k == VarPositional || k == KeywordOnly
  }

  /** The scan of `has_request_arg` over a prefix of the parameters: whether
      `request` was found, or the error raised. */
  function RequestScan(ps: Signature): Result<bool, RouteError>
  {
    if ps == [] then Ok(false)
    else
      var prev := RequestScan(ps[..|ps| - 1]);
      var p := ps[|ps| - 1];
      if prev.Err? then prev
      else if p.name == "request" then Ok(true)
      else if prev.value && !MayFollowRequest(p.kind) then Err(RequestNotLast)
      else prev
  }

  /** `has_request_arg`. */
  method HasRequestArg(ps: Signature) returns (r: Result<bool, RouteError>)
    ensures r == RequestScan(ps)
  {
    var found := false;
    var i := 0;
    while i < |ps|
      invariant 0 <= i <= |ps|
      invariant RequestScan(ps[..i]) == Ok(found)
    {
      assert ps[..i + 1][..i] == ps[..i];
      if ps[i].name == "request" {
        found := true;
        i := i + 1;
        continue;
      }
      if found && !MayFollowRequest(ps[i].kind) {
        RequestScanErrorSticks(ps, i + 1);
        return Err(RequestNotLast);
      }
      i := i + 1;
    }
    assert ps[..i] == ps;
    return Ok(found);
  }

  lemma {:induction false} RequestScanErrorSticks(ps: Signature, i: nat)
    requires i <= |ps| && RequestScan(ps[..i]).Err?
    ensures RequestScan(ps) == RequestScan(ps[..i])
    decreases |ps| - i
  {
    if i < |ps| {
      assert ps[..i + 1][..i] == ps[..i];
      RequestScanErrorSticks(ps, i + 1);
    } else {
      assert ps[..i] == ps;
    }
  }

  /** A parameter named `request` followed, later on, by one of another name
      that can be passed by position. */
  predicate MisplacedRequest(ps: Signature)
  {
    exists i, j :: 0 <= i < j < |ps| && ps[i].name == "request" && ps[j].name != "request" && !MayFollowRequest(ps[j].kind)
  }

  predicate DeclaresRequest(ps: Signature)
  {
    exists i :: 0 <= i < |ps| && ps[i].name == "request"
  }

  /** `has_request_arg` raises exactly for a misplaced `request`, and
      otherwise answers whether a parameter is named `request`. */
  lemma {:induction false} RequestScanCharacterised(ps: Signature)
    ensures RequestScan(ps).Err? <==> MisplacedRequest(ps)
    ensures RequestScan(ps).Ok? ==> (RequestScan(ps).value <==> DeclaresRequest(ps))
  {
    if ps != [] {
      var init := ps[..|ps| - 1];
      var p := ps[|ps| - 1];
      RequestScanCharacterised(init);
      assert forall i :: 0 <= i < |init| ==> init[i] == ps[i];
      if MisplacedRequest(ps) && !MisplacedRequest(init) {
        var i, j :| 0 <= i < j < |ps| && ps[i].name == "request" && ps[j].name != "request" && !MayFollowRequest(ps[j].kind);
        assert j == |ps| - 1;
        assert DeclaresRequest(init);
      }
      if DeclaresRequest(ps) && !DeclaresRequest(init) {
        assert p.name == "request";
      }
    }
  }

  /** Signature facts as the handler caches them. */
  lemma {:induction false} KwArgsMembers(ps: Signature)
    ensures forall n :: n in NamedKwArgs(ps) <==> exists i :: 0 <= i < |ps| && ps[i].name == n && ps[i].kind == KeywordOnly
    ensures forall n :: n in RequiredKwArgs(ps) <==>
      exists i :: 0 <= i < |ps| && ps[i].name == n && ps[i].kind == KeywordOnly && !ps[i].hasDefault
    ensures NamedKwArgs(ps) != [] <==> HasKind(ps, KeywordOnly)
  {
    if ps != [] {
      var init := ps[..|ps| - 1];
      KwArgsMembers(init);
      assert forall i :: 0 <= i < |init| ==> init[i] == ps[i];
      assert HasKind(init, KeywordOnly) ==> HasKind(ps, KeywordOnly);
      if HasKind(ps, KeywordOnly) && !HasKind(init, KeywordOnly) {
        assert ps[|ps| - 1].kind == KeywordOnly;
      }
    }
  }

  /** `a` is `b` with some elements left out, order kept. */
  predicate Subsequence(a: seq<string>, b: seq<string>)
    decreases |b|
  {
    if a == [] then true
    else if b == [] then false
    else if a[|a| - 1] == b[|b| - 1] then Subsequence(a[..|a| - 1], b[..|b| - 1])
    else Subsequence(a, b[..|b| - 1])
  }

  /** Dropping the last element of the sub-sequence keeps it one. */
  lemma {:induction false} SubsequenceDrop(a: seq<string>, b: seq<string>)
    requires a != [] && Subsequence(a, b)
    ensures Subsequence(a[..|a| - 1], b)
    decreases |b|
  {
    var a' := a[..|a| - 1];
    var b' := b[..|b| - 1];
    if a[|a| - 1] == b[|b| - 1] {
      if a' != [] && a'[|a'| - 1] == b[|b| - 1] {
        SubsequenceDrop(a', b');
      }
    } else {
      SubsequenceDrop(a, b');
      if a' != [] && a'[|a'| - 1] == b[|b| - 1] {
        SubsequenceDrop(a', b');
      }
    }
  }

  /** Appending to the longer sequence keeps a sub-sequence one. */
  lemma SubsequenceExtend(a: seq<string>, b: seq<string>, x: string)
    requires Subsequence(a, b)
    ensures Subsequence(a, b + [x])
  {
    var b' := b + [x];
    assert b'[..|b'| - 1] == b;
    if a != [] && a[|a| - 1] == x {
      SubsequenceDrop(a, b);
    }
  }

  /** The required keyword arguments are a sub-sequence of the named ones. */
  lemma {:induction false} RequiredAmongNamed(ps: Signature)
    ensures Subsequence(RequiredKwArgs(ps), NamedKwArgs(ps))
  {
    if ps != [] {
      var init := ps[..|ps| - 1];
      var p := ps[|ps| - 1];
      RequiredAmongNamed(init);
      var a := RequiredKwArgs(init);
      var b := NamedKwArgs(init);
      if p.kind != KeywordOnly {
        assert RequiredKwArgs(ps) == a && NamedKwArgs(ps) == b;
      } else if !p.hasDefault {
        var a' := a + [p.name];
        var b' := b + [p.name];
        assert RequiredKwArgs(ps) == a' && NamedKwArgs(ps) == b';
        assert a'[..|a'| - 1] == a && b'[..|b'| - 1] == b;
      } else {
        assert RequiredKwArgs(ps) == a && NamedKwArgs(ps) == b + [p.name];
        SubsequenceExtend(a, b, p.name);
      }
    }
  }

  // ---------------------------------------------------------------------------
  // Route tagging
  // ---------------------------------------------------------------------------

  /** A value passed to the handler function: a request value, or the request. */
  datatype Arg = Val(v: Value) | RequestObject

  /** The keyword arguments of a call. */
  type Kw = map<string, Arg>

  /** What the handler function does when called with some keyword arguments. */
  datatype Outcome = Returns(v: Value) | RaisesApi(e: ApiError) | RaisesOther(name: string)

  /** A handler function: its signature, what a call does, and the
      `__method__` and `__route__` tags (absent until decorated). */
  datatype Func = Func(params: Signature, body: Kw -> Outcome, httpMethod: Option<string>, route: Option<string>)

  /** What both decorators do: the wrapper calls straight through (keeping
      the signature, as `functools.wraps` does) and carries the two tags. */
  function Tagged(httpMethod: string, path: string, f: Func): (w: Func)
    ensures w.httpMethod == Some(httpMethod) && w.route == Some(path) && w.params == f.params
    ensures forall kw :: w.body(kw) == f.body(kw)
  {
    Func(f.params, kw => f.body(kw), Some(httpMethod), Some(path))
  }

  /** `@get(path)`. */
  function Get(path: string, f: Func): (w: Func)
    ensures w == Tagged("GET", path, f)
  {
    Tagged("GET", path, f)
  }

  /** `@post(path)`. */
  function Post(path: string, f: Func): (w: Func)
    ensures w == Tagged("POST", path, f)
  {
    Tagged("POST", path, f)
  }

  /** The signature facts a request handler caches. */
  datatype Handler = Handler(
    hasRequestArg: bool,
    hasVarKwArg: bool,
    hasNamedKwArgs: bool,
    namedKwArgs: seq<string>,
    requiredKwArgs: seq<string>)

  /** `RequestHandler(app, func)`: fails as `has_request_arg` does. */
  method NewRequestHandler(ps: Signature) returns (r: Result<Handler, RouteError>)
    ensures r.Err? <==> RequestScan(ps).Err?
    ensures r.Err? ==> r.error == RequestNotLast
    ensures r.Ok? ==> r.value == Handler(RequestScan(ps).value, HasKind(ps, VarKeyword), HasKind(ps, KeywordOnly),
                                         NamedKwArgs(ps), RequiredKwArgs(ps))
  {
    var req := HasRequestArg(ps);
    if req.Err? {
      RequestScanCharacterised(ps);
      return Err(RequestNotLast);
    }
    var varKw := HasVarKwArg(ps);
    var namedKw := HasNamedKwArgs(ps);
    var named := GetNameKwArgs(ps);
    var required := GetRequiredKwArgs(ps);
    r := Ok(Handler(req.value, varKw, namedKw, named, required));
  }

  /** A registered route. */
  datatype Route = Route(httpMethod: string, path: string, func: Func, handler: Handler)

  /** `add_route(app, func)`: the tags must both be present; the handler is
      then built from the function's signature. */
  method AddRoute(f: Func) returns (r: Result<Route, RouteError>)
    ensures f.httpMethod.None? || f.route.None? ==> r == Err(NotDecorated)
    ensures f.httpMethod.Some? && f.route.Some? ==> (r.Ok? <==> RequestScan(f.params).Ok?)
    ensures r.Ok? ==> r.value.httpMethod == f.httpMethod.value && r.value.path == f.route.value && r.value.func == f
    ensures r.Ok? ==> r.value.handler == Handler(RequestScan(f.params).value, HasKind(f.params, VarKeyword),
                                                 HasKind(f.params, KeywordOnly),
                                                 NamedKwArgs(f.params), RequiredKwArgs(f.params))
  {
    if f.route.None? || f.httpMethod.None? {
      return Err(NotDecorated);
    }
    var h := NewRequestHandler(f.params);
    if h.Err? {
      return Err(h.error);
    }
    r := Ok(Route(f.httpMethod.value, f.route.value, f, h.value));
  }

  // ---------------------------------------------------------------------------
  // Request handling
  // ---------------------------------------------------------------------------

  /** What the handler reads from a request, already parsed: `contentType`
      is "" when missing, `json` is `None` when the JSON body is not an
      object, `query` is `parse_qs` of the query string, `matchInfo` the
      route's path variables. */
  datatype Request = Request(
    httpMethod: string,
    contentType: string,
    json: Option<map<string, Value>>,
    form: map<string, Value>,
    queryString: string,
    query: map<string, seq<string>>,
    matchInfo: seq<(string, string)>)

  /** `parse_qs` lists at least one value per key; path variables are distinct. */
  predicate WellFormedRequest(req: Request)
  {
    && (forall k :: k in req.query ==> req.query[k] != [])
    && (forall i, j :: 0 <= i < j < |req.matchInfo| ==> req.matchInfo[i].0 != req.matchInfo[j].0)
  }

  /** What the handler answers. */
  datatype Response =
    | BadRequest(text: string)
    | HandlerResult(v: Value)
    | ApiErrorDict(error: string, data: string, message: string)
    | Propagated(name: string)

  /** The keyword arguments taken from the body or the query string, before
      the path variables. */
  datatype Collected = Rejected(text: string) | NothingCollected | Collected(kw: map<string, Value>)

  /** The first value of each query parameter. */
  function FirstValues(query: map<string, seq<string>>): map<string, Value>
    requires forall k :: k in query ==> query[k] != []
  {
    map k | k in query :: Str(query[k][0])
  }

  /** Lines 89-109: only a handler that takes keyword arguments or the request
      reads the body (POST) or the query string (GET). */
  function Collect(h: Handler, req: Request): Collected
    requires WellFormedRequest(req)
  {
    if !(h.hasVarKwArg || h.hasNamedKwArgs || h.hasRequestArg) then NothingCollected
    else if req.httpMethod == "POST" then
      if req.contentType == "" then Rejected("Missing Content-Type.")
      else
        var ct := Lower(req.contentType);
        if StartsWith(ct, "application/json") then
          if req.json.None? then Rejected("JSON body must be object") else Collected(req.json.value)
        else if StartsWith(ct, "application/x-www-form-urlencoded") || StartsWith(ct, "multipart/form-data") then
          Collected(req.form)
        else Rejected("Unsupport Content-Type: " + req.contentType)
    else if req.httpMethod == "GET" && req.queryString != "" then Collected(FirstValues(req.query))
    else NothingCollected
  }

  function Vals(m: map<string, Value>): Kw
  {
    map k | k in m :: Val(m[k])
  }

  /** The path variables as keyword arguments. */
  function MatchArgs(mi: seq<(string, string)>): (r: seq<(string, Arg)>)
    ensures |r| == |mi|
    ensures forall i :: 0 <= i < |mi| ==> r[i] == (mi[i].0, Val(Str(mi[i].1)))
  {
    seq(|mi|, i requires 0 <= i < |mi| => (mi[i].0, Val(Str(mi[i].1))))
  }

  /** The entries of `m` whose key is one of `names`. */
  function Restrict(m: Kw, names: seq<string>): Kw
  {
    map n | n in names && n in m :: m[n]
  }

  /** Lines 110-124: the keyword arguments of the call. */
  function KwSpec(h: Handler, c: Collected, mi: seq<(string, string)>): Kw
    requires !c.Rejected?
  {
    var kw := Overlay(BaseKw(h, c), MatchArgs(mi));
    if h.hasRequestArg then kw["request" := RequestObject] else kw
  }

  /** The collected arguments the call starts from: all of them, or only the
      named keyword arguments when the handler has those and no `**kw`. */
  function BaseKw(h: Handler, c: Collected): Kw
    requires !c.Rejected?
  {
    if c.NothingCollected? then map[]
    else if !h.hasVarKwArg && h.namedKwArgs != [] then Restrict(Vals(c.kw), h.namedKwArgs)
    else Vals(c.kw)
  }

  /** The first required name missing from `kw`, in order. */
  function FirstMissing(required: seq<string>, kw: Kw): Option<string>
  {
    if required == [] then None
    else if required[0] !in kw then Some(required[0])
    else FirstMissing(required[1..], kw)
  }

  /** `RequestHandler.__call__`. */
  function CallSpec(h: Handler, body: Kw -> Outcome, req: Request): Response
    requires WellFormedRequest(req)
  {
    var c := Collect(h, req);
    if c.Rejected? then BadRequest(c.text)
    else
      var kw := KwSpec(h, c, req.matchInfo);
      match FirstMissing(h.requiredKwArgs, kw)
      case Some(n) => BadRequest("Missing argument: " + n)
      case None =>
        match body(kw)
        case Returns(v) => HandlerResult(v)
        case RaisesApi(e) => ApiErrorDict(e.error, e.data, e.message)
        case RaisesOther(name) => Propagated(name)
  }

  /** Lines 114-118: copy the entries named in `names`. */
  method RestrictTo(kw: Kw, names: seq<string>) returns (copy: Kw)
    ensures copy == Restrict(kw, names)
  {
    copy := map[];
    var i := 0;
    while i < |names|
      invariant 0 <= i <= |names|
      invariant copy == Restrict(kw, names[..i])
    {
      var name := names[i];
      assert names[..i + 1] == names[..i] + [name];
      if name in kw {
        copy := copy[name := kw[name]];
      }
      i := i + 1;
    }
    assert names[..i] == names;
  }

  /** Lines 119-122: write each pair over `kw`, in order. */
  method OverlayPairs(kw: Kw, pairs: seq<(string, Arg)>) returns (r: Kw)
    ensures r == Overlay(kw, pairs)
  {
    r := kw;
    var j := 0;
    while j < |pairs|
      invariant 0 <= j <= |pairs|
      invariant r == Overlay(kw, pairs[..j])
    {
      assert pairs[..j + 1][..j] == pairs[..j];
      r := r[pairs[j].0 := pairs[j].1];
      j := j + 1;
    }
    assert pairs[..j] == pairs;
  }

  /** Lines 125-128: the first required name missing from `kw`. */
  method FindMissing(required: seq<string>, kw: Kw) returns (m: Option<string>)
    ensures m == FirstMissing(required, kw)
  {
    var k := 0;
    while k < |required|
      invariant 0 <= k <= |required|
      invariant FirstMissing(required, kw) == FirstMissing(required[k..], kw)
    {
      assert required[k..][1..] == required[k + 1..];
      if required[k] !in kw {
        return Some(required[k]);
      }
      k := k + 1;
    }
    return None;
  }

  /** `RequestHandler.__call__`, step by step. */
  method Call(h: Handler, body: Kw -> Outcome, req: Request) returns (resp: Response)
    requires WellFormedRequest(req)
    ensures resp == CallSpec(h, body, req)
  {
    var c := Collect(h, req);
    if c.Rejected? {
      return BadRequest(c.text);
    }
    var kw: Kw := map[];
    if c.Collected? {
      kw := Vals(c.kw);
      if !h.hasVarKwArg && h.namedKwArgs != [] {
        kw := RestrictTo(kw, h.namedKwArgs);
      }
    }
    kw := OverlayPairs(kw, MatchArgs(req.matchInfo));
    if h.hasRequestArg {
      kw := kw["request" := RequestObject];
    }
    assert kw == KwSpec(h, c, req.matchInfo);
    var missing := FindMissing(h.requiredKwArgs, kw);
    if missing.Some? {
      return BadRequest("Missing argument: " + missing.value);
    }
    var outcome := body(kw);
    match outcome
    case Returns(v) => resp := HandlerResult(v);
    case RaisesApi(e) => resp := ApiErrorDict(e.error, e.data, e.message);
    case RaisesOther(name) => resp := Propagated(name);
  }

  // ---------------------------------------------------------------------------
  // Properties of the call
  // ---------------------------------------------------------------------------

  /** `FirstMissing` names the first required argument `kw` lacks, and finds
      none exactly when all are present. */
  lemma {:induction false} FirstMissingCharacterised(required: seq<string>, kw: Kw)
    ensures FirstMissing(required, kw).None? <==> forall i :: 0 <= i < |required| ==> required[i] in kw
    ensures FirstMissing(required, kw).Some? ==>
      (exists i ::
         && 0 <= i < |required|
         && required[i] == FirstMissing(required, kw).value
         && required[i] !in kw
         && (forall j :: 0 <= j < i ==> required[j] in kw))
  {
    if required != [] && required[0] in kw {
      FirstMissingCharacterised(required[1..], kw);
      assert forall i :: 1 <= i < |required| ==> required[i] == required[1..][i - 1];
      if FirstMissing(required, kw).Some? {
        var i :| 0 <= i < |required[1..]| && required[1..][i] == FirstMissing(required, kw).value
          && required[1..][i] !in kw && forall j :: 0 <= j < i ==> required[1..][j] in kw;
        assert required[i + 1] == required[1..][i];
        assert forall j :: 1 <= j < i + 1 ==> required[j] == required[1..][j - 1];
      }
    }
  }

  /** A missing required argument is answered with Bad Request naming it,
      whatever the function would have done: it is not called. */
  lemma MissingArgumentRejected(h: Handler, body1: Kw -> Outcome, body2: Kw -> Outcome, req: Request)
    requires WellFormedRequest(req) && !Collect(h, req).Rejected?
    requires FirstMissing(h.requiredKwArgs, KwSpec(h, Collect(h, req), req.matchInfo)).Some?
    ensures CallSpec(h, body1, req) == CallSpec(h, body2, req)
    ensures CallSpec(h, body1, req) ==
      BadRequest("Missing argument: " + FirstMissing(h.requiredKwArgs, KwSpec(h, Collect(h, req), req.matchInfo)).value)
  {
  }

  /** With every required argument present the function is called with the
      assembled arguments, and an API error it raises becomes a dictionary of
      its code, data and message. */
  lemma CalledWithKw(h: Handler, body: Kw -> Outcome, req: Request)
    requires WellFormedRequest(req) && !Collect(h, req).Rejected?
    requires forall i :: 0 <= i < |h.requiredKwArgs| ==> h.requiredKwArgs[i] in KwSpec(h, Collect(h, req), req.matchInfo)
    ensures var kw := KwSpec(h, Collect(h, req), req.matchInfo);
      && (body(kw).RaisesApi? ==>
            CallSpec(h, body, req) == ApiErrorDict(body(kw).e.error, body(kw).e.data, body(kw).e.message))
      && (body(kw).Returns? ==> CallSpec(h, body, req) == HandlerResult(body(kw).v))
  {
    FirstMissingCharacterised(h.requiredKwArgs, KwSpec(h, Collect(h, req), req.matchInfo));
  }

  /** The starting arguments are the collected values, restricted to the
      named keyword arguments when the handler has those and no `**kw`. */
  lemma BaseKwEntries(h: Handler, c: Collected)
    requires c.Collected?
    ensures var restricted := !h.hasVarKwArg && h.namedKwArgs != [];
      forall k :: (k in BaseKw(h, c) <==> k in c.kw && (!restricted || k in h.namedKwArgs))
        && (k in BaseKw(h, c) ==> BaseKw(h, c)[k] == Val(c.kw[k]))
  {
  }

  /** The call's argument names: `request` when declared, the path variables
      and the starting arguments. */
  lemma KwSpecKeys(h: Handler, c: Collected, mi: seq<(string, string)>)
    requires !c.Rejected?
    ensures forall k :: k in KwSpec(h, c, mi) <==>
      ((h.hasRequestArg && k == "request") || (exists i :: 0 <= i < |mi| && mi[i].0 == k) || k in BaseKw(h, c))
  {
    var pairs := MatchArgs(mi);
    OverlayKeys(BaseKw(h, c), pairs);
  }

  /** A path variable other than `request` takes the value matched in the path
      (the last match, `match_info` being a dictionary). */
  lemma KwSpecPath(h: Handler, c: Collected, mi: seq<(string, string)>)
    requires !c.Rejected?
    requires forall i, j :: 0 <= i < j < |mi| ==> mi[i].0 != mi[j].0
    ensures forall i :: 0 <= i < |mi| && !(h.hasRequestArg && mi[i].0 == "request") ==>
      mi[i].0 in KwSpec(h, c, mi) && KwSpec(h, c, mi)[mi[i].0] == Val(Str(mi[i].1))
  {
    OverlayLast(BaseKw(h, c), MatchArgs(mi));
  }

  /** A starting argument that no path variable names and that is not
      `request` keeps its value. */
  lemma KwSpecKept(h: Handler, c: Collected, mi: seq<(string, string)>)
    requires !c.Rejected?
    ensures forall k ::
      (&& k in BaseKw(h, c) && !(h.hasRequestArg && k == "request")
       && (forall i :: 0 <= i < |mi| ==> mi[i].0 != k))
      ==> k in KwSpec(h, c, mi) && KwSpec(h, c, mi)[k] == BaseKw(h, c)[k]
  {
    var pairs := MatchArgs(mi);
    OverlayKept(BaseKw(h, c), pairs);
    forall k | k in BaseKw(h, c) && (forall i :: 0 <= i < |mi| ==> mi[i].0 != k)
      ensures forall i :: 0 <= i < |pairs| ==> pairs[i].0 != k
    {
    }
  }

  /** When nothing is collected the arguments are the path variables (and the
      request, when declared): exactly their keys, each with its value. */
  lemma NothingCollectedKw(h: Handler, req: Request)
    requires WellFormedRequest(req) && Collect(h, req).NothingCollected?
    ensures var kw := KwSpec(h, Collect(h, req), req.matchInfo);
      && (forall k :: k in kw <==>
            ((h.hasRequestArg && k == "request") || exists i :: 0 <= i < |req.matchInfo| && req.matchInfo[i].0 == k))
      && (forall i :: 0 <= i < |req.matchInfo| && !(h.hasRequestArg && req.matchInfo[i].0 == "request") ==>
            kw[req.matchInfo[i].0] == Val(Str(req.matchInfo[i].1)))
  {
    KwSpecKeys(h, Collect(h, req), req.matchInfo);
    KwSpecPath(h, Collect(h, req), req.matchInfo);
  }

  /** A collected argument survives unless the handler has no `**kw` but
      named keyword arguments and the name is not one of them; a path variable
      overwrites it; `request` is the request when declared. */
  lemma CollectedKw(h: Handler, req: Request)
    requires WellFormedRequest(req) && Collect(h, req).Collected?
    ensures var c := Collect(h, req).kw;
      var kw := KwSpec(h, Collect(h, req), req.matchInfo);
      var restricted := !h.hasVarKwArg && h.namedKwArgs != [];
      && (forall k :: k in kw <==>
            (|| (h.hasRequestArg && k == "request")
             || (exists i :: 0 <= i < |req.matchInfo| && req.matchInfo[i].0 == k)
             || (k in c && (!restricted || k in h.namedKwArgs))))
      && (forall i :: 0 <= i < |req.matchInfo| && !(h.hasRequestArg && req.matchInfo[i].0 == "request") ==>
            kw[req.matchInfo[i].0] == Val(Str(req.matchInfo[i].1)))
      && (forall k ::
            (&& k in c && (!restricted || k in h.namedKwArgs) && !(h.hasRequestArg && k == "request")
             && (forall i :: 0 <= i < |req.matchInfo| ==> req.matchInfo[i].0 != k))
            ==> kw[k] == Val(c[k]))
      && (h.hasRequestArg ==> kw["request"] == RequestObject)
  {
    var c := Collect(h, req);
    BaseKwEntries(h, c);
    KwSpecKeys(h, c, req.matchInfo);
    KwSpecPath(h, c, req.matchInfo);
    KwSpecKept(h, c, req.matchInfo);
  }

  /** Lines 90-103 for a handler that reads the body of a POST: a missing
      content type, a JSON body that is not an object and an unknown type
      are rejected; the type is matched by prefix, ignoring ASCII case. */
  lemma PostContentType(h: Handler, req: Request)
    requires WellFormedRequest(req) && req.httpMethod == "POST"
    requires h.hasVarKwArg || h.hasNamedKwArgs || h.hasRequestArg
    ensures req.contentType == "" ==> Collect(h, req) == Rejected("Missing Content-Type.")
    ensures req.contentType != "" && StartsWith(Lower(req.contentType), "application/json") ==>
      Collect(h, req) == (if req.json.None? then Rejected("JSON body must be object") else Collected(req.json.value))
    ensures req.contentType != "" && StartsWith(Lower(req.contentType), "application/x-www-form-urlencoded") ==>
      Collect(h, req) == Collected(req.form)
    ensures req.contentType != "" && StartsWith(Lower(req.contentType), "multipart/form-data") ==>
      Collect(h, req) == Collected(req.form)
    ensures (&& req.contentType != ""
             && !StartsWith(Lower(req.contentType), "application/json")
             && !StartsWith(Lower(req.contentType), "application/x-www-form-urlencoded")
             && !StartsWith(Lower(req.contentType), "multipart/form-data")) ==>
      Collect(h, req) == Rejected("Unsupport Content-Type: " + req.contentType)
    ensures Collect(h, req).Collected? <==>
      (&& req.contentType != ""
       && (|| (StartsWith(Lower(req.contentType), "application/json") && req.json.Some?)
           || (&& !StartsWith(Lower(req.contentType), "application/json")
               && (|| StartsWith(Lower(req.contentType), "application/x-www-form-urlencoded")
                   || StartsWith(Lower(req.contentType), "multipart/form-data")))))
  {
    if req.contentType != "" && StartsWith(Lower(req.contentType), "multipart/form-data") {
      JsonFormExclusive(Lower(req.contentType));
    }
    if req.contentType != "" && StartsWith(Lower(req.contentType), "application/x-www-form-urlencoded") {
      JsonUrlencodedExclusive(Lower(req.contentType));
    }
  }

  /** No content type starts with both the JSON and the urlencoded prefix. */
  lemma JsonUrlencodedExclusive(ct: string)
    requires StartsWith(ct, "application/x-www-form-urlencoded")
    ensures !StartsWith(ct, "application/json")
  {
    assert ct[12] == 'x';
  }

  /** No content type starts with both the JSON and the multipart prefix. */
  lemma JsonFormExclusive(ct: string)
    requires StartsWith(ct, "multipart/form-data")
    ensures !StartsWith(ct, "application/json")
  {
    assert ct[0] == 'm';
  }

  /** A handler that takes neither keyword arguments nor the request gets
      only the path variables, whatever the request carries. */
  lemma PlainHandlerIgnoresBody(h: Handler, req: Request)
    requires WellFormedRequest(req) && !h.hasVarKwArg && !h.hasNamedKwArgs && !h.hasRequestArg
    ensures Collect(h, req) == NothingCollected
    ensures KwSpec(h, Collect(h, req), req.matchInfo) == Overlay(map[], MatchArgs(req.matchInfo))
  {
  }
}
