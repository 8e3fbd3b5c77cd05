/**
 * Express routing as the two route files use it: routes are tried in registration order,
 * the first whose method and path pattern match the request takes it, and its middleware
 * chain runs step by step (a role check, a file upload, the handler). A path is the list
 * of its segments below the router's mount point; `/` is the empty list.
 */
module Router {
  import opened Common

  datatype Verb = GET | POST | PUT | PATCH | DELETE

  /** A pattern segment: literal text, or `:name`, which binds one non-empty segment. */
  datatype Segment = Lit(text: string) | Param(name: string)

  /**
   * A middleware step. `Authorize(roles)` is `VerifyToken(roles)`, `Upload(field)` is
   * `upload.single(field)`, `Handle(h)` the controller function.
   */
  datatype Step<H> = Authorize(roles: seq<string>) | Upload(field: string) | Handle(handler: H)

  datatype Route<H> = Route(verb: Verb, pattern: seq<Segment>, chain: seq<Step<H>>)

  /**
   * What a request comes to: no route takes it, a role check refuses it (after the
   * uploads listed), or a handler is called with the bound parameters and the uploads.
   */
  datatype Outcome<H> = NoRoute | Denied(uploaded: seq<string>) | Reached(handler: H, params: map<string, string>, uploads: seq<string>)

  predicate SegmentMatches(seg: Segment, s: string) {
    match seg
    case Lit(t) => s == t
    case Param(_) => s != ""
  }

  predicate PatternMatches(pattern: seq<Segment>, path: seq<string>) {
    |pattern| == |path| && forall i :: 0 <= i < |pattern| ==> SegmentMatches(pattern[i], path[i])
  }

  predicate RouteMatches<H>(r: Route<H>, verb: Verb, path: seq<string>) {
    r.verb == verb && PatternMatches(r.pattern, path)
  }

  /** `req.params`: each `:name` of the pattern bound to the path segment in its place. */
  function Bindings(pattern: seq<Segment>, path: seq<string>): (b: map<string, string>)
    requires |pattern| == |path|
    ensures forall k :: k in b <==> Param(k) in pattern
    ensures forall k :: k in b ==> exists i :: 0 <= i < |pattern| && pattern[i] == Param(k) && b[k] == path[i]
  {
    if pattern == [] then map[]
    else
      var rest := Bindings(pattern[1..], path[1..]);
      BindStep(pattern, path, rest);
      Bind(pattern[0], path[0], rest)
  }

  /** The parameters bound so far, with `seg` bound to `value` when it is a `:name`. */
  function Bind(seg: Segment, value: string, rest: map<string, string>): map<string, string> {
    match seg
    case Lit(_) => rest
    case Param(n) => rest[n := value]
  }

  /** Binding the first segment in front of the bindings of the others gives the bindings of the whole pattern. */
  lemma BindStep(pattern: seq<Segment>, path: seq<string>, rest: map<string, string>)
    requires |pattern| == |path| > 0
    requires forall k :: k in rest <==> Param(k) in pattern[1..]
    requires forall k :: k in rest ==> exists i :: 0 <= i < |pattern[1..]| && pattern[1..][i] == Param(k) && rest[k] == path[1..][i]
    ensures var b := Bind(pattern[0], path[0], rest);
      (forall k :: k in b <==> Param(k) in pattern)
      && forall k :: k in b ==> exists i :: 0 <= i < |pattern| && pattern[i] == Param(k) && b[k] == path[i]
  {
    var b := Bind(pattern[0], path[0], rest);
    assert forall k :: Param(k) in pattern <==> pattern[0] == Param(k) || Param(k) in pattern[1..] by {
      assert pattern == [pattern[0]] + pattern[1..];
    }
    forall k | k in b
      ensures exists i :: 0 <= i < |pattern| && pattern[i] == Param(k) && b[k] == path[i]
    {
      if pattern[0] == Param(k) {
        assert pattern[0] == Param(k) && b[k] == path[0];
      } else {
        var j :| 0 <= j < |pattern| - 1 && pattern[1..][j] == Param(k) && rest[k] == path[1..][j];
        assert pattern[j + 1] == Param(k) && b[k] == path[j + 1];
      }
    }
  }

  /** `route` matches the request and no route registered before it does. */
  predicate FirstIs<H>(routes: seq<Route<H>>, verb: Verb, path: seq<string>, i: int) {
    0 <= i < |routes| && RouteMatches(routes[i], verb, path)
    && forall j :: 0 <= j < i ==> !RouteMatches(routes[j], verb, path)
  }

  function FirstMatchFrom<H>(routes: seq<Route<H>>, verb: Verb, path: seq<string>, from: nat): (r: Option<nat>)
    requires from <= |routes|
    ensures r.Some? ==>
      from <= r.value < |routes| && RouteMatches(routes[r.value], verb, path)
      && forall j :: from <= j < r.value ==> !RouteMatches(routes[j], verb, path)
    ensures r.None? ==> forall j :: from <= j < |routes| ==> !RouteMatches(routes[j], verb, path)
    decreases |routes| - from
  {
    if from == |routes| then None
    else if RouteMatches(routes[from], verb, path) then Some(from)
    else FirstMatchFrom(routes, verb, path, from + 1)
  }

  /** The index of the first route, in registration order, that matches the request. */
  function FirstMatch<H>(routes: seq<Route<H>>, verb: Verb, path: seq<string>): (r: Option<nat>)
    ensures r.Some? <==> exists i :: FirstIs(routes, verb, path, i)
    ensures r.Some? ==> FirstIs(routes, verb, path, r.value)
    ensures r.None? ==> forall j :: 0 <= j < |routes| ==> !RouteMatches(routes[j], verb, path)
  {
    var r := FirstMatchFrom(routes, verb, path, 0);
    assert r.None? ==> forall i :: !FirstIs(routes, verb, path, i);
    assert r.Some? ==> FirstIs(routes, verb, path, r.value);
    r
  }

  /** Only one route can be the first match, so naming it decides the lookup. */
  lemma FirstIsDecides<H>(routes: seq<Route<H>>, verb: Verb, path: seq<string>, i: int)
    requires FirstIs(routes, verb, path, i)
    ensures FirstMatch(routes, verb, path) == Some(i)
  {
  }

  /** `req.params[name]`: undefined (None) when the route binds no such parameter. */
  function ParamOf(params: map<string, string>, name: string): (v: Option<string>)
    ensures v.Some? <==> name in params
    ensures v.Some? ==> v.value == params[name]
  {
    if name in params then Some(params[name]) else None
  }

  /** `VerifyToken(roles)` lets a request through iff it carries a verified role in the list. */
  predicate Allows(roles: seq<string>, role: Option<string>) {
    role.Some? && role.value in roles
  }

  /**
   * Runs a middleware chain: each step either stops the request or passes it on. A chain
   * that starts with a role check refuses every role outside its list, before any upload.
   */
  function RunChain<H>(chain: seq<Step<H>>, role: Option<string>, params: map<string, string>, uploads: seq<string>): (o: Outcome<H>)
    ensures o.Reached? ==> o.params == params && Handle(o.handler) in chain
    ensures |chain| > 0 && chain[0].Authorize? && !Allows(chain[0].roles, role) ==> o == Denied(uploads)
    ensures o.Reached? || o.Denied? ==> |chain| > 0
  {
    if chain == [] then NoRoute
    else
      assert forall s :: s in chain[1..] ==> s in chain;
      match chain[0]
      case Authorize(roles) =>
        if Allows(roles, role) then RunChain(chain[1..], role, params, uploads) else Denied(uploads)
      case Upload(f) => RunChain(chain[1..], role, params, uploads + [f])
      case Handle(h) => Reached(h, params, uploads)
  }

  /** The chain `VerifyToken(roles), handler`. */
  lemma {:induction false} GuardThenHandle<H>(roles: seq<string>, h: H, role: Option<string>, params: map<string, string>, uploads: seq<string>)
    ensures RunChain([Authorize(roles), Handle(h)], role, params, uploads)
      == if Allows(roles, role) then Reached(h, params, uploads) else Denied(uploads)
  {
    var chain := [Authorize(roles), Handle(h)];
    assert chain[1..] == [Handle(h)];
  }

  /** The chain `VerifyToken(roles), upload.single(field), handler`: the upload happens only after the role check. */
  lemma {:induction false} GuardUploadHandle<H>(roles: seq<string>, field: string, h: H, role: Option<string>, params: map<string, string>, uploads: seq<string>)
    ensures RunChain([Authorize(roles), Upload(field), Handle(h)], role, params, uploads)
      == if Allows(roles, role) then Reached(h, params, uploads + [field]) else Denied(uploads)
  {
    var chain := [Authorize(roles), Upload(field), Handle(h)];
    assert chain[1..] == [Upload(field), Handle(h)];
    assert chain[1..][1..] == [Handle(h)];
    assert RunChain(chain[1..], role, params, uploads) == Reached(h, params, uploads + [field]);
  }

  /** A table whose every route starts with a role check: every route sits behind `VerifyToken`. */
  predicate AllGuarded<H>(routes: seq<Route<H>>) {
    forall i :: 0 <= i < |routes| ==> |routes[i].chain| > 0 && routes[i].chain[0].Authorize?
  }

  /** The router's answer to a request: the first matching route's chain, with its parameters bound. */
  function Dispatch<H>(routes: seq<Route<H>>, verb: Verb, path: seq<string>, role: Option<string>): (o: Outcome<H>)
    ensures (forall j :: 0 <= j < |routes| ==> !RouteMatches(routes[j], verb, path)) ==> o == NoRoute
    ensures o.Reached? ==>
      exists i :: FirstIs(routes, verb, path, i) && Handle(o.handler) in routes[i].chain
                  && o.params == Bindings(routes[i].pattern, path)
                  && (routes[i].chain[0].Authorize? ==> Allows(routes[i].chain[0].roles, role))
    ensures AllGuarded(routes) && o.Reached? ==> role.Some?
  {
    match FirstMatch(routes, verb, path)
    case None => NoRoute
    case Some(i) => RunChain(routes[i].chain, role, Bindings(routes[i].pattern, path), [])
  }
}
