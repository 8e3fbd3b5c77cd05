/** The `/doctors` router: five routes, each behind a role check; there is no PUT route. */
module DoctorRoutes {
  import opened Common
  import opened Router

  datatype DoctorHandler = CreateDoctor | GetAllDoctors | GetDoctorById | UpdateDoctor | DeleteDoctor

  const STAFF: seq<string> := ["Admin", "Doctor", "Patient"]

  const DOCTOR_ROUTES: seq<Route<DoctorHandler>> := [
    Route(POST, [], [Authorize(["Admin"]), Handle(CreateDoctor)]),
    Route(GET, [], [Authorize(["Admin"]), Handle(GetAllDoctors)]),
    Route(GET, [Param("id")], [Authorize(STAFF), Handle(GetDoctorById)]),
    Route(PATCH, [Param("id")], [Authorize(["Admin"]), Handle(UpdateDoctor)]),
    Route(DELETE, [Param("id")], [Authorize(["Admin"]), Handle(DeleteDoctor)])
  ]

  function Request(verb: Verb, path: seq<string>, role: Option<string>): Outcome<DoctorHandler> {
    Dispatch(DOCTOR_ROUTES, verb, path, role)
  }

  lemma IdBinding(id: string)
    ensures Bindings([Param("id")], [id]) == map["id" := id]
  {
    assert Bindings([Param("id")][1..], [id][1..]) == map[];
  }

  /** POST / and GET / admit Admin only. */
  lemma {:induction false} RootAccess(role: Option<string>)
    ensures role == Some("Admin") ==> Request(POST, [], role) == Reached(CreateDoctor, map[], [])
    ensures role == Some("Admin") ==> Request(GET, [], role) == Reached(GetAllDoctors, map[], [])
    ensures role != Some("Admin") ==> Request(POST, [], role) == Denied([]) && Request(GET, [], role) == Denied([])
  {
    FirstIsDecides(DOCTOR_ROUTES, POST, [], 0);
    FirstIsDecides(DOCTOR_ROUTES, GET, [], 1);
    assert Bindings([], []) == map[];
    GuardThenHandle(["Admin"], CreateDoctor, role, map[], []);
    GuardThenHandle(["Admin"], GetAllDoctors, role, map[], []);
  }

  /** GET /:id admits Admin, Doctor and Patient. */
  lemma {:induction false} GetByIdAccess(id: string, role: Option<string>)
    requires id != ""
    ensures Allows(STAFF, role) ==> Request(GET, [id], role) == Reached(GetDoctorById, map["id" := id], [])
    ensures !Allows(STAFF, role) ==> Request(GET, [id], role) == Denied([])
  {
    IdBinding(id);
    FirstIsDecides(DOCTOR_ROUTES, GET, [id], 2);
    GuardThenHandle(STAFF, GetDoctorById, role, map["id" := id], []);
  }

  /** PATCH /:id and DELETE /:id admit Admin only. */
  lemma {:induction false} WriteByIdAccess(id: string, role: Option<string>)
    requires id != ""
    ensures role == Some("Admin") ==>
      Request(PATCH, [id], role) == Reached(UpdateDoctor, map["id" := id], [])
      && Request(DELETE, [id], role) == Reached(DeleteDoctor, map["id" := id], [])
    ensures role != Some("Admin") ==> Request(PATCH, [id], role) == Denied([]) && Request(DELETE, [id], role) == Denied([])
  {
    IdBinding(id);
    FirstIsDecides(DOCTOR_ROUTES, PATCH, [id], 3);
    FirstIsDecides(DOCTOR_ROUTES, DELETE, [id], 4);
    GuardThenHandle(["Admin"], UpdateDoctor, role, map["id" := id], []);
    GuardThenHandle(["Admin"], DeleteDoctor, role, map["id" := id], []);
  }

  /** No route is registered for PUT: every PUT request, on any path and with any role, matches nothing. */
  lemma NoPutRoute(path: seq<string>, role: Option<string>)
    ensures Request(PUT, path, role) == NoRoute
  {
  }

  /** Each route's chain opens with its role check: STAFF for GET /:id, Admin only for the rest. */
  lemma RouteGuard(i: int)
    requires 0 <= i < |DOCTOR_ROUTES|
    ensures DOCTOR_ROUTES[i].chain[0] == Authorize(if i == 2 then STAFF else ["Admin"])
  {
  }

  /** Creating, updating and deleting doctors is reachable by Admin only. */
  lemma {:induction false} WritesAdminOnly(verb: Verb, path: seq<string>, role: Option<string>)
    requires verb in {POST, PATCH, DELETE}
    ensures Request(verb, path, role).Reached? ==> role == Some("Admin")
  {
    var o := Request(verb, path, role);
    if o.Reached? {
      var i :| FirstIs(DOCTOR_ROUTES, verb, path, i) && Handle(o.handler) in DOCTOR_ROUTES[i].chain
               && o.params == Bindings(DOCTOR_ROUTES[i].pattern, path)
               && (DOCTOR_ROUTES[i].chain[0].Authorize? ==> Allows(DOCTOR_ROUTES[i].chain[0].roles, role));
      RouteGuard(i);
      assert DOCTOR_ROUTES[i].verb == verb;
      assert i != 1 && i != 2;
    }
  }

  /** Every route is behind `VerifyToken`: a role outside Admin, Doctor and Patient reaches no handler. */
  lemma {:induction false} ReachedRoleListed(verb: Verb, path: seq<string>, role: Option<string>)
    ensures Request(verb, path, role).Reached? ==> Allows(STAFF, role)
  {
    var o := Request(verb, path, role);
    if o.Reached? {
      var i :| FirstIs(DOCTOR_ROUTES, verb, path, i) && Handle(o.handler) in DOCTOR_ROUTES[i].chain
               && o.params == Bindings(DOCTOR_ROUTES[i].pattern, path)
               && (DOCTOR_ROUTES[i].chain[0].Authorize? ==> Allows(DOCTOR_ROUTES[i].chain[0].roles, role));
      RouteGuard(i);
      assert role.value in STAFF;
    }
  }
}
