/**
 * The `/patients` router: four routes, each behind a role check, resolved first-match in
 * registration order. The router imports createOrUpdatePatient, getPatientById,
 * getMedicalHistory and getAllDoctors only.
 */
module PatientRoutes {
  import opened Common
  import opened Router
  import Patients

  datatype PatientHandler =
    CreateOrUpdatePatient | GetPatientById | GetMedicalHistory | GetAllDoctors | UpdatePatient | DeletePatient

  const PATIENT_ROUTES: seq<Route<PatientHandler>> := [
    Route(POST, [], [Authorize(["Patient", "Admin"]), Upload("profilePicture"), Handle(CreateOrUpdatePatient)]),
    Route(GET, [Param("userId")], [Authorize(["Patient", "Admin"]), Handle(GetPatientById)]),
    Route(GET, [Param("userid"), Lit("medical-history")], [Authorize(["Patient", "Doctor"]), Handle(GetMedicalHistory)]),
    Route(GET, [Lit("doctors")], [Authorize(["Patient", "Admin"]), Handle(GetAllDoctors)])
  ]

  function Request(verb: Verb, path: seq<string>, role: Option<string>): Outcome<PatientHandler> {
    Dispatch(PATIENT_ROUTES, verb, path, role)
  }

  /** POST / admits Patient and Admin; the picture is taken only once the role check has passed. */
  lemma {:induction false} CreateOrUpdateAccess(role: Option<string>)
    ensures Allows(["Patient", "Admin"], role) ==>
      Request(POST, [], role) == Reached(CreateOrUpdatePatient, map[], ["profilePicture"])
    ensures !Allows(["Patient", "Admin"], role) ==> Request(POST, [], role) == Denied([])
  {
    FirstIsDecides(PATIENT_ROUTES, POST, [], 0);
    assert Bindings([], []) == map[];
    GuardUploadHandle(["Patient", "Admin"], "profilePicture", CreateOrUpdatePatient, role, map[], []);
  }

  /** GET /:userId admits Patient and Admin and refuses Doctor, for every non-empty segment. */
  lemma {:induction false} GetByUserAccess(userId: string, role: Option<string>)
    requires userId != ""
    ensures Allows(["Patient", "Admin"], role) ==>
      Request(GET, [userId], role) == Reached(GetPatientById, map["userId" := userId], [])
    ensures !Allows(["Patient", "Admin"], role) ==> Request(GET, [userId], role) == Denied([])
    ensures Request(GET, [userId], Some("Doctor")) == Denied([])
  {
    assert !RouteMatches(PATIENT_ROUTES[0], GET, [userId]);
    FirstIsDecides(PATIENT_ROUTES, GET, [userId], 1);
    assert Bindings([Param("userId")], [userId]) == map["userId" := userId] by {
      assert Bindings([Param("userId")][1..], [userId][1..]) == map[];
    }
    GuardThenHandle(["Patient", "Admin"], GetPatientById, role, map["userId" := userId], []);
    GuardThenHandle(["Patient", "Admin"], GetPatientById, Some("Doctor"), map["userId" := userId], []);
  }

  /**
   * GET /doctors is registered after /:userId, so it is taken as a patient lookup with
   * `userId` = "doctors", and getAllDoctors is never called through this router.
   */
  lemma DoctorsIsShadowed(role: Option<string>)
    ensures Request(GET, ["doctors"], role) != Reached(GetAllDoctors, map[], [])
    ensures Allows(["Patient", "Admin"], role) ==>
      Request(GET, ["doctors"], role) == Reached(GetPatientById, map["userId" := "doctors"], [])
  {
    GetByUserAccess("doctors", role);
  }

  /**
   * GET /:userid/medical-history admits Patient and Doctor and refuses Admin. It binds
   * `userid`, so `id`, the parameter getMedicalHistory reads, is never bound.
   */
  lemma {:induction false} MedicalHistoryAccess(userid: string, role: Option<string>)
    requires userid != ""
    ensures Allows(["Patient", "Doctor"], role) ==>
      Request(GET, [userid, "medical-history"], role)
        == Reached(GetMedicalHistory, map["userid" := userid], [])
    ensures !Allows(["Patient", "Doctor"], role) ==> Request(GET, [userid, "medical-history"], role) == Denied([])
    ensures Request(GET, [userid, "medical-history"], Some("Admin")) == Denied([])
    ensures forall o :: o == Request(GET, [userid, "medical-history"], role) && o.Reached? ==> "id" !in o.params
  {
    HistoryChain(userid, role);
    HistoryChain(userid, Some("Admin"));
    GuardThenHandle(["Patient", "Doctor"], GetMedicalHistory, role, map["userid" := userid], []);
    GuardThenHandle(["Patient", "Doctor"], GetMedicalHistory, Some("Admin"), map["userid" := userid], []);
  }

  /** A medical-history path is taken by the third route, whose pattern binds `userid` alone. */
  lemma HistoryChain(userid: string, role: Option<string>)
    requires userid != ""
    ensures Request(GET, [userid, "medical-history"], role)
      == RunChain([Authorize(["Patient", "Doctor"]), Handle(GetMedicalHistory)], role, map["userid" := userid], [])
  {
    var path := [userid, "medical-history"];
    assert !RouteMatches(PATIENT_ROUTES[0], GET, path);
    assert !RouteMatches(PATIENT_ROUTES[1], GET, path);
    FirstIsDecides(PATIENT_ROUTES, GET, path, 2);
    var pattern := [Param("userid"), Lit("medical-history")];
    assert Bindings(pattern, path) == map["userid" := userid] by {
      assert pattern[1..] == [Lit("medical-history")];
      assert Bindings(pattern[1..][1..], path[1..][1..]) == map[];
    }
  }

  /** Every route sits behind `VerifyToken`: a request without a verified role reaches no handler. */
  lemma {:induction false} NoHandlerWithoutRole(verb: Verb, path: seq<string>)
    ensures !Request(verb, path, None).Reached?
  {
    assert AllGuarded(PATIENT_ROUTES);
  }

  /**
   * Whatever the method, path and role, the router never calls updatePatient or
   * deletePatient (not in its table) nor getAllDoctors (shadowed by /:userId).
   */
  lemma {:induction false} NeverReached(verb: Verb, path: seq<string>, role: Option<string>)
    ensures var o := Request(verb, path, role);
      o.Reached? ==> o.handler in {CreateOrUpdatePatient, GetPatientById, GetMedicalHistory}
  {
    var o := Request(verb, path, role);
    if o.Reached? {
      var i :| FirstIs(PATIENT_ROUTES, verb, path, i) && Handle(o.handler) in PATIENT_ROUTES[i].chain
               && o.params == Bindings(PATIENT_ROUTES[i].pattern, path)
               && (PATIENT_ROUTES[i].chain[0].Authorize? ==> Allows(PATIENT_ROUTES[i].chain[0].roles, role));
      DoctorsMatchesUserId(verb, path);
      FirstRoutesHandlers(i, o.handler);
    }
  }

  /** The handlers of the first three routes are createOrUpdatePatient, getPatientById and getMedicalHistory. */
  lemma FirstRoutesHandlers(i: int, h: PatientHandler)
    requires 0 <= i < 3 && Handle(h) in PATIENT_ROUTES[i].chain
    ensures h in {CreateOrUpdatePatient, GetPatientById, GetMedicalHistory}
  {
  }

  /** Every request the `/doctors` route matches is matched by `/:userId` too. */
  lemma DoctorsMatchesUserId(verb: Verb, path: seq<string>)
    ensures RouteMatches(PATIENT_ROUTES[3], verb, path) ==> RouteMatches(PATIENT_ROUTES[1], verb, path)
  {
    if RouteMatches(PATIENT_ROUTES[3], verb, path) {
      assert path[0] == "doctors";
    }
  }

  /** A medical-history request an allowed role gets through answers 404, whatever the store holds. */
  method MedicalHistoryAlwaysNotFound(store: Patients.PatientStore, userid: string, role: Option<string>)
    returns (reply: Reply<()>)
    requires userid != "" && Allows(["Patient", "Doctor"], role)
    ensures reply.status == 404
  {
    MedicalHistoryAccess(userid, role);
    var o := Request(GET, [userid, "medical-history"], role);
    var params := if o.Reached? then o.params else map[];
    reply := store.GetMedicalHistory(ParamOf(params, "id"));
  }
}
