/**
 * `PUT /api/users/me/status`: validates the new presence status and its
 * message, then writes the fields the body defines together with the time
 * of the change.
 */
module MeStatus {

  import opened Wrappers
  import opened Js
  import opened Records
  import opened ApiUtils
  import opened Validation

  const STATUSES := ["online", "busy", "away", "offline"]
  const STATUS_MESSAGE_MAX := 100

  function StatusRules(): (rules: seq<(string, Rule)>)
    ensures |rules| == 2 && rules[0].0 == "status" && rules[1].0 == "status_message" && DistinctFields(rules)
    ensures forall i :: 0 <= i < |rules| ==> !rules[i].1.required
  {
    [("status", NoChecks.(enumValues := Some(STATUSES))),
     ("status_message", NoChecks.(maxLength := Some(STATUS_MESSAGE_MAX)))]
  }

  lemma StatusRuleByRule(status: Value, message: Value)
    ensures Passes(status, StatusRules()[0].1, NoDates) <==> Blank(status) || (status.Str? && status.s in STATUSES)
    ensures Passes(message, StatusRules()[1].1, NoDates) <==> (!Blank(message) && message.Str? ==> JsLength(message.s) <= 100)
  {
  }

  /**
   * A body passes exactly when its status, if given, is one of the four
   * statuses, and its message, if a non-empty string, has at most 100
   * characters; null and '' count as not given.
   */
  lemma StatusRulesMeaning(body: map<string, Value>)
    ensures RequestCheck(body, StatusRules(), NoDates).None? <==>
            var status := Get(body, "status");
            var message := Get(body, "status_message");
            (Blank(status) || (status.Str? && status.s in STATUSES)) &&
            (!Blank(message) && message.Str? ==> JsLength(message.s) <= 100)
  {
    var rules := StatusRules();
    RequestPassesIffAllFieldsPass(body, rules, NoDates);
    assert rules[0].0 == "status" && rules[1].0 == "status_message";
    StatusRuleByRule(Get(body, "status"), Get(body, "status_message"));
    assert (forall i :: 0 <= i < |rules| ==> Passes(Get(body, rules[i].0), rules[i].1, NoDates)) <==>
           Passes(Get(body, "status"), rules[0].1, NoDates) && Passes(Get(body, "status_message"), rules[1].1, NoDates);
  }

  /** The update object: the defined fields among the two, and `updated_at`. */
  function StatusPatch(body: map<string, Value>, now: string): (p: Record)
    ensures "updated_at" in p && p["updated_at"] == Str(now)
    ensures p.Keys <= {"status", "status_message", "updated_at"}
  {
    Defined(body, {"status", "status_message"})["updated_at" := Str(now)]
  }

  /**
   * The update holds `status` exactly when the body defines it (a null
   * status is written as null), likewise `status_message`, and always
   * `updated_at`; an empty body writes nothing but the time.
   */
  lemma StatusPatchMeaning(body: map<string, Value>, now: string)
    ensures var p := StatusPatch(body, now);
            ("status" in p <==> Get(body, "status") != Undefined) &&
            ("status_message" in p <==> Get(body, "status_message") != Undefined) &&
            p.Keys <= {"status", "status_message", "updated_at"} &&
            p["updated_at"] == Str(now) &&
            ("status" in p ==> p["status"] == body["status"]) &&
            ("status_message" in p ==> p["status_message"] == body["status_message"])
    ensures Get(body, "status") == Null ==>
              StatusPatch(body, now)["status"] == Null && Passes(Null, StatusRules()[0].1, NoDates)
    ensures body == map[] ==> StatusPatch(body, now) == map["updated_at" := Str(now)] &&
                              RequestCheck(body, StatusRules(), NoDates).None?
  {
    StatusRulesMeaning(body);
    if body == map[] {
      assert Defined(body, {"status", "status_message"}) == map[];
    }
  }

  /**
   * The handler; `update` applies an update object to the caller's row and
   * returns the selected columns of it, or the database's failure.
   */
  function UpdateStatus(body: map<string, Value>, now: string, update: Record -> Result<Value, DbError>): (r: Response)
    ensures r.body.Success? ==> RequestCheck(body, StatusRules(), NoDates).None? && update(StatusPatch(body, now)).Ok?
    ensures RequestCheck(body, StatusRules(), NoDates).None? && update(StatusPatch(body, now)).Err? ==>
              r == HandleDbError(update(StatusPatch(body, now)).error)
  {
    match RequestCheck(body, StatusRules(), NoDates)
    case Some(invalid) => invalid
    case None =>
      match update(StatusPatch(body, now))
      case Err(e) => HandleDbError(e)
      case Ok(row) => ApiSuccess(row)
  }

  /** An invalid body is answered 400 without any write; a valid one with the updated row. */
  lemma UpdateStatusAnswers(body: map<string, Value>, now: string, update: Record -> Result<Value, DbError>,
                            other: Record -> Result<Value, DbError>)
    ensures RequestCheck(body, StatusRules(), NoDates).Some? ==>
              UpdateStatus(body, now, update) == UpdateStatus(body, now, other) &&
              UpdateStatus(body, now, update).status == 400
    ensures RequestCheck(body, StatusRules(), NoDates).None? && update(StatusPatch(body, now)).Ok? ==>
              UpdateStatus(body, now, update) == ApiSuccess(update(StatusPatch(body, now)).value)
  {
  }
}
