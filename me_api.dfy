/**
 * `/api/users/me`: `GET` returns the caller's profile with the workspaces
 * they own and those they belong to, the latter tagged with the member's
 * role; `PUT` validates a profile change and writes the fields the body
 * defines together with the time of the change.
 */
module MeApi {

  import opened Wrappers
  import opened Js
  import opened Strings
  import opened Records
  import opened ApiUtils
  import opened Validation
  import opened WorkspacesApi

  // ------------------------------------------------------------------ GET

  /** `memberWorkspaces.map(m => ({ ...m.workspaces, role: m.role }))`. */
  function TaggedMemberships(memberships: seq<Record>): (r: seq<Value>)
    ensures |r| == |memberships|
    ensures forall i :: 0 <= i < |memberships| ==>
              r[i] == Obj(WithRole(Get(memberships[i], "workspaces"), Get(memberships[i], "role")))
  {
    if memberships == [] then []
    else [Obj(WithRole(Get(memberships[0], "workspaces"), Get(memberships[0], "role")))] + TaggedMemberships(memberships[1..])
  }

  /**
   * The profile handler, given the full user row (from the authentication
   * layer) and the two query answers; null answers become empty lists.
   */
  function GetProfile(userData: Value, owned: Result<Option<seq<Value>>, DbError>,
                      memberships: Result<Option<seq<Record>>, DbError>): (r: Response)
    ensures r.body.Success? <==> owned.Ok? && memberships.Ok?
    ensures owned.Err? ==> r == HandleDbError(owned.error)
    ensures owned.Ok? && memberships.Err? ==> r == HandleDbError(memberships.error)
  {
    if owned.Err? then HandleDbError(owned.error)
    else if memberships.Err? then HandleDbError(memberships.error)
    else
      var groups := Obj(map["owned" := Arr(owned.value.GetOr([])),
                            "member" := Arr(TaggedMemberships(memberships.value.GetOr([])))]);
      ApiSuccess(Obj(Spread(userData)["workspaces" := groups]))
  }

  /**
   * The profile keeps every field of the user row but `workspaces`, lists
   * the owned workspaces as returned, and one entry per membership, in
   * order, made of the membership's workspace and role.
   */
  lemma ProfileGroupsWorkspaces(userData: Value, owned: Option<seq<Value>>, memberships: Option<seq<Record>>)
    ensures var r := GetProfile(userData, Ok(owned), Ok(memberships));
            r.status == 200 && r.body.Success? && r.body.data.Obj? &&
            var profile := r.body.data.fields;
            (forall k :: k in Spread(userData) && k != "workspaces" ==> k in profile && profile[k] == Spread(userData)[k]) &&
            "workspaces" in profile &&
            profile["workspaces"] == Obj(map["owned" := Arr(owned.GetOr([])),
                                             "member" := Arr(TaggedMemberships(memberships.GetOr([])))])
    ensures owned.None? && memberships.None? ==>
              GetProfile(userData, Ok(owned), Ok(memberships)).body.data.fields["workspaces"] ==
                Obj(map["owned" := Arr([]), "member" := Arr([])])
  {
    if memberships.None? {
      assert TaggedMemberships([]) == [];
    }
  }

  // ------------------------------------------------------------------ PUT

  function ProfileRules(): (rules: seq<(string, Rule)>)
    ensures |rules| == 4 && DistinctFields(rules)
    ensures rules[0].0 == "display_name" && rules[1].0 == "avatar_url" && rules[2].0 == "bio" && rules[3].0 == "timezone"
    ensures forall i :: 0 <= i < |rules| ==> !rules[i].1.required
  {
    [("display_name", NoChecks.(minLength := Some(2), maxLength := Some(50))),
     ("avatar_url", NoChecks.(pattern := Some(HttpUrlPattern()))),
     ("bio", NoChecks.(maxLength := Some(500))),
     ("timezone", NoChecks.(maxLength := Some(50)))]
  }

  /** For a present string value: the condition each rule puts on it. */
  predicate LengthBetween(v: Value, lo: int, hi: int) {
    !Blank(v) && v.Str? ==> lo <= JsLength(v.s) <= hi
  }

  lemma ProfileRuleByRule(name: Value, avatar: Value, bio: Value, timezone: Value)
    ensures Passes(name, ProfileRules()[0].1, NoDates) <==> LengthBetween(name, 2, 50)
    ensures Passes(avatar, ProfileRules()[1].1, NoDates) <==> (!Blank(avatar) && avatar.Str? ==> IsHttpUrl(avatar.s))
    ensures Passes(bio, ProfileRules()[2].1, NoDates) <==> LengthBetween(bio, 0, 500)
    ensures Passes(timezone, ProfileRules()[3].1, NoDates) <==> LengthBetween(timezone, 0, 50)
  {
  }

  /**
   * A body passes exactly when its display name has 2 to 50 characters,
   * its avatar is an http(s) URL, its bio has at most 500 characters and
   * its time zone at most 50, each checked only on a non-empty string.
   */
  lemma ProfileRulesMeaning(body: map<string, Value>)
    ensures RequestCheck(body, ProfileRules(), NoDates).None? <==>
            LengthBetween(Get(body, "display_name"), 2, 50) &&
            (!Blank(Get(body, "avatar_url")) && Get(body, "avatar_url").Str? ==> IsHttpUrl(Get(body, "avatar_url").s)) &&
            LengthBetween(Get(body, "bio"), 0, 500) &&
            LengthBetween(Get(body, "timezone"), 0, 50)
  {
    var rules := ProfileRules();
    RequestPassesIffAllFieldsPass(body, rules, NoDates);
    assert rules[0].0 == "display_name" && rules[1].0 == "avatar_url" && rules[2].0 == "bio" && rules[3].0 == "timezone";
    ProfileRuleByRule(Get(body, "display_name"), Get(body, "avatar_url"), Get(body, "bio"), Get(body, "timezone"));
    AllOfFour(body, rules);
  }

  lemma AllOfFour(body: map<string, Value>, rules: seq<(string, Rule)>)
    requires |rules| == 4
    ensures (forall i :: 0 <= i < |rules| ==> Passes(Get(body, rules[i].0), rules[i].1, NoDates)) <==>
            Passes(Get(body, rules[0].0), rules[0].1, NoDates) && Passes(Get(body, rules[1].0), rules[1].1, NoDates) &&
            Passes(Get(body, rules[2].0), rules[2].1, NoDates) && Passes(Get(body, rules[3].0), rules[3].1, NoDates)
  {
  }

  const PROFILE_FIELDS := {"display_name", "avatar_url", "bio", "timezone"}

  /** The update object: the defined profile fields, and `updated_at`. */
  function ProfilePatch(body: map<string, Value>, now: string): (p: Record)
    ensures "updated_at" in p && p["updated_at"] == Str(now)
    ensures p.Keys <= PROFILE_FIELDS + {"updated_at"}
  {
    Defined(body, PROFILE_FIELDS)["updated_at" := Str(now)]
  }

  /** The update holds exactly the four fields the body defines, with their values, and `updated_at`. */
  lemma ProfilePatchMeaning(body: map<string, Value>, now: string)
    ensures var p := ProfilePatch(body, now);
            (forall f :: f in PROFILE_FIELDS ==> (f in p <==> Get(body, f) != Undefined)) &&
            (forall f :: f in PROFILE_FIELDS && f in p ==> p[f] == body[f]) &&
            p.Keys <= PROFILE_FIELDS + {"updated_at"} && p["updated_at"] == Str(now)
  {
  }

  /** The handler; `update` applies an update object to the caller's row and returns the row. */
  function UpdateProfile(body: map<string, Value>, now: string, update: Record -> Result<Value, DbError>): (r: Response)
    ensures r.body.Success? ==> RequestCheck(body, ProfileRules(), NoDates).None? && update(ProfilePatch(body, now)).Ok?
    ensures RequestCheck(body, ProfileRules(), NoDates).None? && update(ProfilePatch(body, now)).Err? ==>
              r == HandleDbError(update(ProfilePatch(body, now)).error)
  {
    match RequestCheck(body, ProfileRules(), NoDates)
    case Some(invalid) => invalid
    case None =>
      match update(ProfilePatch(body, now))
      case Err(e) => HandleDbError(e)
      case Ok(row) => ApiSuccess(row)
  }

  /** An invalid body is answered 400 without any write; a valid one with the updated row. */
  lemma UpdateProfileAnswers(body: map<string, Value>, now: string, update: Record -> Result<Value, DbError>,
                             other: Record -> Result<Value, DbError>)
    ensures RequestCheck(body, ProfileRules(), NoDates).Some? ==>
              UpdateProfile(body, now, update) == UpdateProfile(body, now, other) &&
              UpdateProfile(body, now, update).status == 400
    ensures RequestCheck(body, ProfileRules(), NoDates).None? && update(ProfilePatch(body, now)).Ok? ==>
              UpdateProfile(body, now, update) == ApiSuccess(update(ProfilePatch(body, now)).value)
  {
  }
}
