/**
 * `GET /api/workspaces` lists the caller's workspaces, owned ones first and
 * each id once; `POST /api/workspaces` validates a new workspace, stores it
 * with the caller as owner and makes the caller an admin member of it.
 */
module WorkspacesApi {

  import opened Wrappers
  import opened Js
  import opened Strings
  import opened Seqs
  import opened Records
  import opened ApiUtils
  import opened Validation
  import opened WorkspaceStore

  // ------------------------------------------------------------------ GET

  /**
   * The list handler, given the two query answers. A membership whose
   * embedded workspace is null makes `w.id` throw the engine's `typeError`.
   */
  function ListWorkspaces(owned: Result<Option<seq<Value>>, DbError>, memberships: Result<Option<seq<Record>>, DbError>,
                          typeError: string): (r: Response)
    ensures r.body.Success? ==> r.status == 200 && r.body.data.Arr? && UniqueKeys(r.body.data.items, WorkspaceId)
    ensures r.body.Success? <==> owned.Ok? && memberships.Ok? &&
                                 AllRows(owned.value.GetOr([]) + Embedded(memberships.value.GetOr([])))
  {
    if owned.Err? then HandleDbError(owned.error)
    else if memberships.Err? then HandleDbError(memberships.error)
    else
      var ownedRows := owned.value.GetOr([]);
      var memberRows := Embedded(memberships.value.GetOr([]));
      if !AllRows(ownedRows + memberRows) then HandleDbError(DbError(None, Some(typeError)))
      else ApiSuccess(Arr(MergeFetched(ownedRows, memberRows)))
  }

  /**
   * A listed workspace comes from one of the two answers; every id of them
   * is listed once; a workspace both owned and joined is listed as owned;
   * owned workspaces come first. Either query's failure is answered as a
   * database error, the owned one's first.
   */
  lemma ListIsDedupedOwnedFirst(owned: seq<Value>, memberships: seq<Record>, typeError: string)
    requires AllRows(owned + Embedded(memberships))
    ensures var r := ListWorkspaces(Ok(Some(owned)), Ok(Some(memberships)), typeError);
            var all := owned + Embedded(memberships);
            r.status == 200 && r.body.Success? && r.body.data.Arr? &&
            var listed := r.body.data.items;
            UniqueKeys(listed, WorkspaceId) &&
            (forall w :: w in listed ==> w in all) &&
            (forall w :: w in all ==> HasKey(listed, WorkspaceId, WorkspaceId(w))) &&
            (forall i :: 0 <= i < |listed| && HasKey(owned, WorkspaceId, WorkspaceId(listed[i])) ==> listed[i] in owned) &&
            (forall i, j :: 0 <= i < j < |listed| && HasKey(owned, WorkspaceId, WorkspaceId(listed[j])) ==>
               HasKey(owned, WorkspaceId, WorkspaceId(listed[i])))
  {
    MergeFetchedSpec(owned, Embedded(memberships));
  }

  lemma ListFailures(owned: Result<Option<seq<Value>>, DbError>, memberships: Result<Option<seq<Record>>, DbError>,
                     typeError: string)
    ensures owned.Err? ==> ListWorkspaces(owned, memberships, typeError) == HandleDbError(owned.error)
    ensures owned.Ok? && memberships.Err? ==> ListWorkspaces(owned, memberships, typeError) == HandleDbError(memberships.error)
    ensures owned == Ok(None) && memberships == Ok(None) ==> ListWorkspaces(owned, memberships, typeError) == ApiSuccess(Arr([]))
  {
    if owned == Ok(None) && memberships == Ok(None) {
      assert Embedded([]) == [];
      assert Dedupe([], WorkspaceId) == [];
    }
  }

  // ----------------------------------------------------------------- POST

  function HttpUrlPattern(): string -> bool {
    (s: string) => IsHttpUrl(s)
  }

  function CreateRules(): (rules: seq<(string, Rule)>)
    ensures |rules| == 3 && rules[0].0 == "name" && rules[1].0 == "description" && rules[2].0 == "logo_url"
    ensures DistinctFields(rules)
    ensures rules[0].1.required && !rules[1].1.required && !rules[2].1.required
  {
    [("name", NoChecks.(required := true, minLength := Some(3), maxLength := Some(50))),
     ("description", NoChecks.(maxLength := Some(500))),
     ("logo_url", NoChecks.(pattern := Some(HttpUrlPattern())))]
  }

  /**
   * A body passes exactly when it has a name, of 3 to 50 characters when it
   * is a string, a description of at most 500 characters and an http(s)
   * logo URL, the last two only checked on non-empty strings.
   */
  lemma CreateRulesMeaning(body: map<string, Value>)
    ensures RequestCheck(body, CreateRules(), NoDates).None? <==>
            var name := Get(body, "name");
            var description := Get(body, "description");
            var logo := Get(body, "logo_url");
            !Blank(name) && (name.Str? ==> 3 <= JsLength(name.s) <= 50) &&
            (!Blank(description) && description.Str? ==> JsLength(description.s) <= 500) &&
            (!Blank(logo) && logo.Str? ==> IsHttpUrl(logo.s))
  {
    var rules := CreateRules();
    RequestPassesIffAllFieldsPass(body, rules, NoDates);
    assert rules[0].0 == "name" && rules[1].0 == "description" && rules[2].0 == "logo_url";
    CreateRuleByRule(Get(body, "name"), Get(body, "description"), Get(body, "logo_url"));
    AllOfThree(body, rules);
  }

  lemma AllOfThree(body: map<string, Value>, rules: seq<(string, Rule)>)
    requires |rules| == 3
    ensures (forall i :: 0 <= i < |rules| ==> Passes(Get(body, rules[i].0), rules[i].1, NoDates)) <==>
            Passes(Get(body, rules[0].0), rules[0].1, NoDates) && Passes(Get(body, rules[1].0), rules[1].1, NoDates) &&
            Passes(Get(body, rules[2].0), rules[2].1, NoDates)
  {
  }

  lemma CreateRuleByRule(name: Value, description: Value, logo: Value)
    ensures Passes(name, CreateRules()[0].1, NoDates) <==> !Blank(name) && (name.Str? ==> 3 <= JsLength(name.s) <= 50)
    ensures Passes(description, CreateRules()[1].1, NoDates) <==> (!Blank(description) && description.Str? ==> JsLength(description.s) <= 500)
    ensures Passes(logo, CreateRules()[2].1, NoDates) <==> (!Blank(logo) && logo.Str? ==> IsHttpUrl(logo.s))
  {
  }

  /** The inserted row: falsy description and logo URL are stored as null. */
  function NewWorkspace(body: map<string, Value>, userId: string): (p: Record)
    ensures p.Keys == {"name", "description", "logo_url", "owner_id"}
    ensures p["name"] == Get(body, "name") && p["owner_id"] == Str(userId)
    ensures p["description"] == (if Truthy(Get(body, "description")) then Get(body, "description") else Null)
    ensures p["logo_url"] == (if Truthy(Get(body, "logo_url")) then Get(body, "logo_url") else Null)
  {
    map["name" := Get(body, "name"),
        "description" := Or(Get(body, "description"), Null),
        "logo_url" := Or(Get(body, "logo_url"), Null),
        "owner_id" := Str(userId)]
  }

  /** The two tables the handler writes. */
  datatype Tables = Tables(workspaces: seq<Record>, members: seq<Record>)

  /**
   * The create handler. `stored` is the row the database keeps for an
   * inserted one (it adds the id and timestamps) or its failure; the
   * membership insert may fail on its own, after the workspace is stored.
   */
  function CreateWorkspace(body: map<string, Value>, userId: string, db: Tables,
                           stored: Record -> Result<Record, DbError>, memberFault: Option<DbError>): (r: (Response, Tables))
    ensures r.0.body.Success? <==> r.1.members != db.members
    ensures r.0.body.Success? ==> r.0.status == 201
    ensures |db.workspaces| <= |r.1.workspaces| <= |db.workspaces| + 1
  {
    match RequestCheck(body, CreateRules(), NoDates)
    case Some(invalid) => (invalid, db)
    case None =>
      match stored(NewWorkspace(body, userId))
      case Err(e) => (HandleDbError(e), db)
      case Ok(row) =>
        var db1 := db.(workspaces := db.workspaces + [row]);
        if memberFault.Some? then (HandleDbError(memberFault.value), db1)
        else (ApiSuccess(Obj(row), 201), db1.(members := db1.members + [AdminMembership(row, userId)]))
  }

  /**
   * A valid body that the database accepts is answered 201 with the stored
   * row, which is appended together with the caller's admin membership;
   * an invalid body or a failed workspace insert writes nothing; a failed
   * membership insert leaves the workspace stored without its admin.
   */
  lemma CreateEffects(body: map<string, Value>, userId: string, db: Tables,
                      stored: Record -> Result<Record, DbError>, memberFault: Option<DbError>)
    ensures var (r, db') := CreateWorkspace(body, userId, db, stored, memberFault);
            var row := stored(NewWorkspace(body, userId));
            (RequestCheck(body, CreateRules(), NoDates).Some? ==> r.status == 400 && db' == db) &&
            (RequestCheck(body, CreateRules(), NoDates).None? && row.Err? ==> r == HandleDbError(row.error) && db' == db) &&
            (RequestCheck(body, CreateRules(), NoDates).None? && row.Ok? && memberFault.None? ==>
               r.status == 201 && r.body == Success(Obj(row.value)) &&
               db'.workspaces == db.workspaces + [row.value] &&
               db'.members == db.members + [AdminMembership(row.value, userId)]) &&
            (RequestCheck(body, CreateRules(), NoDates).None? && row.Ok? && memberFault.Some? ==>
               r == HandleDbError(memberFault.value) &&
               db'.workspaces == db.workspaces + [row.value] && db'.members == db.members)
  {
  }
}
