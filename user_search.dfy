/**
 * `GET /api/users/search?query=…&workspaceId=…`: users to invite. The
 * search itself is the backend's (a case-insensitive match on name or
 * e-mail, given here as `matches`); the handler guards the query and, for
 * a workspace, drops its members and its owner from the results.
 */
module UserSearch {

  import opened Wrappers
  import opened Js
  import opened Seqs
  import opened ApiUtils
  import opened Validation

  const MSG_QUERY_TOO_SHORT := "Le terme de recherche doit contenir au moins 2 caractères"
  const SEARCH_LIMIT := 10
  /** PostgREST's code for a `.single()` that found no row, or several. */
  const NO_SINGLE_ROW := "PGRST116"

  function IdOf(row: Value): Value {
    Prop(row, "id")
  }

  /**
   * `.or(<name or e-mail matches>).neq('id', user.id).limit(10)` over the
   * `users` table: the matching users other than the caller, at most ten.
   */
  function SearchResults(users: seq<Value>, matches: Value -> bool, userId: string): (r: seq<Value>)
    ensures |r| <= SEARCH_LIMIT
    ensures forall u :: u in r ==> u in users && matches(u) && IdOf(u) != Str(userId)
  {
    var all := Filter(users, (u: Value) => matches(u) && IdOf(u) != Str(userId));
    if |all| <= SEARCH_LIMIT then all else all[..SEARCH_LIMIT]
  }

  /** Whether `row` is a membership row of the workspace. */
  predicate InWorkspace(row: Value, workspaceId: string) {
    Prop(row, "workspace_id") == Str(workspaceId)
  }

  /** `existingMembers.map(m => m.user_id)` for the rows of the workspace. */
  function MemberIds(members: seq<Value>, workspaceId: string): seq<Value> {
    if members == [] then []
    else (if InWorkspace(members[0], workspaceId) then [Prop(members[0], "user_id")] else []) +
         MemberIds(members[1..], workspaceId)
  }

  /** The ids listed are exactly the users with a membership row of the workspace. */
  lemma {:induction false} MemberIdsSpec(members: seq<Value>, workspaceId: string, id: Value)
    ensures id in MemberIds(members, workspaceId) <==>
            exists i :: 0 <= i < |members| && InWorkspace(members[i], workspaceId) && Prop(members[i], "user_id") == id
  {
    if members != [] {
      MemberIdsSpec(members[1..], workspaceId, id);
      if exists i :: 0 <= i < |members| && InWorkspace(members[i], workspaceId) && Prop(members[i], "user_id") == id {
        var i :| 0 <= i < |members| && InWorkspace(members[i], workspaceId) && Prop(members[i], "user_id") == id;
        if i > 0 {
          assert members[1..][i - 1] == members[i];
        }
      }
      if id in MemberIds(members[1..], workspaceId) {
        var i :| 0 <= i < |members[1..]| && InWorkspace(members[1..][i], workspaceId) && Prop(members[1..][i], "user_id") == id;
        assert members[i + 1] == members[1..][i];
      }
    }
  }

  /**
   * `workspace?.owner_id` after `.single()`: the owner of the one workspace
   * row with that id; none or several rows (PGRST116) leave it undefined,
   * and any other failure is thrown.
   */
  function OwnerId(workspaces: seq<Value>, workspaceId: string, fault: Option<DbError>): (r: Result<Value, DbError>)
    ensures fault.Some? && fault.value.code != Some(NO_SINGLE_ROW) ==> r == Err(fault.value)
    ensures fault.Some? && fault.value.code == Some(NO_SINGLE_ROW) ==> r == Ok(Undefined)
  {
    if fault.Some? then
      if fault.value.code == Some(NO_SINGLE_ROW) then Ok(Undefined) else Err(fault.value)
    else
      var rows := Filter(workspaces, (w: Value) => IdOf(w) == Str(workspaceId));
      if |rows| == 1 then Ok(Prop(rows[0], "owner_id")) else Ok(Undefined)
  }

  /** The filter's test: neither a member nor the owner. */
  function Invitable(memberIds: seq<Value>, ownerId: Value): Value -> bool {
    (u: Value) => IdOf(u) !in memberIds && IdOf(u) != ownerId
  }

  /** The tables and the injected failures of the three queries. */
  datatype Backend = Backend(users: seq<Value>, members: seq<Value>, workspaces: seq<Value>,
                             searchFault: Option<DbError>, membersFault: Option<DbError>, ownerFault: Option<DbError>)

  /** The handler. */
  function Search(query: Option<string>, workspaceId: Option<string>, userId: string,
                  matches: Value -> bool, db: Backend): (r: Response)
    ensures r.body.Success? ==>
              r.status == 200 && r.body.data.Arr? && query.Some? && JsLength(query.value) >= 2 && db.searchFault.None?
  {
    if query.None? || query.value == "" || JsLength(query.value) < 2 then
      ApiError(MSG_QUERY_TOO_SHORT, ERR_VALIDATION, 400)
    else if db.searchFault.Some? then HandleDbError(db.searchFault.value)
    else
      var data := SearchResults(db.users, matches, userId);
      if workspaceId.Some? && workspaceId.value != "" && |data| > 0 then
        if db.membersFault.Some? then HandleDbError(db.membersFault.value)
        else match OwnerId(db.workspaces, workspaceId.value, db.ownerFault)
          case Err(e) => HandleDbError(e)
          case Ok(owner) => ApiSuccess(Arr(Filter(data, Invitable(MemberIds(db.members, workspaceId.value), owner))))
      else ApiSuccess(Arr(data))
  }

  /** The query guard: a missing query or one under two characters is the only VALIDATION failure. */
  lemma ShortQueryRejected(query: Option<string>, workspaceId: Option<string>, userId: string,
                           matches: Value -> bool, db: Backend)
    ensures var r := Search(query, workspaceId, userId, matches, db);
            (query.None? || JsLength(query.value) < 2) <==> r == ApiError(MSG_QUERY_TOO_SHORT, ERR_VALIDATION, 400)
  {
    var r := Search(query, workspaceId, userId, matches, db);
    if query.Some? && query.value == "" {
      assert JsLength(query.value) == 0;
    }
    if !(query.None? || JsLength(query.value) < 2) {
      if db.searchFault.Some? {
        assert r.body.Failure? ==> r.body.code != ERR_VALIDATION by { DbErrorCodes(db.searchFault.value); }
      } else if db.membersFault.Some? {
        DbErrorCodes(db.membersFault.value);
      } else if db.ownerFault.Some? {
        DbErrorCodes(db.ownerFault.value);
      }
    }
  }

  /** A database error never maps to VALIDATION. */
  lemma DbErrorCodes(e: DbError)
    ensures HandleDbError(e).body.Failure? && HandleDbError(e).body.code != ERR_VALIDATION
  {
  }

  /**
   * Every user returned matched the query, is not the caller, and at most
   * ten are returned.
   */
  lemma ResultsBounded(query: Option<string>, workspaceId: Option<string>, userId: string,
                       matches: Value -> bool, db: Backend)
    ensures var r := Search(query, workspaceId, userId, matches, db);
            r.body.Success? ==>
              r.status == 200 && r.body.data.Arr? && |r.body.data.items| <= SEARCH_LIMIT &&
              forall u :: u in r.body.data.items ==> u in db.users && matches(u) && IdOf(u) != Str(userId)
  {
  }

  /**
   * For a workspace, the answer is the search results, in order, without
   * the workspace's members and its owner; a workspace without its row
   * (PGRST116) only loses its members.
   */
  lemma WorkspaceMembersExcluded(query: string, workspaceId: string, userId: string,
                                 matches: Value -> bool, db: Backend)
    requires JsLength(query) >= 2 && workspaceId != ""
    requires db.searchFault.None? && db.membersFault.None? && OwnerId(db.workspaces, workspaceId, db.ownerFault).Ok?
    ensures var data := SearchResults(db.users, matches, userId);
            var owner := OwnerId(db.workspaces, workspaceId, db.ownerFault).value;
            var r := Search(Some(query), Some(workspaceId), userId, matches, db);
            r == ApiSuccess(Arr(Filter(data, Invitable(MemberIds(db.members, workspaceId), owner)))) &&
            forall u :: u in r.body.data.items <==>
              u in data && IdOf(u) != owner && IdOf(u) !in MemberIds(db.members, workspaceId)
  {
    assert query != "";
    var data := SearchResults(db.users, matches, userId);
    if data == [] {
      assert Filter(data, Invitable(MemberIds(db.members, workspaceId), OwnerId(db.workspaces, workspaceId, db.ownerFault).value)) == [];
    }
  }

  /** A workspace without its row leaves no owner to exclude. */
  lemma MissingWorkspaceHasNoOwner(workspaces: seq<Value>, workspaceId: string)
    requires forall i :: 0 <= i < |workspaces| ==> IdOf(workspaces[i]) != Str(workspaceId)
    ensures OwnerId(workspaces, workspaceId, None) == Ok(Undefined)
  {
    FilterNonePass(workspaces, (w: Value) => IdOf(w) == Str(workspaceId));
  }

  /** Without a workspace the search results are returned as they are. */
  lemma NoWorkspaceUnfiltered(query: string, workspaceId: Option<string>, userId: string,
                              matches: Value -> bool, db: Backend)
    requires JsLength(query) >= 2 && db.searchFault.None?
    requires workspaceId.None? || workspaceId.value == ""
    ensures Search(Some(query), workspaceId, userId, matches, db) == ApiSuccess(Arr(SearchResults(db.users, matches, userId)))
  {
    assert query != "";
  }
}
