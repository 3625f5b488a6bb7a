/**
 * The workspace store: the user's workspaces (owned ones first, then the
 * ones they are a member of, each id once), the current workspace, a
 * loading flag and the last error. The database is given to each action
 * as the results of its queries, or as a function from the row sent to
 * the row returned.
 */
module WorkspaceStore {

  import opened Wrappers
  import opened Js
  import opened Seqs
  import opened Records

  /** `w.id`. */
  function WorkspaceId(w: Value): Value {
    Prop(w, "id")
  }

  /** `[...owned, ...member]` with repeated ids dropped, the first occurrence kept. */
  function MergeFetched(owned: seq<Value>, member: seq<Value>): (r: seq<Value>)
    ensures UniqueKeys(r, WorkspaceId)
    ensures |r| <= |owned| + |member|
  {
    DedupeSpec(owned + member, WorkspaceId);
    Dedupe(owned + member, WorkspaceId)
  }

  /**
   * The fetched list has each id once, the one kept being its first
   * occurrence; every id of either source is in it; a workspace both owned
   * and joined appears as the owned row; owned rows come before the others.
   */
  lemma MergeFetchedSpec(owned: seq<Value>, member: seq<Value>)
    ensures UniqueKeys(MergeFetched(owned, member), WorkspaceId)
    ensures forall w :: w in MergeFetched(owned, member) ==> w in owned + member
    ensures forall w :: w in owned + member ==> HasKey(MergeFetched(owned, member), WorkspaceId, WorkspaceId(w))
    ensures forall i :: 0 <= i < |MergeFetched(owned, member)| && HasKey(owned, WorkspaceId, WorkspaceId(MergeFetched(owned, member)[i])) ==>
              MergeFetched(owned, member)[i] in owned
    ensures forall i, j :: 0 <= i < j < |MergeFetched(owned, member)| && HasKey(owned, WorkspaceId, WorkspaceId(MergeFetched(owned, member)[j])) ==>
              HasKey(owned, WorkspaceId, WorkspaceId(MergeFetched(owned, member)[i]))
  {
    DedupeSpec(owned + member, WorkspaceId);
    FirstPartWins(owned, member, WorkspaceId);
  }

  /** `workspaces.map(w => w.id === id ? row : w)`. */
  function ReplaceById(ws: seq<Value>, id: string, row: Value): (r: seq<Value>)
    ensures |r| == |ws|
    ensures forall i :: 0 <= i < |ws| ==> r[i] == if WorkspaceId(ws[i]) == Str(id) then row else ws[i]
  {
    if ws == [] then []
    else [if WorkspaceId(ws[0]) == Str(id) then row else ws[0]] + ReplaceById(ws[1..], id, row)
  }

  /** Whether a row is kept by `workspaces.filter(w => w.id !== id)`. */
  function Keeps(id: string): Value -> bool {
    w => WorkspaceId(w) != Str(id)
  }

  /** The current workspace after an update or delete of `id`: `row` if it carried that id. */
  function CurrentAfter(current: Option<Value>, id: string, row: Option<Value>): (r: Option<Value>)
    ensures current.Some? && WorkspaceId(current.value) == Str(id) ==> r == row
    ensures current.None? || WorkspaceId(current.value) != Str(id) ==> r == current
  {
    if current.Some? && WorkspaceId(current.value) == Str(id) then row else current
  }

  /** Whether none of the rows is null or undefined (reading `id` on one throws). */
  predicate AllRows(ws: seq<Value>) {
    forall i :: 0 <= i < |ws| ==> Destructurable(ws[i])
  }

  /** The workspaces embedded in the membership rows: `m.workspaces` of each. */
  function Embedded(memberships: seq<Record>): (r: seq<Value>)
    ensures |r| == |memberships|
    ensures forall i :: 0 <= i < |memberships| ==> r[i] == Get(memberships[i], "workspaces")
  {
    if memberships == [] then [] else [Get(memberships[0], "workspaces")] + Embedded(memberships[1..])
  }

  /** The row `createWorkspace` inserts: empty description and logo become null. */
  function CreatePayload(name: string, description: Option<string>, logoUrl: Option<string>, userId: string): (p: Record)
    ensures p.Keys == {"name", "description", "logo_url", "owner_id"}
    ensures p["description"] == if description.Some? && description.value != "" then Str(description.value) else Null
    ensures p["logo_url"] == if logoUrl.Some? && logoUrl.value != "" then Str(logoUrl.value) else Null
    ensures p["name"] == Str(name) && p["owner_id"] == Str(userId)
  {
    map["name" := Str(name),
        "description" := Or(OptStr(description), Null),
        "logo_url" := Or(OptStr(logoUrl), Null),
        "owner_id" := Str(userId)]
  }

  /** The membership that makes the creator an admin of the new workspace. */
  function AdminMembership(workspace: Record, userId: string): (m: Record)
    ensures m.Keys == {"workspace_id", "user_id", "role"}
    ensures m["workspace_id"] == Get(workspace, "id") && m["user_id"] == Str(userId) && m["role"] == Str("admin")
  {
    map["workspace_id" := Get(workspace, "id"), "user_id" := Str(userId), "role" := Str("admin")]
  }

  datatype WorkspaceState = WorkspaceState(workspaces: seq<Value>, currentWorkspace: Option<Value>,
                                           isLoading: bool, error: Option<string>)

  class Store {
    var workspaces: seq<Value>
    var currentWorkspace: Option<Value>
    var isLoading: bool
    var error: Option<string>

    function State(): WorkspaceState
      reads this
    {
      WorkspaceState(workspaces, currentWorkspace, isLoading, error)
    }

    constructor()
      ensures State() == WorkspaceState([], None, false, None)
    {
      workspaces := [];
      currentWorkspace := None;
      isLoading := false;
      error := None;
    }

    method SetCurrentWorkspace(workspace: Option<Value>)
      modifies this
      ensures State() == old(State()).(currentWorkspace := workspace)
    {
      currentWorkspace := workspace;
    }

    /**
     * `fetchWorkspaces()`: nothing without a user id. A query result of null
     * contributes no rows; a failed query, or a null row (reading its `id`
     * throws the engine's `typeError`), is reported and leaves the list as it was.
     */
    method FetchWorkspaces(userId: Option<string>, memberships: Result<Option<seq<Record>>, string>,
                           owned: Result<Option<seq<Value>>, string>, typeError: string)
      modifies this
      ensures userId.None? || userId.value == "" ==> State() == old(State())
      ensures userId.Some? && userId.value != "" ==>
                currentWorkspace == old(currentWorkspace) && !isLoading &&
                if memberships.Err? then workspaces == old(workspaces) && error == Some(memberships.error)
                else if owned.Err? then workspaces == old(workspaces) && error == Some(owned.error)
                else
                  var all := owned.value.GetOr([]) + Embedded(memberships.value.GetOr([]));
                  if AllRows(all) then workspaces == MergeFetched(owned.value.GetOr([]), Embedded(memberships.value.GetOr([]))) && error.None?
                  else workspaces == old(workspaces) && error == Some(typeError)
    {
      if userId.None? || userId.value == "" {
        return;
      }
      isLoading, error := true, None;
      if memberships.Err? {
        error, isLoading := Some(memberships.error), false;
        return;
      }
      if owned.Err? {
        error, isLoading := Some(owned.error), false;
        return;
      }
      var memberRows := Embedded(memberships.value.GetOr([]));
      var all := owned.value.GetOr([]) + memberRows;
      if !AllRows(all) {
        error, isLoading := Some(typeError), false;
        return;
      }
      workspaces, isLoading := Dedupe(all, WorkspaceId), false;
    }

    /**
     * `createWorkspace(name, description?, logoUrl?)`: without a user, null
     * and no change. `insertWorkspace` and `insertMember` are the two
     * inserts; the new row is appended only when both succeed.
     */
    method CreateWorkspace(userId: Option<string>, name: string, description: Option<string>, logoUrl: Option<string>,
                           insertWorkspace: Record -> Result<Record, string>,
                           insertMember: Record -> Option<string>) returns (created: Option<Value>)
      modifies this
      ensures userId.None? || userId.value == "" ==> created.None? && State() == old(State())
      ensures userId.Some? && userId.value != "" ==>
                var inserted := insertWorkspace(CreatePayload(name, description, logoUrl, userId.value));
                currentWorkspace == old(currentWorkspace) && !isLoading &&
                if inserted.Err? then created.None? && workspaces == old(workspaces) && error == Some(inserted.error)
                else
                  var fault := insertMember(AdminMembership(inserted.value, userId.value));
                  if fault.Some? then created.None? && workspaces == old(workspaces) && error == fault
                  else created == Some(Obj(inserted.value)) && workspaces == old(workspaces) + [Obj(inserted.value)] && error.None?
    {
      if userId.None? || userId.value == "" {
        return None;
      }
      isLoading, error := true, None;
      var inserted := insertWorkspace(CreatePayload(name, description, logoUrl, userId.value));
      if inserted.Err? {
        error, isLoading := Some(inserted.error), false;
        return None;
      }
      var data := inserted.value;
      var fault := insertMember(AdminMembership(data, userId.value));
      if fault.Some? {
        error, isLoading := fault, false;
        return None;
      }
      workspaces, isLoading := workspaces + [Obj(data)], false;
      created := Some(Obj(data));
    }

    /**
     * `updateWorkspace(id, updates)`: `update` is the database update of the
     * row with that id, given the updates stamped with `updated_at`; the
     * returned row replaces every entry with that id, and the current
     * workspace iff it has that id.
     */
    method UpdateWorkspace(id: string, updates: Record, now: string,
                           update: (string, Record) -> Result<Record, string>)
      modifies this
      ensures var result := update(id, Merge(updates, map["updated_at" := Str(now)]));
              !isLoading &&
              if result.Err? then workspaces == old(workspaces) && currentWorkspace == old(currentWorkspace) && error == Some(result.error)
              else workspaces == ReplaceById(old(workspaces), id, Obj(result.value)) &&
                   currentWorkspace == CurrentAfter(old(currentWorkspace), id, Some(Obj(result.value))) && error.None?
    {
      isLoading, error := true, None;
      var result := update(id, Merge(updates, map["updated_at" := Str(now)]));
      if result.Err? {
        error, isLoading := Some(result.error), false;
        return;
      }
      var data := Obj(result.value);
      workspaces := ReplaceById(workspaces, id, data);
      currentWorkspace := CurrentAfter(currentWorkspace, id, Some(data));
      isLoading := false;
    }

    /** `deleteWorkspace(id)`: entries with that id go, and the current workspace iff it has that id. */
    method DeleteWorkspace(id: string, deleteFault: Option<string>)
      modifies this
      ensures !isLoading
      ensures deleteFault.Some? ==> workspaces == old(workspaces) && currentWorkspace == old(currentWorkspace) && error == deleteFault
      ensures deleteFault.None? ==> workspaces == Filter(old(workspaces), Keeps(id)) &&
                                    currentWorkspace == CurrentAfter(old(currentWorkspace), id, None) && error.None?
    {
      isLoading, error := true, None;
      if deleteFault.Some? {
        error, isLoading := deleteFault, false;
        return;
      }
      workspaces := Filter(workspaces, Keeps(id));
      currentWorkspace := CurrentAfter(currentWorkspace, id, None);
      isLoading := false;
    }
  }

  /** After a delete no entry has that id, every other entry stays, in order. */
  lemma DeleteRemovesOnlyThatId(ws: seq<Value>, id: string)
    ensures forall w :: w in Filter(ws, Keeps(id)) <==> w in ws && WorkspaceId(w) != Str(id)
    ensures forall a, b :: ws == a + b ==> Filter(ws, Keeps(id)) == Filter(a, Keeps(id)) + Filter(b, Keeps(id))
  {
    forall a, b | ws == a + b ensures Filter(ws, Keeps(id)) == Filter(a, Keeps(id)) + Filter(b, Keeps(id)) {
      FilterDistributes(a, b, Keeps(id));
    }
  }

  /** An update replaces with the returned row exactly the entries with that id; ids of the list are kept when the row has that id. */
  lemma ReplaceKeepsIds(ws: seq<Value>, id: string, row: Value)
    requires WorkspaceId(row) == Str(id)
    ensures forall i :: 0 <= i < |ws| ==> WorkspaceId(ReplaceById(ws, id, row)[i]) == WorkspaceId(ws[i])
    ensures UniqueKeys(ws, WorkspaceId) ==> UniqueKeys(ReplaceById(ws, id, row), WorkspaceId)
  {
  }
}
