/**
 * The member management dialog: who may administer the workspace, and the
 * user search behind the invitation tab.
 */
module MemberManagement {

  import opened Wrappers
  import opened Js
  import opened Records
  import opened Validation

  /**
   * `isAdmin()`: the owner always; otherwise the user whose first member
   * row has role `'admin'`; nobody without a user or a current workspace.
   */
  function IsAdmin(user: Option<string>, currentWorkspace: Option<Value>, members: seq<Record>): (admin: bool)
    ensures admin ==> user.Some? && currentWorkspace.Some? && Truthy(currentWorkspace.value)
  {
    if user.None? || currentWorkspace.None? || !Truthy(currentWorkspace.value) then false
    else if Prop(currentWorkspace.value, "owner_id") == Str(user.value) then true
    else
      match FindFirst(members, "user_id", Str(user.value))
      case None => false
      case Some(member) => Get(member, "role") == Str("admin")
  }

  /** Row `i` is the first member row carrying user id `u`. */
  predicate FirstRowOf(members: seq<Record>, i: int, u: Value) {
    0 <= i < |members| && Get(members[i], "user_id") == u &&
    forall j :: 0 <= j < i ==> Get(members[j], "user_id") != u
  }

  /** Nobody is admin without a user or a workspace; the owner is admin whatever the member rows say. */
  lemma OwnerIsAdmin(user: Option<string>, currentWorkspace: Option<Value>, members: seq<Record>)
    ensures user.None? || currentWorkspace.None? ==> !IsAdmin(user, currentWorkspace, members)
    ensures (user.Some? && currentWorkspace.Some? && currentWorkspace.value.Obj? &&
             Prop(currentWorkspace.value, "owner_id") == Str(user.value)) ==>
              IsAdmin(user, currentWorkspace, members)
  {
  }

  /**
   * Anybody but the owner is admin exactly when the first row with their
   * id has role `'admin'`; an `'owner'` role, or no row, does not count.
   */
  lemma MemberAdminIffFirstRowAdmin(user: string, workspace: Value, members: seq<Record>)
    requires workspace.Obj? && Prop(workspace, "owner_id") != Str(user)
    ensures IsAdmin(Some(user), Some(workspace), members) <==>
            exists i :: FirstRowOf(members, i, Str(user)) && Get(members[i], "role") == Str("admin")
    ensures (forall i :: 0 <= i < |members| ==> Get(members[i], "user_id") != Str(user)) ==>
              !IsAdmin(Some(user), Some(workspace), members)
  {
    var u := Str(user);
    var found := FindFirst(members, "user_id", u);
    if found.Some? {
      var k :| 0 <= k < |members| && members[k] == found.value && Get(members[k], "user_id") == u &&
               forall j :: 0 <= j < k ==> Get(members[j], "user_id") != u;
      assert FirstRowOf(members, k, u);
      forall i | FirstRowOf(members, i, u) ensures i == k {
        assert !(k < i) && !(i < k);
      }
    }
  }

  /** The search half of the dialog. */
  class SearchPanel {
    var searchTerm: string
    var searchResults: Value
    var isSearching: bool

    constructor()
      ensures searchTerm == "" && searchResults == Arr([]) && !isSearching
    {
      searchTerm, searchResults, isSearching := "", Arr([]), false;
    }

    /**
     * `searchUsers`: a term under two characters clears the results and
     * sends nothing; otherwise the term is sent with the workspace id, and
     * the data of a successful reply (`reply`) becomes the results, a failed
     * one only being reported. Searching always ends.
     */
    method SearchUsers(workspaceId: string, reply: Option<Value>) returns (request: Option<(string, string)>)
      modifies this
      ensures searchTerm == old(searchTerm)
      ensures JsLength(searchTerm) < 2 ==>
                request.None? && searchResults == Arr([]) && isSearching == old(isSearching)
      ensures JsLength(searchTerm) >= 2 ==>
                request == Some((searchTerm, workspaceId)) && !isSearching &&
                searchResults == (if reply.Some? then reply.value else old(searchResults))
    {
      if JsLength(searchTerm) < 2 {
        searchResults := Arr([]);
        return None;
      }
      isSearching := true;
      request := Some((searchTerm, workspaceId));
      if reply.Some? {
        searchResults := reply.value;
      }
      isSearching := false;
    }
  }
}
