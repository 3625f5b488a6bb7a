/**
 * The workspaces page: the workspaces the user owns, tagged `'owner'`,
 * followed by those they belong to, tagged with their membership's role,
 * each id listed once.
 */
module WorkspacesPage {

  import opened Wrappers
  import opened Js
  import opened Seqs
  import opened Records
  import opened WorkspaceStore
  import opened MeApi

  /** `owned.map(w => ({ ...w, role: 'owner' }))`. */
  function TaggedOwned(owned: seq<Value>): (r: seq<Value>)
    ensures |r| == |owned|
    ensures forall i :: 0 <= i < |owned| ==> r[i] == Obj(WithRole(owned[i], Str("owner")))
  {
    if owned == [] then [] else [Obj(WithRole(owned[0], Str("owner")))] + TaggedOwned(owned[1..])
  }

  /** The list the page renders; a failed query reads as null and contributes nothing. */
  function PageWorkspaces(owned: Option<seq<Value>>, memberships: Option<seq<Record>>): (r: seq<Value>)
    ensures UniqueKeys(r, WorkspaceId)
    ensures |r| <= |owned.GetOr([])| + |memberships.GetOr([])|
  {
    DedupeSpec(TaggedOwned(owned.GetOr([])) + TaggedMemberships(memberships.GetOr([])), WorkspaceId);
    Dedupe(TaggedOwned(owned.GetOr([])) + TaggedMemberships(memberships.GetOr([])), WorkspaceId)
  }

  /** Each id of either query is listed once, owned workspaces first; null answers give an empty page. */
  lemma PageListsEachWorkspaceOnce(owned: Option<seq<Value>>, memberships: Option<seq<Record>>)
    ensures var o := TaggedOwned(owned.GetOr([]));
            var m := TaggedMemberships(memberships.GetOr([]));
            var r := PageWorkspaces(owned, memberships);
            UniqueKeys(r, WorkspaceId) &&
            (forall w :: w in r ==> w in o + m) &&
            (forall w :: w in o + m ==> HasKey(r, WorkspaceId, WorkspaceId(w))) &&
            (forall i, j :: 0 <= i < j < |r| && HasKey(o, WorkspaceId, WorkspaceId(r[j])) ==>
               HasKey(o, WorkspaceId, WorkspaceId(r[i])))
    ensures owned.None? && memberships.None? ==> PageWorkspaces(owned, memberships) == []
  {
    var o := TaggedOwned(owned.GetOr([]));
    var m := TaggedMemberships(memberships.GetOr([]));
    DedupeSpec(o + m, WorkspaceId);
    FirstPartWins(o, m, WorkspaceId);
    if owned.None? && memberships.None? {
      assert o + m == [];
    }
  }

  /**
   * A workspace the user both owns and belongs to is listed as owned, with
   * role `'owner'`; any other entry is a membership's, with its role.
   */
  lemma PageRoles(owned: Option<seq<Value>>, memberships: Option<seq<Record>>, i: nat)
    requires i < |PageWorkspaces(owned, memberships)|
    ensures var o := TaggedOwned(owned.GetOr([]));
            var ms := memberships.GetOr([]);
            var w := PageWorkspaces(owned, memberships)[i];
            w.Obj? && "role" in w.fields &&
            (HasKey(o, WorkspaceId, WorkspaceId(w)) ==> w.fields["role"] == Str("owner")) &&
            (!HasKey(o, WorkspaceId, WorkspaceId(w)) ==>
               exists k :: 0 <= k < |ms| && w == Obj(WithRole(Get(ms[k], "workspaces"), Get(ms[k], "role"))))
  {
    var o := TaggedOwned(owned.GetOr([]));
    var ms := memberships.GetOr([]);
    var m := TaggedMemberships(ms);
    var r := PageWorkspaces(owned, memberships);
    DedupeSpec(o + m, WorkspaceId);
    FirstPartWins(o, m, WorkspaceId);
    var w := r[i];
    assert w in r;
    TaggedEntries(owned.GetOr([]), ms, w);
  }

  /** An owned entry carries role `'owner'`; a membership entry is the spread of one membership. */
  lemma TaggedEntries(owned: seq<Value>, ms: seq<Record>, w: Value)
    ensures w in TaggedOwned(owned) ==> w.Obj? && "role" in w.fields && w.fields["role"] == Str("owner")
    ensures w in TaggedMemberships(ms) ==>
              w.Obj? && "role" in w.fields &&
              exists k :: 0 <= k < |ms| && w == Obj(WithRole(Get(ms[k], "workspaces"), Get(ms[k], "role")))
  {
    if w in TaggedOwned(owned) {
      var t :| 0 <= t < |owned| && TaggedOwned(owned)[t] == w;
    }
    if w in TaggedMemberships(ms) {
      var t :| 0 <= t < |ms| && TaggedMemberships(ms)[t] == w;
    }
  }
}
