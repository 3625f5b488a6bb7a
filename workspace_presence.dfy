/**
 * The workspace presence hook: one entry per member of the workspace,
 * with the member's status and the room they are in, loaded once and
 * then kept up to date by changes of the `users` and `room_participants`
 * tables.
 */
module WorkspacePresence {

  import opened Wrappers
  import opened Js
  import opened Records

  const LOAD_FAILURE := "Erreur lors du chargement des utilisateurs: "

  /** An entry of the list. Every field holds whatever the rows carried. */
  datatype WorkspaceUser = WorkspaceUser(id: Value, displayName: Value, avatarUrl: Value,
                                         status: Value, statusMessage: Value, currentRoom: Value)

  // ------------------------------------------------------------- loading

  /**
   * `participantsMap`: each participation row's `user_id` mapped to its
   * `rooms`, a later row for the same user overwriting an earlier one.
   */
  function RoomByUser(rows: seq<Record>): (m: map<Value, Value>)
    ensures |rows| > 0 ==> Get(rows[|rows| - 1], "user_id") in m &&
                           m[Get(rows[|rows| - 1], "user_id")] == Get(rows[|rows| - 1], "rooms")
    decreases |rows|
  {
    if rows == [] then map[]
    else
      var last := rows[|rows| - 1];
      RoomByUser(rows[..|rows| - 1])[Get(last, "user_id") := Get(last, "rooms")]
  }

  /** The map has a key for each user with a row. */
  lemma {:induction false} RoomByUserKeys(rows: seq<Record>)
    ensures forall u :: u in RoomByUser(rows) <==> exists i :: 0 <= i < |rows| && Get(rows[i], "user_id") == u
    decreases |rows|
  {
    if rows != [] {
      var init := rows[..|rows| - 1];
      RoomByUserKeys(init);
      forall u ensures u in RoomByUser(rows) <==> exists i :: 0 <= i < |rows| && Get(rows[i], "user_id") == u {
        if u in RoomByUser(init) {
          var i :| 0 <= i < |init| && Get(init[i], "user_id") == u;
          assert rows[i] == init[i];
        }
        if exists i :: 0 <= i < |rows| && Get(rows[i], "user_id") == u {
          var i :| 0 <= i < |rows| && Get(rows[i], "user_id") == u;
          if i < |init| {
            assert init[i] == rows[i];
          }
        }
      }
    }
  }

  /** The key of a user holds the `rooms` of that user's last row. */
  lemma {:induction false} RoomByUserIsLastRow(rows: seq<Record>, i: nat)
    requires i < |rows|
    requires forall j :: i < j < |rows| ==> Get(rows[j], "user_id") != Get(rows[i], "user_id")
    ensures Get(rows[i], "user_id") in RoomByUser(rows)
    ensures RoomByUser(rows)[Get(rows[i], "user_id")] == Get(rows[i], "rooms")
    decreases |rows|
  {
    if i < |rows| - 1 {
      var init := rows[..|rows| - 1];
      assert init[i] == rows[i];
      forall j | i < j < |init| ensures Get(init[j], "user_id") != Get(init[i], "user_id") {
        assert init[j] == rows[j];
      }
      RoomByUserIsLastRow(init, i);
    }
  }

  /** The entry built from a member's `users` row and the map of rooms. */
  function FromMember(user: Value, rooms: map<Value, Value>): (w: WorkspaceUser)
    ensures w.id == Prop(user, "id")
    ensures w.status == (if Truthy(Prop(user, "status")) then Prop(user, "status") else Str("offline"))
    ensures w.currentRoom == (if Prop(user, "id") in rooms && Truthy(rooms[Prop(user, "id")]) then rooms[Prop(user, "id")] else Undefined)
  {
    var id := Prop(user, "id");
    var room := if id in rooms then rooms[id] else Undefined;
    WorkspaceUser(id, Prop(user, "display_name"), Prop(user, "avatar_url"),
                  Or(Prop(user, "status"), Str("offline")), Prop(user, "status_message"),
                  Or(room, Undefined))
  }

  /** `members.map(...)`: one entry per member, in the members' order. */
  function MergeMembers(members: seq<Record>, rooms: map<Value, Value>): (r: seq<WorkspaceUser>)
    ensures |r| == |members|
    ensures forall i :: 0 <= i < |members| ==> r[i] == FromMember(Get(members[i], "users"), rooms)
  {
    if members == [] then []
    else [FromMember(Get(members[0], "users"), rooms)] + MergeMembers(members[1..], rooms)
  }

  /** Reading `user.id` throws when a member's `users` is null or undefined. */
  predicate AllUsersPresent(members: seq<Record>) {
    forall i :: 0 <= i < |members| ==> Destructurable(Get(members[i], "users"))
  }

  /**
   * A member's entry records the room of their last participation row, and
   * no room when they have none.
   */
  lemma MemberRoomIsLastRow(members: seq<Record>, rows: seq<Record>, i: nat, j: nat)
    requires i < |members|
    requires j < |rows| && Get(rows[j], "user_id") == Prop(Get(members[i], "users"), "id")
    requires forall k :: j < k < |rows| ==> Get(rows[k], "user_id") != Get(rows[j], "user_id")
    ensures MergeMembers(members, RoomByUser(rows))[i].currentRoom ==
            (if Truthy(Get(rows[j], "rooms")) then Get(rows[j], "rooms") else Undefined)
  {
    RoomByUserIsLastRow(rows, j);
  }

  lemma MemberWithoutRowHasNoRoom(members: seq<Record>, rows: seq<Record>, i: nat)
    requires i < |members|
    requires forall k :: 0 <= k < |rows| ==> Get(rows[k], "user_id") != Prop(Get(members[i], "users"), "id")
    ensures MergeMembers(members, RoomByUser(rows))[i].currentRoom == Undefined
  {
    RoomByUserKeys(rows);
  }

  // -------------------------------------------------------------- events

  /** `users.map(u => u.id === id ? f(u) : u)`. */
  function UpdateMatching(users: seq<WorkspaceUser>, id: Value, f: WorkspaceUser -> WorkspaceUser): (r: seq<WorkspaceUser>)
    ensures |r| == |users|
    ensures forall i :: 0 <= i < |users| ==> r[i] == if users[i].id == id then f(users[i]) else users[i]
  {
    if users == [] then []
    else [if users[0].id == id then f(users[0]) else users[0]] + UpdateMatching(users[1..], id, f)
  }

  /** A `users` UPDATE: status and status message are replaced only by truthy new values. */
  function StatusUpdate(newRecord: Record): WorkspaceUser -> WorkspaceUser {
    (u: WorkspaceUser) => u.(status := Or(Get(newRecord, "status"), u.status),
            statusMessage := Or(Get(newRecord, "status_message"), u.statusMessage))
  }

  /** A participation INSERT: the user is now in the fetched room. */
  function EnterRoom(room: Value): WorkspaceUser -> WorkspaceUser {
    (u: WorkspaceUser) => u.(currentRoom := room)
  }

  /** A participation DELETE: the user is in no room, whichever room the row was for. */
  function ExitRoom(): WorkspaceUser -> WorkspaceUser {
    (u: WorkspaceUser) => u.(currentRoom := Undefined)
  }

  /**
   * Each event touches only the entries whose id matches, never adds or
   * removes one, keeps every id, and changes no field but the ones named.
   */
  lemma EventsTouchOnlyTheMatchingUser(users: seq<WorkspaceUser>, newRecord: Record, oldRecord: Record, room: Value)
    ensures var r := UpdateMatching(users, Get(newRecord, "id"), StatusUpdate(newRecord));
            |r| == |users| &&
            forall i :: 0 <= i < |users| ==>
              r[i].id == users[i].id && r[i].currentRoom == users[i].currentRoom &&
              r[i].displayName == users[i].displayName && r[i].avatarUrl == users[i].avatarUrl &&
              (users[i].id != Get(newRecord, "id") ==> r[i] == users[i]) &&
              (users[i].id == Get(newRecord, "id") ==>
                 r[i].status == (if Truthy(Get(newRecord, "status")) then Get(newRecord, "status") else users[i].status) &&
                 r[i].statusMessage == (if Truthy(Get(newRecord, "status_message")) then Get(newRecord, "status_message") else users[i].statusMessage))
    ensures var r := UpdateMatching(users, Get(newRecord, "user_id"), EnterRoom(room));
            |r| == |users| &&
            forall i :: 0 <= i < |users| ==>
              r[i].id == users[i].id &&
              r[i].currentRoom == (if users[i].id == Get(newRecord, "user_id") then room else users[i].currentRoom) &&
              r[i].(currentRoom := users[i].currentRoom) == users[i]
    ensures var r := UpdateMatching(users, Get(oldRecord, "user_id"), ExitRoom());
            |r| == |users| &&
            forall i :: 0 <= i < |users| ==>
              r[i].id == users[i].id &&
              r[i].currentRoom == (if users[i].id == Get(oldRecord, "user_id") then Undefined else users[i].currentRoom) &&
              r[i].(currentRoom := users[i].currentRoom) == users[i]
  {
  }

  class Hook {
    var users: seq<WorkspaceUser>
    var isLoading: bool
    var error: Option<string>

    constructor()
      ensures users == [] && isLoading && error.None?
    {
      users := [];
      isLoading := true;
      error := None;
    }

    /** The `forEach` that fills `participantsMap`. */
    static method BuildRoomMap(rows: seq<Record>) returns (m: map<Value, Value>)
      ensures m == RoomByUser(rows)
    {
      m := map[];
      for i := 0 to |rows|
        invariant m == RoomByUser(rows[..i])
      {
        assert rows[..i + 1][..i] == rows[..i];
        m := m[Get(rows[i], "user_id") := Get(rows[i], "rooms")];
      }
      assert rows[..|rows|] == rows;
    }

    /**
     * `loadWorkspaceUsers`: both queries, then the merge. A failed query, or
     * a member whose `users` is missing (reading its `id` throws the engine's
     * `typeError`), is reported; loading ends in every case.
     */
    method Load(members: Result<seq<Record>, string>, rows: Result<seq<Record>, string>, typeError: string)
      modifies this
      ensures !isLoading
      ensures members.Err? ==> users == old(users) && error == Some(LOAD_FAILURE + members.error)
      ensures members.Ok? && rows.Err? ==> users == old(users) && error == Some(LOAD_FAILURE + rows.error)
      ensures members.Ok? && rows.Ok? && !AllUsersPresent(members.value) ==>
                users == old(users) && error == Some(LOAD_FAILURE + typeError)
      ensures members.Ok? && rows.Ok? && AllUsersPresent(members.value) ==>
                users == MergeMembers(members.value, RoomByUser(rows.value)) && error == old(error)
    {
      isLoading := true;
      if members.Err? {
        error := Some(LOAD_FAILURE + members.error);
      } else if rows.Err? {
        error := Some(LOAD_FAILURE + rows.error);
      } else if !AllUsersPresent(members.value) {
        error := Some(LOAD_FAILURE + typeError);
      } else {
        var rooms := BuildRoomMap(rows.value);
        users := MergeMembers(members.value, rooms);
      }
      isLoading := false;
    }

    method OnUserUpdate(newRecord: Record)
      modifies this
      ensures users == UpdateMatching(old(users), Get(newRecord, "id"), StatusUpdate(newRecord))
      ensures isLoading == old(isLoading) && error == old(error)
    {
      users := UpdateMatching(users, Get(newRecord, "id"), StatusUpdate(newRecord));
    }

    /** A participation INSERT: the room is fetched; a failed fetch is only logged. */
    method OnParticipantInsert(newRecord: Record, room: Result<Value, string>)
      modifies this
      ensures room.Err? ==> users == old(users)
      ensures room.Ok? ==> users == UpdateMatching(old(users), Get(newRecord, "user_id"), EnterRoom(room.value))
      ensures isLoading == old(isLoading) && error == old(error)
    {
      if room.Ok? {
        users := UpdateMatching(users, Get(newRecord, "user_id"), EnterRoom(room.value));
      }
    }

    method OnParticipantDelete(oldRecord: Record)
      modifies this
      ensures users == UpdateMatching(old(users), Get(oldRecord, "user_id"), ExitRoom())
      ensures isLoading == old(isLoading) && error == old(error)
    {
      users := UpdateMatching(users, Get(oldRecord, "user_id"), ExitRoom());
    }
  }
}
