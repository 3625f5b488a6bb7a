/**
 * The room presence hook: the participant list of one room, kept up to
 * date by row-change events, and the join, leave and media actions of the
 * signed-in user. The `rooms` table is given as a map from room id to
 * workspace id.
 */
module RoomPresence {

  import opened Wrappers
  import opened Js
  import opened Seqs
  import opened Records
  import opened Participation

  const FETCH_FAILURE := "Erreur lors de la récupération du nouveau participant: "
  const JOIN_FAILURE := "Erreur lors de l'entrée dans la salle: "
  const LEAVE_FAILURE := "Erreur lors de la sortie de la salle: "
  const MEDIA_FAILURE := "Erreur lors de la mise à jour des paramètres média: "
  /** The message PostgREST gives `.single()` when no row matches. */
  const SINGLE_NO_ROW := "JSON object requested, multiple (or no) rows returned"

  /** The participant built from the refetched row: its fields, plus `user` taken from the joined `users`. */
  function Formatted(data: Record): (p: Record)
    ensures p.Keys == data.Keys + {"user"}
    ensures p["user"] == Get(data, "users")
    ensures forall k :: k in data && k != "user" ==> p[k] == data[k]
  {
    Merge(data, map["user" := Get(data, "users")])
  }

  /** `.from('rooms').select('workspace_id').eq('id', roomId).single()`. */
  function RoomLookup(rooms: map<string, string>, roomId: string, fault: Option<string>): (r: Result<string, string>)
    ensures r.Ok? <==> fault.None? && roomId in rooms
    ensures r.Ok? ==> r.value == rooms[roomId]
  {
    if fault.Some? then Err(fault.value)
    else if roomId !in rooms then Err(SINGLE_NO_ROW)
    else Ok(rooms[roomId])
  }

  /** The ids the query for the rooms of a workspace returns. */
  function WorkspaceRoomIds(rooms: map<string, string>, workspace: string): (ids: set<Value>)
    ensures forall id :: id in rooms && rooms[id] == workspace <==> Str(id) in ids
    ensures forall v :: v in ids ==> v.Str? && v.s in rooms
  {
    set id | id in rooms && rooms[id] == workspace :: Str(id)
  }

  /** The whole `joinRoom` sequence of the hook, once the user and the room id are known. */
  function JoinRoomSteps(rows: seq<Row>, user: string, roomId: string, rooms: map<string, string>, now: string,
                         lookupFault: Option<string>, roomsFault: Option<string>,
                         deleteFault: Option<string>, insertFault: Option<string>): (a: Attempt<Row>)
    ensures roomId !in rooms || lookupFault.Some? || roomsFault.Some? ==> a.rows == rows && a.failure.Some?
    ensures a.failure.None? ==> |a.rows| > 0 && a.rows[|a.rows| - 1] == Joined(Str(roomId), user, now)
  {
    var lookup := RoomLookup(rooms, roomId, lookupFault);
    match lookup
    case Err(message) => Attempt(rows, Some(message))
    case Ok(workspace) =>
      var roomIds := if roomsFault.Some? then Err(roomsFault.value) else Ok(WorkspaceRoomIds(rooms, workspace));
      JoinSteps(rows, user, Str(roomId), now, None, roomIds, deleteFault, insertFault)
  }

  /** The join succeeds iff the room exists and no query fails. */
  lemma JoinRoomSucceedsIff(rows: seq<Row>, user: string, roomId: string, rooms: map<string, string>, now: string,
                            lookupFault: Option<string>, roomsFault: Option<string>,
                            deleteFault: Option<string>, insertFault: Option<string>)
    ensures JoinRoomSteps(rows, user, roomId, rooms, now, lookupFault, roomsFault, deleteFault, insertFault).failure.None? <==>
            roomId in rooms && lookupFault.None? && roomsFault.None? && deleteFault.None? && insertFault.None?
  {
    if roomId in rooms && lookupFault.None? && roomsFault.None? {
      assert Str(roomId) in WorkspaceRoomIds(rooms, rooms[roomId]);
    }
  }

  /**
   * The single active room: after a successful join the user has exactly one
   * row among the rooms of the room's workspace, for that room, with video
   * and audio on; the rows of other users and other workspaces are kept.
   */
  lemma JoinRoomLeavesOneRow(rows: seq<Row>, user: string, roomId: string, rooms: map<string, string>, now: string,
                             lookupFault: Option<string>, roomsFault: Option<string>, deleteFault: Option<string>)
    ensures var a := JoinRoomSteps(rows, user, roomId, rooms, now, lookupFault, roomsFault, deleteFault, None);
            a.failure.None? ==>
              roomId in rooms &&
              var ids := WorkspaceRoomIds(rooms, rooms[roomId]);
              Filter(a.rows, Inside(user, ids)) == [Joined(Str(roomId), user, now)] &&
              Filter(a.rows, Outside(user, ids)) == Filter(rows, Outside(user, ids))
  {
    var a := JoinRoomSteps(rows, user, roomId, rooms, now, lookupFault, roomsFault, deleteFault, None);
    if a.failure.None? {
      var ids := WorkspaceRoomIds(rooms, rooms[roomId]);
      assert Str(roomId) in ids;
      JoinLeavesOneRow(rows, user, Str(roomId), now, None, ids, deleteFault);
    }
  }

  /** The record `updateMediaState` sends: exactly the flags that were given. */
  function MediaPatch(video: Option<bool>, audio: Option<bool>): (updates: Record)
    ensures "video_enabled" in updates <==> video.Some?
    ensures "audio_enabled" in updates <==> audio.Some?
    ensures updates.Keys <= {"video_enabled", "audio_enabled"}
    ensures video.Some? ==> updates["video_enabled"] == Bool(video.value)
    ensures audio.Some? ==> updates["audio_enabled"] == Bool(audio.value)
  {
    var withVideo: Record := if video.Some? then map["video_enabled" := Bool(video.value)] else map[];
    if audio.Some? then withVideo["audio_enabled" := Bool(audio.value)] else withVideo
  }

  /** `user?.id`: undefined when nobody is signed in. */
  function UserIdValue(user: Option<string>): (v: Value)
    ensures user.Some? <==> v.Str?
    ensures user.Some? ==> v == Str(user.value)
  {
    if user.Some? then Str(user.value) else Undefined
  }

  class Hook {
    var participants: seq<Record>
    var error: Option<string>
    /** The signed-in user's id, if any. */
    const user: Option<string>
    const roomId: string

    constructor(user: Option<string>, roomId: string)
      ensures participants == [] && error.None? && this.user == user && this.roomId == roomId
    {
      participants := [];
      error := None;
      this.user := user;
      this.roomId := roomId;
    }

    /** INSERT: the refetched participant is appended; a failed refetch is reported instead. */
    method OnInsert(fetched: Result<Record, string>)
      modifies this
      ensures fetched.Ok? ==> participants == old(participants) + [Formatted(fetched.value)] && error == old(error)
      ensures fetched.Err? ==> participants == old(participants) && error == Some(FETCH_FAILURE + fetched.error)
    {
      if fetched.Err? {
        error := Some(FETCH_FAILURE + fetched.error);
        return;
      }
      participants := participants + [Formatted(fetched.value)];
    }

    /** UPDATE: `payload.new` is merged into the participant with its id. */
    method OnUpdate(newRecord: Record)
      modifies this
      ensures participants == UpdateById(old(participants), Get(newRecord, "id"), newRecord) && error == old(error)
    {
      participants := UpdateById(participants, Get(newRecord, "id"), newRecord);
    }

    /** DELETE: participants carrying the id of `payload.old` are removed. */
    method OnDelete(oldRecord: Record)
      modifies this
      ensures participants == RemoveById(old(participants), Get(oldRecord, "id")) && error == old(error)
    {
      participants := RemoveById(participants, Get(oldRecord, "id"));
    }

    /** `joinRoom()`: nothing (undefined) without a user or a room id; otherwise whether every query succeeded. */
    method JoinRoom(tables: Tables, rooms: map<string, string>, now: string,
                    lookupFault: Option<string>, roomsFault: Option<string>,
                    deleteFault: Option<string>, insertFault: Option<string>) returns (r: Option<bool>)
      modifies this, tables
      ensures tables.chat == old(tables.chat) && participants == old(participants)
      ensures user.None? || roomId == "" ==> r.None? && tables.participants == old(tables.participants) && error == old(error)
      ensures user.Some? && roomId != "" ==>
                var a := JoinRoomSteps(old(tables.participants), user.value, roomId, rooms, now,
                                       lookupFault, roomsFault, deleteFault, insertFault);
                r == Some(a.failure.None?) && tables.participants == a.rows &&
                error == if a.failure.Some? then Some(JOIN_FAILURE + a.failure.value) else old(error)
    {
      if user.None? || roomId == "" {
        return None;
      }
      var me := user.value;
      if lookupFault.Some? {
        error := Some(JOIN_FAILURE + lookupFault.value);
        return Some(false);
      }
      if roomId !in rooms {
        error := Some(JOIN_FAILURE + SINGLE_NO_ROW);
        return Some(false);
      }
      var workspace := rooms[roomId];
      if roomsFault.Some? {
        error := Some(JOIN_FAILURE + roomsFault.value);
        return Some(false);
      }
      var roomIds := WorkspaceRoomIds(rooms, workspace);
      if roomIds != {} {
        if deleteFault.Some? {
          error := Some(JOIN_FAILURE + deleteFault.value);
          return Some(false);
        }
        tables.participants := DeleteIn(tables.participants, me, roomIds);
      }
      if insertFault.Some? {
        error := Some(JOIN_FAILURE + insertFault.value);
        return Some(false);
      }
      tables.participants := tables.participants + [Joined(Str(roomId), me, now)];
      r := Some(true);
    }

    /** `leaveRoom()`: deletes only the rows keyed by (user, roomId). */
    method LeaveRoom(tables: Tables, deleteFault: Option<string>) returns (r: Option<bool>)
      modifies this, tables
      ensures tables.chat == old(tables.chat) && participants == old(participants)
      ensures user.None? || roomId == "" ==> r.None? && tables.participants == old(tables.participants) && error == old(error)
      ensures user.Some? && roomId != "" ==>
                var a := LeaveSteps(old(tables.participants), user.value, Str(roomId), deleteFault);
                r == Some(a.failure.None?) && tables.participants == a.rows &&
                error == if a.failure.Some? then Some(LEAVE_FAILURE + a.failure.value) else old(error)
    {
      if user.None? || roomId == "" {
        return None;
      }
      if deleteFault.Some? {
        error := Some(LEAVE_FAILURE + deleteFault.value);
        return Some(false);
      }
      tables.participants := DeleteIn(tables.participants, user.value, {Str(roomId)});
      r := Some(true);
    }

    /**
     * `updateMediaState(videoEnabled?, audioEnabled?)`: the update holds the
     * flags that were given; with neither, no query is made.
     */
    method UpdateMediaState(tables: Tables, video: Option<bool>, audio: Option<bool>,
                            updateFault: Option<string>) returns (r: Option<bool>)
      modifies this, tables
      ensures tables.chat == old(tables.chat) && participants == old(participants)
      ensures user.None? || roomId == "" || (video.None? && audio.None?) ==>
                r.None? && tables.participants == old(tables.participants) && error == old(error)
      ensures user.Some? && roomId != "" && (video.Some? || audio.Some?) ==>
                var a := MediaSteps(old(tables.participants), user.value, Str(roomId), video, audio, updateFault);
                r == Some(a.failure.None?) && tables.participants == a.rows &&
                error == if a.failure.Some? then Some(MEDIA_FAILURE + a.failure.value) else old(error)
    {
      if user.None? || roomId == "" {
        return None;
      }
      var updates: Record := map[];
      if video.Some? {
        updates := updates["video_enabled" := Bool(video.value)];
      }
      if audio.Some? {
        updates := updates["audio_enabled" := Bool(audio.value)];
      }
      assert updates == MediaPatch(video, audio);
      if |updates| == 0 {
        return None;
      }
      if updateFault.Some? {
        error := Some(MEDIA_FAILURE + updateFault.value);
        return Some(false);
      }
      tables.participants := SetMedia(tables.participants, user.value, Str(roomId), video, audio);
      r := Some(true);
    }

    /** `participants.find(p => p.user_id === user?.id)`. */
    function CurrentParticipant(): (p: Option<Record>)
      reads this
      ensures p.Some? ==> p.value in participants && Get(p.value, "user_id") == UserIdValue(user)
      ensures p.None? <==> forall i :: 0 <= i < |participants| ==> Get(participants[i], "user_id") != UserIdValue(user)
    {
      FindFirst(participants, "user_id", UserIdValue(user))
    }
  }

  /**
   * `currentParticipant` is the first participant whose `user_id` is the
   * user's id; with nobody signed in it is the first participant with no
   * `user_id` at all, since `undefined === undefined`.
   */
  lemma CurrentParticipantOfNobody(participants: seq<Record>, user: Option<string>)
    ensures user.Some? && FindFirst(participants, "user_id", UserIdValue(user)).Some? ==>
              Get(FindFirst(participants, "user_id", UserIdValue(user)).value, "user_id") == Str(user.value)
    ensures user.None? && |participants| > 0 && "user_id" !in participants[0] ==>
              FindFirst(participants, "user_id", UserIdValue(user)) == Some(participants[0])
  {
  }
}
