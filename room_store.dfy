/**
 * The room store: the rooms of the workspace, the current room, its
 * participants and messages, and the last error. The synchronous actions
 * replace one list by a map, filter or append over it; the asynchronous
 * ones run their queries against the tables and report the first failure
 * in `error`, prefixed by a French sentence naming the action.
 */
module RoomStore {

  import opened Wrappers
  import opened Js
  import opened Strings
  import opened Records
  import opened Participation

  const NOT_AUTHENTICATED := "Utilisateur non authentifié"
  const JOIN_FAILURE := "Erreur lors de l'entrée dans la salle: "
  const LEAVE_FAILURE := "Erreur lors de la sortie de la salle: "
  const SEND_FAILURE := "Erreur lors de l'envoi du message: "
  const AUDIO_FAILURE := "Erreur lors de la mise à jour du statut audio: "
  const VIDEO_FAILURE := "Erreur lors de la mise à jour du statut vidéo: "

  /** The fields of the store that the modelled actions read or write. */
  datatype RoomState = RoomState(rooms: seq<Record>, currentRoom: Option<Record>,
                                 participants: seq<Record>, messages: seq<Record>, error: Option<string>)

  /** The current room after `updateRoom(id, patch)`: merged iff it carries that id. */
  function CurrentAfterUpdate(current: Option<Record>, id: string, patch: Record): (r: Option<Record>)
    ensures r.Some? <==> current.Some?
    ensures current.Some? && HasId(current.value, Str(id)) ==> r == Some(Merge(current.value, patch))
    ensures current.Some? && !HasId(current.value, Str(id)) ==> r == current
  {
    match current
    case None => None
    case Some(room) => if HasId(room, Str(id)) then Some(Merge(room, patch)) else current
  }

  /** The current room after `deleteRoom(id)`: cleared iff it carries that id. */
  function CurrentAfterDelete(current: Option<Record>, id: string): (r: Option<Record>)
    ensures r.None? <==> current.None? || HasId(current.value, Str(id))
    ensures r.Some? ==> r == current
  {
    match current
    case None => None
    case Some(room) => if HasId(room, Str(id)) then None else current
  }

  /** The error after an action whose queries ended in `failure`: reported with the prefix, or kept. */
  function Reported(error: Option<string>, prefix: string, failure: Option<string>): (r: Option<string>)
    ensures failure.None? ==> r == error
    ensures failure.Some? ==> r == Some(prefix + failure.value)
  {
    match failure
    case None => error
    case Some(message) => Some(prefix + message)
  }

  /**
   * After `updateRoom` the room list and the current room agree: if the
   * current room was the same object as some room of the list, it still is.
   */
  lemma UpdateKeepsCurrentInList(rooms: seq<Record>, current: Record, id: string, patch: Record)
    requires current in rooms
    ensures CurrentAfterUpdate(Some(current), id, patch).value in UpdateById(rooms, Str(id), patch)
  {
    var i :| 0 <= i < |rooms| && rooms[i] == current;
    assert UpdateById(rooms, Str(id), patch)[i] == CurrentAfterUpdate(Some(current), id, patch).value;
  }

  /** After `deleteRoom` a current room that remains is still in the list if it was before. */
  lemma DeleteKeepsCurrentInList(rooms: seq<Record>, current: Record, id: string)
    requires current in rooms
    ensures CurrentAfterDelete(Some(current), id).Some? ==> CurrentAfterDelete(Some(current), id).value in RemoveById(rooms, Str(id))
  {
  }

  class Store {
    var rooms: seq<Record>
    var currentRoom: Option<Record>
    var participants: seq<Record>
    var messages: seq<Record>
    var error: Option<string>

    function State(): RoomState
      reads this
    {
      RoomState(rooms, currentRoom, participants, messages, error)
    }

    /** The initial state: everything empty, no current room, no error. */
    constructor()
      ensures State() == RoomState([], None, [], [], None)
    {
      rooms := [];
      currentRoom := None;
      participants := [];
      messages := [];
      error := None;
    }

    method SetCurrentRoom(room: Option<Record>)
      modifies this
      ensures State() == old(State()).(currentRoom := room)
    {
      currentRoom := room;
    }

    /** `addRoom`: appended at the end, with no check for an existing id. */
    method AddRoom(room: Record)
      modifies this
      ensures State() == old(State()).(rooms := old(rooms) + [room])
    {
      rooms := rooms + [room];
    }

    /** `updateRoom`: the patch is merged onto every room with that id, and onto the current room iff it has that id. */
    method UpdateRoom(id: string, patch: Record)
      modifies this
      ensures State() == old(State()).(rooms := UpdateById(old(rooms), Str(id), patch),
                                       currentRoom := CurrentAfterUpdate(old(currentRoom), id, patch))
    {
      rooms := UpdateById(rooms, Str(id), patch);
      currentRoom := CurrentAfterUpdate(currentRoom, id, patch);
    }

    /** `deleteRoom`: every room with that id goes, and the current room iff it has that id. */
    method DeleteRoom(id: string)
      modifies this
      ensures State() == old(State()).(rooms := RemoveById(old(rooms), Str(id)),
                                       currentRoom := CurrentAfterDelete(old(currentRoom), id))
    {
      rooms := RemoveById(rooms, Str(id));
      currentRoom := CurrentAfterDelete(currentRoom, id);
    }

    method AddParticipant(participant: Record)
      modifies this
      ensures State() == old(State()).(participants := old(participants) + [participant])
    {
      participants := participants + [participant];
    }

    method UpdateParticipant(id: string, patch: Record)
      modifies this
      ensures State() == old(State()).(participants := UpdateById(old(participants), Str(id), patch))
    {
      participants := UpdateById(participants, Str(id), patch);
    }

    method RemoveParticipant(id: string)
      modifies this
      ensures State() == old(State()).(participants := RemoveById(old(participants), Str(id)))
    {
      participants := RemoveById(participants, Str(id));
    }

    method AddMessage(message: Record)
      modifies this
      ensures State() == old(State()).(messages := old(messages) + [message])
    {
      messages := messages + [message];
    }

    method DeleteMessage(id: string)
      modifies this
      ensures State() == old(State()).(messages := RemoveById(old(messages), Str(id)))
    {
      messages := RemoveById(messages, Str(id));
    }

    /**
     * `joinRoom(roomId)`. `auth` is the signed-in user's id, if any; `roomIds`
     * is what the query for the workspace's rooms returned. The rows of the
     * user in those rooms are deleted (when there are any), then the new
     * row is inserted; the first failure is reported and stops the sequence.
     */
    method JoinRoom(tables: Tables, roomId: string, auth: Option<string>, now: string,
                    lookupFault: Option<string>, roomIds: Result<set<Value>, string>,
                    deleteFault: Option<string>, insertFault: Option<string>) returns (ok: bool)
      modifies this, tables
      ensures tables.chat == old(tables.chat)
      ensures auth.None? ==> !ok && tables.participants == old(tables.participants) &&
                             State() == old(State()).(error := Some(JOIN_FAILURE + NOT_AUTHENTICATED))
      ensures auth.Some? ==>
                var a := JoinSteps(old(tables.participants), auth.value, Str(roomId), now,
                                   lookupFault, roomIds, deleteFault, insertFault);
                tables.participants == a.rows && ok == a.failure.None? &&
                State() == old(State()).(error := Reported(old(error), JOIN_FAILURE, a.failure))
    {
      if auth.None? {
        error := Some(JOIN_FAILURE + NOT_AUTHENTICATED);
        return false;
      }
      var user := auth.value;
      if lookupFault.Some? {
        error := Some(JOIN_FAILURE + lookupFault.value);
        return false;
      }
      if roomIds.Err? {
        error := Some(JOIN_FAILURE + roomIds.error);
        return false;
      }
      var ids := roomIds.value;
      if ids != {} {
        if deleteFault.Some? {
          error := Some(JOIN_FAILURE + deleteFault.value);
          return false;
        }
        tables.participants := DeleteIn(tables.participants, user, ids);
      }
      if insertFault.Some? {
        error := Some(JOIN_FAILURE + insertFault.value);
        return false;
      }
      tables.participants := tables.participants + [Joined(Str(roomId), user, now)];
      ok := true;
    }

    /** `leaveRoom()`: without a current room, false and nothing changes. */
    method LeaveRoom(tables: Tables, auth: Option<string>, deleteFault: Option<string>) returns (ok: bool)
      modifies this, tables
      ensures tables.chat == old(tables.chat)
      ensures old(currentRoom).None? ==> !ok && tables.participants == old(tables.participants) && State() == old(State())
      ensures old(currentRoom).Some? && auth.None? ==>
                !ok && tables.participants == old(tables.participants) &&
                State() == old(State()).(error := Some(LEAVE_FAILURE + NOT_AUTHENTICATED))
      ensures old(currentRoom).Some? && auth.Some? ==>
                var a := LeaveSteps(old(tables.participants), auth.value, Get(old(currentRoom).value, "id"), deleteFault);
                tables.participants == a.rows && ok == a.failure.None? &&
                State() == old(State()).(error := Reported(old(error), LEAVE_FAILURE, a.failure))
    {
      if currentRoom.None? {
        return false;
      }
      if auth.None? {
        error := Some(LEAVE_FAILURE + NOT_AUTHENTICATED);
        return false;
      }
      if deleteFault.Some? {
        error := Some(LEAVE_FAILURE + deleteFault.value);
        return false;
      }
      tables.participants := DeleteIn(tables.participants, auth.value, {Get(currentRoom.value, "id")});
      ok := true;
    }

    /**
     * `sendMessage(content)`: without a current room, or with content that
     * is only whitespace, false and nothing changes; otherwise the trimmed
     * content is inserted.
     */
    method SendMessage(tables: Tables, content: string, auth: Option<string>, now: string,
                       insertFault: Option<string>) returns (ok: bool)
      modifies this, tables
      ensures tables.participants == old(tables.participants)
      ensures old(currentRoom).None? || Trim(content) == "" ==>
                !ok && tables.chat == old(tables.chat) && State() == old(State())
      ensures old(currentRoom).Some? && Trim(content) != "" && auth.None? ==>
                !ok && tables.chat == old(tables.chat) &&
                State() == old(State()).(error := Some(SEND_FAILURE + NOT_AUTHENTICATED))
      ensures old(currentRoom).Some? && Trim(content) != "" && auth.Some? ==>
                var a := SendSteps(old(tables.chat), Get(old(currentRoom).value, "id"), auth.value, Trim(content), now, insertFault);
                tables.chat == a.rows && ok == a.failure.None? &&
                State() == old(State()).(error := Reported(old(error), SEND_FAILURE, a.failure))
    {
      if currentRoom.None? || Trim(content) == "" {
        return false;
      }
      if auth.None? {
        error := Some(SEND_FAILURE + NOT_AUTHENTICATED);
        return false;
      }
      if insertFault.Some? {
        error := Some(SEND_FAILURE + insertFault.value);
        return false;
      }
      tables.chat := tables.chat + [ChatRow(Get(currentRoom.value, "id"), auth.value, Trim(content), now)];
      ok := true;
    }

    /** `toggleAudio(enabled)`: sets the one flag of the user's row in the current room. */
    method ToggleAudio(tables: Tables, enabled: bool, auth: Option<string>, updateFault: Option<string>) returns (ok: bool)
      modifies this, tables
      ensures tables.chat == old(tables.chat)
      ensures old(currentRoom).None? ==> !ok && tables.participants == old(tables.participants) && State() == old(State())
      ensures old(currentRoom).Some? && auth.None? ==>
                !ok && tables.participants == old(tables.participants) &&
                State() == old(State()).(error := Some(AUDIO_FAILURE + NOT_AUTHENTICATED))
      ensures old(currentRoom).Some? && auth.Some? ==>
                var a := MediaSteps(old(tables.participants), auth.value, Get(old(currentRoom).value, "id"),
                                    None, Some(enabled), updateFault);
                tables.participants == a.rows && ok == a.failure.None? &&
                State() == old(State()).(error := Reported(old(error), AUDIO_FAILURE, a.failure))
    {
      if currentRoom.None? {
        return false;
      }
      if auth.None? {
        error := Some(AUDIO_FAILURE + NOT_AUTHENTICATED);
        return false;
      }
      if updateFault.Some? {
        error := Some(AUDIO_FAILURE + updateFault.value);
        return false;
      }
      tables.participants := SetMedia(tables.participants, auth.value, Get(currentRoom.value, "id"), None, Some(enabled));
      ok := true;
    }

    /** `toggleVideo(enabled)`: sets the one flag of the user's row in the current room. */
    method ToggleVideo(tables: Tables, enabled: bool, auth: Option<string>, updateFault: Option<string>) returns (ok: bool)
      modifies this, tables
      ensures tables.chat == old(tables.chat)
      ensures old(currentRoom).None? ==> !ok && tables.participants == old(tables.participants) && State() == old(State())
      ensures old(currentRoom).Some? && auth.None? ==>
                !ok && tables.participants == old(tables.participants) &&
                State() == old(State()).(error := Some(VIDEO_FAILURE + NOT_AUTHENTICATED))
      ensures old(currentRoom).Some? && auth.Some? ==>
                var a := MediaSteps(old(tables.participants), auth.value, Get(old(currentRoom).value, "id"),
                                    Some(enabled), None, updateFault);
                tables.participants == a.rows && ok == a.failure.None? &&
                State() == old(State()).(error := Reported(old(error), VIDEO_FAILURE, a.failure))
    {
      if currentRoom.None? {
        return false;
      }
      if auth.None? {
        error := Some(VIDEO_FAILURE + NOT_AUTHENTICATED);
        return false;
      }
      if updateFault.Some? {
        error := Some(VIDEO_FAILURE + updateFault.value);
        return false;
      }
      tables.participants := SetMedia(tables.participants, auth.value, Get(currentRoom.value, "id"), Some(enabled), None);
      ok := true;
    }
  }
}
