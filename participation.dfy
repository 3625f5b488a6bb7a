/**
 * The two tables the room actions write, `room_participants` and
 * `chat_messages`, as sequences of rows, and the effect of each sequence of
 * queries the actions run against them. Every query may fail with a
 * message; such a failure is given as `Some(message)`, and a failed query
 * changes nothing. The steps are not atomic: a failure after a successful
 * delete leaves the delete in place.
 */
module Participation {

  import opened Wrappers
  import opened Js
  import opened Seqs

  /** A `room_participants` row. */
  datatype Row = Row(roomId: Value, userId: string, joinedAt: string, videoEnabled: bool, audioEnabled: bool)

  /** A `chat_messages` row. */
  datatype ChatRow = ChatRow(roomId: Value, userId: string, content: string, createdAt: string)

  /** `.eq('user_id', user).in('room_id', rooms)`. */
  predicate InRooms(r: Row, user: string, rooms: set<Value>) {
    r.userId == user && r.roomId in rooms
  }

  /** The rows such a filter does not select. */
  function Outside(user: string, rooms: set<Value>): Row -> bool {
    r => !InRooms(r, user, rooms)
  }

  /** The rows it selects. */
  function Inside(user: string, rooms: set<Value>): Row -> bool {
    r => InRooms(r, user, rooms)
  }

  /** `.delete()` under that filter. */
  function DeleteIn(rows: seq<Row>, user: string, rooms: set<Value>): seq<Row> {
    Filter(rows, Outside(user, rooms))
  }

  /** The row a join inserts: joined now, video and audio enabled. */
  function Joined(room: Value, user: string, now: string): Row {
    Row(room, user, now, true, true)
  }

  /**
   * `.update({ video_enabled?, audio_enabled? }).eq('user_id', user).eq('room_id', room)`:
   * the selected rows take the given flags, every other column and row is kept.
   */
  function SetMedia(rows: seq<Row>, user: string, room: Value, video: Option<bool>, audio: Option<bool>): (r: seq<Row>)
    ensures |r| == |rows|
    ensures forall i :: 0 <= i < |rows| && !InRooms(rows[i], user, {room}) ==> r[i] == rows[i]
    ensures forall i :: 0 <= i < |rows| && InRooms(rows[i], user, {room}) ==>
              r[i].roomId == rows[i].roomId && r[i].userId == rows[i].userId && r[i].joinedAt == rows[i].joinedAt &&
              r[i].videoEnabled == video.GetOr(rows[i].videoEnabled) &&
              r[i].audioEnabled == audio.GetOr(rows[i].audioEnabled)
  {
    if rows == [] then []
    else
      var row := rows[0];
      var row' := if InRooms(row, user, {room})
                  then row.(videoEnabled := video.GetOr(row.videoEnabled), audioEnabled := audio.GetOr(row.audioEnabled))
                  else row;
      [row'] + SetMedia(rows[1..], user, room, video, audio)
  }

  /** Changing no flag changes no row. */
  lemma SetNothing(rows: seq<Row>, user: string, room: Value)
    ensures SetMedia(rows, user, room, None, None) == rows
  {
    var r := SetMedia(rows, user, room, None, None);
    assert forall i :: 0 <= i < |rows| ==> r[i] == rows[i];
  }

  /**
   * Leaving every room of a set and then joining one of them leaves the user
   * exactly one row among those rooms, the new one; the rows of other users
   * and of other rooms are kept, in their order.
   */
  lemma SwitchLeavesOneRow(rows: seq<Row>, user: string, rooms: set<Value>, room: Value, now: string)
    requires room in rooms
    ensures Filter(DeleteIn(rows, user, rooms) + [Joined(room, user, now)], Inside(user, rooms)) == [Joined(room, user, now)]
    ensures Filter(DeleteIn(rows, user, rooms) + [Joined(room, user, now)], Outside(user, rooms)) == DeleteIn(rows, user, rooms)
  {
    var kept := DeleteIn(rows, user, rooms);
    var joined := [Joined(room, user, now)];
    FilterDistributes(kept, joined, Inside(user, rooms));
    FilterDistributes(kept, joined, Outside(user, rooms));
    forall i | 0 <= i < |kept| ensures !Inside(user, rooms)(kept[i]) {
      assert kept[i] in kept;
    }
    FilterNonePass(kept, Inside(user, rooms));
    FilterIdempotent(rows, Outside(user, rooms));
    assert Filter(joined, Outside(user, rooms)) == [];
  }

  /** The outcome of a sequence of queries: the rows afterwards and the first failure, if any. */
  datatype Attempt<T> = Attempt(rows: seq<T>, failure: Option<string>)

  /**
   * Joining a room: the room lookup, the query for the ids of the rooms of its
   * workspace, the delete of the user's rows in those rooms (skipped when
   * there are none), the insert of the new row. The first failure stops the
   * sequence.
   */
  function JoinSteps(rows: seq<Row>, user: string, room: Value, now: string,
                     lookupFault: Option<string>, roomIds: Result<set<Value>, string>,
                     deleteFault: Option<string>, insertFault: Option<string>): (a: Attempt<Row>)
    ensures lookupFault.Some? || roomIds.Err? ==> a.rows == rows && a.failure.Some?
    ensures a.failure.None? ==> |a.rows| > 0 && a.rows[|a.rows| - 1] == Joined(room, user, now)
  {
    if lookupFault.Some? then Attempt(rows, lookupFault)
    else if roomIds.Err? then Attempt(rows, Some(roomIds.error))
    else
      var ids := roomIds.value;
      if ids != {} && deleteFault.Some? then Attempt(rows, deleteFault)
      else
        var kept := if ids != {} then DeleteIn(rows, user, ids) else rows;
        if insertFault.Some? then Attempt(kept, insertFault)
        else Attempt(kept + [Joined(room, user, now)], None)
  }

  /** The join succeeds iff no query fails. */
  lemma JoinSucceedsIff(rows: seq<Row>, user: string, room: Value, now: string,
                        lookupFault: Option<string>, roomIds: Result<set<Value>, string>,
                        deleteFault: Option<string>, insertFault: Option<string>)
    ensures JoinSteps(rows, user, room, now, lookupFault, roomIds, deleteFault, insertFault).failure.None? <==>
            lookupFault.None? && roomIds.Ok? && (roomIds.value != {} ==> deleteFault.None?) && insertFault.None?
  {
  }

  /**
   * A successful join into one of the listed rooms leaves the user exactly one
   * row among them, the new one with both media flags on, and keeps every row
   * of other users or other rooms.
   */
  lemma JoinLeavesOneRow(rows: seq<Row>, user: string, room: Value, now: string,
                         lookupFault: Option<string>, ids: set<Value>, deleteFault: Option<string>)
    requires room in ids
    ensures var a := JoinSteps(rows, user, room, now, lookupFault, Ok(ids), deleteFault, None);
            a.failure.None? ==>
              Filter(a.rows, Inside(user, ids)) == [Joined(room, user, now)] &&
              Filter(a.rows, Outside(user, ids)) == Filter(rows, Outside(user, ids))
  {
    SwitchLeavesOneRow(rows, user, ids, room, now);
  }

  /**
   * A join whose insert fails after the delete went through leaves the user
   * in none of the listed rooms.
   */
  lemma FailedInsertLeavesNoRow(rows: seq<Row>, user: string, room: Value, now: string, ids: set<Value>, message: string)
    ensures var a := JoinSteps(rows, user, room, now, None, Ok(ids), None, Some(message));
            a.failure == Some(message) && Filter(a.rows, Inside(user, ids)) == []
  {
    var a := JoinSteps(rows, user, room, now, None, Ok(ids), None, Some(message));
    forall i | 0 <= i < |a.rows| ensures !Inside(user, ids)(a.rows[i]) {
      if ids != {} {
        assert a.rows[i] in a.rows;
      }
    }
    FilterNonePass(a.rows, Inside(user, ids));
  }

  /** Leaving: one delete of the rows keyed by (user, room). */
  function LeaveSteps(rows: seq<Row>, user: string, room: Value, deleteFault: Option<string>): (a: Attempt<Row>)
    ensures a.failure == deleteFault
    ensures deleteFault.Some? ==> a.rows == rows
  {
    if deleteFault.Some? then Attempt(rows, deleteFault) else Attempt(DeleteIn(rows, user, {room}), None)
  }

  /** A successful leave removes the user's rows for that room and nothing else. */
  lemma LeaveRemovesOnlyThatRoom(rows: seq<Row>, user: string, room: Value)
    ensures forall r :: r in LeaveSteps(rows, user, room, None).rows <==> r in rows && !(r.userId == user && r.roomId == room)
    ensures Filter(LeaveSteps(rows, user, room, None).rows, Outside(user, {room})) == Filter(rows, Outside(user, {room}))
  {
    FilterIdempotent(rows, Outside(user, {room}));
  }

  /** A media update: one update of the rows keyed by (user, room). */
  function MediaSteps(rows: seq<Row>, user: string, room: Value, video: Option<bool>, audio: Option<bool>,
                      updateFault: Option<string>): (a: Attempt<Row>)
    ensures a.failure == updateFault
    ensures a.rows == if updateFault.Some? then rows else SetMedia(rows, user, room, video, audio)
  {
    if updateFault.Some? then Attempt(rows, updateFault) else Attempt(SetMedia(rows, user, room, video, audio), None)
  }

  /** Posting a chat message: one insert. */
  function SendSteps(chat: seq<ChatRow>, room: Value, user: string, content: string, now: string,
                     insertFault: Option<string>): (a: Attempt<ChatRow>)
    ensures a.failure == insertFault
    ensures a.rows == if insertFault.Some? then chat else chat + [ChatRow(room, user, content, now)]
  {
    if insertFault.Some? then Attempt(chat, insertFault) else Attempt(chat + [ChatRow(room, user, content, now)], None)
  }

  /** The backend: the rows of both tables, which the actions replace. */
  class Tables {
    var participants: seq<Row>
    var chat: seq<ChatRow>

    constructor(participants: seq<Row>, chat: seq<ChatRow>)
      ensures this.participants == participants && this.chat == chat
    {
      this.participants := participants;
      this.chat := chat;
    }
  }
}
