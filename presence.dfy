/**
 * The presence hook: a map from user id to `{ id, status, lastSeen }`,
 * rebuilt wholesale on a presence sync, updated one key at a time on join
 * and leave events and on changes of the `room_participants` table.
 * Timestamps are ISO strings supplied by the caller as `now`.
 */
module Presence {

  import opened Wrappers
  import opened Js

  /** One tracked user. The fields hold whatever the presence payload carried. */
  datatype PresenceUser = PresenceUser(id: Value, status: Value, lastSeen: Value)

  /** A presence payload entry (`{ presence_ref, id?, status?, lastSeen? }`). */
  type Entry = map<string, Value>

  /** The presence state as `Object.keys(newState)` walks it: each key with its list of entries. */
  type Snapshot = seq<(string, seq<Entry>)>

  type Users = map<Value, PresenceUser>

  /** Every user is stored under its own id. */
  predicate KeyedById(m: Users) {
    forall k :: k in m ==> m[k].id == k
  }

  /** The record built from a payload entry: status defaults to 'online' and lastSeen to now. */
  function FromEntry(e: Entry, now: string): (u: PresenceUser)
    requires "id" in e
    ensures u.id == e["id"]
    ensures u.status == (if Truthy(Get(e, "status")) then e["status"] else Str("online"))
    ensures u.lastSeen == (if Truthy(Get(e, "lastSeen")) then e["lastSeen"] else Str(now))
  {
    PresenceUser(e["id"], Or(Get(e, "status"), Str("online")), Or(Get(e, "lastSeen"), Str(now)))
  }

  /** The first entry of a presence list, when the list is non-empty and that entry carries an id. */
  function FirstWithId(list: seq<Entry>): (r: Option<Entry>)
    ensures r.Some? <==> |list| > 0 && "id" in list[0]
    ensures r.Some? ==> r.value == list[0]
  {
    if |list| > 0 && "id" in list[0] then Some(list[0]) else None
  }

  // ---------------------------------------------------------------- sync

  /** The map a sync builds from the keys of the snapshot taken so far; a later key overwrites. */
  function SyncMap(snapshot: Snapshot, now: string): (m: Users)
    ensures KeyedById(m)
    ensures forall k :: k in m <==>
              exists i :: 0 <= i < |snapshot| && FirstWithId(snapshot[i].1).Some? &&
                          FirstWithId(snapshot[i].1).value["id"] == k
    ensures forall k :: k in m ==>
              exists i :: 0 <= i < |snapshot| && FirstWithId(snapshot[i].1).Some? &&
                          m[k] == FromEntry(FirstWithId(snapshot[i].1).value, now)
    decreases |snapshot|
  {
    if snapshot == [] then map[]
    else
      var init := snapshot[..|snapshot| - 1];
      var m := SyncMap(init, now);
      assert forall i :: 0 <= i < |init| ==> init[i] == snapshot[i];
      match FirstWithId(snapshot[|snapshot| - 1].1)
      case Some(e) => m[e["id"] := FromEntry(e, now)]
      case None => m
  }

  /** Whether no entry after index `i` carries the id of entry `i`. */
  predicate LastWithItsId(snapshot: Snapshot, i: nat)
    requires i < |snapshot| && FirstWithId(snapshot[i].1).Some?
  {
    forall j :: i < j < |snapshot| && FirstWithId(snapshot[j].1).Some? ==>
      FirstWithId(snapshot[j].1).value["id"] != FirstWithId(snapshot[i].1).value["id"]
  }

  /** One step of the sync: the map of the snapshot is the map of its prefix with the last key applied. */
  lemma SyncMapStep(snapshot: Snapshot, now: string)
    requires |snapshot| > 0
    ensures var last := FirstWithId(snapshot[|snapshot| - 1].1);
            var m := SyncMap(snapshot[..|snapshot| - 1], now);
            SyncMap(snapshot, now) == if last.Some? then m[last.value["id"] := FromEntry(last.value, now)] else m
  {
  }

  /** An entry that is last with its id in a snapshot is so in the snapshot without its last key. */
  lemma LastWithItsIdInPrefix(snapshot: Snapshot, i: nat)
    requires i < |snapshot| - 1 && FirstWithId(snapshot[i].1).Some? && LastWithItsId(snapshot, i)
    ensures var init := snapshot[..|snapshot| - 1];
            FirstWithId(init[i].1).Some? && LastWithItsId(init, i)
  {
    var init := snapshot[..|snapshot| - 1];
    assert init[i] == snapshot[i];
    forall j | i < j < |init| && FirstWithId(init[j].1).Some?
      ensures FirstWithId(init[j].1).value["id"] != FirstWithId(init[i].1).value["id"]
    {
      assert init[j] == snapshot[j];
    }
  }

  /**
   * A later key overwrites: the user stored under an id is built from the
   * last entry of the snapshot that carries that id.
   */
  lemma {:induction false} SyncMapLastWins(snapshot: Snapshot, now: string, i: nat)
    requires i < |snapshot| && FirstWithId(snapshot[i].1).Some? && LastWithItsId(snapshot, i)
    ensures var e := FirstWithId(snapshot[i].1).value;
            e["id"] in SyncMap(snapshot, now) && SyncMap(snapshot, now)[e["id"]] == FromEntry(e, now)
    decreases |snapshot|
  {
    var e := FirstWithId(snapshot[i].1).value;
    var last := |snapshot| - 1;
    var lastFirst := FirstWithId(snapshot[last].1);
    var init := snapshot[..last];
    var m := SyncMap(init, now);
    SyncMapStep(snapshot, now);
    if i < last {
      LastWithItsIdInPrefix(snapshot, i);
      assert init[i] == snapshot[i];
      SyncMapLastWins(init, now, i);
      if lastFirst.Some? {
        assert lastFirst.value["id"] != e["id"];
        UpdateKeepsOther(m, lastFirst.value["id"], FromEntry(lastFirst.value, now), e["id"]);
      }
    } else {
      assert lastFirst == Some(e);
    }
  }

  /** Overwriting one key leaves every other key's user as it was. */
  lemma UpdateKeepsOther(m: Users, k: Value, u: PresenceUser, other: Value)
    requires k != other && other in m
    ensures other in m[k := u] && m[k := u][other] == m[other]
  {
  }

  // ---------------------------------------------------------- join/leave

  /** Join: only `newPresences[0]` is looked at; an entry with an id is inserted or overwritten. */
  function JoinMap(m: Users, newPresences: seq<Entry>, now: string): (r: Users)
    ensures FirstWithId(newPresences).None? ==> r == m
    ensures FirstWithId(newPresences).Some? ==>
              var e := newPresences[0];
              r.Keys == m.Keys + {e["id"]} && r[e["id"]] == FromEntry(e, now) &&
              forall k :: k in m && k != e["id"] ==> r[k] == m[k]
  {
    match FirstWithId(newPresences)
    case None => m
    case Some(e) => m[e["id"] := FromEntry(e, now)]
  }

  /** The record of a user who left: offline, last seen now, everything else kept. */
  function MarkedOffline(u: PresenceUser, now: string): PresenceUser {
    u.(status := Str("offline"), lastSeen := Str(now))
  }

  /** Marks a known id offline; an unknown id changes nothing. */
  function Offline(m: Users, id: Value, now: string): (r: Users)
    ensures r.Keys == m.Keys
    ensures forall k :: k in m ==> r[k] == if k == id then MarkedOffline(m[k], now) else m[k]
  {
    if id in m then m[id := MarkedOffline(m[id], now)] else m
  }

  /** Leave: never deletes or adds; only the id of `leftPresences[0]`, if any, is marked offline. */
  function LeaveMap(m: Users, leftPresences: seq<Entry>, now: string): (r: Users)
    ensures r.Keys == m.Keys
    ensures FirstWithId(leftPresences).None? ==> r == m
    ensures FirstWithId(leftPresences).Some? ==> r == Offline(m, leftPresences[0]["id"], now)
  {
    match FirstWithId(leftPresences)
    case None => m
    case Some(e) => Offline(m, e["id"], now)
  }

  // ------------------------------------------------------- table changes

  /**
   * A change of `room_participants`: INSERT and UPDATE set `user_id` to an
   * online record last seen at `joined_at`; DELETE marks `old.user_id`
   * offline if present. A record that is null or undefined makes the
   * destructuring throw before any update.
   */
  function ChangeMap(m: Users, c: Change, now: string): (r: Users)
    ensures c.eventType in {"INSERT", "UPDATE"} && Destructurable(c.newRecord) ==>
              var id := Prop(c.newRecord, "user_id");
              r.Keys == m.Keys + {id} &&
              r[id] == PresenceUser(id, Str("online"), Prop(c.newRecord, "joined_at")) &&
              forall k :: k in m && k != id ==> r[k] == m[k]
    ensures c.eventType == "DELETE" && Destructurable(c.oldRecord) ==>
              r == Offline(m, Prop(c.oldRecord, "user_id"), now)
    ensures c.eventType !in {"INSERT", "UPDATE", "DELETE"} ==> r == m
  {
    if c.eventType == "INSERT" || c.eventType == "UPDATE" then
      if !Destructurable(c.newRecord) then m
      else
        var id := Prop(c.newRecord, "user_id");
        m[id := PresenceUser(id, Str("online"), Prop(c.newRecord, "joined_at"))]
    else if c.eventType == "DELETE" then
      if !Destructurable(c.oldRecord) then m else Offline(m, Prop(c.oldRecord, "user_id"), now)
    else m
  }

  /** Every handler other than sync keeps users stored under their own ids. */
  lemma HandlersKeepKeyedById(m: Users, entries: seq<Entry>, c: Change, id: Value, now: string)
    requires KeyedById(m)
    ensures KeyedById(JoinMap(m, entries, now))
    ensures KeyedById(LeaveMap(m, entries, now))
    ensures KeyedById(Offline(m, id, now))
    ensures KeyedById(ChangeMap(m, c, now))
  {
  }

  /** A leave or a row deletion: the two events that only ever mark users offline. */
  datatype Departure = Left(entries: seq<Entry>) | Deleted(c: Change)

  function Depart(m: Users, d: Departure, now: string): (r: Users)
    requires d.Deleted? ==> d.c.eventType == "DELETE"
    ensures r.Keys == m.Keys
    ensures forall k :: k in m && r[k] != m[k] ==> r[k] == MarkedOffline(m[k], now)
  {
    match d
    case Left(entries) => LeaveMap(m, entries, now)
    case Deleted(c) => ChangeMap(m, c, now)
  }

  function DepartAll(m: Users, ds: seq<Departure>, now: string): (r: Users)
    requires forall i :: 0 <= i < |ds| ==> (ds[i].Deleted? ==> ds[i].c.eventType == "DELETE")
    ensures r.Keys == m.Keys
    decreases |ds|
  {
    if ds == [] then m else DepartAll(Depart(m, ds[0], now), ds[1..], now)
  }

  /**
   * However many users leave, no entry is ever removed or added, and every
   * user whose status changed is now offline.
   */
  lemma {:induction false} DeparturesNeverDelete(m: Users, ds: seq<Departure>, now: string)
    requires forall i :: 0 <= i < |ds| ==> (ds[i].Deleted? ==> ds[i].c.eventType == "DELETE")
    ensures DepartAll(m, ds, now).Keys == m.Keys
    ensures forall k :: k in m && DepartAll(m, ds, now)[k].status != m[k].status ==>
              DepartAll(m, ds, now)[k].status == Str("offline")
    decreases |ds|
  {
    if ds != [] {
      var m1 := Depart(m, ds[0], now);
      assert m1.Keys == m.Keys;
      assert forall k :: k in m && m1[k].status != m[k].status ==> m1[k].status == Str("offline");
      DeparturesNeverDelete(m1, ds[1..], now);
    }
  }

  /** The state of the hook: the map it exposes, and what `updateStatus` needs. */
  class PresenceHook {
    var users: Users
    /** Whether the hook's `channel` state holds a channel. */
    var hasChannel: bool
    /** The signed-in user's id, if any. */
    var user: Option<Value>

    constructor(user: Option<Value>)
      ensures users == map[] && !hasChannel && this.user == user
    {
      users := map[];
      hasChannel := false;
      this.user := user;
    }

    /** `setChannel(newChannel)` once the effect has created the channel. */
    method ChannelReady()
      modifies this
      ensures hasChannel && users == old(users) && user == old(user)
    {
      hasChannel := true;
    }

    /**
     * `updateStatus(status)`: the presence payload it tracks, or nothing when
     * there is no channel or no user.
     */
    method UpdateStatus(status: string, now: string) returns (tracked: Option<Entry>)
      ensures !hasChannel || user.None? ==> tracked.None?
      ensures hasChannel && user.Some? ==>
                tracked == Some(map["id" := user.value, "status" := Str(status), "lastSeen" := Str(now)])
    {
      if !hasChannel || user.None? {
        return None;
      }
      tracked := Some(map["id" := user.value, "status" := Str(status), "lastSeen" := Str(now)]);
    }

    /** The sync handler: replaces the map by one built from the snapshot, key by key. */
    method Sync(snapshot: Snapshot, now: string)
      modifies this
      ensures users == SyncMap(snapshot, now)
      ensures hasChannel == old(hasChannel) && user == old(user)
    {
      var updated: Users := map[];
      for i := 0 to |snapshot|
        invariant updated == SyncMap(snapshot[..i], now)
      {
        assert snapshot[..i + 1][..i] == snapshot[..i];
        var (key, presenceList) := snapshot[i];
        if |presenceList| > 0 {
          var customData := presenceList[0];
          if "id" in customData {
            updated := updated[customData["id"] := FromEntry(customData, now)];
          }
        }
      }
      assert snapshot[..|snapshot|] == snapshot;
      users := updated;
    }

    method Join(newPresences: seq<Entry>, now: string)
      modifies this
      ensures users == JoinMap(old(users), newPresences, now)
      ensures hasChannel == old(hasChannel) && user == old(user)
    {
      if |newPresences| > 0 {
        var presence := newPresences[0];
        if "id" in presence {
          users := users[presence["id"] := FromEntry(presence, now)];
        }
      }
    }

    method Leave(leftPresences: seq<Entry>, now: string)
      modifies this
      ensures users == LeaveMap(old(users), leftPresences, now)
      ensures hasChannel == old(hasChannel) && user == old(user)
    {
      if |leftPresences| > 0 {
        var leftPresence := leftPresences[0];
        if "id" in leftPresence {
          var leftUserId := leftPresence["id"];
          if leftUserId in users {
            users := users[leftUserId := MarkedOffline(users[leftUserId], now)];
          }
        }
      }
    }

    /** `handlePresenceChange`. */
    method HandlePresenceChange(c: Change, now: string)
      modifies this
      ensures users == ChangeMap(old(users), c, now)
      ensures hasChannel == old(hasChannel) && user == old(user)
    {
      if c.eventType == "INSERT" || c.eventType == "UPDATE" {
        if Destructurable(c.newRecord) {
          var userId := Prop(c.newRecord, "user_id");
          users := users[userId := PresenceUser(userId, Str("online"), Prop(c.newRecord, "joined_at"))];
        }
      } else if c.eventType == "DELETE" {
        if Destructurable(c.oldRecord) {
          var userId := Prop(c.oldRecord, "user_id");
          if userId in users {
            users := users[userId := MarkedOffline(users[userId], now)];
          }
        }
      }
    }
  }
}
