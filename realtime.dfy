/**
 * The generic subscription hook: it dispatches each Postgres change to the
 * handlers it was given, registers one listener per event kind on the
 * supervised channel, and remembers whether it is listening.
 */
module Realtime {

  import opened Wrappers
  import opened Js
  import RS = RealtimeStatus

  /** Which of the optional handlers were supplied. */
  datatype Handlers = Handlers(onInsert: bool, onUpdate: bool, onDelete: bool, onAll: bool)

  /** One handler invocation. */
  datatype Call =
    | AllCall(payload: Change)
    | InsertCall(record: Value)
    | UpdateCall(newRecord: Value, oldRecord: Value)
    | DeleteCall(oldRecord: Value)

  datatype Kind = INSERT | UPDATE | DELETE

  /** The event type a type-specific call answers. */
  function KindOf(c: Call): Option<string> {
    match c
    case AllCall(_) => None
    case InsertCall(_) => Some("INSERT")
    case UpdateCall(_, _) => Some("UPDATE")
    case DeleteCall(_) => Some("DELETE")
  }

  /** `handlePostgresChanges`: the handler calls one payload causes, in order. */
  function Dispatch(h: Handlers, c: Change): (calls: seq<Call>)
    ensures h.onAll ==> |calls| >= 1 && calls[0] == AllCall(c)
    ensures !h.onAll ==> forall i :: 0 <= i < |calls| ==> !calls[i].AllCall?
  {
    var all := if h.onAll then [AllCall(c)] else [];
    var specific :=
      if c.eventType == "INSERT" && h.onInsert && Truthy(c.newRecord) then [InsertCall(c.newRecord)]
      else if c.eventType == "UPDATE" && h.onUpdate && Truthy(c.newRecord) && Truthy(c.oldRecord)
      then [UpdateCall(c.newRecord, c.oldRecord)]
      else if c.eventType == "DELETE" && h.onDelete && Truthy(c.oldRecord) then [DeleteCall(c.oldRecord)]
      else [];
    all + specific
  }

  /**
   * At most one type-specific handler runs, it answers the payload's own
   * event type, it runs after `onAll`, and it receives the records it needs.
   */
  lemma DispatchSelectsOne(h: Handlers, c: Change)
    ensures var calls := Dispatch(h, c);
            |calls| <= (if h.onAll then 2 else 1) &&
            (forall i :: 0 <= i < |calls| && !calls[i].AllCall? ==>
               (h.onAll ==> i == 1) && KindOf(calls[i]) == Some(c.eventType)) &&
            (forall i :: 0 <= i < |calls| ==>
               (calls[i].InsertCall? ==> h.onInsert && calls[i].record == c.newRecord && Truthy(c.newRecord)) &&
               (calls[i].UpdateCall? ==> h.onUpdate && Truthy(c.newRecord) && Truthy(c.oldRecord) &&
                                         calls[i].newRecord == c.newRecord && calls[i].oldRecord == c.oldRecord) &&
               (calls[i].DeleteCall? ==> h.onDelete && calls[i].oldRecord == c.oldRecord && Truthy(c.oldRecord)))
  {
  }

  /** The type-specific handler runs exactly when it exists and its records are present. */
  lemma DispatchRunsHandlerIff(h: Handlers, c: Change)
    ensures (exists i :: 0 <= i < |Dispatch(h, c)| && Dispatch(h, c)[i].UpdateCall?) <==>
            c.eventType == "UPDATE" && h.onUpdate && Truthy(c.newRecord) && Truthy(c.oldRecord)
    ensures (exists i :: 0 <= i < |Dispatch(h, c)| && Dispatch(h, c)[i].InsertCall?) <==>
            c.eventType == "INSERT" && h.onInsert && Truthy(c.newRecord)
    ensures (exists i :: 0 <= i < |Dispatch(h, c)| && Dispatch(h, c)[i].DeleteCall?) <==>
            c.eventType == "DELETE" && h.onDelete && Truthy(c.oldRecord)
  {
    var calls := Dispatch(h, c);
    var k := if h.onAll then 1 else 0;
    if c.eventType == "UPDATE" && h.onUpdate && Truthy(c.newRecord) && Truthy(c.oldRecord) {
      assert calls[k].UpdateCall?;
    }
    if c.eventType == "INSERT" && h.onInsert && Truthy(c.newRecord) {
      assert calls[k].InsertCall?;
    }
    if c.eventType == "DELETE" && h.onDelete && Truthy(c.oldRecord) {
      assert calls[k].DeleteCall?;
    }
  }

  /** The kinds `startListening` registers, in order: each one whose handler or `onAll` is given. */
  function KindsToRegister(h: Handlers): (ks: seq<Kind>)
    ensures INSERT in ks <==> h.onInsert || h.onAll
    ensures UPDATE in ks <==> h.onUpdate || h.onAll
    ensures DELETE in ks <==> h.onDelete || h.onAll
    ensures forall i, j :: 0 <= i < j < |ks| ==> ks[i] != ks[j]
  {
    var afterInsert := if h.onInsert || h.onAll then [INSERT] else [];
    var afterUpdate := if h.onUpdate || h.onAll then afterInsert + [UPDATE] else afterInsert;
    if h.onDelete || h.onAll then afterUpdate + [DELETE] else afterUpdate
  }

  /** A listener registration: channel number, schema, table, filter and event kind. */
  datatype Registration = Registration(channel: nat, schema: string, table: string, filter: Option<string>, kind: Kind)

  /** The subscription options other than the handlers. */
  datatype Target = Target(table: string, schema: Option<string>, filter: Option<string>)

  function Registrations(channel: nat, t: Target, ks: seq<Kind>): (rs: seq<Registration>)
    ensures |rs| == |ks|
    ensures forall i :: 0 <= i < |rs| ==>
              rs[i] == Registration(channel, t.schema.GetOr("public"), t.table, t.filter, ks[i])
  {
    if ks == [] then []
    else [Registration(channel, t.schema.GetOr("public"), t.table, t.filter, ks[0])] + Registrations(channel, t, ks[1..])
  }

  /** The hook's state together with the supervisor's. */
  datatype ListenState = ListenState(isListening: bool, registrations: seq<Registration>, conn: RS.ConnState)

  /** `startListening`: nothing without a channel or when already listening. */
  function Start(ls: ListenState, h: Handlers, t: Target): (r: ListenState)
    ensures ls.conn.channel.None? || ls.isListening ==> r == ls
    ensures ls.conn.channel.Some? ==> r.isListening
    ensures ls.conn.channel.Some? && !ls.isListening ==>
              r.registrations == ls.registrations + Registrations(ls.conn.channel.value, t, KindsToRegister(h))
    ensures r.conn == ls.conn
  {
    if ls.conn.channel.None? || ls.isListening then ls
    else ls.(registrations := ls.registrations + Registrations(ls.conn.channel.value, t, KindsToRegister(h)),
             isListening := true)
  }

  /** `stopListening`: nothing without a channel or when not listening; otherwise the channel is reset. */
  function Stop(ls: ListenState, failure: Option<string>, maxRetries: int): (r: ListenState)
    ensures ls.conn.channel.None? || !ls.isListening ==> r == ls
    ensures ls.conn.channel.Some? && ls.isListening ==>
              r == ls.(conn := RS.Reset(ls.conn, failure, maxRetries), isListening := false)
    ensures !r.isListening || r == ls
  {
    if ls.conn.channel.None? || !ls.isListening then ls
    else ls.(conn := RS.Reset(ls.conn, failure, maxRetries), isListening := false)
  }

  /** Starting twice is starting once. */
  lemma StartIdempotent(ls: ListenState, h: Handlers, t: Target)
    ensures Start(Start(ls, h, t), h, t) == Start(ls, h, t)
  {
  }

  /** Stopping twice is stopping once. */
  lemma StopIdempotent(ls: ListenState, f1: Option<string>, f2: Option<string>, maxRetries: int)
    ensures Stop(Stop(ls, f1, maxRetries), f2, maxRetries) == Stop(ls, f1, maxRetries)
  {
  }

  /**
   * A start on the current channel registers there exactly the kinds whose
   * handler or `onAll` is given.
   */
  lemma StartRegistersKinds(ls: ListenState, h: Handlers, t: Target, k: Kind)
    requires ls.conn.channel.Some? && !ls.isListening
    ensures var r := Start(ls, h, t);
            (exists i :: |ls.registrations| <= i < |r.registrations| && r.registrations[i].kind == k) <==>
            k in KindsToRegister(h)
  {
    var n := |ls.registrations|;
    var ks := KindsToRegister(h);
    var added := Registrations(ls.conn.channel.value, t, ks);
    var all := Start(ls, h, t).registrations;
    assert all == ls.registrations + added;
    if k in ks {
      var j :| 0 <= j < |ks| && ks[j] == k;
      assert all[n + j] == added[j];
    }
    if exists i :: n <= i < |all| && all[i].kind == k {
      var i :| n <= i < |all| && all[i].kind == k;
      assert all[i] == added[i - n];
      assert ks[i - n] == k;
    }
  }

  /** Every listener a start adds is on the current channel, under 'public' unless another schema is named. */
  lemma StartUsesCurrentChannel(ls: ListenState, h: Handlers, t: Target)
    requires ls.conn.channel.Some? && !ls.isListening
    ensures forall i :: |ls.registrations| <= i < |Start(ls, h, t).registrations| ==>
              Start(ls, h, t).registrations[i].channel == ls.conn.channel.value &&
              Start(ls, h, t).registrations[i].schema == t.schema.GetOr("public") &&
              Start(ls, h, t).registrations[i].table == t.table
  {
    var n := |ls.registrations|;
    var added := Registrations(ls.conn.channel.value, t, KindsToRegister(h));
    var all := Start(ls, h, t).registrations;
    assert all == ls.registrations + added;
    forall i | n <= i < |all| ensures all[i] == added[i - n] { }
  }

  /**
   * The hook's `onReconnect`, as written: `if (isListening) startListening()`.
   * `startListening` returns at once when `isListening` holds, so the
   * callback never changes anything.
   */
  function OnReconnectAsWritten(ls: ListenState, h: Handlers, t: Target): ListenState {
    if ls.isListening then Start(ls, h, t) else ls
  }

  lemma OnReconnectAsWrittenNeverRegisters(ls: ListenState, h: Handlers, t: Target)
    ensures OnReconnectAsWritten(ls, h, t) == ls
  {
  }

  /**
   * The callback by itself registers nothing: right after a reconnection,
   * once `onReconnect` has run, the new channel has none of the hook's
   * listeners although the hook still reports listening. What the effect
   * of lines 128-139 does on a later render is not part of this step.
   */
  lemma ReconnectLosesListeners(ls: ListenState, h: Handlers, t: Target, maxRetries: int)
    requires ls.isListening && ls.conn.timer == RS.Pending
    requires forall i :: 0 <= i < |ls.registrations| ==> ls.registrations[i].channel < ls.conn.nextChannel
    ensures var conn' := RS.FireTimer(ls.conn, None, maxRetries, true).0;
            var r := OnReconnectAsWritten(ls.(conn := conn'), h, t);
            r.isListening && conn'.channel.Some? &&
            forall i :: 0 <= i < |r.registrations| ==> r.registrations[i].channel != conn'.channel.value
  {
  }

  /**
   * The evidently intended `onReconnect`: register the listeners again on
   * the channel the reconnection opened.
   */
  function OnReconnect(ls: ListenState, h: Handlers, t: Target): (r: ListenState)
    ensures r.isListening == ls.isListening && r.conn == ls.conn
  {
    if ls.isListening && ls.conn.channel.Some? then Start(ls.(isListening := false), h, t) else ls
  }

  /** With the intended callback, a listening hook has every wanted kind registered on the new channel. */
  lemma OnReconnectRestoresListeners(ls: ListenState, h: Handlers, t: Target, maxRetries: int, k: Kind)
    requires ls.isListening && ls.conn.timer == RS.Pending
    requires k in KindsToRegister(h)
    ensures var conn' := RS.FireTimer(ls.conn, None, maxRetries, true).0;
            var r := OnReconnect(ls.(conn := conn'), h, t);
            r.isListening && conn'.channel.Some? &&
            exists i :: 0 <= i < |r.registrations| && r.registrations[i].channel == conn'.channel.value &&
                        r.registrations[i].kind == k
  {
    var conn' := RS.FireTimer(ls.conn, None, maxRetries, true).0;
    var ls1 := ls.(conn := conn');
    StartRegistersKinds(ls1.(isListening := false), h, t, k);
  }

  /** The hook: its `isListening` state, the listeners it has put on channels, and its supervisor. */
  class RealtimeHook {
    var isListening: bool
    var registrations: seq<Registration>
    const supervisor: RS.RealtimeStatusHook
    const handlers: Handlers
    const target: Target

    function State(): ListenState
      reads this, supervisor
    {
      ListenState(isListening, registrations, supervisor.State())
    }

    constructor(supervisor: RS.RealtimeStatusHook, handlers: Handlers, target: Target)
      ensures !isListening && registrations == []
      ensures this.supervisor == supervisor && this.handlers == handlers && this.target == target
    {
      isListening := false;
      registrations := [];
      this.supervisor := supervisor;
      this.handlers := handlers;
      this.target := target;
    }

    method StartListening()
      modifies this
      ensures State() == Start(old(State()), handlers, target)
    {
      if supervisor.channel.None? || isListening {
        return;
      }
      var schema := target.schema.GetOr("public");
      var channel := supervisor.channel.value;
      // The listeners `.on(...)` chains onto the channel, one per wanted kind.
      var added: seq<Registration> := [];
      ghost var ks: seq<Kind> := [];
      if handlers.onInsert || handlers.onAll {
        RegistrationsSnoc(channel, target, ks, INSERT);
        added, ks := added + [Registration(channel, schema, target.table, target.filter, INSERT)], [INSERT];
      }
      if handlers.onUpdate || handlers.onAll {
        RegistrationsSnoc(channel, target, ks, UPDATE);
        added, ks := added + [Registration(channel, schema, target.table, target.filter, UPDATE)], ks + [UPDATE];
      }
      if handlers.onDelete || handlers.onAll {
        RegistrationsSnoc(channel, target, ks, DELETE);
        added, ks := added + [Registration(channel, schema, target.table, target.filter, DELETE)], ks + [DELETE];
      }
      assert ks == KindsToRegister(handlers);
      registrations := registrations + added;
      isListening := true;
    }

    /** The `onReconnect` callback the hook hands to its supervisor, as written. */
    method Reconnected()
      modifies this
      ensures State() == OnReconnectAsWritten(old(State()), handlers, target)
    {
      if isListening {
        StartListening();
      }
    }

    method StopListening(failure: Option<string>)
      modifies this, supervisor
      ensures State() == Stop(old(State()), failure, supervisor.maxRetries)
    {
      if supervisor.channel.None? || !isListening {
        return;
      }
      supervisor.ResetStep(failure);
      isListening := false;
    }
  }

  /** Registering one more kind appends one listener. */
  lemma RegistrationsSnoc(channel: nat, t: Target, ks: seq<Kind>, k: Kind)
    ensures Registrations(channel, t, ks + [k]) ==
            Registrations(channel, t, ks) + [Registration(channel, t.schema.GetOr("public"), t.table, t.filter, k)]
  {
    var l := Registrations(channel, t, ks + [k]);
    var r := Registrations(channel, t, ks) + [Registration(channel, t.schema.GetOr("public"), t.table, t.filter, k)];
    assert |l| == |r|;
    forall i | 0 <= i < |l| ensures l[i] == r[i] {
      if i < |ks| { assert (ks + [k])[i] == ks[i]; }
    }
  }
}
