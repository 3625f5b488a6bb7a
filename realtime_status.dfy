/**
 * The connection supervisor of a realtime channel: a status, an error
 * message, the current channel, a retry counter and a reconnection timer.
 * Channel events and subscription statuses drive it; a failure schedules a
 * reconnection until the retry budget `maxRetries` is used up.
 *
 * Channels are numbered: `connect` opens the channel numbered `nextChannel`.
 * The timer is a flag: none, pending, or fired (after firing, the stored
 * timeout handle is still set, as `setTimeout` handles are never cleared on
 * firing).
 */
module RealtimeStatus {

  import opened Wrappers
  import opened Strings

  datatype Status = CONNECTING | CONNECTED | DISCONNECTED | RECONNECTING

  datatype Timer = NoTimer | Pending | Fired

  datatype ConnState = ConnState(
    status: Status,
    error: Option<string>,
    channel: Option<nat>,
    nextChannel: nat,
    retryCount: int,
    timer: Timer)

  /** The system events a channel may emit. */
  datatype SystemEvent = ConnectedEvent | DisconnectedEvent | ErrorEvent(detailMessage: Option<string>)

  /** The state before the mount effect runs: CONNECTING, no error, no channel, no retry. */
  function Initial(): (s: ConnState)
    ensures s.status == CONNECTING && s.retryCount == 0 && s.error.None?
    ensures s.channel.None? && s.timer == NoTimer
  {
    ConnState(CONNECTING, None, None, 0, 0, NoTimer)
  }

  /** `connected` as the hook returns it. */
  predicate IsConnected(s: ConnState): (b: bool)
    ensures b ==> s.status != CONNECTING && s.status != RECONNECTING
  {
    s.status == CONNECTED
  }

  /** `connecting` as the hook returns it. */
  predicate IsConnecting(s: ConnState): (b: bool)
    ensures b ==> s.status != CONNECTED && s.status != DISCONNECTED
  {
    s.status == CONNECTING || s.status == RECONNECTING
  }

  function MaxRetriesMessage(maxRetries: int): string {
    "Nombre maximum de tentatives de reconnexion atteint (" + IntToString(maxRetries) + ")"
  }

  function InitFailureMessage(msg: string): string {
    "Erreur lors de l'initialisation du canal: " + msg
  }

  function SystemErrorMessage(detail: Option<string>): string {
    "Erreur Realtime: " + (if detail.Some? && detail.value != "" then detail.value else "Erreur inconnue")
  }

  const CHANNEL_ERROR_MESSAGE := "Erreur de canal: CHANNEL_ERROR"
  const TIMED_OUT_MESSAGE := "Connexion expirée"

  /**
   * `initiateReconnect`: with the budget used up only the error is set;
   * otherwise the counter grows by one, the status becomes RECONNECTING and
   * exactly one timer is pending (any previous one is cleared).
   */
  function InitiateReconnect(s: ConnState, maxRetries: int): (r: ConnState)
    ensures s.retryCount >= maxRetries ==> r == s.(error := Some(MaxRetriesMessage(maxRetries)))
    ensures s.retryCount < maxRetries ==>
              r == s.(retryCount := s.retryCount + 1, status := RECONNECTING, timer := Pending)
  {
    if s.retryCount >= maxRetries then s.(error := Some(MaxRetriesMessage(maxRetries)))
    else s.(retryCount := s.retryCount + 1, status := RECONNECTING, timer := Pending)
  }

  /** A failure seen by the channel: status DISCONNECTED and the given error, then a reconnection attempt. */
  function Fail(s: ConnState, error: Option<string>, maxRetries: int): ConnState {
    InitiateReconnect(s.(status := DISCONNECTED, error := error), maxRetries)
  }

  /**
   * `connect`: on success a fresh channel replaces the old one, with status
   * CONNECTING and no error; if creating the channel throws, the error is
   * recorded, the status is DISCONNECTED and a reconnection is attempted.
   */
  function Connect(s: ConnState, failure: Option<string>, maxRetries: int): (r: ConnState)
    ensures failure.None? ==>
              r == s.(status := CONNECTING, error := None, channel := Some(s.nextChannel),
                      nextChannel := s.nextChannel + 1)
    ensures failure.Some? ==> r.channel == s.channel && r.nextChannel == s.nextChannel
    ensures failure.Some? ==>
              r == InitiateReconnect(s.(status := DISCONNECTED, error := Some(InitFailureMessage(failure.value))), maxRetries)
  {
    match failure
    case None =>
      s.(status := CONNECTING, error := None, channel := Some(s.nextChannel), nextChannel := s.nextChannel + 1)
    case Some(msg) => Fail(s, Some(InitFailureMessage(msg)), maxRetries)
  }

  /** The system-event handlers installed by `connect`. */
  function OnSystem(s: ConnState, e: SystemEvent, maxRetries: int): (r: ConnState)
    ensures e.ConnectedEvent? ==> r == s.(status := CONNECTED, retryCount := 0, timer := NoTimer)
  {
    match e
    case ConnectedEvent => s.(status := CONNECTED, retryCount := 0, timer := NoTimer)
    case DisconnectedEvent => InitiateReconnect(s.(status := DISCONNECTED), maxRetries)
    case ErrorEvent(detail) => Fail(s, Some(SystemErrorMessage(detail)), maxRetries)
  }

  /** The subscription callback: SUBSCRIBED, CHANNEL_ERROR and TIMED_OUT are handled, other statuses ignored. */
  function OnSubscribe(s: ConnState, status: string, maxRetries: int): (r: ConnState)
    ensures status == "SUBSCRIBED" ==> r == s.(status := CONNECTED, retryCount := 0)
    ensures status !in {"SUBSCRIBED", "CHANNEL_ERROR", "TIMED_OUT"} ==> r == s
  {
    if status == "SUBSCRIBED" then s.(status := CONNECTED, retryCount := 0)
    else if status == "CHANNEL_ERROR" then Fail(s, Some(CHANNEL_ERROR_MESSAGE), maxRetries)
    else if status == "TIMED_OUT" then Fail(s, Some(TIMED_OUT_MESSAGE), maxRetries)
    else s
  }

  /** Whether an event or subscription status is one the hook treats as a failure. */
  datatype Failure = Dropped | Errored(detail: Option<string>) | ChannelError | TimedOut

  function OnFailure(s: ConnState, f: Failure, maxRetries: int): ConnState {
    match f
    case Dropped => OnSystem(s, DisconnectedEvent, maxRetries)
    case Errored(d) => OnSystem(s, ErrorEvent(d), maxRetries)
    case ChannelError => OnSubscribe(s, "CHANNEL_ERROR", maxRetries)
    case TimedOut => OnSubscribe(s, "TIMED_OUT", maxRetries)
  }

  /** The error each failure records: a dropped connection keeps the previous one. */
  function FailureError(s: ConnState, f: Failure): Option<string> {
    match f
    case Dropped => s.error
    case Errored(d) => Some(SystemErrorMessage(d))
    case ChannelError => Some(CHANNEL_ERROR_MESSAGE)
    case TimedOut => Some(TIMED_OUT_MESSAGE)
  }

  /** Every failure reports DISCONNECTED, with its error, before `initiateReconnect` runs. */
  lemma FailuresDisconnectFirst(s: ConnState, f: Failure, maxRetries: int)
    ensures OnFailure(s, f, maxRetries) ==
            InitiateReconnect(s.(status := DISCONNECTED, error := FailureError(s, f)), maxRetries)
  {
    if f.Dropped? {
      assert s.(status := DISCONNECTED, error := s.error) == s.(status := DISCONNECTED);
    }
  }

  /** `disconnect`: with a channel, drops it and the timer and reports DISCONNECTED; without one, nothing. */
  function Disconnect(s: ConnState): (r: ConnState)
    ensures s.channel.None? ==> r == s
    ensures s.channel.Some? ==> r == s.(channel := None, timer := NoTimer, status := DISCONNECTED)
  {
    if s.channel.Some? then s.(channel := None, timer := NoTimer, status := DISCONNECTED) else s
  }

  /** `reset`: disconnect, forget the retries, connect again. */
  function Reset(s: ConnState, failure: Option<string>, maxRetries: int): ConnState {
    Connect(Disconnect(s).(retryCount := 0), failure, maxRetries)
  }

  /** A successful reset ends CONNECTING on a channel never used before, with no error and no retry counted. */
  lemma ResetStartsFresh(s: ConnState, maxRetries: int)
    requires s.channel.Some? ==> s.channel.value < s.nextChannel
    ensures var r := Reset(s, None, maxRetries);
            r.status == CONNECTING && r.retryCount == 0 && r.error.None? &&
            r.channel == Some(s.nextChannel) && r.channel != s.channel
  {
  }

  /** The timer firing: `connect()`, then `onReconnect` (reported as the second result). Nothing fires unless a timer is pending. */
  function FireTimer(s: ConnState, failure: Option<string>, maxRetries: int, hasOnReconnect: bool): (r: (ConnState, bool))
    ensures s.timer != Pending ==> r == (s, false)
    ensures s.timer == Pending ==> r.1 == hasOnReconnect
  {
    if s.timer != Pending then (s, false)
    else (Connect(s.(timer := Fired), failure, maxRetries), hasOnReconnect)
  }

  /** Everything that can happen to the hook. */
  datatype Step =
    | System(e: SystemEvent)
    | Subscribe(status: string)
    | Fire(failure: Option<string>)
    | ConnectCall(failure: Option<string>)
    | DisconnectCall
    | ResetCall(failure: Option<string>)

  function Apply(s: ConnState, step: Step, maxRetries: int): ConnState {
    match step
    case System(e) => OnSystem(s, e, maxRetries)
    case Subscribe(st) => OnSubscribe(s, st, maxRetries)
    case Fire(f) => FireTimer(s, f, maxRetries, false).0
    case ConnectCall(f) => Connect(s, f, maxRetries)
    case DisconnectCall => Disconnect(s)
    case ResetCall(f) => Reset(s, f, maxRetries)
  }

  function Run(s: ConnState, steps: seq<Step>, maxRetries: int): ConnState
    decreases |steps|
  {
    if steps == [] then s else Run(Apply(s, steps[0], maxRetries), steps[1..], maxRetries)
  }

  /** The largest value the counter can take: `maxRetries`, or 0 when that is not positive. */
  function Budget(maxRetries: int): nat {
    if maxRetries > 0 then maxRetries else 0
  }

  predicate WithinBudget(s: ConnState, maxRetries: int) {
    0 <= s.retryCount <= Budget(maxRetries)
  }

  lemma StepWithinBudget(s: ConnState, step: Step, maxRetries: int)
    requires WithinBudget(s, maxRetries)
    ensures WithinBudget(Apply(s, step, maxRetries), maxRetries)
  {
  }

  /** Whatever happens, the retry counter never exceeds `maxRetries`, starting from the initial state. */
  lemma {:induction false} RetriesBounded(s: ConnState, steps: seq<Step>, maxRetries: int)
    requires WithinBudget(s, maxRetries)
    ensures WithinBudget(Run(s, steps, maxRetries), maxRetries)
    decreases |steps|
  {
    if steps != [] {
      StepWithinBudget(s, steps[0], maxRetries);
      RetriesBounded(Apply(s, steps[0], maxRetries), steps[1..], maxRetries);
    }
  }

  lemma InitialWithinBudget(maxRetries: int)
    ensures WithinBudget(Initial(), maxRetries)
  {
  }

  function FailAll(s: ConnState, fs: seq<Failure>, maxRetries: int): ConnState
    decreases |fs|
  {
    if fs == [] then s else FailAll(OnFailure(s, fs[0], maxRetries), fs[1..], maxRetries)
  }

  /**
   * Once the budget is used up, failures no longer schedule anything: the
   * counter and the timer stay as they are, the status is DISCONNECTED and
   * the error reports the maximum.
   */
  lemma {:induction false} ExhaustedStaysDown(s: ConnState, fs: seq<Failure>, maxRetries: int)
    requires s.retryCount >= maxRetries && fs != []
    ensures var r := FailAll(s, fs, maxRetries);
            r.retryCount == s.retryCount && r.timer == s.timer && r.channel == s.channel &&
            r.status == DISCONNECTED && r.error == Some(MaxRetriesMessage(maxRetries))
    decreases |fs|
  {
    var s1 := OnFailure(s, fs[0], maxRetries);
    assert s1 == s.(status := DISCONNECTED, error := Some(MaxRetriesMessage(maxRetries)));
    if |fs| > 1 {
      ExhaustedStaysDown(s1, fs[1..], maxRetries);
    }
  }

  /**
   * With budget left, a failure leaves exactly one pending timer and counts
   * one more retry.
   */
  lemma FailureSchedulesOneRetry(s: ConnState, f: Failure, maxRetries: int)
    requires s.retryCount < maxRetries
    ensures var r := OnFailure(s, f, maxRetries);
            r.retryCount == s.retryCount + 1 && r.status == RECONNECTING && r.timer == Pending &&
            r.channel == s.channel
  {
  }

  /** The hook's refs and state, updated in place by its callbacks. */
  class RealtimeStatusHook {
    var status: Status
    var error: Option<string>
    var channel: Option<nat>
    var nextChannel: nat
    var retryCount: int
    var timer: Timer
    const maxRetries: int
    const hasOnReconnect: bool

    function State(): ConnState
      reads this
    {
      ConnState(status, error, channel, nextChannel, retryCount, timer)
    }

    /** The hook's initial state (`maxRetries` defaults to 5 at the call site). */
    constructor(maxRetries: int, hasOnReconnect: bool)
      ensures State() == Initial()
      ensures this.maxRetries == maxRetries && this.hasOnReconnect == hasOnReconnect
    {
      status := CONNECTING;
      error := None;
      channel := None;
      nextChannel := 0;
      retryCount := 0;
      timer := NoTimer;
      this.maxRetries := maxRetries;
      this.hasOnReconnect := hasOnReconnect;
    }

    method InitiateReconnectStep()
      modifies this
      ensures State() == InitiateReconnect(old(State()), maxRetries)
    {
      if retryCount >= maxRetries {
        error := Some(MaxRetriesMessage(maxRetries));
        return;
      }
      retryCount := retryCount + 1;
      status := RECONNECTING;
      timer := Pending;
    }

    /** `connect()`; `failure` is the message of the exception thrown while creating the channel, if any. */
    method ConnectStep(failure: Option<string>)
      modifies this
      ensures State() == Connect(old(State()), failure, maxRetries)
    {
      if failure.Some? {
        error := Some(InitFailureMessage(failure.value));
        status := DISCONNECTED;
        InitiateReconnectStep();
        return;
      }
      status := CONNECTING;
      error := None;
      channel := Some(nextChannel);
      nextChannel := nextChannel + 1;
    }

    method SystemEventStep(e: SystemEvent)
      modifies this
      ensures State() == OnSystem(old(State()), e, maxRetries)
    {
      match e
      case ConnectedEvent =>
        status := CONNECTED;
        retryCount := 0;
        if timer != NoTimer {
          timer := NoTimer;
        }
      case DisconnectedEvent =>
        status := DISCONNECTED;
        InitiateReconnectStep();
      case ErrorEvent(detail) =>
        error := Some(SystemErrorMessage(detail));
        status := DISCONNECTED;
        InitiateReconnectStep();
    }

    method SubscribeStep(st: string)
      modifies this
      ensures State() == OnSubscribe(old(State()), st, maxRetries)
    {
      if st == "SUBSCRIBED" {
        status := CONNECTED;
        retryCount := 0;
      } else if st == "CHANNEL_ERROR" {
        status := DISCONNECTED;
        error := Some(CHANNEL_ERROR_MESSAGE);
        InitiateReconnectStep();
      } else if st == "TIMED_OUT" {
        status := DISCONNECTED;
        error := Some(TIMED_OUT_MESSAGE);
        InitiateReconnectStep();
      }
    }

    method DisconnectStep()
      modifies this
      ensures State() == Disconnect(old(State()))
    {
      if channel.Some? {
        channel := None;
        if timer != NoTimer {
          timer := NoTimer;
        }
        status := DISCONNECTED;
      }
    }

    method ResetStep(failure: Option<string>)
      modifies this
      ensures State() == Reset(old(State()), failure, maxRetries)
    {
      DisconnectStep();
      retryCount := 0;
      ConnectStep(failure);
    }

    /** The pending timer fires: reconnect, then report whether `onReconnect` was invoked. */
    method FireTimerStep(failure: Option<string>) returns (calledOnReconnect: bool)
      modifies this
      ensures (State(), calledOnReconnect) == FireTimer(old(State()), failure, maxRetries, hasOnReconnect)
    {
      if timer != Pending {
        return false;
      }
      timer := Fired;
      ConnectStep(failure);
      calledOnReconnect := hasOnReconnect;
    }
  }
}
