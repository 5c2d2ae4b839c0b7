/**
 * The keep-alive client: it sends a KeepAlive carrying the configured
 * cookie when started, re-sends it each time its timer fires, and hands
 * every KeepAliveResponse cookie to an optional user callback.
 */
module KeepAlive {
  import opened Wrappers
  import opened Ints
  import opened Protocol

  datatype State = StateClient | StateServer | StateDone

  datatype Message =
    | MsgKeepAlive(cookie: uint16)
    | MsgKeepAliveResponse(responseCookie: uint16)
    | MsgDone

  const MessageTypeKeepAlive: nat := 0
  const MessageTypeKeepAliveResponse: nat := 1
  const MessageTypeDone: nat := 2

  function TypeOf(m: Message): nat
  {
    match m
    case MsgKeepAlive(_) => MessageTypeKeepAlive
    case MsgKeepAliveResponse(_) => MessageTypeKeepAliveResponse
    case MsgDone => MessageTypeDone
  }

  datatype Error =
    | UnexpectedMessageType(msgType: nat)
    | SendFailed(reason: string)      // whatever the engine's send may return
    | CallbackError(reason: string)   // whatever the user callback may return

  /** The client options; `period` and `timeout` are durations. */
  datatype Config = Config(
    period: nat,
    timeout: nat,
    cookie: uint16,
    keepAliveResponseFunc: Option<uint16 -> Outcome<Error>>)

  /** The configuration a client runs with: the given one, or the defaults when none is given. */
  function ResolveConfig(cfg: Option<Config>, defaults: Config): (r: Config)
    ensures cfg.None? ==> r == defaults
    ensures cfg.Some? ==> r == cfg.value
  {
    if cfg.None? then defaults else cfg.value
  }

  /**
   * `m` is `template` with the timeout of the StateServer entry, and nothing
   * else, replaced by `t`; a template without that entry is kept as it is.
   */
  predicate ServerTimeoutOverride(template: map<State, StateMapEntry<State>>, t: nat, m: map<State, StateMapEntry<State>>)
  {
    && m.Keys == template.Keys
    && (forall s :: s in template && s != StateServer ==> m[s] == template[s])
    && (StateServer in template ==>
          && m[StateServer].timeout == t
          && m[StateServer].agency == template[StateServer].agency
          && m[StateServer].transitions == template[StateServer].transitions)
  }

  /** The per-client state map: a private copy of the template whose StateServer entry gets the timeout. */
  method CopyWithServerTimeout(template: map<State, StateMapEntry<State>>, t: nat) returns (m: map<State, StateMapEntry<State>>)
    ensures ServerTimeoutOverride(template, t, m)
  {
    m := template;
    if StateServer in m {
      var entry := m[StateServer];
      entry := entry.(timeout := t);
      m := m[StateServer := entry];
    }
  }

  /** What the client has done, in order. */
  datatype Event =
    | ProtocolStarted
    | Sent(msg: Message)
    | SendErrorReported(error: Error)
    | TimerStopped(timerId: nat)
    | TimerArmed(timerId: nat, period: nat)

  function StopEvents(timer: Option<nat>): seq<Event>
  {
    if timer.Some? then [TimerStopped(timer.value)] else []
  }

  function SendErrorEvents(sendResult: Outcome<Error>): seq<Event>
  {
    if sendResult.Fail? then [SendErrorReported(sendResult.error)] else []
  }

  /** The effect of handling one message: the cookie handed to the callback, if any, and the error returned. */
  datatype Reaction = Reaction(delivered: Option<uint16>, result: Outcome<Error>)

  class Client {
    const config: Config
    const protoConfig: ProtocolConfig<State>
    var started: bool           // the once-only start gate
    var timer: Option<nat>      // the timer the client holds, by id
    var armed: set<nat>         // timers created and not stopped
    var nextTimerId: nat
    var events: seq<Event>

    /**
     * The client holds at most one live timer, every KeepAlive sent carries
     * the configured cookie, and the protocol is started at most once, and
     * only through the start gate.
     */
    predicate Valid()
      reads this
    {
      && armed == (if timer.Some? then {timer.value} else {})
      && (timer.Some? ==> timer.value < nextTimerId)
      && (forall i :: 0 <= i < |events| && events[i].Sent? ==> events[i].msg == MsgKeepAlive(config.cookie))
      && (!started ==> forall i :: 0 <= i < |events| ==> !events[i].ProtocolStarted?)
      && (forall i, j :: 0 <= i < j < |events| && events[i].ProtocolStarted? ==> !events[j].ProtocolStarted?)
    }

    /** NewClient: a client-role protocol starting in StateClient, over a private copy of the state map. */
    constructor (cfg: Option<Config>, defaults: Config, template: map<State, StateMapEntry<State>>)
      ensures config == ResolveConfig(cfg, defaults)
      ensures protoConfig.role == RoleClient && protoConfig.initialState == StateClient
      ensures ServerTimeoutOverride(template, config.timeout, protoConfig.stateMap)
      ensures !started && timer.None? && events == []
      ensures Valid()
    {
      var c := ResolveConfig(cfg, defaults);
      var stateMap := CopyWithServerTimeout(template, c.timeout);
      config := c;
      protoConfig := ProtocolConfig(RoleClient, stateMap, StateClient);
      started := false;
      timer := None;
      armed := {};
      nextTimerId := 0;
      events := [];
    }

    /** startTimer: stop the timer held, if any, then arm a fresh one for the configured period. */
    method StartTimer()
      requires Valid()
      modifies this
      ensures Valid()
      ensures started == old(started)
      ensures timer == Some(old(nextTimerId)) && armed == {old(nextTimerId)}
      ensures nextTimerId == old(nextTimerId) + 1
      ensures events == old(events) + StopEvents(old(timer)) + [TimerArmed(old(nextTimerId), config.period)]
    {
      if timer.Some? {
        events := events + [TimerStopped(timer.value)];
        armed := armed - {timer.value};
      }
      var id := nextTimerId;
      nextTimerId := nextTimerId + 1;
      timer := Some(id);
      armed := armed + {id};
      events := events + [TimerArmed(id, config.period)];
    }

    /**
     * sendKeepAlive: send a KeepAlive with the configured cookie, report a
     * send error, and re-arm the timer whether or not the send failed.
     * `sendResult` is what the engine's send returns.
     */
    method SendKeepAlive(sendResult: Outcome<Error>)
      requires Valid()
      modifies this
      ensures Valid()
      ensures started == old(started)
      ensures timer == Some(old(nextTimerId)) && armed == {old(nextTimerId)}
      ensures nextTimerId == old(nextTimerId) + 1
      ensures events == old(events) + [Sent(MsgKeepAlive(config.cookie))] + SendErrorEvents(sendResult)
                        + StopEvents(old(timer)) + [TimerArmed(old(nextTimerId), config.period)]
    {
      events := events + [Sent(MsgKeepAlive(config.cookie))];
      if sendResult.Fail? {
        events := events + [SendErrorReported(sendResult.error)];
      }
      StartTimer();
    }

    /** Start: start the protocol and send the first KeepAlive, the first time only. */
    method Start(sendResult: Outcome<Error>)
      requires Valid()
      modifies this
      ensures Valid()
      ensures started
      ensures old(started) ==> events == old(events) && timer == old(timer) && armed == old(armed) && nextTimerId == old(nextTimerId)
      ensures !old(started) ==>
                && timer == Some(old(nextTimerId)) && armed == {old(nextTimerId)}
                && nextTimerId == old(nextTimerId) + 1
                && events == old(events) + [ProtocolStarted, Sent(MsgKeepAlive(config.cookie))] + SendErrorEvents(sendResult)
                             + StopEvents(old(timer)) + [TimerArmed(old(nextTimerId), config.period)]
    {
      if !started {
        started := true;
        events := events + [ProtocolStarted];
        SendKeepAlive(sendResult);
      }
    }

    /**
     * messageHandler: only a KeepAliveResponse is accepted. Its cookie goes
     * to the callback exactly as received, with no comparison against the
     * cookie sent, and the callback's answer is the handler's; without a
     * callback the response is accepted silently.
     */
    function MessageHandler(msg: Message): (r: Reaction)
      ensures !msg.MsgKeepAliveResponse? <==> r == Reaction(None, Fail(UnexpectedMessageType(TypeOf(msg))))
      ensures !msg.MsgKeepAliveResponse? ==> r.delivered.None?
      ensures msg.MsgKeepAliveResponse? && config.keepAliveResponseFunc.None? ==> r == Reaction(None, Pass)
      ensures msg.MsgKeepAliveResponse? && config.keepAliveResponseFunc.Some? ==>
                r == Reaction(Some(msg.responseCookie), config.keepAliveResponseFunc.value(msg.responseCookie))
    {
      match msg
      case MsgKeepAliveResponse(cookie) => HandleKeepAliveResponse(cookie)
      case _ => Reaction(None, Fail(UnexpectedMessageType(TypeOf(msg))))
    }

    function HandleKeepAliveResponse(cookie: uint16): Reaction
    {
      if config.keepAliveResponseFunc.Some? then
        Reaction(Some(cookie), config.keepAliveResponseFunc.value(cookie))
      else
        Reaction(None, Pass)
    }
  }

  /** The bookkeeping never holds two live timers. */
  lemma AtMostOneArmedTimer(c: Client)
    requires c.Valid()
    ensures |c.armed| <= 1
  {
  }
}
