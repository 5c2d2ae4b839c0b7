/**
 * The local-state-query server: a purely reactive endpoint that hands every
 * received request to one of five user callbacks.
 */
module LocalStateQuery {
  import opened Wrappers
  import opened Ints
  import opened Cbor
  import opened Protocol

  datatype State = StateIdle | StateAcquiring | StateAcquired | StateQuerying | StateDone

  /** A chain point: a slot and a block hash. */
  datatype Point = Point(slot: uint64, hash: Bytes)

  /** The messages of the protocol; queries and results are carried undecoded. */
  datatype Message =
    | MsgAcquire(point: Point)
    | MsgAcquired
    | MsgFailure(failure: uint64)
    | MsgQuery(query: Item)
    | MsgResult(result: Item)
    | MsgRelease
    | MsgReAcquire(point: Point)
    | MsgDone
    | MsgAcquireNoPoint
    | MsgReAcquireNoPoint

  datatype MessageType =
    | TypeAcquire | TypeAcquired | TypeFailure | TypeQuery | TypeResult
    | TypeRelease | TypeReAcquire | TypeDone | TypeAcquireNoPoint | TypeReAcquireNoPoint

  function TypeOf(m: Message): MessageType
  {
    match m
    case MsgAcquire(_) => TypeAcquire
    case MsgAcquired => TypeAcquired
    case MsgFailure(_) => TypeFailure
    case MsgQuery(_) => TypeQuery
    case MsgResult(_) => TypeResult
    case MsgRelease => TypeRelease
    case MsgReAcquire(_) => TypeReAcquire
    case MsgDone => TypeDone
    case MsgAcquireNoPoint => TypeAcquireNoPoint
    case MsgReAcquireNoPoint => TypeReAcquireNoPoint
  }

  /** The callbacks the server can reach. */
  datatype Callback = AcquireCallback | QueryCallback | ReleaseCallback | ReAcquireCallback | DoneCallback

  datatype Error =
    | MissingCallback(callback: Callback)      // a request arrived whose callback is not set
    | UnexpectedMessageType(msgType: MessageType)
    | CallbackError(reason: string)            // whatever a user callback may return

  /** The user callbacks; None is a nil function. */
  datatype Config = Config(
    acquireFunc: Option<Option<Point> -> Outcome<Error>>,
    queryFunc: Option<Item -> Outcome<Error>>,
    releaseFunc: Option<() -> Outcome<Error>>,
    reAcquireFunc: Option<Option<Point> -> Outcome<Error>>,
    doneFunc: Option<() -> Outcome<Error>>)

  /** A callback call with its argument. */
  datatype Invocation =
    | AcquireCalled(acquirePoint: Option<Point>)
    | QueryCalled(query: Item)
    | ReleaseCalled
    | ReAcquireCalled(reAcquirePoint: Option<Point>)
    | DoneCalled

  function CallbackOf(inv: Invocation): Callback
  {
    match inv
    case AcquireCalled(_) => AcquireCallback
    case QueryCalled(_) => QueryCallback
    case ReleaseCalled => ReleaseCallback
    case ReAcquireCalled(_) => ReAcquireCallback
    case DoneCalled => DoneCallback
  }

  /** The reference table: the call each request message stands for; None for the other messages. */
  function Intended(m: Message): Option<Invocation>
  {
    match m
    case MsgAcquire(p) => Some(AcquireCalled(Some(p)))
    case MsgAcquireNoPoint => Some(AcquireCalled(None))
    case MsgQuery(q) => Some(QueryCalled(q))
    case MsgRelease => Some(ReleaseCalled)
    case MsgReAcquire(p) => Some(ReAcquireCalled(Some(p)))
    case MsgReAcquireNoPoint => Some(ReAcquireCalled(None))
    case MsgDone => Some(DoneCalled)
    case _ => None
  }

  predicate IsSet(cfg: Config, cb: Callback)
  {
    match cb
    case AcquireCallback => cfg.acquireFunc.Some?
    case QueryCallback => cfg.queryFunc.Some?
    case ReleaseCallback => cfg.releaseFunc.Some?
    case ReAcquireCallback => cfg.reAcquireFunc.Some?
    case DoneCallback => cfg.doneFunc.Some?
  }

  /** What a set callback answers to a call. */
  function Answer(cfg: Config, inv: Invocation): Outcome<Error>
    requires IsSet(cfg, CallbackOf(inv))
  {
    match inv
    case AcquireCalled(p) => cfg.acquireFunc.value(p)
    case QueryCalled(q) => cfg.queryFunc.value(q)
    case ReleaseCalled => cfg.releaseFunc.value()
    case ReAcquireCalled(p) => cfg.reAcquireFunc.value(p)
    case DoneCalled => cfg.doneFunc.value()
  }

  /** The effect of handling one message: the callback call made, if any, and the error returned. */
  datatype Reaction = Reaction(invoked: Option<Invocation>, result: Outcome<Error>)

  /** The three features a negotiated version enables. */
  datatype Features = Features(getChainBlockNo: bool, getChainPoint: bool, getRewardInfoPoolsBlock: bool)

  /** The features of a version, as a table: on from version 10, 10 and 11 respectively. */
  function FeaturesFor(version: nat): Features
  {
    Features(10 <= version, 10 <= version, 11 <= version)
  }

  lemma FeaturesMonotone(v: nat, w: nat)
    requires v <= w
    ensures FeaturesFor(v).getChainBlockNo ==> FeaturesFor(w).getChainBlockNo
    ensures FeaturesFor(v).getChainPoint ==> FeaturesFor(w).getChainPoint
    ensures FeaturesFor(v).getRewardInfoPoolsBlock ==> FeaturesFor(w).getRewardInfoPoolsBlock
  {
  }

  lemma FeaturesBelowTen(v: nat)
    requires v < 10
    ensures FeaturesFor(v) == Features(false, false, false)
  {
  }

  lemma RewardInfoNeedsChainPoint(v: nat)
    ensures FeaturesFor(v).getRewardInfoPoolsBlock ==> FeaturesFor(v).getChainPoint && FeaturesFor(v).getChainBlockNo
  {
  }

  class Server {
    const config: Config
    const protoConfig: ProtocolConfig<State>
    var enableGetChainBlockNo: bool
    var enableGetChainPoint: bool
    var enableGetRewardInfoPoolsBlock: bool

    function EnabledFeatures(): Features
      reads this
    {
      Features(enableGetChainBlockNo, enableGetChainPoint, enableGetRewardInfoPoolsBlock)
    }

    /** NewServer: a server-role protocol starting in Idle, with the version's features enabled. */
    constructor (version: nat, cfg: Config, stateMap: map<State, StateMapEntry<State>>)
      ensures config == cfg
      ensures protoConfig == ProtocolConfig(RoleServer, stateMap, StateIdle)
      ensures EnabledFeatures() == FeaturesFor(version)
    {
      config := cfg;
      protoConfig := ProtocolConfig(RoleServer, stateMap, StateIdle);
      enableGetChainBlockNo := false;
      enableGetChainPoint := false;
      enableGetRewardInfoPoolsBlock := false;
      new;
      if version >= 10 {
        enableGetChainBlockNo := true;
        enableGetChainPoint := true;
      }
      if version >= 11 {
        enableGetRewardInfoPoolsBlock := true;
      }
    }

    function HandleAcquire(msg: Message): Reaction
    {
      if config.acquireFunc.None? then Reaction(None, Fail(MissingCallback(AcquireCallback)))
      else match msg
        case MsgAcquire(p) => Reaction(Some(AcquireCalled(Some(p))), config.acquireFunc.value(Some(p)))
        case MsgAcquireNoPoint => Reaction(Some(AcquireCalled(None)), config.acquireFunc.value(None))
        case _ => Reaction(None, Pass)
    }

    function HandleQuery(q: Item): Reaction
    {
      if config.queryFunc.None? then Reaction(None, Fail(MissingCallback(QueryCallback)))
      else Reaction(Some(QueryCalled(q)), config.queryFunc.value(q))
    }

    function HandleRelease(): Reaction
    {
      if config.releaseFunc.None? then Reaction(None, Fail(MissingCallback(ReleaseCallback)))
      else Reaction(Some(ReleaseCalled), config.releaseFunc.value())
    }

    function HandleReAcquire(msg: Message): Reaction
    {
      if config.reAcquireFunc.None? then Reaction(None, Fail(MissingCallback(ReAcquireCallback)))
      else match msg
        case MsgReAcquire(p) => Reaction(Some(ReAcquireCalled(Some(p))), config.reAcquireFunc.value(Some(p)))
        case MsgReAcquireNoPoint => Reaction(Some(ReAcquireCalled(None)), config.reAcquireFunc.value(None))
        case _ => Reaction(None, Pass)
    }

    function HandleDone(): Reaction
    {
      if config.doneFunc.None? then Reaction(None, Fail(MissingCallback(DoneCallback)))
      else Reaction(Some(DoneCalled), config.doneFunc.value())
    }

    /**
     * messageHandler: dispatch by message type. A request reaches the one
     * callback the reference table names, with the table's argument, and the
     * handler returns exactly what that callback returns; an unset callback
     * is an error and nothing is called; any other message is unexpected.
     * The version features are not consulted.
     */
    function MessageHandler(msg: Message): (r: Reaction)
      ensures Intended(msg).None? ==> r == Reaction(None, Fail(UnexpectedMessageType(TypeOf(msg))))
      ensures Intended(msg).Some? && !IsSet(config, CallbackOf(Intended(msg).value)) ==>
                r == Reaction(None, Fail(MissingCallback(CallbackOf(Intended(msg).value))))
      ensures Intended(msg).Some? && IsSet(config, CallbackOf(Intended(msg).value)) ==>
                r == Reaction(Intended(msg), Answer(config, Intended(msg).value))
      ensures r.invoked.Some? ==> r.invoked == Intended(msg)
    {
      match TypeOf(msg)
      case TypeAcquire => HandleAcquire(msg)
      case TypeQuery => HandleQuery(msg.query)
      case TypeRelease => HandleRelease()
      case TypeReAcquire => HandleReAcquire(msg)
      case TypeAcquireNoPoint => HandleAcquire(msg)
      case TypeReAcquireNoPoint => HandleReAcquire(msg)
      case TypeDone => HandleDone()
      case _ => Reaction(None, Fail(UnexpectedMessageType(TypeOf(msg))))
    }
  }

  /** Acquire and AcquireNoPoint reach the same callback, with the point and without one. */
  lemma AcquireVariantsCollapse(s: Server, p: Point)
    requires s.config.acquireFunc.Some?
    ensures s.MessageHandler(MsgAcquire(p)).invoked == Some(AcquireCalled(Some(p)))
    ensures s.MessageHandler(MsgAcquireNoPoint).invoked == Some(AcquireCalled(None))
    ensures s.MessageHandler(MsgAcquire(p)).result == s.config.acquireFunc.value(Some(p))
    ensures s.MessageHandler(MsgAcquireNoPoint).result == s.config.acquireFunc.value(None)
  {
  }

  /** ReAcquire and ReAcquireNoPoint reach the same callback, with the point and without one. */
  lemma ReAcquireVariantsCollapse(s: Server, p: Point)
    requires s.config.reAcquireFunc.Some?
    ensures s.MessageHandler(MsgReAcquire(p)).invoked == Some(ReAcquireCalled(Some(p)))
    ensures s.MessageHandler(MsgReAcquireNoPoint).invoked == Some(ReAcquireCalled(None))
    ensures s.MessageHandler(MsgReAcquire(p)).result == s.config.reAcquireFunc.value(Some(p))
    ensures s.MessageHandler(MsgReAcquireNoPoint).result == s.config.reAcquireFunc.value(None)
  {
  }
}
