/**
 * The parts of the generic mini-protocol engine that the two endpoints
 * configure: roles, agency, state-map entries and the protocol
 * configuration. The engine itself (start, send, the read pump) is an
 * external collaborator here.
 */
module Protocol {
  datatype Role = RoleClient | RoleServer

  datatype Agency = AgencyNone | AgencyClient | AgencyServer

  /** A legal transition: a message type and the state it leads to. */
  datatype Transition<S> = Transition(msgType: nat, newState: S)

  /** One entry of a state map; `timeout` is a duration that the engine applies while in that state. */
  datatype StateMapEntry<S> = StateMapEntry(agency: Agency, transitions: seq<Transition<S>>, timeout: nat)

  /** What a mini-protocol hands to the engine. */
  datatype ProtocolConfig<S> = ProtocolConfig(role: Role, stateMap: map<S, StateMapEntry<S>>, initialState: S)
}
