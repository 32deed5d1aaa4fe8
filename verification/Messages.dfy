/** The messages of `relay.v1.RelayService` and the checks the relay makes on first frames. */
module Messages {
  import opened Base

  const PROTOCOL_VERSION: nat := 1
  const ROUTE_ID_SIZE: nat := 16
  const SESSION_ID_SIZE: nat := 16

  datatype RegisterRequest = RegisterRequest(version: nat, routeId: Bytes)

  /** A `RegisterAgentResponse`: one incoming tunnel announced to an agent. */
  datatype Notification = Notification(version: nat, sessionId: Bytes, clientHello: Bytes)

  datatype ConnectRequest =
    | ClientOpen(version: nat, routeId: Bytes)
    | ClientHandshake(clientHello: Bytes)
    | ClientCiphertext(payload: Bytes)
    | NoConnectBody

  datatype ConnectResponse =
    | SessionAssigned(sessionId: Bytes)
    | AgentAccepted(version: nat, sessionId: Bytes, agentHello: Bytes)
    | ToClient(payload: Bytes)

  datatype AcceptRequest =
    | AgentAccept(version: nat, sessionId: Bytes, agentHello: Bytes)
    | AgentCiphertext(payload: Bytes)
    | NoAcceptBody

  predicate ValidOpen(f: ConnectRequest) {
    f.ClientOpen? && f.version == PROTOCOL_VERSION && |f.routeId| == ROUTE_ID_SIZE
  }

  predicate ValidHandshake(f: ConnectRequest) {
    f.ClientHandshake? && |f.clientHello| != 0
  }

  predicate ValidAccept(f: AcceptRequest) {
    && f.AgentAccept? && f.version == PROTOCOL_VERSION
    && |f.sessionId| == SESSION_ID_SIZE && |f.agentHello| != 0
  }
}
