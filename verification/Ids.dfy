/** Ids are opaque, so they are modelled as numbers. */
module Ids {
  type SessionId = nat
  type ConnectionId = nat
  type WorkspaceId = nat
  type UserId = nat
  type RequestId = nat
}
