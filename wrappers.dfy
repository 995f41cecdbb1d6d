/** Optional values, used for `Array.prototype.find` and for a missing `currentLobby`. */
module Wrappers {
  datatype Option<T> = None | Some(value: T)

  /** Result of a lobby handler that can report an error to the calling socket. */
  datatype LobbyError = BlankName | LobbyNotFound
  datatype Outcome = Done | Rejected(error: LobbyError)
}
