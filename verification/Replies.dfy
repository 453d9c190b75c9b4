/** What a caller learns of a command it sent. */
module Replies {

  /** A command that failed at the client may still have taken effect at the server. */
  datatype Reply = Done | Failed(applied: bool)

  predicate Applied(r: Reply) { r.Done? || r.applied }

  /** A message written to a channel without publisher confirms: neither an error nor its absence says whether
      the broker took it. */
  datatype Publication = Publication(error: bool, taken: bool)
}
