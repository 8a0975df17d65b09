/** Shared vocabulary of the model: optional values, collaborator replies,
    identities, and JavaScript truthiness of optional strings. */
module Common {

  datatype Option<+T> = None | Some(value: T)

  /** What an awaited collaborator call produced: a value, or a thrown exception. */
  datatype Reply<+T> = Returns(value: T) | Throws

  type UserId = string
  type Token = string
  /** Identity of one WebSocket object; two connections are `===` iff their ids are equal. */
  type ConnId = nat
  /** The store's opaque `createdAt` value. */
  type Timestamp = nat

  /** `!!x` for a value that is either absent (null/undefined) or a string: absent and "" are falsy. */
  predicate Truthy(o: Option<string>) {
    o.Some? && o.value != ""
  }
}
