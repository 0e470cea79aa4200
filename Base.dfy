/** Values shared by every part of the model: identifiers, optional values,
    the truthiness of a submitted form field, flash notices and the reply a
    route handler sends. */
module Base {

  /** A MongoDB ObjectId, already cast from its string form. */
  type Id = nat

  /** The salt and hash that passport-local-mongoose stores for a password;
      how it is computed is not part of the model. */
  type Credential = string

  datatype Option<+T> = None | Some(value: T)

  /** JavaScript truthiness of a submitted form string: an absent field and
      the empty string are both falsy, every other string is truthy. */
  predicate Truthy(s: string) {
    s != ""
  }

  /** `v && {key: v}` for a string field of a `$set` document: the key is
      present exactly when the submitted value is truthy. */
  function Spread(v: string): Option<string> {
    if Truthy(v) then Some(v) else None
  }

  /** The value a field holds after the `$set`: the document's when its key
      is present, the stored one otherwise. */
  function Keep<T>(v: Option<T>, current: T): T {
    if v.Some? then v.value else current
  }

  /** A connect-flash notice, queued under its kind. */
  datatype FlashKind = Success | Error
  datatype Flash = Flash(kind: FlashKind, message: string)

  /** What a handler has sent: nothing (also the case when its promise
      rejects), a redirect, or a bare status line with a text body. */
  datatype Reply = NoReply | Redirect(path: string) | Status(code: nat)
}
