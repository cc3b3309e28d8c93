/** The part of an Express request the authentication core reads and writes. */
module Requests {
  import opened Wrappers
  import UserModel

  /** What the gates put on `req.user`: the user document, and the raw access token when the JWT
      strategy attached it. */
  datatype AuthUser = AuthUser(user: UserModel.User, token: Option<string>)

  class Request {
    /** the `Authorization` header */
    const authorization: Option<string>
    /** `req.user` */
    var user: Option<AuthUser>
    /** `req.token`, read by the hand-rolled logout; no gate of this core assigns it */
    var token: Option<string>

    constructor (authorization: Option<string>)
      ensures this.authorization == authorization && user.None? && token.None?
    {
      this.authorization := authorization;
      user := None;
      token := None;
    }
  }
}
