/** The request object the gates work on: the Authorization header it arrived
    with and the `user` field that `authenticate` fills in. */
module RequestContext {
  import opened Wrappers
  import opened Domain
  import AuthMiddleware

  class Request {
    const authorization: Option<string>
    var user: Option<Identity>

    constructor (authorization: Option<string>)
      ensures this.authorization == authorization && user == None
    {
      this.authorization := authorization;
      user := None;
    }

    /** `authenticate`: on success `req.user` is assigned the decoded claims; on
        failure the request is left as it was. */
    method Authenticate(verify: string -> Option<Identity>) returns (step: AuthMiddleware.Step)
      modifies this`user
      ensures step == AuthMiddleware.Authenticate(authorization, verify)
      ensures user == (if step.Next? then step.user else old(user))
    {
      var token := AuthMiddleware.BearerToken(authorization);
      if token.None? {
        return AuthMiddleware.Reject(401, AuthMiddleware.NO_TOKEN);
      }
      var decoded := verify(token.value);
      if decoded.None? {
        return AuthMiddleware.Reject(401, AuthMiddleware.INVALID_TOKEN);
      }
      user := Some(Identity(decoded.value.userId, decoded.value.role));
      step := AuthMiddleware.Next(user);
    }

    /** `authorizeAdmin` reads `req.user` and changes nothing. */
    method AuthorizeAdmin() returns (step: AuthMiddleware.Step)
      ensures step == AuthMiddleware.AuthorizeAdmin(user)
    {
      if user.None? || user.value.role != ADMIN {
        return AuthMiddleware.Reject(403, AuthMiddleware.ADMIN_REQUIRED);
      }
      step := AuthMiddleware.Next(user);
    }
  }
}
