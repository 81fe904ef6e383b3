/**
 * The backend's `/auth/login` and the client's `login` together: the token
 * the server issues is the one the client keeps, and the user it derives
 * carries the server's id.
 */
module EndToEnd {
  import opened Wrappers
  import Jwt
  import AuthRouter
  import AuthContext

  /**
   * Every signed token is in compact form and its payload segment decodes,
   * in the browser, to an object whose `userId` is the signed one. (`atob`
   * reads standard base64, while JWS encodes base64url, so this holds only
   * for payloads whose encoding avoids `-` and `_`.)
   */
  ghost predicate Interoperable(crypto: AuthRouter.Crypto, codec: AuthContext.Codec) {
    forall cl: Jwt.Claims ::
      && Jwt.MiddleSegment(crypto.sign(cl)).Some?
      && codec.decodeSegment(Jwt.MiddleSegment(crypto.sign(cl)).value)
         == Some(AuthContext.Object(AuthContext.Payload(Some(cl.userId), None, None)))
  }

  /** What the client's `api.post` yields: a 2xx body, or `None` when axios rejects. */
  function Reply(res: AuthRouter.Response): (reply: Option<AuthContext.LoginReply>)
    ensures reply.Some? <==> res.status == 200 && res.body.Issued?
    ensures reply.Some? ==> reply.value.accessToken.None? && reply.value.token == Some(res.body.token)
  {
    if res.status == 200 && res.body.Issued? then Some(AuthContext.LoginReply(None, Some(res.body.token)))
    else None
  }

  /**
   * Register, log in at the server, then log in at the client: the client
   * keeps the issued token and its user is the registered id and email.
   */
  lemma RegisterThenSignIn(t: AuthRouter.Table, crypto: AuthRouter.Crypto, codec: AuthContext.Codec,
                           s: AuthContext.Session, name: string, email: string, password: string,
                           salt: AuthRouter.Salt, now: int)
    requires AuthRouter.Keyed(t) && AuthRouter.Sound(crypto) && Interoperable(crypto, codec)
    requires email !in t.users
    ensures var (reg, t') := AuthRouter.RegisterResult(t, crypto, name, email, password, salt, false);
      var res := AuthRouter.LoginResult(t', crypto, email, password, now);
      var step := AuthContext.LoginStep(codec, s, email, Reply(res));
      && res.status == 200
      && step.outcome == AuthContext.Done
      && step.after.token == Some(res.body.token)
      && step.after.user == Some(AuthContext.User(Some(reg.body.id), email))
  {
  }

  /** A 401 from the server reaches the client as a rejected request and leaves the session alone. */
  lemma RejectedLoginKeepsSession(t: AuthRouter.Table, crypto: AuthRouter.Crypto, codec: AuthContext.Codec,
                                  s: AuthContext.Session, email: string, password: string, now: int)
    requires AuthRouter.LoginResult(t, crypto, email, password, now).status != 200
    ensures AuthContext.LoginStep(codec, s, email, Reply(AuthRouter.LoginResult(t, crypto, email, password, now)))
            == AuthContext.Step(AuthContext.Raised(AuthContext.RequestFailed), s)
  {
  }
}
