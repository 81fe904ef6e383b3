/**
 * The client's session store (`AuthProvider`): the `user` and `token`
 * state, the two persisted `localStorage` entries, and the shared
 * `Authorization` default header, with its three transitions: the
 * rehydration run on mount, `login` and `logout`.
 *
 * The transitions are specified by step functions on a `Session` value;
 * the class `AuthProvider` performs them in place and is proved to
 * follow them.
 */
module AuthContext {
  import opened Wrappers
  import Jwt

  const UserKey: string := "user"
  const TokenKey: string := "accessToken"
  const AuthHeader: string := "Authorization"

  /** `{ id: number; email: string }`; `id` is `undefined` when the token named no user. */
  datatype User = User(id: Option<int>, email: string)

  /** The token payload fields the client reads. */
  datatype Payload = Payload(userId: Option<int>, sub: Option<int>, email: Option<string>)

  /** The `{}` that `parseJwt` falls back to. */
  const EmptyPayload: Payload := Payload(None, None, None)

  /** What `JSON.parse` returns for a payload: an object, `null`, or another JSON value. */
  datatype Json = Object(fields: Payload) | Null | Primitive

  /**
   * The browser's decoders: `decodeSegment` is `JSON.parse(atob(s))`, `None`
   * when either throws; `stringifyUser` and `parseUser` are `JSON.stringify`
   * and `JSON.parse` on the stored user, `None` when parsing throws.
   */
  datatype Codec = Codec(
    decodeSegment: string -> Option<Json>,
    stringifyUser: User -> string,
    parseUser: string -> Option<User>)

  /** A stored user text is never empty and reads back as the same user. */
  ghost predicate Lawful(c: Codec) {
    forall u: User :: c.stringifyUser(u) != "" && c.parseUser(c.stringifyUser(u)) == Some(u)
  }

  /** JavaScript truthiness of a string that may be `null`. */
  predicate Truthy(s: Option<string>) {
    s.Some? && s.value != ""
  }

  function Bearer(t: string): string {
    "Bearer " + t
  }

  /**
   * `parseJwt`: the JSON value in the token's middle segment. It never
   * fails: no middle segment (then `atob(undefined)` throws) or one that does
   * not decode gives `{}`.
   */
  function ParseJwt(c: Codec, t: string): (j: Json)
    ensures '.' !in t ==> j == Object(EmptyPayload)
    ensures j != Object(EmptyPayload) ==> exists seg :: Jwt.MiddleSegment(t) == Some(seg) && c.decodeSegment(seg) == Some(j)
    ensures Jwt.MiddleSegment(t).Some? && c.decodeSegment(Jwt.MiddleSegment(t).value).Some? ==>
      j == c.decodeSegment(Jwt.MiddleSegment(t).value).value
  {
    match Jwt.MiddleSegment(t)
    case None => Object(EmptyPayload)
    case Some(seg) => c.decodeSegment(seg).GetOr(Object(EmptyPayload))
  }

  /** The fields a property lookup sees: a non-object value has none of them. */
  function Fields(j: Json): (p: Payload)
    ensures j.Object? ==> p == j.fields
    ensures !j.Object? ==> p == EmptyPayload
  {
    match j
    case Object(p) => p
    case _ => EmptyPayload
  }

  /** `{ id: payload.userId ?? payload.sub, email: payload.email ?? email }`. */
  function DerivedUser(p: Payload, email: string): (u: User)
    ensures p.userId.Some? ==> u.id == p.userId
    ensures p.userId.None? ==> u.id == p.sub
    ensures u.email == p.email.GetOr(email)
  {
    User(if p.userId.Some? then p.userId else p.sub, p.email.GetOr(email))
  }

  /** The body of a successful POST /auth/login, as the client reads it. */
  datatype LoginReply = LoginReply(accessToken: Option<string>, token: Option<string>)

  /** `data.accessToken ?? data.token`. */
  function ChosenToken(reply: LoginReply): (t: Option<string>)
    ensures reply.accessToken.Some? ==> t == reply.accessToken
    ensures reply.accessToken.None? ==> t == reply.token
  {
    if reply.accessToken.Some? then reply.accessToken else reply.token
  }

  /** `localStorage.getItem(key)`. */
  function Stored(storage: map<string, string>, key: string): Option<string> {
    if key in storage then Some(storage[key]) else None
  }

  datatype Session = Session(
    user: Option<User>,
    token: Option<string>,
    storage: map<string, string>,
    headers: map<string, string>)
  {
    /** `isAuthenticated: !!token`. */
    predicate IsAuthenticated()
      ensures IsAuthenticated() ==> token.Some? && token.value != ""
      ensures token.Some? && token.value != "" ==> IsAuthenticated()
    {
      Truthy(token)
    }

    /**
     * `user` and `token` are null together, a token is never empty, and the
     * `Authorization` header is set exactly when there is a token, to
     * `Bearer` and that token.
     */
    predicate Coherent() {
      && (user.None? <==> token.None?)
      && (token.Some? ==> token.value != "")
      && (AuthHeader in headers <==> token.Some?)
      && (token.Some? ==> headers[AuthHeader] == Bearer(token.value))
    }
  }

  /** The provider's state on first render: nothing in memory, whatever storage and headers hold. */
  function Initial(storage: map<string, string>, headers: map<string, string>): (s: Session)
    ensures !s.IsAuthenticated() && s.user.None?
    ensures AuthHeader !in headers ==> s.Coherent()
  {
    Session(None, None, storage, headers)
  }

  /** Why a transition threw. */
  datatype Failure =
    | RequestFailed        // the POST was rejected
    | NoToken              // 'No token from server'
    | StoredUserUnparsable // JSON.parse of the stored user threw
    | PayloadNotObject     // a property lookup on a `null` payload threw

  datatype Outcome = Done | Raised(failure: Failure)

  datatype Step = Step(outcome: Outcome, after: Session)

  /** The mount effect: restore `user`, `token` and the header when both stored entries are non-empty. */
  function MountStep(c: Codec, s: Session): (r: Step)
    ensures r.outcome.Raised? || !(Truthy(Stored(s.storage, UserKey)) && Truthy(Stored(s.storage, TokenKey))) ==> r.after == s
    ensures Truthy(Stored(s.storage, UserKey)) && Truthy(Stored(s.storage, TokenKey)) && c.parseUser(s.storage[UserKey]).Some? ==>
      && r.outcome == Done
      && r.after.user == c.parseUser(s.storage[UserKey])
      && r.after.token == Some(s.storage[TokenKey])
      && r.after.headers == s.headers[AuthHeader := Bearer(s.storage[TokenKey])]
    ensures r.outcome.Raised? <==>
      Truthy(Stored(s.storage, UserKey)) && Truthy(Stored(s.storage, TokenKey)) && c.parseUser(s.storage[UserKey]).None?
    ensures r.after.storage == s.storage
  {
    var savedUser := Stored(s.storage, UserKey);
    var savedToken := Stored(s.storage, TokenKey);
    if Truthy(savedUser) && Truthy(savedToken) then
      match c.parseUser(savedUser.value)
      case None => Step(Raised(StoredUserUnparsable), s)
      case Some(u) =>
        var t := savedToken.value;
        Step(Done, s.(user := Some(u), token := Some(t), headers := s.headers[AuthHeader := Bearer(t)]))
    else Step(Done, s)
  }

  /**
   * `login` once the POST has settled (`reply` is `None` when it was
   * rejected). A non-object payload counts as `{}`, so that user and token
   * are always written together.
   */
  function LoginStep(c: Codec, s: Session, email: string, reply: Option<LoginReply>): (r: Step)
    ensures r.outcome.Raised? <==> reply.None? || !Truthy(ChosenToken(reply.value))
    ensures r.outcome.Raised? ==> r.after == s
    ensures r.outcome == Done ==>
      var t := ChosenToken(reply.value).value;
      var u := DerivedUser(Fields(ParseJwt(c, t)), email);
      && r.after.token == Some(t)
      && r.after.user == Some(u)
      && r.after.storage == s.storage[TokenKey := t][UserKey := c.stringifyUser(u)]
      && r.after.headers == s.headers[AuthHeader := Bearer(t)]
  {
    if reply.None? then Step(Raised(RequestFailed), s)
    else
      var chosen := ChosenToken(reply.value);
      if !Truthy(chosen) then Step(Raised(NoToken), s)
      else
        var t := chosen.value;
        var u := DerivedUser(Fields(ParseJwt(c, t)), email);
        Step(Done, Session(Some(u), Some(t),
                           s.storage[TokenKey := t][UserKey := c.stringifyUser(u)],
                           s.headers[AuthHeader := Bearer(t)]))
  }

  /**
   * `login` as written: the token is stored, put in the header and set
   * before the payload is read, and reading a field of a `null` payload
   * throws, leaving `user` and the stored user as they were.
   */
  function LoginStepAsWritten(c: Codec, s: Session, email: string, reply: Option<LoginReply>): (r: Step)
    ensures reply.None? || !Truthy(ChosenToken(reply.value)) || ParseJwt(c, ChosenToken(reply.value).value) != Null
      ==> r == LoginStep(c, s, email, reply)
    ensures reply.Some? && Truthy(ChosenToken(reply.value)) && ParseJwt(c, ChosenToken(reply.value).value) == Null ==>
      var t := ChosenToken(reply.value).value;
      r == Step(Raised(PayloadNotObject),
                s.(token := Some(t), storage := s.storage[TokenKey := t], headers := s.headers[AuthHeader := Bearer(t)]))
    ensures r.outcome == Raised(PayloadNotObject) ==>
      && r.after.token == ChosenToken(reply.value)
      && r.after.user == s.user
      && Stored(r.after.storage, UserKey) == Stored(s.storage, UserKey)
  {
    if reply.None? then Step(Raised(RequestFailed), s)
    else
      var chosen := ChosenToken(reply.value);
      if !Truthy(chosen) then Step(Raised(NoToken), s)
      else
        var t := chosen.value;
        var stored := s.(storage := s.storage[TokenKey := t], headers := s.headers[AuthHeader := Bearer(t)], token := Some(t));
        var payload := ParseJwt(c, t);
        if payload == Null then Step(Raised(PayloadNotObject), stored)
        else
          var u := DerivedUser(Fields(payload), email);
          Step(Done, stored.(user := Some(u), storage := stored.storage[UserKey := c.stringifyUser(u)]))
  }

  /** `logout`: both entries removed, the header deleted, `user` and `token` null. */
  function LogoutStep(s: Session): (r: Session)
    ensures r.user.None? && r.token.None? && !r.IsAuthenticated()
    ensures r.storage.Keys == s.storage.Keys - {TokenKey, UserKey}
    ensures r.headers.Keys == s.headers.Keys - {AuthHeader}
    ensures forall k :: k in r.storage ==> r.storage[k] == s.storage[k]
    ensures forall k :: k in r.headers ==> r.headers[k] == s.headers[k]
  {
    Session(None, None, s.storage - {TokenKey} - {UserKey}, s.headers - {AuthHeader})
  }

  /** What the provider can be asked to do; `register` only posts and changes nothing. */
  datatype Event =
    | Mount
    | Login(email: string, reply: Option<LoginReply>)
    | Logout
    | Register(accepted: bool)

  /** `m` and `m'` hold the same entries outside `owned`. */
  ghost predicate SameOutside(m: map<string, string>, m': map<string, string>, owned: set<string>) {
    forall k :: k !in owned ==> (k in m <==> k in m') && (k in m && k in m' ==> m[k] == m'[k])
  }

  /** One event; the provider writes only its two storage keys and its one header. */
  function Apply(c: Codec, s: Session, e: Event): (r: Session)
    ensures e.Register? ==> r == s
    ensures SameOutside(s.storage, r.storage, {TokenKey, UserKey})
    ensures SameOutside(s.headers, r.headers, {AuthHeader})
  {
    match e
    case Mount => MountStep(c, s).after
    case Login(email, reply) => LoginStep(c, s, email, reply).after
    case Logout => LogoutStep(s)
    case Register(_) => s
  }

  /** The session after the events, in order. */
  function Run(c: Codec, s: Session, events: seq<Event>): (r: Session)
    ensures SameOutside(s.storage, r.storage, {TokenKey, UserKey})
    ensures SameOutside(s.headers, r.headers, {AuthHeader})
    decreases |events|
  {
    if events == [] then s else Run(c, Apply(c, s, events[0]), events[1..])
  }

  /** Each transition keeps the session coherent. */
  lemma ApplyKeepsCoherent(c: Codec, s: Session, e: Event)
    requires s.Coherent()
    ensures Apply(c, s, e).Coherent()
  {
  }

  lemma {:induction false} RunKeepsCoherent(c: Codec, s: Session, events: seq<Event>)
    requires s.Coherent()
    ensures Run(c, s, events).Coherent()
    decreases |events|
  {
    if events != [] {
      ApplyKeepsCoherent(c, s, events[0]);
      RunKeepsCoherent(c, Apply(c, s, events[0]), events[1..]);
    }
  }

  /**
   * In every state reached from the first render by mount, login, logout and
   * register: `isAuthenticated` holds iff there is a token, iff there is a
   * user; the token is never empty; the header carries it.
   */
  lemma {:induction false} Reachable(c: Codec, storage: map<string, string>, headers: map<string, string>, events: seq<Event>)
    requires AuthHeader !in headers
    ensures var s := Run(c, Initial(storage, headers), events);
      && (s.IsAuthenticated() <==> s.token.Some?)
      && (s.user.Some? <==> s.token.Some?)
      && s.token != Some("")
      && (s.token.Some? ==> AuthHeader in s.headers && s.headers[AuthHeader] == Bearer(s.token.value))
  {
    RunKeepsCoherent(c, Initial(storage, headers), events);
  }

  /** `??` only skips a missing `accessToken`: an empty one is chosen, and login then throws. */
  lemma EmptyAccessTokenNotSkipped(c: Codec, s: Session, email: string, fallback: string)
    ensures LoginStep(c, s, email, Some(LoginReply(Some(""), Some(fallback)))) == Step(Raised(NoToken), s)
  {
  }

  /** A fresh page load after a successful login restores the same token and user. */
  lemma LoginThenReload(c: Codec, s: Session, email: string, reply: Option<LoginReply>, headers: map<string, string>)
    requires Lawful(c)
    requires LoginStep(c, s, email, reply).outcome == Done
    ensures var after := LoginStep(c, s, email, reply).after;
      var reloaded := MountStep(c, Initial(after.storage, headers));
      && reloaded.outcome == Done
      && reloaded.after.user == after.user
      && reloaded.after.token == after.token
      && reloaded.after.headers == headers[AuthHeader := after.headers[AuthHeader]]
  {
  }

  /** A fresh page load after logout stays signed out. */
  lemma LogoutThenReload(c: Codec, s: Session, headers: map<string, string>)
    ensures MountStep(c, Initial(LogoutStep(s).storage, headers)) == Step(Done, Initial(LogoutStep(s).storage, headers))
  {
  }

  /** Logging out twice is logging out once. */
  lemma LogoutIdempotent(s: Session)
    ensures LogoutStep(LogoutStep(s)) == LogoutStep(s)
  {
  }

  /**
   * As written, a token whose payload segment decodes to `null` (such as
   * `h.bnVsbA==.s`) leaves a signed-out session with a token and no user.
   */
  lemma NullPayloadSplitsSession(c: Codec, storage: map<string, string>, headers: map<string, string>, email: string)
    requires AuthHeader !in headers
    requires c.decodeSegment("bnVsbA==") == Some(Null)
    ensures var t := "h.bnVsbA==.s";
      var r := LoginStepAsWritten(c, Initial(storage, headers), email, Some(LoginReply(Some(t), None)));
      && r.outcome == Raised(PayloadNotObject)
      && r.after.token == Some(t) && r.after.IsAuthenticated()
      && r.after.user.None?
      && !r.after.Coherent()
  {
    Jwt.CompactPayload("h", "bnVsbA==", "s");
    assert "h.bnVsbA==.s" == "h" + "." + "bnVsbA==" + "." + "s";
  }

  /** The provider, holding the session state and the shared storage and header map it writes. */
  class AuthProvider {
    const codec: Codec
    var user: Option<User>
    var token: Option<string>
    var storage: map<string, string>
    var headers: map<string, string>

    function State(): Session
      reads this
    {
      Session(user, token, storage, headers)
    }

    constructor (codec: Codec, storage: map<string, string>, headers: map<string, string>)
      ensures this.codec == codec && State() == Initial(storage, headers)
    {
      this.codec := codec;
      user := None;
      token := None;
      this.storage := storage;
      this.headers := headers;
    }

    method Mount() returns (outcome: Outcome)
      modifies this
      ensures Step(outcome, State()) == MountStep(codec, old(State()))
    {
      var savedUser := Stored(storage, UserKey);
      var savedToken := Stored(storage, TokenKey);
      outcome := Done;
      if Truthy(savedUser) && Truthy(savedToken) {
        var parsed := codec.parseUser(savedUser.value);
        if parsed.None? {
          return Raised(StoredUserUnparsable);
        }
        user := parsed;
        token := savedToken;
        headers := headers[AuthHeader := Bearer(savedToken.value)];
      }
    }

    method Login(email: string, reply: Option<LoginReply>) returns (outcome: Outcome)
      modifies this
      ensures Step(outcome, State()) == LoginStep(codec, old(State()), email, reply)
    {
      if reply.None? {
        return Raised(RequestFailed);
      }
      var accessToken := ChosenToken(reply.value);
      if !Truthy(accessToken) {
        return Raised(NoToken);
      }
      var t := accessToken.value;
      storage := storage[TokenKey := t];
      headers := headers[AuthHeader := Bearer(t)];
      token := Some(t);
      var payload := Fields(ParseJwt(codec, t));
      var u := DerivedUser(payload, email);
      user := Some(u);
      storage := storage[UserKey := codec.stringifyUser(u)];
      outcome := Done;
    }

    /** `register` posts and never touches the session: it has nothing to modify. */
    method Register(name: string, email: string, password: string, accepted: bool) returns (outcome: Outcome)
      ensures outcome.Raised? <==> !accepted
    {
      outcome := if accepted then Done else Raised(RequestFailed);
    }

    method Logout()
      modifies this
      ensures State() == LogoutStep(old(State()))
    {
      storage := storage - {TokenKey};
      storage := storage - {UserKey};
      headers := headers - {AuthHeader};
      token := None;
      user := None;
    }
  }
}
