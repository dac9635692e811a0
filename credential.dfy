/**
  The session registry and the request guard of service/credential.py.

  The Redis hash "user" (session token -> user id) is the field `sessions` of
  class `Credential`.  Signing and verifying JWTs (HS256) happens in a foreign
  library: verification is the oracle `decode`, and the user table is reached
  only through the lookup oracle `findUser`.  The clock is a parameter.
*/
module CredentialService {
  import opened Wrappers

  type Token = string
  type UserId = string

  /** Seconds since the Unix epoch (UTC), and a signed span of seconds. */
  type Instant = int
  type Duration = int

  /** A value of a JWT payload, as far as this module looks at one. */
  datatype ClaimValue = Null | Text(text: string) | Number(number: int)

  /** A JWT payload: a dictionary from claim names to values. */
  type Claims = map<string, ClaimValue>

  const ExpiryClaim := "exp"
  const SubjectClaim := "sub"

  /**
    The claims that create_access_token signs: a copy of `data` in which
    "exp" is set to now + expiresDelta, whether or not `data` had one.
    (`data` is a value, so the caller's dictionary cannot change.)
  */
  function AccessTokenClaims(data: Claims, expiresDelta: Duration, now: Instant): (claims: Claims)
    ensures claims.Keys == data.Keys + {ExpiryClaim}
    ensures claims[ExpiryClaim] == Number(now + expiresDelta)
    ensures forall k :: k in data && k != ExpiryClaim ==> claims[k] == data[k]
  {
    data[ExpiryClaim := Number(now + expiresDelta)]
  }

  /** The exception every failed check raises. */
  datatype HttpException = HttpException(statusCode: int, detail: string, headers: map<string, string>)

  const CredentialsException :=
    HttpException(401, "Could not validate credentials", map["WWW-Authenticate" := "Bearer"])

  datatype AuthOutcome<User> = Authenticated(user: User) | Rejected(error: HttpException)

  /** payload.get("sub"): an absent claim reads as None, like an explicit null. */
  function Subject(payload: Claims): (v: ClaimValue)
    ensures SubjectClaim in payload ==> v == payload[SubjectClaim]
    ensures SubjectClaim !in payload ==> v == Null
  {
    if SubjectClaim in payload then payload[SubjectClaim] else Null
  }

  /** The four checks of the guard, stated as one conjunction. */
  ghost predicate ChecksPass<User>(decode: Token -> Option<Claims>, sessions: map<Token, UserId>,
                                   findUser: ClaimValue -> Option<User>, token: Token)
  {
    && decode(token).Some?
    && Subject(decode(token).value) != Null
    && token in sessions
    && findUser(Subject(decode(token).value)).Some?
  }

  /**
    get_current_user: decode the bearer token, read its subject, require the
    token to be registered, then load the user with the subject's id.  Any
    failure gives the same 401.  `sessions` is the state of the hash when
    is_valid_token runs.
  */
  function GetCurrentUser<User>(decode: Token -> Option<Claims>, sessions: map<Token, UserId>,
                                findUser: ClaimValue -> Option<User>, token: Token): (r: AuthOutcome<User>)
    ensures r.Authenticated? <==> ChecksPass(decode, sessions, findUser, token)
    ensures r.Authenticated? ==> r.user == findUser(Subject(decode(token).value)).value
    ensures r.Rejected? ==> r.error == CredentialsException
  {
    match decode(token)
    case None => Rejected(CredentialsException)
    case Some(payload) =>
      var userId := Subject(payload);
      if userId == Null then Rejected(CredentialsException)
      else if token !in sessions then Rejected(CredentialsException)
      else
        match findUser(userId)
        case None => Rejected(CredentialsException)
        case Some(user) => Authenticated(user)
  }

  /**
    The JWT stage runs first: a token that does not decode, or whose payload
    has no subject, is rejected whatever the session table and the user
    table hold.
  */
  lemma TokenStageFailureSkipsStoreAndUsers<User>(decode: Token -> Option<Claims>,
                                                  sessions1: map<Token, UserId>, sessions2: map<Token, UserId>,
                                                  findUser1: ClaimValue -> Option<User>,
                                                  findUser2: ClaimValue -> Option<User>, token: Token)
    requires decode(token).None? || Subject(decode(token).value) == Null
    ensures GetCurrentUser(decode, sessions1, findUser1, token) == Rejected(CredentialsException)
    ensures GetCurrentUser(decode, sessions1, findUser1, token) == GetCurrentUser(decode, sessions2, findUser2, token)
  {
  }

  /** The store is consulted before the users: an unregistered token never reaches the user lookup. */
  lemma UnregisteredTokenSkipsUsers<User>(decode: Token -> Option<Claims>, sessions: map<Token, UserId>,
                                          findUser1: ClaimValue -> Option<User>,
                                          findUser2: ClaimValue -> Option<User>, token: Token)
    requires token !in sessions
    ensures GetCurrentUser(decode, sessions, findUser1, token) == Rejected(CredentialsException)
    ensures GetCurrentUser(decode, sessions, findUser1, token) == GetCurrentUser(decode, sessions, findUser2, token)
  {
  }

  /**
    is_valid_token asks only whether the token is a key of the hash: the user
    id stored with it is never compared with the token's subject, so the
    outcome does not depend on it.
  */
  lemma StoredUserIdNotConsulted<User>(decode: Token -> Option<Claims>, sessions: map<Token, UserId>,
                                       findUser: ClaimValue -> Option<User>, token: Token, u1: UserId, u2: UserId)
    ensures GetCurrentUser(decode, sessions[token := u1], findUser, token)
         == GetCurrentUser(decode, sessions[token := u2], findUser, token)
  {
  }

  /**
    Issue then register: a token signed over AccessTokenClaims(data, ...)
    with a subject, registered in the table, and still accepted by the
    decoder, authenticates the subject's user.
  */
  lemma IssuedAndRegisteredTokenAuthenticates<User>(encode: Claims -> Token, decode: Token -> Option<Claims>,
                                                    sessions: map<Token, UserId>,
                                                    findUser: ClaimValue -> Option<User>,
                                                    data: Claims, expiresDelta: Duration, now: Instant,
                                                    userId: UserId, user: User)
    requires SubjectClaim in data && data[SubjectClaim] != Null
    requires decode(encode(AccessTokenClaims(data, expiresDelta, now))) == Some(AccessTokenClaims(data, expiresDelta, now))
    requires findUser(data[SubjectClaim]) == Some(user)
    ensures GetCurrentUser(decode, sessions[encode(AccessTokenClaims(data, expiresDelta, now)) := userId],
                           findUser, encode(AccessTokenClaims(data, expiresDelta, now)))
         == Authenticated(user)
  {
  }

  /** After delete_token, the token is rejected even if it still decodes. */
  lemma DeletedTokenRejected<User>(decode: Token -> Option<Claims>, sessions: map<Token, UserId>,
                                   findUser: ClaimValue -> Option<User>, token: Token)
    ensures GetCurrentUser(decode, sessions - {token}, findUser, token) == Rejected(CredentialsException)
  {
  }

  /** The Redis key of the session hash. */
  const SessionHashKey := "user"

  /**
    A handle on the shared session table.  Every Credential object of the
    service talks to the one Redis hash "user"; an object here stands for
    that hash, held in the field `sessions`, and the model uses one handle
    at a time.
  */
  class Credential {
    var sessions: map<Token, UserId>

    /** Connecting to Redis: the hash holds whatever earlier requests left there. */
    constructor (existing: map<Token, UserId>)
      ensures sessions == existing
    {
      sessions := existing;
    }

    /**
      hset("user", token, user_id): inserts the entry, or overwrites the user
      id of a token that is already registered.  The following
      expire(token, expire) sets a time-to-live on the top-level key named by
      the token, not on this hash field, so the entry itself never expires.
      The one exception is a token equal to the hash's own key "user": then
      the time-to-live lands on the whole table, and a non-positive one
      deletes it at once.
    */
    method RegisterToken(expire: Duration, userId: UserId, token: Token)
      modifies this
      ensures token == SessionHashKey && expire <= 0 ==> sessions == map[]
      ensures !(token == SessionHashKey && expire <= 0) ==> sessions == old(sessions)[token := userId]
      ensures token in sessions <==> !(token == SessionHashKey && expire <= 0)
    {
      sessions := sessions[token := userId];
      if token == SessionHashKey && expire <= 0 {
        sessions := map[];
      }
    }

    /** hdel("user", token): removes this token only; an absent token is a no-op. */
    method DeleteToken(token: Token)
      modifies this
      ensures sessions == old(sessions) - {token}
      ensures token !in sessions
      ensures token !in old(sessions) ==> sessions == old(sessions)
    {
      sessions := sessions - {token};
    }

    /** hexists("user", token). */
    method IsValidToken(token: Token) returns (valid: bool)
      ensures valid <==> token in sessions
    {
      valid := token in sessions;
    }
  }

  /**
    Register, check, revoke, check, revoke again: the token is valid right
    after registration, invalid after deletion, a second deletion changes
    nothing, and the other tokens keep their entries throughout -- unless
    the token is "user" with a non-positive time-to-live, which empties the
    whole table.
  */
  method SessionLifecycle(store: Credential, expire: Duration, userId: UserId, token: Token)
    returns (validAfterRegister: bool, validAfterDelete: bool)
    modifies store
    ensures validAfterRegister <==> !(token == SessionHashKey && expire <= 0)
    ensures !validAfterDelete
    ensures !(token == SessionHashKey && expire <= 0) ==> store.sessions == old(store.sessions) - {token}
    ensures token == SessionHashKey && expire <= 0 ==> store.sessions == map[]
  {
    store.RegisterToken(expire, userId, token);
    validAfterRegister := store.IsValidToken(token);
    store.DeleteToken(token);
    validAfterDelete := store.IsValidToken(token);
    store.DeleteToken(token);
  }
}
