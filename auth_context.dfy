/**
 * The session state of the front-end (`AuthProvider`): the token and the user held in component state,
 * mirrored in the browser's `localStorage` under two keys. The network call of `login` and `JSON.parse`
 * are parameters; the storage is a map field of the provider.
 */
module AuthContext {
  import opened Wrappers
  import Text

  const TOKEN_KEY := "auth_token"
  const USER_KEY := "auth_user"

  const MSG_INVALID := "Usuário ou senha inválidos"
  const MSG_TIMEOUT := "Tempo de conexão esgotado. Verifique sua internet."
  const MSG_CONNECT := "Não foi possível conectar ao servidor"
  const MSG_GENERIC := "Erro ao fazer login. Tente novamente."
  const MSG_NO_TOKEN := "Token não recebido do servidor"
  const MSG_LOGGED_OUT := "Você foi desconectado"

  datatype User = User(username: string)

  /** A toast shown to the user. */
  datatype Notice = Success(text: string) | Info(text: string)

  /**
   * What `JSON.parse` makes of the stored user text: it throws, or it yields a value; `None` stands for a
   * falsy JSON value (`null`, `false`, `0`, `""`).
   */
  datatype ParseOutcome = SyntaxError | Parsed(value: Option<User>)

  /**
   * A rejected request as axios reports it: the HTTP status when a response arrived (`None` when there
   * is no `error.response`), the error code and the message.
   */
  datatype LoginFailure = LoginFailure(status: Option<int>, code: Option<string>, message: string)

  /** The outcome of `authAPI.login`: a reply carrying `data.token` (possibly missing), or a rejection. */
  datatype LoginReply = Replied(token: Option<string>) | Rejected(failure: LoginFailure)

  /** A snapshot of the provider: its three state fields, the storage and the toasts shown so far. */
  datatype AuthState = AuthState(user: Option<User>, token: Option<string>, isLoading: bool,
                                 storage: map<string, string>, notices: seq<Notice>)

  /** JavaScript truthiness of a string that may be `null`. */
  predicate Truthy(s: Option<string>)
  {
    s.Some? && s.value != []
  }

  /** `isAuthenticated: !!token && !!user`. */
  predicate Authenticated(s: AuthState)
  {
    Truthy(s.token) && s.user.Some?
  }

  /** `localStorage.getItem(key)`. */
  function GetItem(storage: map<string, string>, key: string): (r: Option<string>)
    ensures r.Some? <==> key in storage
    ensures r.Some? ==> r.value == storage[key]
  {
    if key in storage then Some(storage[key]) else None
  }

  /** The storage with both session keys removed. */
  function WithoutSession(storage: map<string, string>): (r: map<string, string>)
    ensures TOKEN_KEY !in r && USER_KEY !in r
    ensures forall k :: k in storage && k != TOKEN_KEY && k != USER_KEY ==> k in r && r[k] == storage[k]
    ensures forall k :: k in r ==> k in storage
  {
    storage - {TOKEN_KEY, USER_KEY}
  }

  function HexDigit(d: nat): char
    requires d < 16
  {
    if d < 10 then '0' + d as char else 'a' + (d - 10) as char
  }

  /** The characters `JSON.stringify` writes for one character inside a string literal. */
  function EscapeChar(c: char): (r: string)
    ensures |r| > 0
  {
    if c == '"' then "\\\""
    else if c == '\\' then "\\\\"
    else if c == '\U{8}' then "\\b"
    else if c == '\U{C}' then "\\f"
    else if c == '\n' then "\\n"
    else if c == '\r' then "\\r"
    else if c == '\t' then "\\t"
    else if (c as int) < 0x20 then "\\u00" + [HexDigit(c as int / 16), HexDigit(c as int % 16)]
    else [c]
  }

  function Escape(s: string): string
  {
    if s == [] then [] else EscapeChar(s[0]) + Escape(s[1..])
  }

  /** `JSON.stringify({ username })`. */
  function StringifyUser(u: User): (r: string)
    ensures Text.IsPrefix("{\"username\":\"", r) && Text.IsSuffix("\"}", r)
  {
    "{\"username\":\"" + Escape(u.username) + "\"}"
  }

  /** The state the provider starts in: no user, no token, loading. */
  function Initial(storage: map<string, string>): AuthState
  {
    AuthState(None, None, true, storage, [])
  }

  /**
   * `initAuth`: when both stored values are truthy, `setToken` runs before `JSON.parse`, so a stored
   * user that does not parse leaves the token set while both keys are removed; `isLoading` ends false.
   */
  function AfterInit(s: AuthState, parse: string -> ParseOutcome): (r: AuthState)
    ensures !r.isLoading && r.notices == s.notices
  {
    var storedToken := GetItem(s.storage, TOKEN_KEY);
    var storedUser := GetItem(s.storage, USER_KEY);
    if Truthy(storedToken) && Truthy(storedUser) then
      match parse(storedUser.value)
      case Parsed(u) => s.(token := storedToken, user := u, isLoading := false)
      case SyntaxError => s.(token := storedToken, storage := WithoutSession(s.storage), isLoading := false)
    else
      s.(isLoading := false)
  }

  /** The error `login` throws for a failure, in the order the `catch` block tests the cases. */
  function LoginErrorMessage(f: LoginFailure): (m: string)
    ensures m == MSG_INVALID <==> f.status == Some(401)
    ensures m == MSG_TIMEOUT
        <==> f.status != Some(401) && (f.code == Some("ECONNABORTED") || Text.Includes(f.message, "timeout"))
    ensures m == MSG_CONNECT
        <==> f.status.None? && f.code != Some("ECONNABORTED") && !Text.Includes(f.message, "timeout")
    ensures m == MSG_GENERIC
        <==> f.status.Some? && f.status != Some(401) && f.code != Some("ECONNABORTED")
             && !Text.Includes(f.message, "timeout")
  {
    if f.status == Some(401) then MSG_INVALID
    else if f.code == Some("ECONNABORTED") || Text.Includes(f.message, "timeout") then MSG_TIMEOUT
    else if f.status.None? then MSG_CONNECT
    else MSG_GENERIC
  }

  /** The failure `login` ends in, if any: the rejection, or the error thrown for a reply without a token. */
  function LoginFailureOf(reply: LoginReply): (r: Option<LoginFailure>)
    ensures r.None? <==> reply.Replied? && Truthy(reply.token)
  {
    match reply
    case Rejected(f) => Some(f)
    case Replied(t) => if Truthy(t) then None else Some(LoginFailure(None, None, MSG_NO_TOKEN))
  }

  /** The state after `login`: persisted and set on success, both keys removed and state nulled on failure. */
  function AfterLogin(s: AuthState, username: string, reply: LoginReply): AuthState
  {
    if LoginFailureOf(reply).None? then
      var t := reply.token.value;
      var u := User(username);
      s.(storage := s.storage[TOKEN_KEY := t][USER_KEY := StringifyUser(u)],
         token := Some(t), user := Some(u),
         notices := s.notices + [Success("Bem-vindo, " + username + "!")])
    else
      s.(storage := WithoutSession(s.storage), token := None, user := None)
  }

  /** What the promise returned by `login` settles to. */
  function LoginResult(reply: LoginReply): (r: Result<()>)
    ensures r.Ok? <==> LoginFailureOf(reply).None?
  {
    var f := LoginFailureOf(reply);
    if f.None? then Ok(()) else Err(LoginErrorMessage(f.value))
  }

  /** `logout`: both keys removed, state nulled, an info toast. */
  function AfterLogout(s: AuthState): AuthState
  {
    s.(storage := WithoutSession(s.storage), token := None, user := None,
       notices := s.notices + [Info(MSG_LOGGED_OUT)])
  }

  /** Two truthy stored values whose user text parses are restored as they are, storage untouched. */
  lemma InitRestores(s: AuthState, parse: string -> ParseOutcome)
    requires Truthy(GetItem(s.storage, TOKEN_KEY)) && Truthy(GetItem(s.storage, USER_KEY))
    requires parse(s.storage[USER_KEY]).Parsed?
    ensures var r := AfterInit(s, parse);
      r.storage == s.storage && r.token == Some(s.storage[TOKEN_KEY]) && r.user == parse(s.storage[USER_KEY]).value
  {
  }

  /**
   * From the start state, init authenticates exactly when both stored values are truthy and the user
   * text parses to a (truthy) value.
   */
  lemma InitAuthenticatesIff(storage: map<string, string>, parse: string -> ParseOutcome)
    ensures Authenticated(AfterInit(Initial(storage), parse))
        <==> Truthy(GetItem(storage, TOKEN_KEY)) && Truthy(GetItem(storage, USER_KEY))
             && parse(storage[USER_KEY]).Parsed? && parse(storage[USER_KEY]).value.Some?
  {
  }

  /** Without two truthy stored values, init changes nothing but `isLoading`. */
  lemma InitUntouched(s: AuthState, parse: string -> ParseOutcome)
    requires !(Truthy(GetItem(s.storage, TOKEN_KEY)) && Truthy(GetItem(s.storage, USER_KEY)))
    ensures AfterInit(s, parse) == s.(isLoading := false)
  {
  }

  /**
   * From the start state, an unparseable stored user clears both keys and leaves the session
   * unauthenticated, although the token field has been set.
   */
  lemma InitSyntaxErrorClears(storage: map<string, string>, parse: string -> ParseOutcome)
    requires Truthy(GetItem(storage, TOKEN_KEY)) && Truthy(GetItem(storage, USER_KEY))
    requires parse(storage[USER_KEY]).SyntaxError?
    ensures var r := AfterInit(Initial(storage), parse);
      r.storage == WithoutSession(storage) && r.token == Some(storage[TOKEN_KEY]) && !Authenticated(r)
  {
  }

  /** A successful login persists the token and the serialised user and authenticates the session. */
  lemma LoginSuccess(s: AuthState, username: string, reply: LoginReply)
    requires reply.Replied? && Truthy(reply.token)
    ensures var r := AfterLogin(s, username, reply);
      && Authenticated(r)
      && r.token == reply.token && r.user == Some(User(username))
      && GetItem(r.storage, TOKEN_KEY) == reply.token
      && GetItem(r.storage, USER_KEY) == Some(StringifyUser(User(username)))
      && (forall k :: k != TOKEN_KEY && k != USER_KEY ==> GetItem(r.storage, k) == GetItem(s.storage, k))
      && LoginResult(reply).Ok?
  {
  }

  /** Any failed login removes both keys, nulls the state and rejects with one of the four messages. */
  lemma LoginFailureClears(s: AuthState, username: string, reply: LoginReply)
    requires LoginFailureOf(reply).Some?
    ensures var r := AfterLogin(s, username, reply);
      && !Authenticated(r) && r.token.None? && r.user.None?
      && TOKEN_KEY !in r.storage && USER_KEY !in r.storage
      && LoginResult(reply).Err?
      && LoginResult(reply).message in {MSG_INVALID, MSG_TIMEOUT, MSG_CONNECT, MSG_GENERIC}
  {
  }

  /** A reply without a token is reported as a failure to reach the server. */
  lemma MissingTokenReportedAsConnect(reply: LoginReply)
    requires reply.Replied? && !Truthy(reply.token)
    ensures LoginResult(reply) == Err(MSG_CONNECT)
  {
    var f := LoginFailure(None, None, MSG_NO_TOKEN);
    assert LoginFailureOf(reply) == Some(f);
    NoResponseReportedAsConnect(f);
  }

  /** A failure without a response, code or mention of a timeout is reported as a failure to connect. */
  lemma NoResponseReportedAsConnect(f: LoginFailure)
    requires f.status.None? && f.code.None? && f.message == MSG_NO_TOKEN
    ensures LoginErrorMessage(f) == MSG_CONNECT
  {
    NoTokenMessageLacksTimeout();
  }

  lemma NoTokenMessageLacksTimeout()
    ensures !Text.Includes(MSG_NO_TOKEN, "timeout")
  {
    assert 't' !in MSG_NO_TOKEN;
    Text.MissingFirstCharExcludes(MSG_NO_TOKEN, "timeout");
  }

  /** A session saved by a successful login is restored by the next page load. */
  lemma LoginThenReload(s: AuthState, username: string, reply: LoginReply, parse: string -> ParseOutcome)
    requires reply.Replied? && Truthy(reply.token)
    requires parse(StringifyUser(User(username))) == Parsed(Some(User(username)))
    ensures var saved := AfterLogin(s, username, reply).storage;
      var r := AfterInit(Initial(saved), parse);
      Authenticated(r) && r.token == reply.token && r.user == Some(User(username)) && r.storage == saved
  {
    var saved := AfterLogin(s, username, reply).storage;
    assert Truthy(GetItem(saved, USER_KEY)) by {
      assert saved[USER_KEY] == StringifyUser(User(username));
      assert Text.IsPrefix("{\"username\":\"", saved[USER_KEY]);
    }
  }

  /** After logout the session is unauthenticated and neither key is stored. */
  lemma LogoutClears(s: AuthState)
    ensures var r := AfterLogout(s);
      !Authenticated(r) && TOKEN_KEY !in r.storage && USER_KEY !in r.storage
      && forall k :: k in s.storage && k != TOKEN_KEY && k != USER_KEY ==> k in r.storage && r.storage[k] == s.storage[k]
  {
  }

  /** The provider: component state plus the `localStorage` it mirrors. */
  class AuthProvider {
    var user: Option<User>
    var token: Option<string>
    var isLoading: bool
    var storage: map<string, string>
    var notices: seq<Notice>

    function State(): AuthState
      reads this
    {
      AuthState(user, token, isLoading, storage, notices)
    }

    predicate IsAuthenticated()
      reads this
    {
      Authenticated(State())
    }

    constructor (stored: map<string, string>)
      ensures State() == Initial(stored)
    {
      user, token, isLoading, storage, notices := None, None, true, stored, [];
    }

    /** The mount effect: read both keys, restore or clear, then leave the loading state. */
    method InitAuth(parse: string -> ParseOutcome)
      modifies this
      ensures State() == AfterInit(old(State()), parse)
    {
      var storedToken := GetItem(storage, TOKEN_KEY);
      var storedUser := GetItem(storage, USER_KEY);
      if Truthy(storedToken) && Truthy(storedUser) {
        token := storedToken;
        var parsed := parse(storedUser.value);
        if parsed.SyntaxError? {
          storage := storage - {TOKEN_KEY};
          storage := storage - {USER_KEY};
        } else {
          user := parsed.value;
        }
      }
      isLoading := false;
    }

    method Login(username: string, reply: LoginReply) returns (result: Result<()>)
      modifies this
      ensures State() == AfterLogin(old(State()), username, reply)
      ensures result == LoginResult(reply)
      ensures result.Ok? <==> IsAuthenticated()
    {
      var failure: Option<LoginFailure>;
      if reply.Rejected? {
        failure := Some(reply.failure);
      } else if !Truthy(reply.token) {
        failure := Some(LoginFailure(None, None, MSG_NO_TOKEN));
      } else {
        failure := None;
      }
      assert failure == LoginFailureOf(reply);
      if failure.None? {
        SaveSession(reply.token.value, User(username));
        result := Ok(());
      } else {
        ClearSession();
        result := Err(LoginErrorMessage(failure.value));
      }
    }

    /** The success path of `login`: persist both keys, set the state, greet the user. */
    method SaveSession(receivedToken: string, userData: User)
      modifies this
      ensures State() == old(State()).(storage := old(storage)[TOKEN_KEY := receivedToken][USER_KEY := StringifyUser(userData)],
                                       token := Some(receivedToken), user := Some(userData),
                                       notices := old(notices) + [Success("Bem-vindo, " + userData.username + "!")])
    {
      storage := storage[TOKEN_KEY := receivedToken];
      storage := storage[USER_KEY := StringifyUser(userData)];
      token := Some(receivedToken);
      user := Some(userData);
      notices := notices + [Success("Bem-vindo, " + userData.username + "!")];
    }

    /** The `catch` of `login` up to the rethrow: both keys removed and the state nulled. */
    method ClearSession()
      modifies this
      ensures State() == old(State()).(storage := WithoutSession(old(storage)), token := None, user := None)
    {
      storage := storage - {TOKEN_KEY};
      storage := storage - {USER_KEY};
      token := None;
      user := None;
    }

    method Logout()
      modifies this
      ensures State() == AfterLogout(old(State()))
      ensures !IsAuthenticated()
    {
      storage := storage - {TOKEN_KEY};
      storage := storage - {USER_KEY};
      token := None;
      user := None;
      notices := notices + [Info(MSG_LOGGED_OUT)];
    }

    /** `getStoredToken`: the stored token, whatever the in-memory state says. */
    function GetStoredToken(): (r: Option<string>)
      reads this
      ensures r == GetItem(storage, TOKEN_KEY)
    {
      if TOKEN_KEY in storage then Some(storage[TOKEN_KEY]) else None
    }

    /** `clearAuth`: both keys removed; the in-memory token and user are left as they are. */
    method ClearAuth()
      modifies this
      ensures State() == old(State()).(storage := WithoutSession(old(storage)))
    {
      storage := storage - {TOKEN_KEY};
      storage := storage - {USER_KEY};
    }
  }
}
