/** The client's session service: what it keeps in browser storage, its request and response
    interceptors (installed on the default axios instance, so they see only this service's own
    requests), the reaction to an expired session, and the questions the pages ask of it. */
module AuthClient {
  import opened Wrappers
  import Text
  import opened Records
  import Calls

  /** A storage entry: a plain string, or the user object stored in its serialised form. */
  datatype Stored = Texto(s: string) | Objeto(u: Usuario)

  /** Browser storage: key to entry. */
  type Storage = map<string, Stored>

  const TokenKey := "token"
  const UsuarioKey := "usuario"

  /** The body of a successful login reply: a token when one was issued, and the user. */
  datatype LoginData = LoginData(token: Option<string>, usuario: Usuario)

  /** `localStorage.getItem('token')` when it holds a truthy string. */
  function Token(st: Storage): (t: Option<string>)
    ensures t.Some? <==> TokenKey in st && st[TokenKey].Texto? && st[TokenKey].s != ""
    ensures t.Some? ==> st[TokenKey] == Texto(t.value) && t.value != ""
  {
    if TokenKey in st && st[TokenKey].Texto? && st[TokenKey].s != "" then Some(st[TokenKey].s) else None
  }

  /** The credentials of the `Authorization` header: the scheme `Bearer`, one space and the
      token, as section 2.1 of RFC 6750 lays the header out. */
  function Bearer(token: string): string {
    "Bearer " + token
  }

  /** Reads the token back out of an `Authorization` value of the `Bearer` scheme. */
  function BearerToken(h: string): (t: Option<string>)
    ensures t.Some? ==> h == Bearer(t.value)
  {
    if |h| >= 7 && h[..7] == "Bearer " then
      assert h == h[..7] + h[7..];
      Some(h[7..])
    else None
  }

  lemma BearerRoundTrip(token: string)
    ensures BearerToken(Bearer(token)) == Some(token)
  {
    assert Bearer(token)[..7] == "Bearer ";
    assert Bearer(token)[7..] == token;
  }

  /** The request interceptor: the headers of an outgoing request, with `Authorization` set to
      the bearer credentials exactly when a truthy token is stored, and no other header touched. */
  function ComToken(st: Storage, headers: map<string, string>): (h: map<string, string>)
    ensures Token(st).Some? ==> "Authorization" in h && BearerToken(h["Authorization"]) == Token(st)
    ensures Token(st).None? ==> h == headers
    ensures forall k :: k != "Authorization" ==> (k in h <==> k in headers)
    ensures forall k :: k in headers && k != "Authorization" ==> h[k] == headers[k]
  {
    match Token(st)
    case Some(t) =>
      BearerRoundTrip(t);
      headers["Authorization" := Bearer(t)]
    case None => headers
  }

  /** The response interceptor's condition: a reply with status 401 to a request that is not
      the login request, while the view is not the login page. */
  predicate Expirou(status: Option<int>, url: string, pathname: string) {
    status == Some(401) && !Text.Contains(url, "/auth/login") && pathname != "/login"
  }

  /** A wrong password on the login page is an ordinary error, not an expired session. */
  lemma LoginNaoExpira(status: Option<int>, url: string, pathname: string)
    ensures Text.Contains(url, "/auth/login") ==> !Expirou(status, url, pathname)
    ensures pathname == "/login" ==> !Expirou(status, url, pathname)
    ensures status != Some(401) ==> !Expirou(status, url, pathname)
  {
  }

  /** Storage without the two session keys; every other entry kept. */
  function SemSessao(st: Storage): (r: Storage)
    ensures TokenKey !in r && UsuarioKey !in r
    ensures forall k :: k != TokenKey && k != UsuarioKey ==> (k in r <==> k in st)
    ensures forall k :: k in r ==> r[k] == st[k]
  {
    st - {TokenKey, UsuarioKey}
  }

  /** The storage after a successful login reply: token and user written when the reply
      carries a truthy token, storage as it was otherwise. */
  function AposLogin(st: Storage, d: LoginData): (r: Storage)
    ensures d.token.Some? && d.token.value != "" ==>
      Token(r) == d.token && UsuarioKey in r && r[UsuarioKey] == Objeto(d.usuario)
    ensures d.token.None? || d.token.value == "" ==> r == st
    ensures forall k :: k != TokenKey && k != UsuarioKey ==> (k in r <==> k in st)
    ensures forall k :: k in r && k != TokenKey && k != UsuarioKey ==> r[k] == st[k]
  {
    if d.token.Some? && d.token.value != "" then
      st[TokenKey := Texto(d.token.value)][UsuarioKey := Objeto(d.usuario)]
    else st
  }

  /** The stored user, if an object is stored under `usuario`. */
  function UsuarioSalvo(st: Storage): (u: Option<Usuario>)
    ensures u.Some? <==> UsuarioKey in st && st[UsuarioKey].Objeto?
  {
    if UsuarioKey in st && st[UsuarioKey].Objeto? then Some(st[UsuarioKey].u) else None
  }

  /** `isAdmin`: a user is stored and its role is `admin`. */
  predicate EhAdmin(st: Storage) {
    UsuarioSalvo(st).Some? && UsuarioSalvo(st).value.role == "admin"
  }

  /** A login that issues a token authenticates the session and stores its user; logging out
      afterwards leaves no session and no user. */
  lemma LoginLogout(st: Storage, d: LoginData)
    requires d.token.Some? && d.token.value != ""
    ensures Token(AposLogin(st, d)).Some? && UsuarioSalvo(AposLogin(st, d)) == Some(d.usuario)
    ensures EhAdmin(AposLogin(st, d)) <==> d.usuario.role == "admin"
    ensures Token(SemSessao(AposLogin(st, d))).None? && UsuarioSalvo(SemSessao(AposLogin(st, d))).None?
  {
  }

  /** Logging out twice is logging out once. */
  lemma SemSessaoIdempotente(st: Storage)
    ensures SemSessao(SemSessao(st)) == SemSessao(st)
  {
  }

  /** The browser side of the session service: storage and the current location. */
  class Session {
    var storage: Storage
    var location: string

    constructor (st: Storage, path: string)
      ensures storage == st && location == path
    {
      storage, location := st, path;
    }

    /** `authService.login` after the request: a rejected request changes nothing and is passed
        on; a reply is stored as `AposLogin` says and returned. */
    method Login(resposta: Result<LoginData, Calls.Reply>) returns (r: Result<LoginData, Calls.Reply>)
      modifies this
      ensures r == resposta
      ensures resposta.Success? ==> storage == AposLogin(old(storage), resposta.value)
      ensures resposta.Failure? ==> storage == old(storage)
      ensures location == old(location)
    {
      if resposta.Success? {
        var d := resposta.value;
        if d.token.Some? && d.token.value != "" {
          storage := storage[TokenKey := Texto(d.token.value)];
          storage := storage[UsuarioKey := Objeto(d.usuario)];
        }
      }
      r := resposta;
    }

    /** `authService.logout`: the two session keys removed, nothing else. */
    method Logout()
      modifies this
      ensures storage == SemSessao(old(storage)) && location == old(location)
    {
      storage := storage - {TokenKey};
      storage := storage - {UsuarioKey};
    }

    /** The response interceptor on a failed request: on an expired session the session keys
        are removed and the view goes to `/login`; the error is rejected again either way. */
    method OnErro(status: Option<int>, url: string) returns (rejeitado: Option<int>)
      modifies this
      ensures rejeitado == status
      ensures Expirou(status, url, old(location)) ==> storage == SemSessao(old(storage)) && location == "/login"
      ensures !Expirou(status, url, old(location)) ==> storage == old(storage) && location == old(location)
    {
      if Expirou(status, url, location) {
        Logout();
        location := "/login";
      }
      rejeitado := status;
    }

    /** `isAuthenticated`: a non-empty token is stored. */
    function IsAuthenticated(): (b: bool)
      reads this
      ensures b <==> Token(storage).Some?
    {
      TokenKey in storage && storage[TokenKey].Texto? && storage[TokenKey].s != ""
    }

    /** `getUsuario`: the stored user, or nothing. */
    function GetUsuario(): (u: Option<Usuario>)
      reads this
      ensures u == UsuarioSalvo(storage)
    {
      if UsuarioKey in storage && storage[UsuarioKey].Objeto? then Some(storage[UsuarioKey].u) else None
    }

    /** `isAdmin`: the stored user has role `admin`. */
    function IsAdmin(): (b: bool)
      reads this
      ensures b <==> EhAdmin(storage)
    {
      match GetUsuario()
      case Some(u) => u.role == "admin"
      case None => false
    }
  }
}
