/** The login route: which error a request gets, in which order the checks run, and the token
    a successful login issues. */
module AuthApi {
  import opened Wrappers
  import opened Backend
  import UsuariosApi

  const ErroObrigatorios := HttpError(400, "Login e senha são obrigatórios")
  const CredenciaisInvalidas := HttpError(401, "Credenciais inválidas")
  const UsuarioInativo := HttpError(401, "Usuário inativo")

  /** Token lifetimes in seconds: thirty days with "remember me", eight hours without. */
  const TrintaDias := 30 * 24 * 60 * 60
  const OitoHoras := 8 * 60 * 60

  /** An access token: its identity, its `role` claim and its lifetime. */
  datatype Token = Token(identity: int, role: Json, validade: nat)

  /** A successful login: the token and the id of the user it was issued for. */
  datatype Sessao = Sessao(token: Token, usuario: int)

  /** `login`: login and password required; the user must exist, be active, and the password
      must match, checked in that order. */
  method Login(t: map<int, UsuarioRow>, body: Body) returns (r: Result<Sessao, HttpError>)
    ensures !Has(body, "login") || !Has(body, "senha") ==> r == Failure(ErroObrigatorios)
    ensures Has(body, "login") && Has(body, "senha") && UsuariosApi.ComLogin(t, body["login"]).None? ==>
      r == Failure(CredenciaisInvalidas)
    ensures Has(body, "login") && Has(body, "senha") && UsuariosApi.ComLogin(t, body["login"]).Some? ==>
      var u := t[UsuariosApi.ComLogin(t, body["login"]).value];
      && (!Truthy(u.ativo) ==> r == Failure(UsuarioInativo))
      && (Truthy(u.ativo) && !Confere(u.senha, body["senha"]) ==> r == Failure(CredenciaisInvalidas))
    ensures r.Success? <==>
      && Has(body, "login") && Has(body, "senha")
      && UsuariosApi.ComLogin(t, body["login"]).Some?
      && Truthy(t[UsuariosApi.ComLogin(t, body["login"]).value].ativo)
      && Confere(t[UsuariosApi.ComLogin(t, body["login"]).value].senha, body["senha"])
    ensures r.Success? ==>
      && r.value.usuario == UsuariosApi.ComLogin(t, body["login"]).value
      && r.value.usuario in t
      && r.value.token.identity == r.value.usuario
      && r.value.token.role == t[r.value.usuario].role
      && r.value.token.validade == (if Truthy(GetOr(body, "lembrar", JBool(false))) then TrintaDias else OitoHoras)
  {
    var login := GetOr(body, "login", JNull);
    var senha := GetOr(body, "senha", JNull);
    var lembrar := GetOr(body, "lembrar", JBool(false));
    if !Truthy(login) || !Truthy(senha) {
      return Failure(ErroObrigatorios);
    }
    var encontrado := UsuariosApi.ComLogin(t, login);
    if encontrado.None? {
      return Failure(CredenciaisInvalidas);
    }
    var id := encontrado.value;
    var usuario := t[id];
    if !Truthy(usuario.ativo) {
      return Failure(UsuarioInativo);
    }
    if !Confere(usuario.senha, senha) {
      return Failure(CredenciaisInvalidas);
    }
    var validade := if Truthy(lembrar) then TrintaDias else OitoHoras;
    r := Success(Sessao(Token(id, usuario.role, validade), id));
  }

  /** A token issued by the login passes the administrator check exactly when the user's stored
      role is `admin`. */
  lemma TokenDeAdmin(s: Sessao, t: map<int, UsuarioRow>)
    requires s.usuario in t && s.token.role == t[s.usuario].role
    ensures UsuariosApi.AdminRequired(UsuariosApi.Claims(s.token.identity, s.token.role)) <==> t[s.usuario].role == JStr("admin")
  {
  }
}
