/** The user handlers, all reserved to administrators: create, update and delete over the user
    table, keeping logins unique and never deleting the caller's own account. */
module UsuariosApi {
  import opened Wrappers
  import opened Backend

  /** The claims of the caller's token: its identity and its `role` claim (`JNull` if absent). */
  datatype Claims = Claims(identity: int, role: Json)

  const AcessoNegado := HttpError(403, "Acesso negado")
  const ErroObrigatorios := HttpError(400, "Nome, login e senha são obrigatórios")
  const LoginExiste := HttpError(400, "Login já existe")
  const ErroProprio := HttpError(400, "Não é possível deletar seu próprio usuário")

  /** `admin_required`: the token's role claim is `admin`. */
  predicate AdminRequired(c: Claims) {
    c.role == JStr("admin")
  }

  function Login(u: UsuarioRow): Json { u.login }

  /** The user `filter_by(login=v).first()` finds, if any. */
  function ComLogin(t: map<int, UsuarioRow>, v: Json): (r: Option<int>)
    ensures r.None? <==> forall k :: k in t ==> t[k].login != v
    ensures r.Some? ==> r.value in t && t[r.value].login == v
  {
    Primeiro(t, (u: UsuarioRow) => u.login == v)
  }

  /** The row a create stores: name and login as sent, role `analista` and active unless sent,
      and the hash of the password. */
  function Novo(body: Body): (u: UsuarioRow)
    requires "nome" in body && "login" in body && "senha" in body
    ensures u.nome == body["nome"] && u.login == body["login"]
    ensures u.role == GetOr(body, "role", JStr("analista")) && u.ativo == GetOr(body, "ativo", JBool(true))
    ensures Confere(u.senha, body["senha"])
  {
    UsuarioRow(body["nome"], body["login"], GetOr(body, "role", JStr("analista")), GetOr(body, "ativo", JBool(true)), Hash(body["senha"]))
  }

  /** `criar_usuario`: administrators only; name, login and password required; the login must
      be new. */
  method Criar(t: map<int, UsuarioRow>, c: Claims, body: Body) returns (r: Result<(map<int, UsuarioRow>, int), HttpError>)
    ensures !AdminRequired(c) ==> r == Failure(AcessoNegado)
    ensures AdminRequired(c) && !(Has(body, "nome") && Has(body, "login") && Has(body, "senha")) ==> r == Failure(ErroObrigatorios)
    ensures r.Success? <==>
      AdminRequired(c) && Has(body, "nome") && Has(body, "login") && Has(body, "senha") && ComLogin(t, body["login"]).None?
    ensures r.Failure? && r.error == LoginExiste ==> ComLogin(t, body["login"]).Some?
    ensures r.Success? ==> r.value.1 !in t && r.value.0 == t[r.value.1 := Novo(body)]
    ensures r.Success? && Unico(t, Login) ==> Unico(r.value.0, Login)
  {
    if !AdminRequired(c) {
      return Failure(AcessoNegado);
    }
    if !Has(body, "nome") || !Has(body, "login") || !Has(body, "senha") {
      return Failure(ErroObrigatorios);
    }
    if ComLogin(t, body["login"]).Some? {
      return Failure(LoginExiste);
    }
    var id := NovoId(t);
    r := Success((t[id := Novo(body)], id));
  }

  /** The row an update leaves: name, login and role as sent, `ativo` coerced with `bool`, the
      password re-hashed only for a truthy `senha`, the rest kept. */
  function Atualizado(u: UsuarioRow, body: Body): (n: UsuarioRow)
    ensures n.nome == GetOr(body, "nome", u.nome) && n.login == GetOr(body, "login", u.login)
    ensures n.role == GetOr(body, "role", u.role)
    ensures "ativo" in body ==> n.ativo == JBool(Truthy(body["ativo"]))
    ensures "ativo" !in body ==> n.ativo == u.ativo
    ensures Has(body, "senha") ==> Confere(n.senha, body["senha"])
    ensures !Has(body, "senha") ==> n.senha == u.senha
  {
    UsuarioRow(
      GetOr(body, "nome", u.nome), GetOr(body, "login", u.login), GetOr(body, "role", u.role),
      if "ativo" in body then JBool(Truthy(body["ativo"])) else u.ativo,
      if Has(body, "senha") then Hash(body["senha"]) else u.senha)
  }

  /** `atualizar_usuario`: administrators only; a missing user is an error (the 404 is caught
      and answered with 500); a login held by another user is refused. */
  method Atualizar(t: map<int, UsuarioRow>, c: Claims, id: int, body: Body) returns (r: Result<map<int, UsuarioRow>, HttpError>)
    ensures !AdminRequired(c) ==> r == Failure(AcessoNegado)
    ensures AdminRequired(c) && id !in t ==> r == Failure(NaoEncontrado)
    ensures r.Success? <==>
      && AdminRequired(c) && id in t
      && ("login" in body ==> ComLogin(t, body["login"]).None? || ComLogin(t, body["login"]).value == id)
    ensures r.Success? ==> r.value == t[id := Atualizado(t[id], body)]
    ensures r.Success? && Unico(t, Login) ==> Unico(r.value, Login)
  {
    if !AdminRequired(c) {
      return Failure(AcessoNegado);
    }
    if id !in t {
      return Failure(NaoEncontrado);
    }
    var u := t[id];
    if "nome" in body {
      u := u.(nome := body["nome"]);
    }
    if "login" in body {
      var existente := ComLogin(t, body["login"]);
      if existente.Some? && existente.value != id {
        return Failure(LoginExiste);
      }
      u := u.(login := body["login"]);
    }
    if "role" in body {
      u := u.(role := body["role"]);
    }
    if "ativo" in body {
      u := u.(ativo := JBool(Truthy(body["ativo"])));
    }
    if Has(body, "senha") {
      u := u.(senha := Hash(body["senha"]));
    }
    assert u == Atualizado(t[id], body);
    if Unico(t, Login) {
      AtualizarMantemUnicos(t, id, body);
    }
    r := Success(t[id := u]);
  }

  lemma {:induction false} AtualizarMantemUnicos(t: map<int, UsuarioRow>, id: int, body: Body)
    requires Unico(t, Login) && id in t
    requires "login" in body ==> ComLogin(t, body["login"]).None? || ComLogin(t, body["login"]).value == id
    ensures Unico(t[id := Atualizado(t[id], body)], Login)
  {
    var u := t[id := Atualizado(t[id], body)];
    forall i, j | i in u && j in u && i != j
      ensures Login(u[i]) != Login(u[j])
    {
      if (i == id || j == id) && "login" in body {
        var o := if i == id then j else i;
        assert t[o].login != body["login"];
      }
    }
  }

  /** An update that sends an empty password keeps the stored one: the form's "leave blank to
      keep" works on the server too. */
  lemma SenhaVaziaMantida(u: UsuarioRow, body: Body)
    requires "senha" in body && body["senha"] == JStr("")
    ensures Atualizado(u, body).senha == u.senha
  {
  }

  /** `deletar_usuario`: administrators only; the caller's own account is refused before the
      lookup; a missing user is an error. */
  method Deletar(t: map<int, UsuarioRow>, c: Claims, id: int) returns (r: Result<map<int, UsuarioRow>, HttpError>)
    ensures !AdminRequired(c) ==> r == Failure(AcessoNegado)
    ensures AdminRequired(c) && c.identity == id ==> r == Failure(ErroProprio)
    ensures AdminRequired(c) && c.identity != id && id !in t ==> r == Failure(NaoEncontrado)
    ensures r.Success? <==> AdminRequired(c) && c.identity != id && id in t
    ensures r.Success? ==> r.value == t - {id}
    ensures r.Success? && c.identity in t ==> c.identity in r.value
  {
    if !AdminRequired(c) {
      return Failure(AcessoNegado);
    }
    if c.identity == id {
      return Failure(ErroProprio);
    }
    if id !in t {
      return Failure(NaoEncontrado);
    }
    r := Success(t - {id});
  }
}
