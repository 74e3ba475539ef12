/** The login page: its form, the loading flag that guards against a second submission while
    one is in flight, and where it leads. */
module LoginPage {
  import opened Wrappers
  import opened Calls
  import AuthClient
  import AuthContext
  import Records

  datatype Form = Form(login: string, senha: string, lembrar: bool)

  const FormVazio := Form("", "", false)

  const ErroCampos := "Preencha todos os campos"
  const ErroCredenciais := "Credenciais inválidas"
  const Sucesso := "Login realizado com sucesso!"

  /** The credentials a login request is sent with. */
  datatype Tentativa = Tentativa(login: string, senha: string, lembrar: bool)

  class Page {
    var formData: Form
    var loading: bool
    /** The path the page navigated to, if it did. */
    var destino: Option<string>
    var notice: Notice
    /** Every login request the page has sent, oldest first. */
    var tentativas: seq<Tentativa>

    constructor ()
      ensures formData == FormVazio && !loading && destino == None && notice == Silent && tentativas == []
    {
      formData, loading, destino, notice, tentativas := FormVazio, false, None, Silent, [];
    }

    /** The first half of `handleLogin`, up to the request: nothing while a login is in flight,
        an error and no request for an empty field, otherwise the request sent and loading on. */
    method Iniciar() returns (enviado: bool)
      modifies this
      ensures enviado <==> !old(loading) && formData.login != "" && formData.senha != ""
      ensures enviado ==> loading && tentativas == old(tentativas) + [Tentativa(formData.login, formData.senha, formData.lembrar)]
      ensures enviado ==> notice == old(notice)
      ensures !enviado ==> tentativas == old(tentativas) && loading == old(loading)
      ensures !enviado && !old(loading) ==> notice == Erro(ErroCampos)
      ensures old(loading) ==> unchanged(this)
      ensures formData == old(formData) && destino == old(destino)
    {
      if loading {
        return false;
      }
      if formData.login == "" || formData.senha == "" {
        notice := Erro(ErroCampos);
        return false;
      }
      loading := true;
      tentativas := tentativas + [Tentativa(formData.login, formData.senha, formData.lembrar)];
      enviado := true;
    }

    /** The second half, once the request is answered: home with a success message, or the
        server's error or the generic one; loading off in both cases. */
    method Concluir(resposta: Result<AuthClient.LoginData, Reply>)
      modifies this
      ensures !loading
      ensures resposta.Success? ==> destino == Some("/") && notice == Info(Sucesso)
      ensures resposta.Failure? && resposta.error.Err? ==>
        destino == old(destino) && notice == Erro(ServerErrorOr(resposta.error, ErroCredenciais))
      ensures resposta.Failure? && resposta.error.Ok? ==> destino == old(destino) && notice == Erro(ErroCredenciais)
      ensures formData == old(formData) && tentativas == old(tentativas)
    {
      loading := false;
      match resposta
      case Success(_) =>
        notice := Info(Sucesso);
        destino := Some("/");
      case Failure(e) =>
        notice := Erro(if e.Err? then ServerErrorOr(e, ErroCredenciais) else ErroCredenciais);
    }

    /** `handleLogin`: the request goes through the provider while `loading` is on; the session
        is stored and the user set only when it succeeds. */
    method HandleLogin(auth: AuthContext.Provider, s: AuthClient.Session, resposta: Result<AuthClient.LoginData, Reply>)
      modifies this, auth, s
      ensures old(loading) ==> unchanged(this) && unchanged(auth) && unchanged(s)
      ensures !old(loading) && (formData.login == "" || formData.senha == "") ==>
        && notice == Erro(ErroCampos) && !loading && tentativas == old(tentativas) && destino == old(destino)
        && unchanged(auth) && unchanged(s)
      ensures !old(loading) && formData.login != "" && formData.senha != "" ==>
        Respondido(auth, s, resposta, old(tentativas), old(destino), old(auth.user), old(s.storage))
      ensures formData == old(formData)
    {
      var enviado := Iniciar();
      if enviado {
        assert loading;
        var _ := auth.Login(s, resposta);
        Concluir(resposta);
      }
    }

    /** The state after a login request was sent and answered: the request logged, loading off,
        and on success the session stored, the user set, home and the success message; on a
        failure the session and the user as they were and the server's or the generic error. */
    predicate Respondido(auth: AuthContext.Provider, s: AuthClient.Session, resposta: Result<AuthClient.LoginData, Reply>,
                         tentativas0: seq<Tentativa>, destino0: Option<string>, user0: Option<Records.Usuario>,
                         storage0: AuthClient.Storage)
      reads this, auth, s
    {
      && tentativas == tentativas0 + [Tentativa(formData.login, formData.senha, formData.lembrar)]
      && !loading
      && (resposta.Success? ==>
            && destino == Some("/") && notice == Info(Sucesso)
            && auth.user == Some(resposta.value.usuario)
            && s.storage == AuthClient.AposLogin(storage0, resposta.value))
      && (resposta.Failure? ==>
            && destino == destino0 && auth.user == user0 && s.storage == storage0
            && notice == Erro(if resposta.error.Err? then ServerErrorOr(resposta.error, ErroCredenciais) else ErroCredenciais))
    }

    /** `handleKeyPress`: Enter starts a login, unless one is in flight; other keys do nothing. */
    method HandleKeyPress(key: string, auth: AuthContext.Provider, s: AuthClient.Session, resposta: Result<AuthClient.LoginData, Reply>)
      modifies this, auth, s
      ensures key != "Enter" || old(loading) ==> unchanged(this) && unchanged(auth) && unchanged(s)
      ensures key == "Enter" && !old(loading) && (formData.login == "" || formData.senha == "") ==>
        && notice == Erro(ErroCampos) && !loading && tentativas == old(tentativas) && destino == old(destino)
        && unchanged(auth) && unchanged(s)
      ensures key == "Enter" && !old(loading) && formData.login != "" && formData.senha != "" ==>
        Respondido(auth, s, resposta, old(tentativas), old(destino), old(auth.user), old(s.storage))
      ensures formData == old(formData)
    {
      if key == "Enter" && !loading {
        HandleLogin(auth, s, resposta);
      }
    }
  }
}
