/** The session as the React tree sees it: the provider's current user and loading flag, and
    the hook that hands the provider out. */
module AuthContext {
  import opened Wrappers
  import opened Records
  import AuthClient
  import Calls

  /** `isAuthenticated` of the provider: a user is set. */
  predicate Autenticado(user: Option<Usuario>) {
    user.Some?
  }

  /** `isAdmin` of the provider: a user is set and its role is `admin`. */
  predicate Admin(user: Option<Usuario>) {
    user.Some? && user.value.role == "admin"
  }

  /** An administrator is always authenticated. */
  lemma AdminAutenticado(user: Option<Usuario>)
    ensures Admin(user) ==> Autenticado(user)
  {
  }

  class Provider {
    var user: Option<Usuario>
    var loading: bool

    /** The initial state before the mount effect: no user, still loading. */
    constructor ()
      ensures user == None && loading
    {
      user, loading := None, true;
    }

    /** The mount effect: the stored user, if any, becomes the current user; loading ends. */
    method Hidratar(s: AuthClient.Session)
      modifies this
      ensures s.GetUsuario().Some? ==> user == s.GetUsuario()
      ensures s.GetUsuario().None? ==> user == old(user)
      ensures !loading
    {
      var u := s.GetUsuario();
      if u.Some? {
        user := u;
      }
      loading := false;
    }

    /** `login`: the service call; on a reply the reply's user becomes the current user, on a
        rejection nothing changes here and the rejection is passed on. */
    method Login(s: AuthClient.Session, resposta: Result<AuthClient.LoginData, Calls.Reply>)
      returns (r: Result<AuthClient.LoginData, Calls.Reply>)
      modifies this, s
      ensures r == resposta
      ensures resposta.Success? ==> user == Some(resposta.value.usuario)
      ensures resposta.Success? ==> s.storage == AuthClient.AposLogin(old(s.storage), resposta.value)
      ensures resposta.Failure? ==> user == old(user) && s.storage == old(s.storage)
      ensures loading == old(loading) && s.location == old(s.location)
    {
      r := s.Login(resposta);
      if r.Success? {
        user := Some(r.value.usuario);
      }
    }

    /** `logout`: the session keys removed from storage and no current user. */
    method Logout(s: AuthClient.Session)
      modifies this, s
      ensures user == None && !Autenticado(user)
      ensures s.storage == AuthClient.SemSessao(old(s.storage)) && !s.IsAuthenticated()
      ensures loading == old(loading) && s.location == old(s.location)
    {
      s.Logout();
      user := None;
    }

    function IsAuthenticated(): (b: bool)
      reads this
      ensures b <==> Autenticado(user)
    {
      user != None
    }

    function IsAdmin(): (b: bool)
      reads this
      ensures b <==> Admin(user)
    {
      match user
      case Some(u) => u.role == "admin"
      case None => false
    }
  }

  const ForaDoProvider := "useAuth deve ser usado dentro de um AuthProvider"

  /** `useAuth`: the enclosing provider, or the error raised when there is none. */
  function UseAuth(contexto: Option<Provider>): (r: Result<Provider, string>)
    ensures contexto.Some? <==> r.Success?
    ensures r.Success? ==> r.value == contexto.value
    ensures r.Failure? ==> r.error == ForaDoProvider
  {
    match contexto
    case Some(p) => Success(p)
    case None => Failure(ForaDoProvider)
  }
}
