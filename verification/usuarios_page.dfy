/** The users page (administrators only): a list, a create/edit form whose submission is
    validated and normalised on the client, and a delete control hidden on one's own row. */
module UsuariosPage {
  import opened Wrappers
  import Text
  import Seqs
  import opened Records
  import opened Calls

  datatype Form = Form(nome: string, login: string, senha: string, role: string, ativo: bool)

  const FormVazio := Form("", "", "", "analista", true)

  /** The body sent to the server; `senha` is absent when the password is left unchanged. */
  datatype Payload = Payload(nome: string, login: string, role: string, ativo: bool, senha: Option<string>)

  const ErroObrigatorios := "Nome e login são obrigatórios"
  const ErroSenha := "Senha é obrigatória para novos usuários"

  /** The body built from a form that passed validation: trimmed name and login, the same role
      and flag, and the password as typed, on edit only when it is not blank. */
  function Corpo(f: Form, editando: bool): (p: Payload)
    ensures p.nome == Text.Trim(f.nome) && p.login == Text.Trim(f.login)
    ensures p.role == f.role && p.ativo == f.ativo
    ensures !editando ==> p.senha == Some(f.senha)
    ensures editando ==> (p.senha.Some? <==> !Text.IsBlank(f.senha))
    ensures p.senha.Some? ==> p.senha.value == f.senha
  {
    var senha := if !editando then Some(f.senha)
      else if f.senha != "" && Text.Trim(f.senha) != "" then Some(f.senha) else None;
    Payload(Text.Trim(f.nome), Text.Trim(f.login), f.role, f.ativo, senha)
  }

  /** `handleSubmit` as written: the required-field checks look at the untrimmed name and login. */
  function SubmissaoComoEscrita(f: Form, editando: bool): (r: Result<Payload, string>)
    ensures r.Failure? <==> f.nome == "" || f.login == "" || (!editando && f.senha == "")
    ensures r.Failure? ==> r.error == (if f.nome == "" || f.login == "" then ErroObrigatorios else ErroSenha)
    ensures r.Success? ==> r.value == Corpo(f, editando)
  {
    if f.nome == "" || f.login == "" then Failure(ErroObrigatorios)
    else if !editando && f.senha == "" then Failure(ErroSenha)
    else Success(Corpo(f, editando))
  }

  /** As written, a name of spaces passes the check and is sent as the empty string. */
  lemma NomeEmBrancoAceito()
    ensures var f := Form("   ", "ana", "", "analista", true);
      SubmissaoComoEscrita(f, true) == Success(Payload("", "ana", "analista", true, None))
  {
    var f := Form("   ", "ana", "", "analista", true);
    assert Text.IsBlank(f.nome);
    assert !Text.IsBlank(f.login) by { assert !Text.IsSpace(f.login[0]); }
    assert Text.Trim(f.login) == "ana" by {
      assert Text.TrimStart(f.login) == f.login;
      assert Text.TrimEnd(f.login) == f.login;
    }
  }

  /** The submission with the required-field checks on the trimmed values, as the trimmed
      payload evidently intends; the page uses this one. */
  function Submissao(f: Form, editando: bool): (r: Result<Payload, string>)
    ensures r.Failure? <==> Text.IsBlank(f.nome) || Text.IsBlank(f.login) || (!editando && f.senha == "")
    ensures r.Success? ==> r.value == Corpo(f, editando)
  {
    if Text.Trim(f.nome) == "" || Text.Trim(f.login) == "" then Failure(ErroObrigatorios)
    else if !editando && f.senha == "" then Failure(ErroSenha)
    else
      assert f.nome != "" && f.login != "";
      Success(Corpo(f, editando))
  }

  /** An accepted submission never sends an empty name or login. */
  lemma SubmissaoNaoVazia(f: Form, editando: bool)
    ensures Submissao(f, editando).Success? ==>
      Submissao(f, editando).value.nome != "" && Submissao(f, editando).value.login != ""
  {
  }

  /** The correction only rejects more: whatever it accepts, the code as written accepts with the
      same body; what it additionally rejects is exactly a blank but non-empty name or login. */
  lemma SubmissaoRefinaComoEscrita(f: Form, editando: bool)
    ensures Submissao(f, editando).Success? ==> SubmissaoComoEscrita(f, editando) == Submissao(f, editando)
    ensures Submissao(f, editando).Failure? && SubmissaoComoEscrita(f, editando).Success? <==>
      f.nome != "" && f.login != "" && (Text.IsBlank(f.nome) || Text.IsBlank(f.login)) && (editando || f.senha != "")
  {
  }

  /** The form an existing user is edited in: the user's values and an empty password. */
  function FormDe(u: Usuario): (f: Form)
    ensures f.nome == u.nome && f.login == u.login && f.role == u.role && f.ativo == u.ativo
    ensures f.senha == ""
  {
    Form(u.nome, u.login, "", u.role, u.ativo)
  }

  /** Editing a user and submitting unchanged sends no password, so the stored one is kept. */
  lemma EditarSemSenha(u: Usuario)
    ensures Submissao(FormDe(u), true).Success? ==> Submissao(FormDe(u), true).value.senha.None?
  {
  }

  /** The rows that get a delete control: every row but the logged-in user's own. */
  function ComDeletar(usuarios: seq<Usuario>, logado: Usuario): seq<Usuario> {
    Seqs.Filter(usuarios, (u: Usuario) => u.id != logado.id)
  }

  lemma ComDeletarSpec(usuarios: seq<Usuario>, logado: Usuario)
    ensures forall u :: u in ComDeletar(usuarios, logado) <==> u in usuarios && u.id != logado.id
    ensures Seqs.IsSubsequence(ComDeletar(usuarios, logado), usuarios)
  {
    Seqs.FilterIsSubsequence(usuarios, (u: Usuario) => u.id != logado.id);
  }

  /** The call a valid submission issues: an update of the edited user, or a creation. */
  function Salvar(f: Form, editando: Option<Usuario>): Call<Payload>
    requires Submissao(f, editando.Some?).Success?
  {
    var p := Submissao(f, editando.Some?).value;
    if editando.Some? then Atualizar(editando.value.id, p) else Criar(p)
  }

  class Page {
    var usuarios: seq<Usuario>
    var formData: Form
    var editando: Option<Usuario>
    var showForm: bool
    /** Every backend call the page has issued, oldest first. */
    var calls: seq<Call<Payload>>
    var notice: Notice

    constructor ()
      ensures usuarios == [] && formData == FormVazio
      ensures editando == None && !showForm && calls == [] && notice == Silent
    {
      usuarios, formData := [], FormVazio;
      editando, showForm, calls, notice := None, false, [], Silent;
    }

    method CarregarUsuarios(resposta: Result<seq<Usuario>, Reply>)
      modifies this
      ensures calls == old(calls) + [Listar(map[])]
      ensures resposta.Success? ==> usuarios == resposta.value && notice == old(notice)
      ensures resposta.Failure? ==> usuarios == old(usuarios) && notice == Erro("Erro ao carregar usuários")
      ensures formData == old(formData) && editando == old(editando) && showForm == old(showForm)
    {
      calls := calls + [Listar(map[])];
      match resposta
      case Success(v) => usuarios := v;
      case Failure(_) => notice := Erro("Erro ao carregar usuários");
    }

    /** `resetForm`: empty fields, role `analista`, active, not editing, form hidden. */
    method ResetForm()
      modifies this
      ensures formData == FormVazio && editando == None && !showForm
      ensures usuarios == old(usuarios) && calls == old(calls) && notice == old(notice)
    {
      formData, editando, showForm := FormVazio, None, false;
    }

    /** `handleEdit`: the user's values with an empty password, edit mode, form shown. */
    method HandleEdit(u: Usuario)
      modifies this
      ensures formData == FormDe(u) && editando == Some(u) && showForm
      ensures usuarios == old(usuarios) && calls == old(calls) && notice == old(notice)
    {
      editando := Some(u);
      formData := FormDe(u);
      showForm := true;
    }

    /** `handleSubmit`: a validation error is shown and issues no call; a valid form is sent. */
    method HandleSubmit(reply: Reply, recarga: Result<seq<Usuario>, Reply>)
      modifies this
      ensures Submissao(old(formData), old(editando).Some?).Failure? ==>
        Rejeitado(Submissao(old(formData), old(editando).Some?).error, old(calls), old(formData), old(editando), old(showForm), old(usuarios))
      ensures Submissao(old(formData), old(editando).Some?).Success? ==>
        Enviado(Salvar(old(formData), old(editando)), reply, recarga, old(calls), old(formData), old(editando), old(showForm), old(usuarios))
      ensures Submissao(old(formData), old(editando).Some?).Success? && reply.Ok? && recarga.Success? ==>
        notice == Info(if old(editando).Some? then "Usuário atualizado com sucesso!" else "Usuário criado com sucesso!")
    {
      var f, e := formData, editando;
      var s := Submissao(f, e.Some?);
      if s.Failure? {
        Rejeitar(s.error);
      } else {
        Enviar(Salvar(f, e), e.Some?, reply, recarga);
      }
    }

    /** The state after a validation error: the message, and nothing else changed. */
    ghost predicate Rejeitado(erro: string,
      calls0: seq<Call<Payload>>, form0: Form, editando0: Option<Usuario>, showForm0: bool, usuarios0: seq<Usuario>)
      reads this
    {
      && calls == calls0 && notice == Erro(erro)
      && formData == form0 && editando == editando0 && showForm == showForm0 && usuarios == usuarios0
    }

    method Rejeitar(erro: string)
      modifies this
      ensures Rejeitado(erro, old(calls), old(formData), old(editando), old(showForm), old(usuarios))
    {
      notice := Erro(erro);
    }

    /** The state after a save call was sent: the call and a reload with a reset form when it
        succeeded, the call alone and the form as it was with the server's error otherwise. */
    ghost predicate Enviado(call: Call<Payload>, reply: Reply, recarga: Result<seq<Usuario>, Reply>,
      calls0: seq<Call<Payload>>, form0: Form, editando0: Option<Usuario>, showForm0: bool, usuarios0: seq<Usuario>)
      reads this
    {
      && (reply.Ok? && recarga.Success? ==> usuarios == recarga.value)
      && (reply.Ok? && recarga.Failure? ==> usuarios == usuarios0 && notice == Erro("Erro ao carregar usuários"))
      && (reply.Err? ==> usuarios == usuarios0)
      && (reply.Ok? ==> calls == calls0 + [call, Listar(map[])] && formData == FormVazio && editando == None && !showForm)
      && (reply.Err? ==> calls == calls0 + [call] && notice == Erro(ServerErrorOr(reply, "Erro ao salvar usuário")))
      && (reply.Err? ==> formData == form0 && editando == editando0 && showForm == showForm0)
    }

    /** The `try` block of `handleSubmit`: the call, then on success a message, a reset form and
        a reload, on failure the server's error or the generic one. */
    method Enviar(call: Call<Payload>, editou: bool, reply: Reply, recarga: Result<seq<Usuario>, Reply>)
      modifies this
      ensures Enviado(call, reply, recarga, old(calls), old(formData), old(editando), old(showForm), old(usuarios))
      ensures reply.Ok? && recarga.Success? ==>
        notice == Info(if editou then "Usuário atualizado com sucesso!" else "Usuário criado com sucesso!")
    {
      calls := calls + [call];
      if reply.Ok? {
        notice := Info(if editou then "Usuário atualizado com sucesso!" else "Usuário criado com sucesso!");
        ResetForm();
        CarregarUsuarios(recarga);
      } else {
        notice := Erro(ServerErrorOr(reply, "Erro ao salvar usuário"));
      }
    }

    /** `handleDelete`: the delete call only from the confirm button of the dialog. */
    method HandleDelete(id: int, confirmado: bool, reply: Reply, recarga: Result<seq<Usuario>, Reply>)
      modifies this
      ensures !confirmado ==> calls == old(calls) && notice == old(notice) && usuarios == old(usuarios)
      ensures confirmado && reply.Ok? ==> calls == old(calls) + [Deletar(id), Listar(map[])]
      ensures confirmado && reply.Err? ==> calls == old(calls) + [Deletar(id)]
      ensures confirmado && reply.Ok? && recarga.Success? ==> usuarios == recarga.value && notice == Info("Usuário deletado com sucesso!")
      ensures confirmado && reply.Ok? && recarga.Failure? ==> usuarios == old(usuarios) && notice == Erro("Erro ao carregar usuários")
      ensures confirmado && reply.Err? ==> usuarios == old(usuarios) && notice == Erro(ServerErrorOr(reply, "Erro ao deletar usuário"))
      ensures formData == old(formData) && editando == old(editando) && showForm == old(showForm)
    {
      if confirmado {
        calls := calls + [Deletar(id)];
        if reply.Ok? {
          notice := Info("Usuário deletado com sucesso!");
          CarregarUsuarios(recarga);
        } else {
          notice := Erro(ServerErrorOr(reply, "Erro ao deletar usuário"));
        }
      }
    }
  }
}
