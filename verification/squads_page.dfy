/** The squads page: a list and a create/edit form with a name and a description. */
module SquadsPage {
  import opened Wrappers
  import opened Records
  import opened Calls

  datatype Form = Form(nome: string, descricao: string)

  const FormVazio := Form("", "")

  /** The form an existing squad is edited in: its name, and its description or `""`. */
  function FormDe(s: Squad): (f: Form)
    ensures f.nome == s.nome
    ensures f.descricao == "" <==> s.descricao.None? || s.descricao == Some("")
    ensures s.descricao.Some? ==> f.descricao == s.descricao.value
  {
    Form(s.nome, OrEmpty(s.descricao))
  }

  class Page {
    var squads: seq<Squad>
    var formData: Form
    var editando: Option<Squad>
    var showForm: bool
    /** Every backend call the page has issued, oldest first. */
    var calls: seq<Call<Form>>
    var notice: Notice

    constructor ()
      ensures squads == [] && formData == FormVazio
      ensures editando == None && !showForm && calls == [] && notice == Silent
    {
      squads, formData := [], FormVazio;
      editando, showForm, calls, notice := None, false, [], Silent;
    }

    /** `carregarSquads`: the list from the reply, or an error message. */
    method CarregarSquads(resposta: Result<seq<Squad>, Reply>)
      modifies this
      ensures calls == old(calls) + [Listar(map[])]
      ensures resposta.Success? ==> squads == resposta.value && notice == old(notice)
      ensures resposta.Failure? ==> squads == old(squads) && notice == Erro("Erro ao carregar squads")
      ensures formData == old(formData) && editando == old(editando) && showForm == old(showForm)
    {
      calls := calls + [Listar(map[])];
      match resposta
      case Success(v) => squads := v;
      case Failure(_) => notice := Erro("Erro ao carregar squads");
    }

    /** `resetForm`: both fields empty, not editing, form hidden. */
    method ResetForm()
      modifies this
      ensures formData == FormVazio && editando == None && !showForm
      ensures squads == old(squads) && calls == old(calls) && notice == old(notice)
    {
      formData, editando, showForm := FormVazio, None, false;
    }

    /** `handleEdit`: the squad's values in the form, edit mode, form shown. */
    method HandleEdit(s: Squad)
      modifies this
      ensures formData == FormDe(s) && editando == Some(s) && showForm
      ensures squads == old(squads) && calls == old(calls) && notice == old(notice)
    {
      editando := Some(s);
      formData := FormDe(s);
      showForm := true;
    }

    /** `handleSubmit`: update when editing, create otherwise; reset and reload only on success. */
    method HandleSubmit(reply: Reply, recarga: Result<seq<Squad>, Reply>)
      modifies this
      ensures var call := if old(editando).Some? then Atualizar(old(editando).value.id, old(formData)) else Criar(old(formData));
        && (reply.Ok? ==> calls == old(calls) + [call, Listar(map[])])
        && (reply.Err? ==> calls == old(calls) + [call])
      ensures reply.Ok? ==> formData == FormVazio && editando == None && !showForm
      ensures reply.Ok? && recarga.Success? ==> squads == recarga.value
      ensures reply.Ok? && recarga.Success? ==> notice == Info(if old(editando).Some? then "Squad atualizada com sucesso!" else "Squad criada com sucesso!")
      ensures reply.Ok? && recarga.Failure? ==> squads == old(squads) && notice == Erro("Erro ao carregar squads")
      ensures reply.Err? ==> formData == old(formData) && editando == old(editando) && showForm == old(showForm)
      ensures reply.Err? ==> notice == Erro("Erro ao salvar squad: " + ErrorText(reply)) && squads == old(squads)
    {
      var call := if editando.Some? then Atualizar(editando.value.id, formData) else Criar(formData);
      calls := calls + [call];
      if reply.Ok? {
        notice := Info(if editando.Some? then "Squad atualizada com sucesso!" else "Squad criada com sucesso!");
        ResetForm();
        CarregarSquads(recarga);
      } else {
        notice := Erro("Erro ao salvar squad: " + ErrorText(reply));
      }
    }

    /** `handleDelete`: the delete call only when the confirmation returns true. */
    method HandleDelete(id: int, confirmado: bool, reply: Reply, recarga: Result<seq<Squad>, Reply>)
      modifies this
      ensures !confirmado ==> calls == old(calls) && notice == old(notice) && squads == old(squads)
      ensures confirmado && reply.Ok? ==> calls == old(calls) + [Deletar(id), Listar(map[])]
      ensures confirmado && reply.Err? ==> calls == old(calls) + [Deletar(id)]
      ensures confirmado && reply.Ok? && recarga.Success? ==> squads == recarga.value && notice == Info("Squad deletada com sucesso!")
      ensures confirmado && reply.Ok? && recarga.Failure? ==> squads == old(squads) && notice == Erro("Erro ao carregar squads")
      ensures confirmado && reply.Err? ==> squads == old(squads) && notice == Erro("Erro ao deletar squad: " + ErrorText(reply))
      ensures formData == old(formData) && editando == old(editando) && showForm == old(showForm)
    {
      if confirmado {
        calls := calls + [Deletar(id)];
        if reply.Ok? {
          notice := Info("Squad deletada com sucesso!");
          CarregarSquads(recarga);
        } else {
          notice := Erro("Erro ao deletar squad: " + ErrorText(reply));
        }
      }
    }
  }
}
