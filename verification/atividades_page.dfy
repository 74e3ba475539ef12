/** The activities page: a filterable list and a create/edit form. */
module AtividadesPage {
  import opened Wrappers
  import Text
  import Api
  import opened Records
  import opened Calls

  /** The form fields; the two id fields hold the selected option's text. */
  datatype Form = Form(
    titulo: string, descricao: string, prazo: string, prioridade: string, status: string,
    projetoId: string, squadId: string)

  const FormVazio := Form("", "", "", "media", "pendente", "", "")

  const FiltrosVazios: Api.Filtros := map["projeto_id" := "", "squad_id" := "", "status" := "", "prioridade" := ""]

  /** The form an existing activity is edited in: its own values, `""` for an absent description
      or deadline, and the ids of its project and squad. */
  function FormDe(a: Atividade): (f: Form)
    ensures f.titulo == a.titulo && f.prioridade == a.prioridade && f.status == a.status
    ensures f.descricao == "" <==> a.descricao.None? || a.descricao == Some("")
    ensures f.prazo == "" <==> a.prazo.None? || a.prazo == Some("")
    ensures a.descricao.Some? ==> f.descricao == a.descricao.value
    ensures a.prazo.Some? ==> f.prazo == a.prazo.value
  {
    Form(a.titulo, OrEmpty(a.descricao), OrEmpty(a.prazo), a.prioridade, a.status,
      IdTexto(a.projeto.id), IdTexto(a.squad.id))
  }

  /** The decimal text of an id, with a minus sign for a negative one. */
  function IdTexto(id: int): string {
    if id >= 0 then Text.IdText(id) else "-" + Text.IdText(-id)
  }

  /** The edited form selects the activity's own project and squad: reading the id fields back
      gives the ids. */
  lemma FormDeIds(a: Atividade)
    ensures Text.ParseInt(FormDe(a).projetoId) == Some(a.projeto.id)
    ensures Text.ParseInt(FormDe(a).squadId) == Some(a.squad.id)
  {
    IdTextoRoundTrip(a.projeto.id);
    IdTextoRoundTrip(a.squad.id);
  }

  lemma IdTextoRoundTrip(id: int)
    ensures Text.ParseInt(IdTexto(id)) == Some(id)
  {
    if id >= 0 {
      Text.ParseIntIdText(id);
    } else {
      Text.ParseIntNegIdText(-id);
    }
  }

  /** `filtrosLimpos`: the filter entries whose value is not `""`, values unchanged. */
  function FiltrosLimpos(f: Api.Filtros): (r: Api.Filtros)
    ensures forall k :: k in r <==> k in f && f[k] != ""
    ensures forall k :: k in r ==> r[k] == f[k]
  {
    map k | k in f && f[k] != "" :: f[k]
  }

  /** Cleaning changes nothing the list request sends: the request drops empty values itself. */
  lemma FiltrosLimposMesmaConsulta(f: Api.Filtros)
    ensures Api.ListPath(FiltrosLimpos(f)) == Api.ListPath(f)
  {
    Api.ListPathAgree(FiltrosLimpos(f), f);
  }

  /** The clear-filters button is shown when some filter is set. */
  predicate MostraLimpar(f: Api.Filtros) {
    exists k :: k in f && k in Api.ParamKeys && f[k] != ""
  }

  /** After clearing, the button is gone and the list request carries no parameter. */
  lemma LimparSpec()
    ensures !MostraLimpar(FiltrosVazios)
    ensures Api.ListPath(FiltrosLimpos(FiltrosVazios)) == "/atividades"
  {
    assert FiltrosLimpos(FiltrosVazios) == map[];
  }

  class Page {
    var atividades: seq<Atividade>
    var filtros: Api.Filtros
    var formData: Form
    var editando: Option<Atividade>
    var showForm: bool
    /** Every backend call the page has issued, oldest first. */
    var calls: seq<Call<Form>>
    var notice: Notice

    constructor ()
      ensures atividades == [] && filtros == FiltrosVazios && formData == FormVazio
      ensures editando == None && !showForm && calls == [] && notice == Silent
    {
      atividades, filtros, formData := [], FiltrosVazios, FormVazio;
      editando, showForm, calls, notice := None, false, [], Silent;
    }

    /** `carregarAtividades`: the list request with the cleaned filters, then the reply's list,
        or an error message. */
    method CarregarAtividades(resposta: Result<seq<Atividade>, Reply>)
      modifies this
      ensures calls == old(calls) + [Listar(FiltrosLimpos(filtros))]
      ensures resposta.Success? ==> atividades == resposta.value && notice == old(notice)
      ensures resposta.Failure? ==> atividades == old(atividades) && notice == Erro("Erro ao carregar atividades")
      ensures filtros == old(filtros) && formData == old(formData) && editando == old(editando) && showForm == old(showForm)
    {
      calls := calls + [Listar(FiltrosLimpos(filtros))];
      match resposta
      case Success(xs) => atividades := xs;
      case Failure(_) => notice := Erro("Erro ao carregar atividades");
    }

    /** A filter dropdown: the new value, then the reload the change triggers. */
    method SetFiltro(k: string, v: string, resposta: Result<seq<Atividade>, Reply>)
      modifies this
      ensures filtros == old(filtros)[k := v]
      ensures calls == old(calls) + [Listar(FiltrosLimpos(filtros))]
      ensures resposta.Success? ==> atividades == resposta.value && notice == old(notice)
      ensures resposta.Failure? ==> atividades == old(atividades) && notice == Erro("Erro ao carregar atividades")
      ensures formData == old(formData) && editando == old(editando) && showForm == old(showForm)
    {
      filtros := filtros[k := v];
      CarregarAtividades(resposta);
    }

    /** `limparFiltros`: all four filters back to `""`, then the reload. */
    method LimparFiltros(resposta: Result<seq<Atividade>, Reply>)
      modifies this
      ensures filtros == FiltrosVazios
      ensures calls == old(calls) + [Listar(map[])]
      ensures resposta.Success? ==> atividades == resposta.value && notice == old(notice)
      ensures resposta.Failure? ==> atividades == old(atividades) && notice == Erro("Erro ao carregar atividades")
      ensures formData == old(formData) && editando == old(editando) && showForm == old(showForm)
    {
      filtros := FiltrosVazios;
      assert FiltrosLimpos(filtros) == map[];
      CarregarAtividades(resposta);
    }

    /** `resetForm`: default form, not editing, form hidden. */
    method ResetForm()
      modifies this
      ensures formData == FormVazio && editando == None && !showForm
      ensures atividades == old(atividades) && filtros == old(filtros) && calls == old(calls) && notice == old(notice)
    {
      formData, editando, showForm := FormVazio, None, false;
    }

    /** `handleEdit`: the activity's values in the form, edit mode, form shown. */
    method HandleEdit(a: Atividade)
      modifies this
      ensures formData == FormDe(a) && editando == Some(a) && showForm
      ensures atividades == old(atividades) && filtros == old(filtros) && calls == old(calls) && notice == old(notice)
    {
      editando := Some(a);
      formData := FormDe(a);
      showForm := true;
    }

    /** `handleSubmit`: update when editing, create otherwise; on success a message, a reset form
        and a reload, on failure an error message and the form as it was. */
    method HandleSubmit(reply: Reply, recarga: Result<seq<Atividade>, Reply>)
      modifies this
      ensures var call := if old(editando).Some? then Atualizar(old(editando).value.id, old(formData)) else Criar(old(formData));
        && (reply.Ok? ==> calls == old(calls) + [call, Listar(FiltrosLimpos(filtros))])
        && (reply.Err? ==> calls == old(calls) + [call])
      ensures reply.Ok? ==> formData == FormVazio && editando == None && !showForm
      ensures reply.Ok? && recarga.Success? ==> atividades == recarga.value
      ensures reply.Ok? && recarga.Success? ==> notice == Info(if old(editando).Some? then "Atividade atualizada com sucesso!" else "Atividade criada com sucesso!")
      ensures reply.Ok? && recarga.Failure? ==> atividades == old(atividades) && notice == Erro("Erro ao carregar atividades")
      ensures reply.Err? ==> formData == old(formData) && editando == old(editando) && showForm == old(showForm)
      ensures reply.Err? ==> notice == Erro("Erro ao salvar: " + ErrorText(reply)) && atividades == old(atividades)
      ensures filtros == old(filtros)
    {
      var call := if editando.Some? then Atualizar(editando.value.id, formData) else Criar(formData);
      calls := calls + [call];
      if reply.Ok? {
        notice := Info(if editando.Some? then "Atividade atualizada com sucesso!" else "Atividade criada com sucesso!");
        ResetForm();
        CarregarAtividades(recarga);
      } else {
        notice := Erro("Erro ao salvar: " + ErrorText(reply));
      }
    }

    /** `handleDelete`: the delete call only when the dialog is confirmed, then a reload on
        success; cancelling changes nothing. */
    method HandleDelete(id: int, confirmado: bool, reply: Reply, recarga: Result<seq<Atividade>, Reply>)
      modifies this
      ensures !confirmado ==> calls == old(calls) && notice == old(notice) && atividades == old(atividades)
      ensures confirmado && reply.Ok? ==> calls == old(calls) + [Deletar(id), Listar(FiltrosLimpos(filtros))]
      ensures confirmado && reply.Err? ==> calls == old(calls) + [Deletar(id)]
      ensures confirmado && reply.Ok? && recarga.Success? ==> atividades == recarga.value && notice == Info("Atividade deletada com sucesso!")
      ensures confirmado && reply.Ok? && recarga.Failure? ==> atividades == old(atividades) && notice == Erro("Erro ao carregar atividades")
      ensures confirmado && reply.Err? ==> atividades == old(atividades) && notice == Erro("Erro ao deletar: " + ErrorText(reply))
      ensures filtros == old(filtros) && formData == old(formData) && editando == old(editando) && showForm == old(showForm)
    {
      if confirmado {
        calls := calls + [Deletar(id)];
        if reply.Ok? {
          notice := Info("Atividade deletada com sucesso!");
          CarregarAtividades(recarga);
        } else {
          notice := Erro("Erro ao deletar: " + ErrorText(reply));
        }
      }
    }
  }
}
