/** The projects page: a list and a create/edit form with a set of squad checkboxes. */
module ProjetosPage {
  import opened Wrappers
  import Seqs
  import opened Records
  import opened Calls

  datatype Form = Form(
    subprograma: string, nome: string, ordemProducao: string, dataAplicacao: string,
    dataTermino: string, etapas: string, disciplinas: string, tiposProcessamento: string,
    observacao: string, squadIds: seq<int>)

  const FormVazio := Form("", "", "", "", "", "", "", "", "", [])

  function RefIds(refs: seq<Ref>): (ids: seq<int>)
    ensures |ids| == |refs| && forall i :: 0 <= i < |refs| ==> ids[i] == refs[i].id
  {
    if refs == [] then [] else [refs[0].id] + RefIds(refs[1..])
  }

  /** The form an existing project is edited in: its name, `""` for each absent optional field,
      and the ids of its squads in order. */
  function FormDe(p: Projeto): (f: Form)
    ensures f.nome == p.nome
    ensures f.squadIds == RefIds(p.squads)
    ensures f.subprograma == OrEmpty(p.subprograma) && f.ordemProducao == OrEmpty(p.ordemProducao)
    ensures f.dataAplicacao == OrEmpty(p.dataAplicacao) && f.dataTermino == OrEmpty(p.dataTermino)
    ensures f.etapas == OrEmpty(p.etapas) && f.disciplinas == OrEmpty(p.disciplinas)
    ensures f.tiposProcessamento == OrEmpty(p.tiposProcessamento) && f.observacao == OrEmpty(p.observacao)
  {
    Form(OrEmpty(p.subprograma), p.nome, OrEmpty(p.ordemProducao), OrEmpty(p.dataAplicacao),
      OrEmpty(p.dataTermino), OrEmpty(p.etapas), OrEmpty(p.disciplinas),
      OrEmpty(p.tiposProcessamento), OrEmpty(p.observacao), RefIds(p.squads))
  }

  function Outro(id: int): int -> bool {
    x => x != id
  }

  /** A squad checkbox: a selected id is removed wherever it occurs, an unselected one is
      appended. */
  function Toggle(ids: seq<int>, id: int): seq<int> {
    if id in ids then Seqs.Filter(ids, Outro(id)) else ids + [id]
  }

  /** Toggling deselects a selected id and keeps the others in order, or selects an unselected
      id at the end. */
  lemma ToggleSpec(ids: seq<int>, id: int)
    ensures id in ids ==> id !in Toggle(ids, id) && Seqs.IsSubsequence(Toggle(ids, id), ids)
    ensures id in ids ==> forall x :: x != id ==> (x in Toggle(ids, id) <==> x in ids)
    ensures id in ids ==> multiset(Toggle(ids, id)) == multiset(ids)[id := 0]
    ensures id !in ids ==> Toggle(ids, id) == ids + [id]
  {
    if id in ids {
      Seqs.FilterIsSubsequence(ids, Outro(id));
      forall x
        ensures multiset(Toggle(ids, id))[x] == multiset(ids)[id := 0][x]
      {
        Seqs.FilterMultiset(ids, Outro(id), x);
      }
    }
  }

  /** Toggling the same unselected id twice restores the selection. */
  lemma {:induction false} ToggleTwice(ids: seq<int>, id: int)
    requires id !in ids
    ensures Toggle(Toggle(ids, id), id) == ids
  {
    assert id in ids + [id];
    Seqs.FilterConcat(ids, [id], Outro(id));
    Seqs.FilterAll(ids, Outro(id));
    assert Seqs.Filter([id], Outro(id)) == [];
  }

  class Page {
    var projetos: seq<Projeto>
    var squads: seq<Squad>
    var formData: Form
    var editando: Option<Projeto>
    var showForm: bool
    /** Every backend call the page has issued, oldest first; a reload of the project and squad
        lists is recorded as one `Listar`. */
    var calls: seq<Call<Form>>
    var notice: Notice

    constructor ()
      ensures projetos == [] && squads == [] && formData == FormVazio
      ensures editando == None && !showForm && calls == [] && notice == Silent
    {
      projetos, squads, formData := [], [], FormVazio;
      editando, showForm, calls, notice := None, false, [], Silent;
    }

    /** `carregarDados`: both lists from the reply, or an error message. */
    method CarregarDados(resposta: Result<(seq<Projeto>, seq<Squad>), Reply>)
      modifies this
      ensures calls == old(calls) + [Listar(map[])]
      ensures resposta.Success? ==> projetos == resposta.value.0 && squads == resposta.value.1 && notice == old(notice)
      ensures resposta.Failure? ==> projetos == old(projetos) && squads == old(squads) && notice == Erro("Erro ao carregar projetos")
      ensures formData == old(formData) && editando == old(editando) && showForm == old(showForm)
    {
      calls := calls + [Listar(map[])];
      match resposta
      case Success(v) => projetos, squads := v.0, v.1;
      case Failure(_) => notice := Erro("Erro ao carregar projetos");
    }

    /** `resetForm`: every field empty, no squad selected, not editing, form hidden. */
    method ResetForm()
      modifies this
      ensures formData == FormVazio && editando == None && !showForm
      ensures projetos == old(projetos) && squads == old(squads) && calls == old(calls) && notice == old(notice)
    {
      formData, editando, showForm := FormVazio, None, false;
    }

    /** `handleEdit`: the project's values in the form, edit mode, form shown. */
    method HandleEdit(p: Projeto)
      modifies this
      ensures formData == FormDe(p) && editando == Some(p) && showForm
      ensures projetos == old(projetos) && squads == old(squads) && calls == old(calls) && notice == old(notice)
    {
      editando := Some(p);
      formData := FormDe(p);
      showForm := true;
    }

    /** `handleSquadToggle`: only the squad selection changes. */
    method HandleSquadToggle(id: int)
      modifies this
      ensures formData == old(formData).(squadIds := Toggle(old(formData).squadIds, id))
      ensures projetos == old(projetos) && squads == old(squads) && calls == old(calls) && notice == old(notice)
      ensures editando == old(editando) && showForm == old(showForm)
    {
      formData := formData.(squadIds := Toggle(formData.squadIds, id));
    }

    /** `handleSubmit`: update when editing, create otherwise; reset and reload only on success. */
    method HandleSubmit(reply: Reply, recarga: Result<(seq<Projeto>, seq<Squad>), Reply>)
      modifies this
      ensures var call := if old(editando).Some? then Atualizar(old(editando).value.id, old(formData)) else Criar(old(formData));
        && (reply.Ok? ==> calls == old(calls) + [call, Listar(map[])])
        && (reply.Err? ==> calls == old(calls) + [call])
      ensures reply.Ok? ==> formData == FormVazio && editando == None && !showForm
      ensures reply.Ok? && recarga.Success? ==> projetos == recarga.value.0 && squads == recarga.value.1
      ensures reply.Ok? && recarga.Success? ==> notice == Info(if old(editando).Some? then "Projeto atualizado com sucesso!" else "Projeto criado com sucesso!")
      ensures reply.Ok? && recarga.Failure? ==> projetos == old(projetos) && squads == old(squads) && notice == Erro("Erro ao carregar projetos")
      ensures reply.Err? ==> formData == old(formData) && editando == old(editando) && showForm == old(showForm)
      ensures reply.Err? ==> notice == Erro("Erro ao salvar projeto: " + ErrorText(reply))
      ensures reply.Err? ==> projetos == old(projetos) && squads == old(squads)
    {
      var call := if editando.Some? then Atualizar(editando.value.id, formData) else Criar(formData);
      calls := calls + [call];
      if reply.Ok? {
        notice := Info(if editando.Some? then "Projeto atualizado com sucesso!" else "Projeto criado com sucesso!");
        ResetForm();
        CarregarDados(recarga);
      } else {
        notice := Erro("Erro ao salvar projeto: " + ErrorText(reply));
      }
    }

    /** `handleDelete`: the delete call only when the confirmation returns true. */
    method HandleDelete(id: int, confirmado: bool, reply: Reply, recarga: Result<(seq<Projeto>, seq<Squad>), Reply>)
      modifies this
      ensures !confirmado ==> calls == old(calls) && notice == old(notice) && projetos == old(projetos) && squads == old(squads)
      ensures confirmado && reply.Ok? ==> calls == old(calls) + [Deletar(id), Listar(map[])]
      ensures confirmado && reply.Err? ==> calls == old(calls) + [Deletar(id)]
      ensures confirmado && reply.Ok? && recarga.Success? ==> projetos == recarga.value.0 && squads == recarga.value.1
      ensures confirmado && reply.Ok? && recarga.Success? ==> notice == Info("Projeto deletado com sucesso!")
      ensures confirmado && reply.Ok? && recarga.Failure? ==> projetos == old(projetos) && squads == old(squads) && notice == Erro("Erro ao carregar projetos")
      ensures confirmado && reply.Err? ==> projetos == old(projetos) && squads == old(squads)
      ensures confirmado && reply.Err? ==> notice == Erro("Erro ao deletar projeto: " + ErrorText(reply))
      ensures formData == old(formData) && editando == old(editando) && showForm == old(showForm)
    {
      if confirmado {
        calls := calls + [Deletar(id)];
        if reply.Ok? {
          notice := Info("Projeto deletado com sucesso!");
          CarregarDados(recarga);
        } else {
          notice := Erro("Erro ao deletar projeto: " + ErrorText(reply));
        }
      }
    }
  }
}
