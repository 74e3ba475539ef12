/** The dashboard: four optional filters narrow the activity list, the dropdown options follow
    the current selection, the activities of the squads named "Auditoria" and "Recodificação"
    are shown apart, and each activity title gets a status summary. */
module Dashboard {
  import opened Wrappers
  import Text
  import Seqs
  import opened Records

  /** The four dropdowns; `""` means "no filter". Id filters hold the selected option's text. */
  datatype Filtros = Filtros(ordemProducao: string, projetoId: string, squadId: string, tipoAtividade: string)

  const Vazios := Filtros("", "", "", "")

  const NomeAuditoria: string := "Auditoria"
  const NomeRecodificacao: string := "Recodificação"

  /** Ids of the projects with the given production order. */
  function IdsComOrdem(projetos: seq<Projeto>, op: string): set<int> {
    set p | p in projetos && p.ordemProducao == Some(op) :: p.id
  }

  predicate PorOrdem(projetos: seq<Projeto>, f: Filtros, a: Atividade) {
    f.ordemProducao == "" || a.projeto.id in IdsComOrdem(projetos, f.ordemProducao)
  }

  /** `parseInt` of the selected text compared with an id; text without digits never matches. */
  predicate PorProjeto(f: Filtros, a: Atividade) {
    f.projetoId == "" || Text.ParseInt(f.projetoId) == Some(a.projeto.id)
  }

  predicate PorSquad(f: Filtros, a: Atividade) {
    f.squadId == "" || Text.ParseInt(f.squadId) == Some(a.squad.id)
  }

  predicate PorTipo(f: Filtros, a: Atividade) {
    f.tipoAtividade == "" || a.titulo == f.tipoAtividade
  }

  /** The first `k` filters of the pipeline; the fourth, by title, only when `porTipo`. */
  predicate Etapa(projetos: seq<Projeto>, f: Filtros, porTipo: bool, k: nat, a: Atividade) {
    && (k >= 1 ==> PorOrdem(projetos, f, a))
    && (k >= 2 ==> PorProjeto(f, a))
    && (k >= 3 ==> PorSquad(f, a))
    && (k >= 4 && porTipo ==> PorTipo(f, a))
  }

  function EtapaP(projetos: seq<Projeto>, f: Filtros, porTipo: bool, k: nat): Atividade -> bool {
    (a: Atividade) => Etapa(projetos, f, porTipo, k, a)
  }

  /** An activity passes the whole pipeline. */
  predicate Passa(projetos: seq<Projeto>, f: Filtros, porTipo: bool, a: Atividade) {
    PorOrdem(projetos, f, a) && PorProjeto(f, a) && PorSquad(f, a) && (porTipo ==> PorTipo(f, a))
  }

  /** The pipeline's result in one step: the activities that pass, in input order. */
  function Filtradas(atividades: seq<Atividade>, projetos: seq<Projeto>, f: Filtros, porTipo: bool): seq<Atividade> {
    Seqs.Filter(atividades, (a: Atividade) => Passa(projetos, f, porTipo, a))
  }

  /** The conditions each step of the pipeline filters by. */
  function NoProjeto(ids: set<int>): Atividade -> bool { (a: Atividade) => a.projeto.id in ids }
  function DoProjeto(id: Option<int>): Atividade -> bool { (a: Atividade) => id == Some(a.projeto.id) }
  function DaSquad(id: Option<int>): Atividade -> bool { (a: Atividade) => id == Some(a.squad.id) }
  function ComTitulo(tipo: string): Atividade -> bool { (a: Atividade) => a.titulo == tipo }

  /** The filters applied one after another to a working copy of the list, each only when set.
      With `porTipo` this is the list the dashboard shows; without it, the list the dropdown
      options are computed from. */
  method FiltrarAtividades(atividades: seq<Atividade>, projetos: seq<Projeto>, f: Filtros, porTipo: bool)
    returns (filtradas: seq<Atividade>)
    ensures filtradas == Filtradas(atividades, projetos, f, porTipo)
  {
    filtradas := atividades;
    Seqs.FilterAll(atividades, EtapaP(projetos, f, porTipo, 0));
    if f.ordemProducao != "" {
      filtradas := Seqs.Filter(filtradas, NoProjeto(IdsComOrdem(projetos, f.ordemProducao)));
    }
    Passo1(atividades, projetos, f, porTipo);
    if f.projetoId != "" {
      filtradas := Seqs.Filter(filtradas, DoProjeto(Text.ParseInt(f.projetoId)));
    }
    Passo2(atividades, projetos, f, porTipo);
    if f.squadId != "" {
      filtradas := Seqs.Filter(filtradas, DaSquad(Text.ParseInt(f.squadId)));
    }
    Passo3(atividades, projetos, f, porTipo);
    if porTipo && f.tipoAtividade != "" {
      filtradas := Seqs.Filter(filtradas, ComTitulo(f.tipoAtividade));
    }
    Passo4(atividades, projetos, f, porTipo);
  }

  lemma Passo1(atividades: seq<Atividade>, projetos: seq<Projeto>, f: Filtros, porTipo: bool)
    ensures var antes := Seqs.Filter(atividades, EtapaP(projetos, f, porTipo, 0));
      Seqs.Filter(atividades, EtapaP(projetos, f, porTipo, 1))
      == if f.ordemProducao != "" then Seqs.Filter(antes, NoProjeto(IdsComOrdem(projetos, f.ordemProducao))) else antes
  {
    if f.ordemProducao != "" {
      Seqs.FilterStep(atividades, EtapaP(projetos, f, porTipo, 0), NoProjeto(IdsComOrdem(projetos, f.ordemProducao)), EtapaP(projetos, f, porTipo, 1));
    } else {
      Seqs.FilterSameOn(atividades, EtapaP(projetos, f, porTipo, 0), EtapaP(projetos, f, porTipo, 1));
    }
  }

  lemma Passo2(atividades: seq<Atividade>, projetos: seq<Projeto>, f: Filtros, porTipo: bool)
    ensures var antes := Seqs.Filter(atividades, EtapaP(projetos, f, porTipo, 1));
      Seqs.Filter(atividades, EtapaP(projetos, f, porTipo, 2))
      == if f.projetoId != "" then Seqs.Filter(antes, DoProjeto(Text.ParseInt(f.projetoId))) else antes
  {
    if f.projetoId != "" {
      Seqs.FilterStep(atividades, EtapaP(projetos, f, porTipo, 1), DoProjeto(Text.ParseInt(f.projetoId)), EtapaP(projetos, f, porTipo, 2));
    } else {
      Seqs.FilterSameOn(atividades, EtapaP(projetos, f, porTipo, 1), EtapaP(projetos, f, porTipo, 2));
    }
  }

  lemma Passo3(atividades: seq<Atividade>, projetos: seq<Projeto>, f: Filtros, porTipo: bool)
    ensures var antes := Seqs.Filter(atividades, EtapaP(projetos, f, porTipo, 2));
      Seqs.Filter(atividades, EtapaP(projetos, f, porTipo, 3))
      == if f.squadId != "" then Seqs.Filter(antes, DaSquad(Text.ParseInt(f.squadId))) else antes
  {
    if f.squadId != "" {
      Seqs.FilterStep(atividades, EtapaP(projetos, f, porTipo, 2), DaSquad(Text.ParseInt(f.squadId)), EtapaP(projetos, f, porTipo, 3));
    } else {
      Seqs.FilterSameOn(atividades, EtapaP(projetos, f, porTipo, 2), EtapaP(projetos, f, porTipo, 3));
    }
  }

  lemma Passo4(atividades: seq<Atividade>, projetos: seq<Projeto>, f: Filtros, porTipo: bool)
    ensures var antes := Seqs.Filter(atividades, EtapaP(projetos, f, porTipo, 3));
      Filtradas(atividades, projetos, f, porTipo)
      == if porTipo && f.tipoAtividade != "" then Seqs.Filter(antes, ComTitulo(f.tipoAtividade)) else antes
  {
    if porTipo && f.tipoAtividade != "" {
      Seqs.FilterStep(atividades, EtapaP(projetos, f, porTipo, 3), ComTitulo(f.tipoAtividade), EtapaP(projetos, f, porTipo, 4));
    } else {
      Seqs.FilterSameOn(atividades, EtapaP(projetos, f, porTipo, 3), EtapaP(projetos, f, porTipo, 4));
    }
    Seqs.FilterSameOn(atividades, EtapaP(projetos, f, porTipo, 4), (a: Atividade) => Passa(projetos, f, porTipo, a));
  }

  /** The filtered list keeps input order, holds exactly the activities that pass every set
      filter, and with no filter set is the whole list. */
  lemma FiltradasSpec(atividades: seq<Atividade>, projetos: seq<Projeto>, f: Filtros, porTipo: bool)
    ensures Seqs.IsSubsequence(Filtradas(atividades, projetos, f, porTipo), atividades)
    ensures forall a :: a in Filtradas(atividades, projetos, f, porTipo) <==>
      a in atividades && Passa(projetos, f, porTipo, a)
    ensures f == Vazios ==> Filtradas(atividades, projetos, f, porTipo) == atividades
  {
    Seqs.FilterIsSubsequence(atividades, (a: Atividade) => Passa(projetos, f, porTipo, a));
    if f == Vazios {
      Seqs.FilterAll(atividades, (a: Atividade) => Passa(projetos, f, porTipo, a));
    }
  }

  /** `g` sets every filter `f` sets, to the same value, and possibly more. */
  predicate Refina(f: Filtros, g: Filtros) {
    && (f.ordemProducao == "" || g.ordemProducao == f.ordemProducao)
    && (f.projetoId == "" || g.projetoId == f.projetoId)
    && (f.squadId == "" || g.squadId == f.squadId)
    && (f.tipoAtividade == "" || g.tipoAtividade == f.tipoAtividade)
  }

  /** Setting another filter only narrows the list. */
  lemma FiltradasNarrow(atividades: seq<Atividade>, projetos: seq<Projeto>, f: Filtros, g: Filtros, porTipo: bool)
    requires Refina(f, g)
    ensures forall a :: a in Filtradas(atividades, projetos, g, porTipo) ==> a in Filtradas(atividades, projetos, f, porTipo)
  {
  }

  /** `squads.find((s: Squad) => s.nome === nome)`: the first squad with that exact name. */
  function SquadNomeada(squads: seq<Squad>, nome: string): (r: Option<Squad>)
    ensures r.Some? ==> r.value in squads && r.value.nome == nome
    ensures r.None? <==> forall s :: s in squads ==> s.nome != nome
    ensures r.Some? ==> exists i :: 0 <= i < |squads| && squads[i] == r.value && forall j :: 0 <= j < i ==> squads[j].nome != nome
  {
    if squads == [] then None
    else if squads[0].nome == nome then Some(squads[0])
    else
      var r := SquadNomeada(squads[1..], nome);
      assert r.Some? ==> squads[1..][0] == squads[1];
      r
  }

  /** The activities of the squad named `nome`: none when no squad has that name. */
  function Grupo(filtradas: seq<Atividade>, squads: seq<Squad>, nome: string): seq<Atividade> {
    match SquadNomeada(squads, nome)
    case None => []
    case Some(s) => Seqs.Filter(filtradas, (a: Atividade) => a.squad.id == s.id)
  }

  /** A section is empty when its squad does not exist, keeps the order of the filtered list,
      and holds exactly the filtered activities of that squad. */
  lemma GrupoSpec(filtradas: seq<Atividade>, squads: seq<Squad>, nome: string)
    ensures SquadNomeada(squads, nome).None? ==> Grupo(filtradas, squads, nome) == []
    ensures Seqs.IsSubsequence(Grupo(filtradas, squads, nome), filtradas)
    ensures forall a :: a in Grupo(filtradas, squads, nome) <==>
      a in filtradas && SquadNomeada(squads, nome).Some? && a.squad.id == SquadNomeada(squads, nome).value.id
  {
    match SquadNomeada(squads, nome)
    case None =>
    case Some(s) => Seqs.FilterIsSubsequence(filtradas, (a: Atividade) => a.squad.id == s.id);
  }

  /** The per-title summary of one squad section. */
  datatype Indicadores = Indicadores(total: nat, concluidas: nat, emAndamento: nat, pendentes: nat, percentual: real)

  predicate DoTipo(tipo: string, a: Atividade) {
    tipo == "" || a.titulo == tipo
  }

  /** The activities of the given title, all of them for `""`. */
  function DoTipoSeq(atividades: seq<Atividade>, tipo: string): (r: seq<Atividade>)
    ensures r == Seqs.Filter(atividades, (a: Atividade) => DoTipo(tipo, a))
  {
    if tipo != "" then
      Seqs.FilterSameOn(atividades, (a: Atividade) => a.titulo == tipo, (a: Atividade) => DoTipo(tipo, a));
      Seqs.Filter(atividades, (a: Atividade) => a.titulo == tipo)
    else
      Seqs.FilterAll(atividades, (a: Atividade) => DoTipo(tipo, a));
      atividades
  }

  function ComStatus(st: string): Atividade -> bool {
    (a: Atividade) => a.status == st
  }

  /** `concluidas / total * 100`, or `0` when there is nothing to count. */
  function Percentual(concluidas: nat, total: nat): (r: real)
    requires concluidas <= total
    ensures total == 0 ==> r == 0.0
    ensures total > 0 ==> r * total as real == 100.0 * concluidas as real
    ensures 0.0 <= r <= 100.0
  {
    if total > 0 then
      var q := concluidas as real / total as real;
      assert q * total as real == concluidas as real;
      assert q <= 1.0;
      q * 100.0
    else 0.0
  }

  /** Counts by status among the activities of the given title (all of them for `""`), and the
      completed share as a percentage. */
  function CalcularIndicadores(atividades: seq<Atividade>, tipo: string): Indicadores {
    var doTipo := DoTipoSeq(atividades, tipo);
    var concluidas := Seqs.Count(doTipo, ComStatus("concluida"));
    Seqs.CountThree(doTipo, ComStatus("concluida"), ComStatus("em_andamento"), ComStatus("pendente"));
    Indicadores(|doTipo|, concluidas, Seqs.Count(doTipo, ComStatus("em_andamento")),
      Seqs.Count(doTipo, ComStatus("pendente")), Percentual(concluidas, |doTipo|))
  }

  /** `total` counts the activities of the title; the three status counts never exceed it and
      add up to it exactly when every such activity has one of the three statuses; the
      percentage is `Percentual` of the completed count. */
  lemma CalcularIndicadoresSpec(atividades: seq<Atividade>, tipo: string)
    ensures CalcularIndicadores(atividades, tipo).total == Seqs.Count(atividades, (a: Atividade) => DoTipo(tipo, a))
    ensures var d := CalcularIndicadores(atividades, tipo);
      && d.concluidas + d.emAndamento + d.pendentes <= d.total
      && (d.concluidas + d.emAndamento + d.pendentes == d.total <==>
          forall a :: a in atividades && DoTipo(tipo, a) ==> StatusValido(a))
    ensures var d := CalcularIndicadores(atividades, tipo); d.percentual == Percentual(d.concluidas, d.total)
  {
    var doTipo := DoTipoSeq(atividades, tipo);
    var d := CalcularIndicadores(atividades, tipo);
    assert d.total == |doTipo| && d.concluidas == Seqs.Count(doTipo, ComStatus("concluida"));
    assert d.emAndamento == Seqs.Count(doTipo, ComStatus("em_andamento"));
    assert d.pendentes == Seqs.Count(doTipo, ComStatus("pendente"));
    Seqs.CountThree(doTipo, ComStatus("concluida"), ComStatus("em_andamento"), ComStatus("pendente"));
    StatusConhecido(atividades, tipo);
  }

  /** One of the three statuses the backend accepts. */
  predicate StatusValido(a: Atividade) {
    a.status == "concluida" || a.status == "em_andamento" || a.status == "pendente"
  }

  lemma StatusConhecido(atividades: seq<Atividade>, tipo: string)
    ensures (forall a :: a in DoTipoSeq(atividades, tipo) ==> ComStatus("concluida")(a) || ComStatus("em_andamento")(a) || ComStatus("pendente")(a))
      <==> (forall a :: a in atividades && DoTipo(tipo, a) ==> StatusValido(a))
  {
    var r := DoTipoSeq(atividades, tipo);
    forall a ensures a in r <==> a in atividades && DoTipo(tipo, a) {
      assert ((a: Atividade) => DoTipo(tipo, a))(a) == DoTipo(tipo, a);
    }
    forall a ensures (ComStatus("concluida")(a) || ComStatus("em_andamento")(a) || ComStatus("pendente")(a)) == StatusValido(a) {
    }
  }

  /** An indicator is drawn only when some activity of its title exists. */
  predicate Exibido(d: Indicadores) {
    d.total != 0
  }

  lemma ExibidoSpec(atividades: seq<Atividade>, tipo: string)
    ensures Exibido(CalcularIndicadores(atividades, tipo)) <==> exists a :: a in atividades && DoTipo(tipo, a)
  {
    var r := DoTipoSeq(atividades, tipo);
    if r != [] { assert r[0] in r; }
  }

  /** Non-blank production orders of the projects, in project order, repeats kept. */
  function OrdensNaoVazias(projetos: seq<Projeto>): seq<string> {
    if projetos == [] then []
    else
      var p := projetos[0];
      var rest := OrdensNaoVazias(projetos[1..]);
      if p.ordemProducao.Some? && Text.Trim(p.ordemProducao.value) != "" then [p.ordemProducao.value] + rest else rest
  }

  /** The orders collected are exactly the non-blank orders some project has. */
  predicate TemOrdem(projetos: seq<Projeto>, x: string) {
    exists p :: p in projetos && p.ordemProducao == Some(x) && Text.Trim(x) != ""
  }

  lemma {:induction false} OrdensNaoVaziasSpec(projetos: seq<Projeto>)
    ensures forall x :: x in OrdensNaoVazias(projetos) <==> TemOrdem(projetos, x)
  {
    if projetos != [] {
      var p := projetos[0];
      OrdensNaoVaziasSpec(projetos[1..]);
      forall x ensures x in OrdensNaoVazias(projetos) <==> TemOrdem(projetos, x) {
        if TemOrdem(projetos, x) {
          var q :| q in projetos && q.ordemProducao == Some(x) && Text.Trim(x) != "";
          if q != p { assert q in projetos[1..]; }
        }
        if TemOrdem(projetos[1..], x) {
          var q :| q in projetos[1..] && q.ordemProducao == Some(x) && Text.Trim(x) != "";
          assert q in projetos;
        }
      }
    }
  }

  /** `projetos.find((p: Projeto) => p.id === id)`. */
  function ProjetoPorId(projetos: seq<Projeto>, id: int): (r: Option<Projeto>)
    ensures r.Some? ==> r.value in projetos && r.value.id == id
    ensures r.None? <==> forall p :: p in projetos ==> p.id != id
  {
    if projetos == [] then None
    else if projetos[0].id == id then Some(projetos[0])
    else ProjetoPorId(projetos[1..], id)
  }

  /** The selected project, if the project filter names one. */
  function Selecionado(projetos: seq<Projeto>, f: Filtros): Option<Projeto> {
    match Text.ParseInt(f.projetoId)
    case None => None
    case Some(id) => ProjetoPorId(projetos, id)
  }

  /** Production-order options: with a project selected, its own order when set, else none;
      otherwise every non-blank order once, sorted. */
  function OpcoesOrdemProducao(projetos: seq<Projeto>, f: Filtros): seq<string> {
    if f.projetoId != "" then
      match Selecionado(projetos, f)
      case Some(p) =>
        if p.ordemProducao.Some? && p.ordemProducao.value != "" then [p.ordemProducao.value] else []
      case None => []
    else
      Seqs.SortedDistinct(OrdensNaoVazias(projetos))
  }

  /** With a project selected: at most one option, the selected project's own non-empty order.
      Without: strictly increasing, so each order once, and exactly the non-blank orders of the
      projects. */
  lemma OpcoesOrdemProducaoSpec(projetos: seq<Projeto>, f: Filtros)
    ensures f.projetoId != "" ==> |OpcoesOrdemProducao(projetos, f)| <= 1
    ensures var r := OpcoesOrdemProducao(projetos, f);
      f.projetoId != "" && r != [] ==>
        Selecionado(projetos, f).Some? && Selecionado(projetos, f).value.ordemProducao == Some(r[0]) && r[0] != ""
    ensures f.projetoId != "" && OpcoesOrdemProducao(projetos, f) == [] ==>
      Selecionado(projetos, f).None? || Selecionado(projetos, f).value.ordemProducao in {None, Some("")}
    ensures var r := OpcoesOrdemProducao(projetos, f);
      f.projetoId == "" ==> forall i, j :: 0 <= i < j < |r| ==> Text.Less(r[i], r[j])
    ensures f.projetoId == "" ==> forall x :: x in OpcoesOrdemProducao(projetos, f) <==> TemOrdem(projetos, x)
  {
    if f.projetoId == "" {
      OrdensNaoVaziasSpec(projetos);
      Seqs.SortedDistinctSpec(OrdensNaoVazias(projetos));
    } else {
      match Selecionado(projetos, f)
      case None =>
      case Some(p) =>
        assert p.ordemProducao.None? || p.ordemProducao.value == "" || OpcoesOrdemProducao(projetos, f) == [p.ordemProducao.value];
    }
  }

  /** Squad options: the squads, in their own order, that some remaining activity belongs to. */
  function OpcoesSquads(squads: seq<Squad>, filtradas: seq<Atividade>): seq<Squad> {
    Seqs.Filter(squads, (s: Squad) => s.id in IdsDeSquad(filtradas))
  }

  function IdsDeSquad(filtradas: seq<Atividade>): set<int> {
    set a | a in filtradas :: a.squad.id
  }

  lemma OpcoesSquadsSpec(squads: seq<Squad>, filtradas: seq<Atividade>)
    ensures Seqs.IsSubsequence(OpcoesSquads(squads, filtradas), squads)
    ensures forall s :: s in OpcoesSquads(squads, filtradas) <==> s in squads && exists a :: a in filtradas && a.squad.id == s.id
  {
    Seqs.FilterIsSubsequence(squads, (s: Squad) => s.id in IdsDeSquad(filtradas));
  }
  function Titulos(atividades: seq<Atividade>): (r: seq<string>)
    ensures forall x :: x in r <==> exists a :: a in atividades && a.titulo == x
  {
    if atividades == [] then []
    else
      assert forall a :: a in atividades <==> a == atividades[0] || a in atividades[1..];
      [atividades[0].titulo] + Titulos(atividades[1..])
  }

  /** Activity-type options: the titles of the remaining activities, each once, sorted. */
  function OpcoesTipos(filtradas: seq<Atividade>): seq<string> {
    Seqs.SortedDistinct(Titulos(filtradas))
  }

  /** Strictly increasing, so each title once, and exactly the titles of the remaining activities. */
  lemma OpcoesTiposSpec(filtradas: seq<Atividade>)
    ensures var r := OpcoesTipos(filtradas); forall i, j :: 0 <= i < j < |r| ==> Text.Less(r[i], r[j])
    ensures forall x :: x in OpcoesTipos(filtradas) <==> exists a :: a in filtradas && a.titulo == x
  {
    Seqs.SortedDistinctSpec(Titulos(filtradas));
  }

  /** A project choice in the project dropdown. */
  datatype Opcao = Opcao(id: int, rotulo: string)

  /** A project is offered when it has a non-blank sub-programme and, under a production-order
      filter, that order. */
  predicate Listavel(p: Projeto, f: Filtros) {
    && p.subprograma.Some? && Text.Trim(p.subprograma.value) != ""
    && (f.ordemProducao == "" || p.ordemProducao == Some(f.ordemProducao))
  }

  function Rotulo(p: Projeto): string {
    OrEmpty(p.subprograma) + " - " + p.nome
  }

  function ComoOpcoes(projetos: seq<Projeto>): (r: seq<Opcao>)
    ensures |r| == |projetos|
    ensures forall i :: 0 <= i < |r| ==> r[i] == Opcao(projetos[i].id, Rotulo(projetos[i]))
  {
    if projetos == [] then [] else [Opcao(projetos[0].id, Rotulo(projetos[0]))] + ComoOpcoes(projetos[1..])
  }

  function PorLabel(o: Opcao): string { o.rotulo }

  function ComSubprograma(p: Projeto): bool {
    p.subprograma.Some? && Text.Trim(p.subprograma.value) != ""
  }

  /** The project dropdown: the listable projects labelled "sub-programme - name", sorted by that label. */
  function ProjetosFormatados(projetos: seq<Projeto>, f: Filtros): seq<Opcao> {
    var comSub := Seqs.Filter(projetos, ComSubprograma);
    var naOrdem := if f.ordemProducao != "" then Seqs.Filter(comSub, (p: Projeto) => p.ordemProducao == Some(f.ordemProducao)) else comSub;
    Seqs.SortBy(ComoOpcoes(naOrdem), PorLabel)
  }

  lemma ListaveisEmOrdem(projetos: seq<Projeto>, f: Filtros)
    ensures (if f.ordemProducao != "" then Seqs.Filter(Seqs.Filter(projetos, ComSubprograma), (p: Projeto) => p.ordemProducao == Some(f.ordemProducao))
             else Seqs.Filter(projetos, ComSubprograma))
         == Seqs.Filter(projetos, (p: Projeto) => Listavel(p, f))
  {
    if f.ordemProducao != "" {
      Seqs.FilterStep(projetos, ComSubprograma, (p: Projeto) => p.ordemProducao == Some(f.ordemProducao), (p: Projeto) => Listavel(p, f));
    } else {
      Seqs.FilterSameOn(projetos, ComSubprograma, (p: Projeto) => Listavel(p, f));
    }
  }

  lemma ComoOpcoesMembers(ps: seq<Projeto>)
    ensures forall o :: o in ComoOpcoes(ps) <==> exists p :: p in ps && o == Opcao(p.id, Rotulo(p))
  {
    var opcoes := ComoOpcoes(ps);
    forall o ensures o in opcoes <==> exists p :: p in ps && o == Opcao(p.id, Rotulo(p)) {
      if o in opcoes {
        var i :| 0 <= i < |opcoes| && opcoes[i] == o;
        assert ps[i] in ps;
      }
      if exists p :: p in ps && o == Opcao(p.id, Rotulo(p)) {
        var p :| p in ps && o == Opcao(p.id, Rotulo(p));
        var i :| 0 <= i < |ps| && ps[i] == p;
        assert opcoes[i] == o;
      }
    }
  }

  /** The dropdown is sorted by label, offers exactly the listable projects with their labels,
      and offers each listable project once. */
  lemma ProjetosFormatadosSpec(projetos: seq<Projeto>, f: Filtros)
    ensures Seqs.SortedBy(ProjetosFormatados(projetos, f), PorLabel)
    ensures forall o :: o in ProjetosFormatados(projetos, f) <==>
      exists p :: p in projetos && Listavel(p, f) && o == Opcao(p.id, Rotulo(p))
    ensures |ProjetosFormatados(projetos, f)| == Seqs.Count(projetos, (p: Projeto) => Listavel(p, f))
  {
    ListaveisEmOrdem(projetos, f);
    var naOrdem := Seqs.Filter(projetos, (p: Projeto) => Listavel(p, f));
    ComoOpcoesMembers(naOrdem);
    var r := ProjetosFormatados(projetos, f);
    assert |multiset(r)| == |multiset(ComoOpcoes(naOrdem))|;
  }

  /** Whether the section of the squad named `nome` is shown: always without a squad filter,
      otherwise only when that squad exists and is the one selected. */
  predicate DeveExibir(squads: seq<Squad>, f: Filtros, nome: string) {
    f.squadId == "" || (SquadNomeada(squads, nome).Some? && Text.ParseInt(f.squadId) == Some(SquadNomeada(squads, nome).value.id))
  }

  /** With no squad filter both sections are shown; with one, at most one of the two sections
      is shown when the two squads have different ids, and a section is never shown for a
      squad that does not exist. */
  lemma DeveExibirSpec(squads: seq<Squad>, f: Filtros)
    ensures f.squadId == "" ==> DeveExibir(squads, f, NomeAuditoria) && DeveExibir(squads, f, NomeRecodificacao)
    ensures f.squadId != "" && SquadNomeada(squads, NomeAuditoria).None? ==> !DeveExibir(squads, f, NomeAuditoria)
    ensures f.squadId != "" && SquadNomeada(squads, NomeRecodificacao).None? ==> !DeveExibir(squads, f, NomeRecodificacao)
    ensures f.squadId != "" && SquadNomeada(squads, NomeAuditoria).Some? && SquadNomeada(squads, NomeRecodificacao).Some?
      && SquadNomeada(squads, NomeAuditoria).value.id != SquadNomeada(squads, NomeRecodificacao).value.id
      ==> !(DeveExibir(squads, f, NomeAuditoria) && DeveExibir(squads, f, NomeRecodificacao))
  {
  }

  /** Choosing a production order resets the project filter and keeps the other two. */
  function ComOrdem(f: Filtros, op: string): (g: Filtros)
    ensures g.ordemProducao == op && g.projetoId == ""
    ensures g.squadId == f.squadId && g.tipoAtividade == f.tipoAtividade
  {
    f.(ordemProducao := op, projetoId := "")
  }

  /** The three dropdown option lists for the given data and filters. */
  method CalcularOpcoes(projetos: seq<Projeto>, squads: seq<Squad>, atividades: seq<Atividade>, f: Filtros)
    returns (ordens: seq<string>, opSquads: seq<Squad>, tipos: seq<string>)
    ensures ordens == OpcoesOrdemProducao(projetos, f)
    ensures opSquads == OpcoesSquads(squads, Filtradas(atividades, projetos, f, false))
    ensures tipos == OpcoesTipos(Filtradas(atividades, projetos, f, false))
  {
    var filtradas := FiltrarAtividades(atividades, projetos, f, false);
    ordens := OpcoesOrdemProducao(projetos, f);
    opSquads := OpcoesSquads(squads, filtradas);
    tipos := OpcoesTipos(filtradas);
  }

  /** The dashboard's component state. */
  class DashboardPage {
    var projetos: seq<Projeto>
    var squads: seq<Squad>
    var atividades: seq<Atividade>
    var filtros: Filtros
    var opcoesOrdemProducao: seq<string>
    var opcoesSquads: seq<Squad>
    var opcoesTiposAtividades: seq<string>
    var auditoria: seq<Atividade>
    var recodificacao: seq<Atividade>

    constructor ()
      ensures projetos == [] && squads == [] && atividades == [] && filtros == Vazios
      ensures opcoesOrdemProducao == [] && opcoesSquads == [] && opcoesTiposAtividades == []
      ensures auditoria == [] && recodificacao == []
    {
      projetos, squads, atividades, filtros := [], [], [], Vazios;
      opcoesOrdemProducao, opcoesSquads, opcoesTiposAtividades := [], [], [];
      auditoria, recodificacao := [], [];
    }

    /** The derived lists agree with the data and the filters. */
    predicate Atualizado()
      reads this
    {
      && opcoesOrdemProducao == OpcoesOrdemProducao(projetos, filtros)
      && opcoesSquads == OpcoesSquads(squads, Filtradas(atividades, projetos, filtros, false))
      && opcoesTiposAtividades == OpcoesTipos(Filtradas(atividades, projetos, filtros, false))
      && auditoria == Grupo(Filtradas(atividades, projetos, filtros, true), squads, NomeAuditoria)
      && recodificacao == Grupo(Filtradas(atividades, projetos, filtros, true), squads, NomeRecodificacao)
    }

    /** The five lists derived from the data and the filters. */
    function Derivadas(): (seq<string>, seq<Squad>, seq<string>, seq<Atividade>, seq<Atividade>)
      reads this
    {
      (opcoesOrdemProducao, opcoesSquads, opcoesTiposAtividades, auditoria, recodificacao)
    }

    /** All three collections are loaded. */
    predicate Carregado()
      reads this
    {
      projetos != [] && squads != [] && atividades != []
    }

    /** The three dropdown option lists, from the activities narrowed by all filters but the title. */
    method AtualizarOpcoesFiltros()
      modifies this
      ensures projetos == old(projetos) && squads == old(squads) && atividades == old(atividades) && filtros == old(filtros)
      ensures auditoria == old(auditoria) && recodificacao == old(recodificacao)
      ensures opcoesOrdemProducao == OpcoesOrdemProducao(projetos, filtros)
      ensures opcoesSquads == OpcoesSquads(squads, Filtradas(atividades, projetos, filtros, false))
      ensures opcoesTiposAtividades == OpcoesTipos(Filtradas(atividades, projetos, filtros, false))
    {
      var ps, ss, ats, f := projetos, squads, atividades, filtros;
      var ordens, opSquads, tipos := CalcularOpcoes(ps, ss, ats, f);
      opcoesOrdemProducao, opcoesSquads, opcoesTiposAtividades := ordens, opSquads, tipos;
    }

    /** The two squad sections, from the activities narrowed by all four filters. */
    method AplicarFiltros()
      modifies this
      ensures projetos == old(projetos) && squads == old(squads) && atividades == old(atividades) && filtros == old(filtros)
      ensures opcoesOrdemProducao == old(opcoesOrdemProducao) && opcoesSquads == old(opcoesSquads)
      ensures opcoesTiposAtividades == old(opcoesTiposAtividades)
      ensures auditoria == Grupo(Filtradas(atividades, projetos, filtros, true), squads, NomeAuditoria)
      ensures recodificacao == Grupo(Filtradas(atividades, projetos, filtros, true), squads, NomeRecodificacao)
    {
      var filtradas := FiltrarAtividades(atividades, projetos, filtros, true);
      auditoria, recodificacao := Grupo(filtradas, squads, NomeAuditoria), Grupo(filtradas, squads, NomeRecodificacao);
    }

    /** The effect run whenever the data or the filters change: it recomputes only once all
        three lists are loaded. */
    method Recalcular()
      modifies this
      ensures projetos == old(projetos) && squads == old(squads) && atividades == old(atividades) && filtros == old(filtros)
      ensures Carregado() ==> Atualizado()
      ensures !Carregado() ==> unchanged(this)
    {
      if |projetos| > 0 && |squads| > 0 && |atividades| > 0 {
        AtualizarOpcoesFiltros();
        AplicarFiltros();
      }
    }

    /** New data from the three list requests. */
    method Carregar(ps: seq<Projeto>, ss: seq<Squad>, ats: seq<Atividade>)
      modifies this
      ensures projetos == ps && squads == ss && atividades == ats && filtros == old(filtros)
      ensures Carregado() ==> Atualizado()
      ensures !Carregado() ==> Derivadas() == old(Derivadas())
    {
      projetos, squads, atividades := ps, ss, ats;
      Recalcular();
    }

    method SetFiltros(f: Filtros)
      modifies this
      ensures filtros == f
      ensures projetos == old(projetos) && squads == old(squads) && atividades == old(atividades)
      ensures Carregado() ==> Atualizado()
      ensures !Carregado() ==> Derivadas() == old(Derivadas())
    {
      filtros := f;
      Recalcular();
    }

    /** The clear button: every filter back to `""`. */
    method LimparFiltros()
      modifies this
      ensures filtros == Vazios
      ensures projetos == old(projetos) && squads == old(squads) && atividades == old(atividades)
      ensures Carregado() ==> Atualizado()
      ensures !Carregado() ==> Derivadas() == old(Derivadas())
    {
      SetFiltros(Vazios);
    }

    /** The production-order dropdown: the project filter is cleared with it. */
    method OnOrdemProducaoChange(op: string)
      modifies this
      ensures filtros == ComOrdem(old(filtros), op)
      ensures projetos == old(projetos) && squads == old(squads) && atividades == old(atividades)
      ensures Carregado() ==> Atualizado()
      ensures !Carregado() ==> Derivadas() == old(Derivadas())
    {
      SetFiltros(ComOrdem(filtros, op));
    }
  }
}
