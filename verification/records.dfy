/** The records the client receives from the API, as the server's `to_dict` serialises them:
    nullable columns are `Option`s, related records are `{id, nome}` references. */
module Records {
  import opened Wrappers

  /** A related record as the API embeds it. */
  datatype Ref = Ref(id: int, nome: string)

  datatype Projeto = Projeto(
    id: int, subprograma: Option<string>, nome: string, ordemProducao: Option<string>,
    dataAplicacao: Option<string>, dataTermino: Option<string>, etapas: Option<string>,
    disciplinas: Option<string>, tiposProcessamento: Option<string>, observacao: Option<string>,
    squads: seq<Ref>)

  datatype Squad = Squad(id: int, nome: string, descricao: Option<string>)

  datatype Atividade = Atividade(
    id: int, titulo: string, descricao: Option<string>, prazo: Option<string>,
    prioridade: string, status: string, projeto: Ref, squad: Ref)

  datatype Usuario = Usuario(id: int, nome: string, login: string, role: string, ativo: bool)

  /** `x || ''` on a nullable string: the value itself, or `""` for null. */
  function OrEmpty(o: Option<string>): (s: string)
    ensures s == "" <==> o.None? || o == Some("")
    ensures o.Some? ==> s == o.value
  {
    match o
    case Some(v) => v
    case None => ""
  }
}
