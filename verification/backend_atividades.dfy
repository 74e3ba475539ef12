/** The activity handlers: the filtered listing, create, update, delete and the statistics
    over the activity table. */
module AtividadesApi {
  import opened Wrappers
  import opened Backend

  const ErroTitulo := HttpError(400, "Título é obrigatório")
  const ErroProjeto := HttpError(400, "Projeto é obrigatório")
  const ErroSquad := HttpError(400, "Squad é obrigatória")
  const ProjetoNaoEncontrado := HttpError(404, "Projeto não encontrado")
  const SquadNaoEncontrada := HttpError(404, "Squad não encontrada")
  const ErroPrioridade := HttpError(400, "Prioridade inválida. Use: baixa, media ou alta")
  const ErroStatus := HttpError(400, "Status inválido. Use: pendente, em_andamento ou concluida")
  /** The `TypeError` `strptime` raises for a deadline that is not a string, answered with 500. */
  const ErroPrazo := HttpError(500, "strptime() argument 1 must be str")
  const ErroTituloNulo := HttpError(500, "NOT NULL constraint failed: atividade.titulo")

  /** The query parameters of the listing, already read with their types (`type=int` for the
      two ids); `None` when absent or not convertible. */
  datatype Query = Query(projetoId: Option<int>, squadId: Option<int>, status: Option<string>, prioridade: Option<string>)

  predicate DoProjeto(a: AtividadeRow, q: Query) {
    q.projetoId.Some? && q.projetoId.value != 0 ==> a.projetoId == q.projetoId.value
  }

  predicate DaSquad(a: AtividadeRow, q: Query) {
    q.squadId.Some? && q.squadId.value != 0 ==> a.squadId == q.squadId.value
  }

  predicate ComStatus(a: AtividadeRow, q: Query) {
    q.status.Some? && q.status.value != "" ==> a.status == JStr(q.status.value)
  }

  predicate ComPrioridade(a: AtividadeRow, q: Query) {
    q.prioridade.Some? && q.prioridade.value != "" ==> a.prioridade == JStr(q.prioridade.value)
  }

  /** The row meets every truthy parameter of the query. */
  predicate Atende(a: AtividadeRow, q: Query) {
    DoProjeto(a, q) && DaSquad(a, q) && ComStatus(a, q) && ComPrioridade(a, q)
  }

  /** `listar_atividades`: the query, held as the ids of the rows it selects, narrowed by one
      `filter_by` per truthy parameter, then its rows. */
  method Listar(t: map<int, AtividadeRow>, q: Query) returns (r: map<int, AtividadeRow>)
    ensures forall k :: k in r <==> k in t && Atende(t[k], q)
    ensures forall k :: k in r ==> r[k] == t[k]
  {
    var query := t.Keys;
    if q.projetoId.Some? && q.projetoId.value != 0 {
      query := set k | k in query && t[k].projetoId == q.projetoId.value;
    }
    assert forall k :: k in query <==> k in t && DoProjeto(t[k], q);
    if q.squadId.Some? && q.squadId.value != 0 {
      query := set k | k in query && t[k].squadId == q.squadId.value;
    }
    assert forall k :: k in query <==> k in t && DoProjeto(t[k], q) && DaSquad(t[k], q);
    if q.status.Some? && q.status.value != "" {
      query := set k | k in query && t[k].status == JStr(q.status.value);
    }
    assert forall k :: k in query <==> k in t && DoProjeto(t[k], q) && DaSquad(t[k], q) && ComStatus(t[k], q);
    if q.prioridade.Some? && q.prioridade.value != "" {
      query := set k | k in query && t[k].prioridade == JStr(q.prioridade.value);
    }
    r := map k | k in query :: t[k];
  }

  /** An empty query lists every activity. */
  lemma ListarSemFiltro(a: AtividadeRow)
    ensures Atende(a, Query(None, None, None, None))
    ensures Atende(a, Query(Some(0), Some(0), Some(""), Some("")))
  {
  }

  /** The deadline a body sets: `None` when it is falsy, the text when it is a string. */
  function Prazo(j: Json): (p: Option<string>)
    ensures p.Some? <==> Truthy(j) && j.JStr?
  {
    if Truthy(j) && j.JStr? then Some(j.s) else None
  }

  /** `criar_atividade`: title, project and squad are required, in that order; the project and
      the squad must exist; description, priority and status get their defaults; the deadline
      is set only when one is given. */
  method Criar(t: map<int, AtividadeRow>, projetos: set<int>, squads: set<int>, body: Body)
    returns (r: Result<(map<int, AtividadeRow>, int), HttpError>)
    ensures !Has(body, "titulo") ==> r == Failure(ErroTitulo)
    ensures Has(body, "titulo") && !Has(body, "projeto_id") ==> r == Failure(ErroProjeto)
    ensures Has(body, "titulo") && Has(body, "projeto_id") && !Has(body, "squad_id") ==> r == Failure(ErroSquad)
    ensures Has(body, "titulo") && Has(body, "projeto_id") && Has(body, "squad_id") ==>
      && (!Existe(projetos, body["projeto_id"]) ==> r == Failure(ProjetoNaoEncontrado))
      && (Existe(projetos, body["projeto_id"]) && !Existe(squads, body["squad_id"]) ==> r == Failure(SquadNaoEncontrada))
    ensures r.Success? <==>
      && Has(body, "titulo") && Has(body, "projeto_id") && Has(body, "squad_id")
      && Existe(projetos, body["projeto_id"]) && Existe(squads, body["squad_id"])
      && (Has(body, "prazo") ==> body["prazo"].JStr?)
    ensures r.Success? ==> r.value.1 !in t && r.value.0 == t[r.value.1 := Nova(body)]
  {
    if !Has(body, "titulo") {
      return Failure(ErroTitulo);
    }
    if !Has(body, "projeto_id") {
      return Failure(ErroProjeto);
    }
    if !Has(body, "squad_id") {
      return Failure(ErroSquad);
    }
    if !Existe(projetos, body["projeto_id"]) {
      return Failure(ProjetoNaoEncontrado);
    }
    if !Existe(squads, body["squad_id"]) {
      return Failure(SquadNaoEncontrada);
    }
    if Has(body, "prazo") && !body["prazo"].JStr? {
      return Failure(ErroPrazo);
    }
    var id := NovoId(t);
    r := Success((t[id := Nova(body)], id));
  }

  /** `Model.query.get(j)` finds a row: `j` names an id in use. */
  predicate Existe(ids: set<int>, j: Json) {
    IdDe(j).Some? && IdDe(j).value in ids
  }

  /** A column with a default on a new row: the value passed to the constructor, except that an
      absent key (through `data.get(k, default)`) or a null one (left out of the `INSERT`, so the
      column default applies) gives `default`. */
  function ComPadrao(body: Body, k: string, default: Json): Json {
    if k in body && body[k] != JNull then body[k] else default
  }

  /** The row a create stores. */
  function Nova(body: Body): (a: AtividadeRow)
    requires "projeto_id" in body && "squad_id" in body
    ensures "titulo" in body ==> a.titulo == body["titulo"]
    ensures a.descricao == GetOr(body, "descricao", JStr(""))
    ensures a.prioridade != JNull && a.status != JNull
    ensures "prioridade" in body && body["prioridade"] != JNull ==> a.prioridade == body["prioridade"]
    ensures "status" in body && body["status"] != JNull ==> a.status == body["status"]
    ensures a.prioridade == JStr("media") <==> "prioridade" !in body || body["prioridade"] in {JNull, JStr("media")}
    ensures a.status == JStr("pendente") <==> "status" !in body || body["status"] in {JNull, JStr("pendente")}
    ensures "prazo" !in body ==> a.prazo.None?
  {
    AtividadeRow(
      GetOr(body, "titulo", JNull), GetOr(body, "descricao", JStr("")),
      if "prazo" in body then Prazo(body["prazo"]) else None,
      ComPadrao(body, "prioridade", JStr("media")), ComPadrao(body, "status", JStr("pendente")),
      IdDe(body["projeto_id"]).GetOr(0), IdDe(body["squad_id"]).GetOr(0))
  }

  /** Creation does not check the priority or the status: any non-null value the client sends is
      kept, and null gives the column default. */
  lemma CriarNaoValidaEnums(body: Body)
    requires "projeto_id" in body && "squad_id" in body && "prioridade" in body && "status" in body
    ensures body["prioridade"] != JNull ==> Nova(body).prioridade == body["prioridade"]
    ensures body["prioridade"] == JNull ==> Nova(body).prioridade == JStr("media")
    ensures body["status"] != JNull ==> Nova(body).status == body["status"]
    ensures body["status"] == JNull ==> Nova(body).status == JStr("pendente")
  {
  }

  const Prioridades: set<Json> := {JStr("baixa"), JStr("media"), JStr("alta")}
  const Situacoes: set<Json> := {JStr("pendente"), JStr("em_andamento"), JStr("concluida")}

  /** The row an accepted update leaves: each key sent replaces its field, an empty deadline
      clears it, and the others are kept. */
  function Atualizada(a: AtividadeRow, body: Body): (n: AtividadeRow)
    ensures n.titulo == GetOr(body, "titulo", a.titulo) && n.descricao == GetOr(body, "descricao", a.descricao)
    ensures n.prioridade == GetOr(body, "prioridade", a.prioridade) && n.status == GetOr(body, "status", a.status)
    ensures "prazo" in body ==> n.prazo == Prazo(body["prazo"])
    ensures "prazo" !in body ==> n.prazo == a.prazo
    ensures "projeto_id" !in body ==> n.projetoId == a.projetoId
    ensures "squad_id" !in body ==> n.squadId == a.squadId
  {
    AtividadeRow(
      GetOr(body, "titulo", a.titulo), GetOr(body, "descricao", a.descricao),
      if "prazo" in body then Prazo(body["prazo"]) else a.prazo,
      GetOr(body, "prioridade", a.prioridade), GetOr(body, "status", a.status),
      if "projeto_id" in body then IdDe(body["projeto_id"]).GetOr(a.projetoId) else a.projetoId,
      if "squad_id" in body then IdDe(body["squad_id"]).GetOr(a.squadId) else a.squadId)
  }

  /** Whether an update of row `a` with `body` is accepted: known priority and status, a string
      deadline when a truthy one is sent, existing project and squad, and a non-null title. */
  predicate Aceita(a: AtividadeRow, projetos: set<int>, squads: set<int>, body: Body) {
    && ("prioridade" in body ==> body["prioridade"] in Prioridades)
    && ("status" in body ==> body["status"] in Situacoes)
    && ("prazo" in body && Truthy(body["prazo"]) ==> body["prazo"].JStr?)
    && ("projeto_id" in body ==> Existe(projetos, body["projeto_id"]))
    && ("squad_id" in body ==> Existe(squads, body["squad_id"]))
    && GetOr(body, "titulo", a.titulo) != JNull
  }

  /** `atualizar_atividade`: a missing activity is an error (the 404 is caught and answered with
      500); otherwise the row is updated field by field and stored only when every check passes. */
  method Atualizar(t: map<int, AtividadeRow>, projetos: set<int>, squads: set<int>, id: int, body: Body)
    returns (r: Result<map<int, AtividadeRow>, HttpError>)
    ensures id !in t ==> r == Failure(NaoEncontrado)
    ensures id in t ==> (r.Success? <==> Aceita(t[id], projetos, squads, body))
    ensures id in t && r.Failure? ==> r == Failure(ErroAtualizacao(t[id], projetos, squads, body))
    ensures r.Success? ==> r.value == t[id := Atualizada(t[id], body)]
    ensures r.Success? && "projeto_id" in body ==> IdDe(body["projeto_id"]) == Some(r.value[id].projetoId)
    ensures r.Success? && "squad_id" in body ==> IdDe(body["squad_id"]) == Some(r.value[id].squadId)
  {
    if id !in t {
      return Failure(NaoEncontrado);
    }
    var atualizada := AtualizarCampos(t[id], projetos, squads, body);
    match atualizada
    case Failure(e) => return Failure(e);
    case Success(a) => r := Success(t[id := a]);
  }

  /** The first check an update of `a` with `body` fails, in the order the handler makes them. A
      null title is rejected by the flush of the row, which the session makes before the query of
      the first project or squad lookup, and otherwise at the commit. */
  function ErroAtualizacao(a: AtividadeRow, projetos: set<int>, squads: set<int>, body: Body): (e: HttpError)
    ensures "prioridade" in body && body["prioridade"] !in Prioridades ==> e == ErroPrioridade
    ensures ("prioridade" !in body || body["prioridade"] in Prioridades) && "status" in body && body["status"] !in Situacoes ==> e == ErroStatus
    ensures EnumsValidos(body) && PrazoValido(body) && GetOr(body, "titulo", a.titulo) == JNull ==>
      e == ErroTituloNulo
    ensures EnumsValidos(body) && PrazoValido(body) && GetOr(body, "titulo", a.titulo) != JNull ==>
      "projeto_id" in body && !Existe(projetos, body["projeto_id"]) ==> e == ProjetoNaoEncontrado
  {
    if !EnumsValidos(body) then ErroEnum(body)
    else if || !PrazoValido(body)
            || (("projeto_id" in body || "squad_id" in body) && GetOr(body, "titulo", a.titulo) == JNull)
            || ("projeto_id" in body && !Existe(projetos, body["projeto_id"]))
            || ("squad_id" in body && !Existe(squads, body["squad_id"]))
    then ErroReferencia(GetOr(body, "titulo", a.titulo), projetos, squads, body)
    else ErroTituloNulo
  }

  /** The priority and the status sent, if any, are known values. */
  predicate EnumsValidos(body: Body) {
    ("prioridade" in body ==> body["prioridade"] in Prioridades) && ("status" in body ==> body["status"] in Situacoes)
  }

  /** A truthy deadline sent is a string. */
  predicate PrazoValido(body: Body) {
    "prazo" in body && Truthy(body["prazo"]) ==> body["prazo"].JStr?
  }

  /** The error of the priority and status checks: the priority is checked first. */
  function ErroEnum(body: Body): HttpError {
    if "prioridade" in body && body["prioridade"] !in Prioridades then ErroPrioridade else ErroStatus
  }

  /** The error of the deadline check, the flush before the first lookup, and the reference
      checks, in that order. */
  function ErroReferencia(titulo: Json, projetos: set<int>, squads: set<int>, body: Body): HttpError {
    if "prazo" in body && Truthy(body["prazo"]) && !body["prazo"].JStr? then ErroPrazo
    else if ("projeto_id" in body || "squad_id" in body) && titulo == JNull then ErroTituloNulo
    else if "projeto_id" in body && !Existe(projetos, body["projeto_id"]) then ProjetoNaoEncontrado
    else SquadNaoEncontrada
  }

  /** The body of the handler once the row is found: each key sent is copied onto the row, the
      enumerations and references are checked as they are reached, and a null title is rejected
      by the flush before the first lookup or else by the commit. */
  method AtualizarCampos(a0: AtividadeRow, projetos: set<int>, squads: set<int>, body: Body)
    returns (r: Result<AtividadeRow, HttpError>)
    ensures r.Success? <==> Aceita(a0, projetos, squads, body)
    ensures r.Failure? ==> r.error == ErroAtualizacao(a0, projetos, squads, body)
    ensures r.Success? ==> r.value == Atualizada(a0, body)
  {
    var a := a0;
    if "titulo" in body {
      a := a.(titulo := body["titulo"]);
    }
    if "descricao" in body {
      a := a.(descricao := body["descricao"]);
    }
    var enums := AtualizarEnums(a, body);
    if enums.Failure? {
      return Failure(enums.error);
    }
    var refs := AtualizarReferencias(enums.value, projetos, squads, body);
    if refs.Failure? {
      return Failure(refs.error);
    }
    a := refs.value;
    if a.titulo == JNull {
      return Failure(ErroTituloNulo);
    }
    r := Success(a);
  }

  /** The priority and the status, each checked against its known values before it is copied. */
  method AtualizarEnums(a0: AtividadeRow, body: Body) returns (r: Result<AtividadeRow, HttpError>)
    ensures r.Success? <==>
      ("prioridade" in body ==> body["prioridade"] in Prioridades) && ("status" in body ==> body["status"] in Situacoes)
    ensures r.Failure? ==> r.error == ErroEnum(body)
    ensures r.Success? ==>
      r.value == a0.(prioridade := GetOr(body, "prioridade", a0.prioridade), status := GetOr(body, "status", a0.status))
  {
    var a := a0;
    if "prioridade" in body {
      if body["prioridade"] !in Prioridades {
        return Failure(ErroPrioridade);
      }
      a := a.(prioridade := body["prioridade"]);
    }
    if "status" in body {
      if body["status"] !in Situacoes {
        return Failure(ErroStatus);
      }
      a := a.(status := body["status"]);
    }
    r := Success(a);
  }

  /** The deadline, then the project and the squad, each reference checked before it is copied.
      The first lookup's query flushes the row first, which fails when its title is null. */
  method AtualizarReferencias(a0: AtividadeRow, projetos: set<int>, squads: set<int>, body: Body)
    returns (r: Result<AtividadeRow, HttpError>)
    ensures r.Success? <==>
      && ("prazo" in body && Truthy(body["prazo"]) ==> body["prazo"].JStr?)
      && (("projeto_id" in body || "squad_id" in body) ==> a0.titulo != JNull)
      && ("projeto_id" in body ==> Existe(projetos, body["projeto_id"]))
      && ("squad_id" in body ==> Existe(squads, body["squad_id"]))
    ensures r.Failure? ==> r.error == ErroReferencia(a0.titulo, projetos, squads, body)
    ensures r.Success? ==> r.value == a0.(
      prazo := if "prazo" in body then Prazo(body["prazo"]) else a0.prazo,
      projetoId := if "projeto_id" in body then IdDe(body["projeto_id"]).value else a0.projetoId,
      squadId := if "squad_id" in body then IdDe(body["squad_id"]).value else a0.squadId)
  {
    var a := a0;
    if "prazo" in body {
      if Truthy(body["prazo"]) && !body["prazo"].JStr? {
        return Failure(ErroPrazo);
      }
      a := a.(prazo := Prazo(body["prazo"]));
    }
    if ("projeto_id" in body || "squad_id" in body) && a.titulo == JNull {
      return Failure(ErroTituloNulo);
    }
    if "projeto_id" in body {
      if !Existe(projetos, body["projeto_id"]) {
        return Failure(ProjetoNaoEncontrado);
      }
      a := a.(projetoId := IdDe(body["projeto_id"]).value);
    }
    if "squad_id" in body {
      if !Existe(squads, body["squad_id"]) {
        return Failure(SquadNaoEncontrada);
      }
      a := a.(squadId := IdDe(body["squad_id"]).value);
    }
    r := Success(a);
  }

  /** An accepted update leaves the activity with a known priority and status whenever it sent
      them, and its references pointing at existing rows whenever they pointed there before. */
  lemma AtualizarMantemReferencias(a: AtividadeRow, projetos: set<int>, squads: set<int>, body: Body)
    requires a.projetoId in projetos && a.squadId in squads
    requires "projeto_id" in body ==> Existe(projetos, body["projeto_id"])
    requires "squad_id" in body ==> Existe(squads, body["squad_id"])
    ensures Atualizada(a, body).projetoId in projetos && Atualizada(a, body).squadId in squads
  {
  }

  /** `deletar_atividade`: a missing activity is an error; otherwise it is removed. */
  method Deletar(t: map<int, AtividadeRow>, id: int) returns (r: Result<map<int, AtividadeRow>, HttpError>)
    ensures id !in t <==> r == Failure(NaoEncontrado)
    ensures r.Success? ==> r.value == t - {id} && |r.value| == |t| - 1
  {
    if id !in t {
      return Failure(NaoEncontrado);
    }
    r := Success(t - {id});
  }

  /** The ids of the rows whose `campo` is `v`. */
  function ComValor(t: map<int, AtividadeRow>, campo: AtividadeRow -> Json, v: string): set<int> {
    set k | k in t && campo(t[k]) == JStr(v)
  }

  function Status(a: AtividadeRow): Json { a.status }
  function Prioridade(a: AtividadeRow): Json { a.prioridade }

  datatype Estatisticas = Estatisticas(
    total: nat, pendente: nat, emAndamento: nat, concluida: nat, baixa: nat, media: nat, alta: nat)

  /** `estatisticas`: the number of activities, and how many have each status and each priority. */
  function CalcularEstatisticas(t: map<int, AtividadeRow>): (e: Estatisticas)
    ensures e.total == |t.Keys|
    ensures e.pendente + e.emAndamento + e.concluida <= e.total
    ensures e.baixa + e.media + e.alta <= e.total
  {
    var e := Estatisticas(|t.Keys|,
      |ComValor(t, Status, "pendente")|, |ComValor(t, Status, "em_andamento")|, |ComValor(t, Status, "concluida")|,
      |ComValor(t, Prioridade, "baixa")|, |ComValor(t, Prioridade, "media")|, |ComValor(t, Prioridade, "alta")|);
    TresPartes(t, Status, "pendente", "em_andamento", "concluida");
    TresPartes(t, Prioridade, "baixa", "media", "alta");
    e
  }

  /** Three distinct values of one field count each row at most once, and every row exactly
      once when every row holds one of the three. */
  lemma TresPartes(t: map<int, AtividadeRow>, campo: AtividadeRow -> Json, x: string, y: string, z: string)
    requires x != y && y != z && x != z
    ensures |ComValor(t, campo, x)| + |ComValor(t, campo, y)| + |ComValor(t, campo, z)| <= |t.Keys|
    ensures |ComValor(t, campo, x)| + |ComValor(t, campo, y)| + |ComValor(t, campo, z)| == |t.Keys| <==>
      forall k :: k in t ==> campo(t[k]) in {JStr(x), JStr(y), JStr(z)}
  {
    var a, b, c := ComValor(t, campo, x), ComValor(t, campo, y), ComValor(t, campo, z);
    assert a * b == {} && (a + b) * c == {};
    assert |a + b + c| == |a| + |b| + |c|;
    SubsetCard(a + b + c, t.Keys);
    if forall k :: k in t ==> campo(t[k]) in {JStr(x), JStr(y), JStr(z)} {
      assert a + b + c == t.Keys;
    } else {
      var k :| k in t && campo(t[k]) !in {JStr(x), JStr(y), JStr(z)};
      assert k !in a + b + c;
    }
  }
}
