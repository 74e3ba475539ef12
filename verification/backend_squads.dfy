/** The squad handlers: create, update and delete over the squad table, with the unique-name
    rule the handlers check before the database would. */
module SquadsApi {
  import opened Wrappers
  import opened Backend

  const ErroNome := HttpError(400, "Nome é obrigatório")
  const ErroDuplicado := HttpError(400, "Já existe uma squad com esse nome")
  const ErroComAtividades := HttpError(400, "Não é possível deletar squad com atividades associadas")
  const ErroNomeNulo := HttpError(500, "NOT NULL constraint failed: squad.nome")

  function Nome(s: SquadRow): Json { s.nome }

  /** The squad `filter_by(nome=v).first()` finds, if any. */
  function ComNome(t: map<int, SquadRow>, v: Json): (r: Option<int>)
    ensures r.None? <==> forall k :: k in t ==> t[k].nome != v
    ensures r.Some? ==> r.value in t && t[r.value].nome == v
  {
    Primeiro(t, (s: SquadRow) => s.nome == v)
  }

  /** `criar_squad`: a truthy name is required and must be new; the description defaults to
      the empty string. */
  method Criar(t: map<int, SquadRow>, body: Body) returns (r: Result<(map<int, SquadRow>, int), HttpError>)
    ensures !Has(body, "nome") ==> r == Failure(ErroNome)
    ensures Has(body, "nome") && ComNome(t, body["nome"]).Some? ==> r == Failure(ErroDuplicado)
    ensures r.Success? <==> Has(body, "nome") && ComNome(t, body["nome"]).None?
    ensures r.Success? ==> r.value.1 !in t && r.value.1 >= 1
    ensures r.Success? ==>
      r.value.0 == t[r.value.1 := SquadRow(body["nome"], GetOr(body, "descricao", JStr("")))]
    ensures r.Success? && Unico(t, Nome) ==> Unico(r.value.0, Nome)
  {
    if !Has(body, "nome") {
      return Failure(ErroNome);
    }
    if ComNome(t, body["nome"]).Some? {
      return Failure(ErroDuplicado);
    }
    var id := NovoId(t);
    var squad := SquadRow(body["nome"], GetOr(body, "descricao", JStr("")));
    r := Success((t[id := squad], id));
  }

  /** The row an update leaves: each field present in the body replaced, the others kept. */
  function Atualizada(s: SquadRow, body: Body): (n: SquadRow)
    ensures n.nome == GetOr(body, "nome", s.nome)
    ensures n.descricao == GetOr(body, "descricao", s.descricao)
  {
    var s1 := if "nome" in body then s.(nome := body["nome"]) else s;
    if "descricao" in body then s1.(descricao := body["descricao"]) else s1
  }

  /** `atualizar_squad`: a missing squad is an error (the 404 is caught and answered with 500);
      a name held by a different squad is refused; only the keys sent change. */
  method Atualizar(t: map<int, SquadRow>, id: int, body: Body) returns (r: Result<map<int, SquadRow>, HttpError>)
    ensures id !in t ==> r == Failure(NaoEncontrado)
    ensures id in t && "nome" in body && ComNome(t, body["nome"]).Some? && ComNome(t, body["nome"]).value != id ==>
      r == Failure(ErroDuplicado)
    ensures r.Success? ==> id in t && r.value == t[id := Atualizada(t[id], body)]
    ensures r.Success? <==>
      && id in t
      && ("nome" in body ==> ComNome(t, body["nome"]).None? || ComNome(t, body["nome"]).value == id)
      && Atualizada(t[id], body).nome != JNull
    ensures id in t && r.Failure? && r.error.status == 500 ==> Atualizada(t[id], body).nome == JNull
    ensures r.Success? && Unico(t, Nome) ==> Unico(r.value, Nome)
  {
    if id !in t {
      return Failure(NaoEncontrado);
    }
    var squad := t[id];
    if "nome" in body {
      var existente := ComNome(t, body["nome"]);
      if existente.Some? && existente.value != id {
        return Failure(ErroDuplicado);
      }
      squad := squad.(nome := body["nome"]);
    }
    if "descricao" in body {
      squad := squad.(descricao := body["descricao"]);
    }
    if squad.nome == JNull {
      return Failure(ErroNomeNulo);
    }
    assert squad == Atualizada(t[id], body);
    if Unico(t, Nome) {
      AtualizarMantemUnicos(t, id, body);
    }
    r := Success(t[id := squad]);
  }

  /** An accepted update keeps the names unique: the new name is either the squad's own or
      held by no squad at all. */
  lemma {:induction false} AtualizarMantemUnicos(t: map<int, SquadRow>, id: int, body: Body)
    requires Unico(t, Nome) && id in t
    requires "nome" in body ==> ComNome(t, body["nome"]).None? || ComNome(t, body["nome"]).value == id
    ensures Unico(t[id := Atualizada(t[id], body)], Nome)
  {
    var n := Atualizada(t[id], body);
    var u := t[id := n];
    forall i, j | i in u && j in u && i != j
      ensures Nome(u[i]) != Nome(u[j])
    {
      if i == id || j == id {
        var o := if i == id then j else i;
        if "nome" in body {
          assert t[o].nome != body["nome"];
        }
      }
    }
  }

  /** `deletar_squad`: a missing squad is an error; a squad some activity points at is kept. */
  method Deletar(t: map<int, SquadRow>, atividades: map<int, AtividadeRow>, id: int)
    returns (r: Result<map<int, SquadRow>, HttpError>)
    ensures id !in t ==> r == Failure(NaoEncontrado)
    ensures id in t && (exists a :: a in atividades && atividades[a].squadId == id) ==> r == Failure(ErroComAtividades)
    ensures r.Success? <==> id in t && forall a :: a in atividades ==> atividades[a].squadId != id
    ensures r.Success? ==> r.value == t - {id}
  {
    if id !in t {
      return Failure(NaoEncontrado);
    }
    if Primeiro(atividades, (a: AtividadeRow) => a.squadId == id).Some? {
      return Failure(ErroComAtividades);
    }
    r := Success(t - {id});
  }

  /** After a successful delete no activity is left pointing at a missing squad that was not
      already missing. */
  lemma DeletarSemOrfas(t: map<int, SquadRow>, atividades: map<int, AtividadeRow>, id: int)
    requires forall a :: a in atividades ==> atividades[a].squadId in t
    requires id in t && forall a :: a in atividades ==> atividades[a].squadId != id
    ensures forall a :: a in atividades ==> atividades[a].squadId in t - {id}
  {
  }
}
