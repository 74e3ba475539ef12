/** What the Flask handlers share: JSON request bodies with Python's truthiness, error
    replies, tables keyed by integer id, and the lookups the handlers make in them. */
module Backend {
  import opened Wrappers
  import Text

  /** A JSON value as a handler receives it in a request body. */
  datatype Json = JStr(s: string) | JNum(n: int) | JBool(b: bool) | JNull

  /** A request body: the keys the client sent and their values. */
  type Body = map<string, Json>

  /** Python's truth value of a JSON value: empty string, zero, `False` and `None` are false. */
  predicate Truthy(j: Json) {
    match j
    case JStr(s) => s != ""
    case JNum(n) => n != 0
    case JBool(b) => b
    case JNull => false
  }

  /** `data.get(k)` as a truth value: the key is present and its value is truthy. */
  predicate Has(body: Body, k: string) {
    k in body && Truthy(body[k])
  }

  /** `data.get(k, default)`. */
  function GetOr(body: Body, k: string, default: Json): (j: Json)
    ensures k in body ==> j == body[k]
    ensures k !in body ==> j == default
  {
    if k in body then body[k] else default
  }

  /** An error reply: HTTP status and the `error` text of its body. */
  datatype HttpError = HttpError(status: int, message: string)

  /** What `get_or_404` raises for a missing row, caught by the handler's own `except
      Exception` and answered with status 500 and the exception's text. */
  const NaoEncontrado := HttpError(500, "404 Not Found: The requested URL was not found on the server. If you entered the URL manually please check your spelling and try again.")

  /** The id a JSON value names when used as a primary key: a number, `True`/`False` as 1/0
      (Python's booleans are integers), or a string of decimal digits. */
  function IdDe(j: Json): (id: Option<int>)
    ensures j.JNum? ==> id == Some(j.n)
    ensures j.JNull? ==> id.None?
  {
    match j
    case JNum(n) => Some(n)
    case JBool(b) => Some(if b then 1 else 0)
    case JStr(s) => if s != "" && Text.DigitPrefix(s) == s then Some(Text.DecimalValue(s)) else None
    case JNull => None
  }

  /** Some element of a non-empty set. */
  lemma Escolhe<T>(s: set<T>) returns (y: T)
    requires s != {}
    ensures y in s
  {
    y :| y in s;
  }

  /** The least element of a non-empty set of ids. */
  function Menor(s: set<int>): (m: int)
    requires s != {}
    ensures m in s && forall x :: x in s ==> m <= x
  {
    MenorExiste(s);
    var m :| m in s && forall x :: x in s ==> m <= x;
    m
  }

  lemma {:induction false} MenorExiste(s: set<int>)
    requires s != {}
    ensures exists m :: m in s && forall x :: x in s ==> m <= x
  {
    var y := Escolhe(s);
    if s != {y} {
      MenorExiste(s - {y});
      var m :| m in s - {y} && forall x :: x in s - {y} ==> m <= x;
      var w := if y < m then y else m;
      forall x | x in s
        ensures w <= x
      {
        if x != y { assert x in s - {y}; }
      }
      assert w in s;
    } else {
      assert forall x :: x in s ==> y <= x;
    }
  }

  /** `Model.query.filter_by(...).first()` over an unordered query: the row of least id that
      satisfies `p`, SQLite's rowid order. */
  function Primeiro<R>(t: map<int, R>, p: R -> bool): (r: Option<int>)
    ensures r.None? <==> forall k :: k in t ==> !p(t[k])
    ensures r.Some? ==> r.value in t && p(t[r.value])
    ensures r.Some? ==> forall k :: k in t && p(t[k]) ==> r.value <= k
  {
    var ks := set k | k in t && p(t[k]);
    assert forall k :: k in t && p(t[k]) ==> k in ks;
    if ks == {} then None else Some(Menor(ks))
  }

  /** No two rows share the value `f` gives them. */
  ghost predicate Unico<R>(t: map<int, R>, f: R -> Json) {
    forall i, j :: i in t && j in t && i != j ==> f(t[i]) != f(t[j])
  }

  /** With unique values, the first row holding a value is the only one. */
  lemma PrimeiroUnico<R>(t: map<int, R>, f: R -> Json, v: Json, id: int)
    requires Unico(t, f) && id in t && f(t[id]) == v
    ensures Primeiro(t, (x: R) => f(x) == v) == Some(id)
  {
  }

  /** The id SQLite gives a new row of a table without `AUTOINCREMENT`: one more than the
      largest id in use, 1 for an empty table. */
  function NovoId<R>(t: map<int, R>): (id: int)
    ensures id !in t && id >= 1
    ensures forall k :: k in t ==> k < id
  {
    if t.Keys == {} then 1
    else
      var m := Maior(t.Keys);
      if m + 1 >= 1 then m + 1 else 1
  }

  /** The greatest element of a non-empty set of ids. */
  function Maior(s: set<int>): (m: int)
    requires s != {}
    ensures m in s && forall x :: x in s ==> x <= m
  {
    MaiorExiste(s);
    var m :| m in s && forall x :: x in s ==> x <= m;
    m
  }

  lemma {:induction false} MaiorExiste(s: set<int>)
    requires s != {}
    ensures exists m :: m in s && forall x :: x in s ==> x <= m
  {
    var y := Escolhe(s);
    if s != {y} {
      MaiorExiste(s - {y});
      var m :| m in s - {y} && forall x :: x in s - {y} ==> x <= m;
      var w := if y > m then y else m;
      forall x | x in s
        ensures x <= w
      {
        if x != y { assert x in s - {y}; }
      }
      assert w in s;
    } else {
      assert forall x :: x in s ==> x <= y;
    }
  }

  /** A subset has at most as many elements, and a proper subset strictly fewer. */
  lemma {:induction false} SubsetCard<T>(a: set<T>, b: set<T>)
    requires a <= b
    ensures |a| <= |b|
    ensures a != b ==> |a| < |b|
  {
    if a != {} {
      var x :| x in a;
      SubsetCard(a - {x}, b - {x});
    } else if b != {} {
      var y :| y in b;
      assert |b| >= 1 by { assert y in b; }
    }
  }

  /** A row of the `squad` table (`nome` is NOT NULL and UNIQUE). */
  datatype SquadRow = SquadRow(nome: Json, descricao: Json)

  /** A row of the `atividade` table; `prazo` is the date text, absent for NULL. */
  datatype AtividadeRow = AtividadeRow(
    titulo: Json, descricao: Json, prazo: Option<string>, prioridade: Json, status: Json,
    projetoId: int, squadId: int)

  /** A stored password: the hash of the value it was set from. Hashing is opaque here; a
      candidate matches exactly when it is the value the hash was made from. */
  datatype Senha = Hash(origem: Json)

  predicate Confere(h: Senha, candidata: Json) {
    h.origem == candidata
  }

  /** A row of the user table. */
  datatype UsuarioRow = UsuarioRow(nome: Json, login: Json, role: Json, ativo: Json, senha: Senha)
}
