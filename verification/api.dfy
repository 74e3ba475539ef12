/** The request paths the client services build: the activity list query with its optional
    filters, and the collection and item paths of the three resources. */
module Api {
  import opened Wrappers
  import Text
  import Seqs

  /** A filter object: a key absent or mapped to `""` imposes nothing. */
  type Filtros = map<string, string>

  /** A key whose value JavaScript treats as true: present and not the empty string. */
  predicate Truthy(f: Filtros, k: string) {
    k in f && f[k] != ""
  }

  /** The filter keys the activity list understands, in the order they are appended. */
  const ParamKeys: seq<string> := ["projeto_id", "squad_id", "status", "prioridade"]

  datatype Param = Param(key: string, value: string)

  /** The parameters for `keys`, one per truthy key, in the order of `keys`. */
  function ParamsFor(keys: seq<string>, f: Filtros): seq<Param> {
    if keys == [] then [] else ParamFor(keys[0], f) + ParamsFor(keys[1..], f)
  }

  /** The parameter one key contributes: itself and its value when truthy, nothing otherwise. */
  function ParamFor(k: string, f: Filtros): seq<Param> {
    if Truthy(f, k) then [Param(k, f[k])] else []
  }

  lemma ParamKeysUnfold(f: Filtros)
    ensures ParamsFor(ParamKeys, f)
         == ParamFor("projeto_id", f) + ParamFor("squad_id", f) + ParamFor("status", f) + ParamFor("prioridade", f)
  {
    var k := ParamKeys;
    ParamsForAt(k, 0, f);
    ParamsForAt(k, 1, f);
    ParamsForAt(k, 2, f);
    ParamsForAt(k, 3, f);
    assert k[4..] == [] && k[0..] == k;
    assert ParamsFor(k, f) == ParamFor(k[0], f) + ParamFor(k[1], f) + ParamFor(k[2], f) + ParamFor(k[3], f);
  }

  /** One step of `ParamsFor` from position `i` of the keys. */
  lemma ParamsForAt(keys: seq<string>, i: nat, f: Filtros)
    requires i < |keys|
    ensures ParamsFor(keys[i..], f) == ParamFor(keys[i], f) + ParamsFor(keys[i + 1..], f)
  {
    assert keys[i..][1..] == keys[i + 1..];
  }

  /** No parameter is sent exactly when no filter key is truthy. */
  lemma NoParams(f: Filtros)
    ensures ParamsFor(ParamKeys, f) == [] <==> forall k :: k in ParamKeys ==> !Truthy(f, k)
  {
    ParamKeysUnfold(f);
    assert forall k :: k in ParamKeys <==> k == "projeto_id" || k == "squad_id" || k == "status" || k == "prioridade";
  }

  /** The keys of the parameters, in order. */
  function Keys(ps: seq<Param>): seq<string> {
    if ps == [] then [] else [ps[0].key] + Keys(ps[1..])
  }

  /** The keys whose value is truthy in `f`. */
  function TruthyIn(f: Filtros): string -> bool {
    k => Truthy(f, k)
  }

  /** The keys sent are exactly the truthy ones, in the order of `keys`. */
  lemma {:induction false} ParamsForKeys(keys: seq<string>, f: Filtros)
    ensures Keys(ParamsFor(keys, f)) == Seqs.Filter(keys, TruthyIn(f))
  {
    if keys != [] {
      ParamsForKeys(keys[1..], f);
      KeysConcat(ParamFor(keys[0], f), ParamsFor(keys[1..], f));
    }
  }

  /** Every value sent is the filter's own value for its key, never the empty string. */
  lemma {:induction false} ParamsForValues(keys: seq<string>, f: Filtros)
    ensures forall p :: p in ParamsFor(keys, f) ==> Truthy(f, p.key) && p.value == f[p.key] && p.value != ""
  {
    if keys != [] {
      ParamsForValues(keys[1..], f);
    }
  }

  lemma {:induction false} KeysConcat(a: seq<Param>, b: seq<Param>)
    ensures Keys(a + b) == Keys(a) + Keys(b)
  {
    if a == [] {
      assert a + b == b;
    } else {
      KeysConcat(a[1..], b);
      assert (a + b)[1..] == a[1..] + b;
      assert Keys(a + b) == [a[0].key] + (Keys(a[1..]) + Keys(b));
    }
  }

  /** Two filter objects that agree on the truthiness and truthy values of the parameter keys
      produce the same parameters. */
  lemma {:induction false} ParamsForAgree(keys: seq<string>, f: Filtros, g: Filtros)
    requires forall k :: k in keys ==> Truthy(f, k) == Truthy(g, k) && (Truthy(f, k) ==> f[k] == g[k])
    ensures ParamsFor(keys, f) == ParamsFor(keys, g)
  {
    if keys != [] {
      assert keys[0] in keys;
      ParamsForAgree(keys[1..], f, g);
    }
  }

  /** `key=value` pairs joined by `&`; percent-encoding is not modelled. */
  function QueryString(ps: seq<Param>): (q: string)
    ensures q == "" <==> ps == []
  {
    if ps == [] then ""
    else if |ps| == 1 then ps[0].key + "=" + ps[0].value
    else ps[0].key + "=" + ps[0].value + "&" + QueryString(ps[1..])
  }

  /** The activity list path: bare when no filter is truthy, otherwise followed by `?` and the
      query string. */
  function ListPath(f: Filtros): (path: string)
    ensures path == "/atividades" <==> forall k :: k in ParamKeys ==> !Truthy(f, k)
    ensures path != "/atividades" ==> path == "/atividades?" + QueryString(ParamsFor(ParamKeys, f))
  {
    var q := QueryString(ParamsFor(ParamKeys, f));
    NoParams(f);
    if q != "" then
      assert ("/atividades?" + q)[11] == '?';
      "/atividades?" + q
    else
      "/atividades"
  }

  /** The list request: a parameter object filled one truthy filter at a time, then the path. */
  method Listar(f: Filtros) returns (path: string)
    ensures path == ListPath(f)
  {
    var params: seq<Param> := [];
    if Truthy(f, "projeto_id") { params := params + [Param("projeto_id", f["projeto_id"])]; }
    ghost var p1 := params;
    assert p1 == ParamFor("projeto_id", f);
    if Truthy(f, "squad_id") { params := params + [Param("squad_id", f["squad_id"])]; }
    ghost var p2 := params;
    assert p2 == p1 + ParamFor("squad_id", f);
    if Truthy(f, "status") { params := params + [Param("status", f["status"])]; }
    ghost var p3 := params;
    assert p3 == p2 + ParamFor("status", f);
    if Truthy(f, "prioridade") { params := params + [Param("prioridade", f["prioridade"])]; }
    assert params == p3 + ParamFor("prioridade", f);
    ParamKeysUnfold(f);
    assert params == ParamsFor(ParamKeys, f);
    var q := QueryString(params);
    path := if q != "" then "/atividades?" + q else "/atividades";
  }

  /** Each of the four filter keys is sent exactly when its value is truthy. */
  lemma ListarEnviaTruthy(f: Filtros)
    ensures forall k :: k in ParamKeys ==> (Truthy(f, k) <==> k in Keys(ParamsFor(ParamKeys, f)))
  {
    ParamsForKeys(ParamKeys, f);
  }

  /** The list path depends only on the truthy parameter filters. */
  lemma ListPathAgree(f: Filtros, g: Filtros)
    requires forall k :: k in ParamKeys ==> Truthy(f, k) == Truthy(g, k) && (Truthy(f, k) ==> f[k] == g[k])
    ensures ListPath(f) == ListPath(g)
  {
    ParamsForAgree(ParamKeys, f, g);
  }

  /** The three REST resources. */
  datatype Resource = Projetos | Squads | Atividades

  function Segment(r: Resource): string {
    match r
    case Projetos => "projetos"
    case Squads => "squads"
    case Atividades => "atividades"
  }

  function CollectionPath(r: Resource): string {
    "/" + Segment(r)
  }

  /** The path `buscar`, `atualizar` and `deletar` address: the collection, a slash, the id. */
  function ItemPath(r: Resource, id: nat): string {
    CollectionPath(r) + "/" + Text.IdText(id)
  }

  const StatisticsPath: string := "/atividades/estatisticas"

  predicate AllDigits(s: string) {
    forall i :: 0 <= i < |s| ==> Text.IsDigit(s[i])
  }

  /** `p` is a collection path, a slash, and a non-empty run of digits. */
  predicate ItemShaped(p: string, r: Resource) {
    var n := |CollectionPath(r)| + 1;
    |p| > n && p[..n] == CollectionPath(r) + "/" && AllDigits(p[n..])
  }

  /** The id an item path of `r` carries, if `p` is one. */
  function ParseAs(p: string, r: Resource): (id: Option<nat>)
    ensures id.Some? <==> ItemShaped(p, r)
  {
    if ItemShaped(p, r) then Some(Text.DecimalValue(p[|CollectionPath(r)| + 1..])) else None
  }

  /** Reads an item path back: the resource whose prefix it has and the decimal id after it. */
  function ParseItemPath(p: string): (r: Option<(Resource, nat)>)
    ensures r.Some? ==> ItemShaped(p, r.value.0)
    ensures r.None? ==> !ItemShaped(p, Projetos) && !ItemShaped(p, Squads) && !ItemShaped(p, Atividades)
  {
    if ParseAs(p, Projetos).Some? then Some((Projetos, ParseAs(p, Projetos).value))
    else if ParseAs(p, Squads).Some? then Some((Squads, ParseAs(p, Squads).value))
    else if ParseAs(p, Atividades).Some? then Some((Atividades, ParseAs(p, Atividades).value))
    else None
  }

  /** Every item path reads back as its resource and id, so distinct items have distinct paths. */
  lemma ItemPathRoundTrip(r: Resource, id: nat)
    ensures ParseItemPath(ItemPath(r, id)) == Some((r, id))
  {
    var ds := Text.IdText(id);
    Text.DecimalValueOfIdText(id);
    var p := ItemPath(r, id);
    var n := |CollectionPath(r)| + 1;
    assert p[..n] == CollectionPath(r) + "/" && p[n..] == ds;
    assert ItemShaped(p, r);
    match r
    case Projetos =>
    case Squads =>
      assert p[1] == 's' && (CollectionPath(Projetos) + "/")[1] == 'p';
      NotShapedAt(p, Projetos, 1);
    case Atividades =>
      assert p[1] == 'a' && (CollectionPath(Projetos) + "/")[1] == 'p' && (CollectionPath(Squads) + "/")[1] == 's';
      NotShapedAt(p, Projetos, 1);
      NotShapedAt(p, Squads, 1);
  }

  lemma ItemPathInjective(r: Resource, a: nat, s: Resource, b: nat)
    ensures ItemPath(r, a) == ItemPath(s, b) <==> r == s && a == b
  {
    ItemPathRoundTrip(r, a);
    ItemPathRoundTrip(s, b);
  }

  /** A path that differs from a resource's prefix at some position is not an item path of it. */
  lemma NotShapedAt(p: string, r: Resource, i: nat)
    requires i < |CollectionPath(r)| + 1 && i < |p|
    requires p[i] != (CollectionPath(r) + "/")[i]
    ensures !ItemShaped(p, r)
  {
    var n := |CollectionPath(r)| + 1;
    if |p| > n {
      assert p[..n][i] == p[i];
    }
  }

  /** A path whose character after the prefix is not a digit is not an item path. */
  lemma NotShapedDigit(p: string, r: Resource)
    requires |CollectionPath(r)| + 1 < |p| && !Text.IsDigit(p[|CollectionPath(r)| + 1])
    ensures !ItemShaped(p, r)
  {
    var n := |CollectionPath(r)| + 1;
    assert p[n..][0] == p[n];
  }

  /** The statistics route is not mistaken for an activity item. */
  lemma StatisticsIsNotAnItem()
    ensures ParseItemPath(StatisticsPath) == None
  {
    var p := StatisticsPath;
    assert p[1] == 'a';
    assert (CollectionPath(Projetos) + "/")[1] == 'p';
    NotShapedAt(p, Projetos, 1);
    assert (CollectionPath(Squads) + "/")[1] == 's';
    NotShapedAt(p, Squads, 1);
    assert |CollectionPath(Atividades)| + 1 == 12;
    assert p[12] == 'e';
    NotShapedDigit(p, Atividades);
  }
}
