/**
 * The audit trail: writing an audit row without ever failing the caller, building
 * the filtered query over the trail, and listing the fields that differ between the
 * old and the new version of a record.
 */
module Auditoria {
  import opened Outcome
  import Js
  import Letras
  import Helpers
  import Tables

  // ---------------------------------------------------------------- the audit row

  /** A row of `audit_logs`; the stored record versions are kept as the values whose JSON text is stored. */
  datatype Log = Log(
    id: Id, empresa: Id, usuario: Id, acao: string, tabela: string, registro: Option<Id>,
    anteriores: Option<Js.Valor>, novos: Option<Js.Valor>,
    ip: Option<string>, userAgent: Option<string>, criado: string)

  /** `AuditoriaParams`. */
  datatype Parametros = Parametros(
    empresa: Id, usuario: Id, acao: string, tabela: string, registro: Option<Id>,
    anteriores: Js.Valor, novos: Js.Valor, ip: Option<string>, userAgent: Option<string>)

  /** `dados ? JSON.stringify(dados) : null`. */
  function Serializado(v: Js.Valor): (r: Option<Js.Valor>)
    ensures r.Some? <==> Js.Verdadeiro(v)
    ensures r.Some? ==> r.value == v
  {
    if Js.Verdadeiro(v) then Some(v) else None
  }

  /** The row registrarAuditoria inserts: empty optional texts are stored as null. */
  function LogDe(id: Id, p: Parametros, agora: string): (l: Log)
    ensures l.id == id && l.empresa == p.empresa && l.usuario == p.usuario && l.criado == agora
    ensures l.acao == p.acao && l.tabela == p.tabela
    ensures l.registro.Some? <==> Truthy(p.registro)
    ensures l.registro.Some? ==> l.registro == p.registro
    ensures l.ip.Some? <==> Truthy(p.ip)
    ensures l.ip.Some? ==> l.ip == p.ip
    ensures l.userAgent.Some? <==> Truthy(p.userAgent)
    ensures l.userAgent.Some? ==> l.userAgent == p.userAgent
    ensures l.anteriores.Some? <==> Js.Verdadeiro(p.anteriores)
    ensures l.anteriores.Some? ==> l.anteriores.value == p.anteriores
    ensures l.novos.Some? <==> Js.Verdadeiro(p.novos)
    ensures l.novos.Some? ==> l.novos.value == p.novos
  {
    Log(id, p.empresa, p.usuario, p.acao, p.tabela, OrNull(p.registro),
        Serializado(p.anteriores), Serializado(p.novos), OrNull(p.ip), OrNull(p.userAgent), agora)
  }

  // ---------------------------------------------------------------- the search

  /** The optional filters of buscarAuditoria. */
  datatype Filtros = Filtros(
    usuario: Option<Id>, tabela: Option<string>, registro: Option<Id>, acao: Option<string>,
    dataInicio: Option<string>, dataFim: Option<string>, page: Option<int>, limit: Option<int>)

  datatype Coluna = ColEmpresa | ColUsuario | ColTabela | ColRegistro | ColAcao | ColCriacao
  datatype Comparacao = Igual | APartirDe | AteInclusive

  /** One `AND`-ed condition of the `WHERE` text, `coluna = ?`, `created_at >= ?` or `created_at <= ?`. */
  datatype Clausula = Clausula(coluna: Coluna, comparacao: Comparacao)

  /** SQLite text comparison of a stored value with a bound one. */
  predicate Compara(x: string, c: Comparacao, v: string)
  {
    match c
    case Igual => x == v
    case APartirDe => !Letras.Antes(x, v)
    case AteInclusive => !Letras.Antes(v, x)
  }

  /** A condition over a row with its bound parameter; comparing a NULL column is never true. */
  predicate Satisfaz(l: Log, c: Clausula, v: string)
  {
    match c.coluna
    case ColEmpresa => Compara(l.empresa, c.comparacao, v)
    case ColUsuario => Compara(l.usuario, c.comparacao, v)
    case ColTabela => Compara(l.tabela, c.comparacao, v)
    case ColRegistro => l.registro.Some? && Compara(l.registro.value, c.comparacao, v)
    case ColAcao => Compara(l.acao, c.comparacao, v)
    case ColCriacao => Compara(l.criado, c.comparacao, v)
  }

  /** Every condition of a bound `WHERE` holds. */
  predicate Todas(l: Log, q: seq<(Clausula, string)>)
  {
    if q == [] then true else Satisfaz(l, q[0].0, q[0].1) && Todas(l, q[1..])
  }

  lemma {:induction false} TodasConcat(l: Log, a: seq<(Clausula, string)>, b: seq<(Clausula, string)>)
    ensures Todas(l, a + b) <==> Todas(l, a) && Todas(l, b)
  {
    if a == [] {
      assert a + b == b;
    } else {
      assert (a + b)[0] == a[0] && (a + b)[1..] == a[1..] + b;
      TodasConcat(l, a[1..], b);
    }
  }

  /** A filter is applied when its value is truthy. */
  function Opcional(s: Option<string>, c: Clausula): (q: seq<(Clausula, string)>)
    ensures |q| <= 1 && (q != [] <==> Truthy(s))
  {
    if Truthy(s) then [(c, s.value)] else []
  }

  /** The conditions with their parameters: the company first, then each supplied filter in a fixed order. */
  function Consulta(empresa: Id, f: Filtros): (q: seq<(Clausula, string)>)
    ensures |q| >= 1 && q[0] == (Clausula(ColEmpresa, Igual), empresa)
  {
    [(Clausula(ColEmpresa, Igual), empresa)]
    + Opcional(f.usuario, Clausula(ColUsuario, Igual))
    + Opcional(f.tabela, Clausula(ColTabela, Igual))
    + Opcional(f.registro, Clausula(ColRegistro, Igual))
    + Opcional(f.acao, Clausula(ColAcao, Igual))
    + Opcional(f.dataInicio, Clausula(ColCriacao, APartirDe))
    + Opcional(f.dataFim, Clausula(ColCriacao, AteInclusive))
  }

  /** The rows the search is meant to find: the company's, narrowed by each supplied filter. */
  predicate Corresponde(l: Log, empresa: Id, f: Filtros)
  {
    l.empresa == empresa
    && (Truthy(f.usuario) ==> l.usuario == f.usuario.value)
    && (Truthy(f.tabela) ==> l.tabela == f.tabela.value)
    && (Truthy(f.registro) ==> l.registro == Some(f.registro.value))
    && (Truthy(f.acao) ==> l.acao == f.acao.value)
    && (Truthy(f.dataInicio) ==> !Letras.Antes(l.criado, f.dataInicio.value))
    && (Truthy(f.dataFim) ==> !Letras.Antes(f.dataFim.value, l.criado))
  }

  /** The query built selects exactly the rows the filters describe. */
  lemma {:induction false} ConsultaSignifica(l: Log, empresa: Id, f: Filtros)
    ensures Todas(l, Consulta(empresa, f)) <==> Corresponde(l, empresa, f)
  {
    var e: seq<(Clausula, string)> := [(Clausula(ColEmpresa, Igual), empresa)];
    var u := Opcional(f.usuario, Clausula(ColUsuario, Igual));
    var t := Opcional(f.tabela, Clausula(ColTabela, Igual));
    var r := Opcional(f.registro, Clausula(ColRegistro, Igual));
    var a := Opcional(f.acao, Clausula(ColAcao, Igual));
    var i := Opcional(f.dataInicio, Clausula(ColCriacao, APartirDe));
    var d := Opcional(f.dataFim, Clausula(ColCriacao, AteInclusive));
    TodasConcat(l, e + u + t + r + a + i, d);
    TodasConcat(l, e + u + t + r + a, i);
    TodasConcat(l, e + u + t + r, a);
    TodasConcat(l, e + u + t, r);
    TodasConcat(l, e + u, t);
    TodasConcat(l, e, u);
  }

  /** The `WHERE` conditions and the bound parameters, side by side, are the pairs of `q`. */
  predicate Alinhadas(clausulas: seq<Clausula>, params: seq<string>, q: seq<(Clausula, string)>)
  {
    |clausulas| == |params| == |q| && forall k :: 0 <= k < |q| ==> clausulas[k] == q[k].0 && params[k] == q[k].1
  }

  /** `if (valor) { where += ' AND …'; params.push(valor); }` */
  method Acrescentar(clausulas: seq<Clausula>, params: seq<string>, ghost q: seq<(Clausula, string)>,
                     valor: Option<string>, c: Clausula)
    returns (clausulas': seq<Clausula>, params': seq<string>)
    requires Alinhadas(clausulas, params, q)
    ensures Alinhadas(clausulas', params', q + Opcional(valor, c))
  {
    clausulas', params' := clausulas, params;
    if Truthy(valor) {
      clausulas' := clausulas + [c];
      params' := params + [valor.value];
    }
  }

  /**
   * The `WHERE`-building part of buscarAuditoria: the conditions and their parameters
   * side by side, and the page window, with `page = 1` and `limit = 50` when absent.
   */
  method MontarBusca(empresa: Id, f: Filtros)
    returns (clausulas: seq<Clausula>, params: seq<string>, limit: int, offset: int)
    ensures Alinhadas(clausulas, params, Consulta(empresa, f))
    ensures params[0] == empresa
    ensures limit == f.limit.GetOr(50) && offset == Helpers.CalcularOffset(f.page.GetOr(1), limit)
  {
    var page := f.page.GetOr(1);
    limit := f.limit.GetOr(50);
    ghost var e: seq<(Clausula, string)> := [(Clausula(ColEmpresa, Igual), empresa)];
    ghost var u := Opcional(f.usuario, Clausula(ColUsuario, Igual));
    ghost var t := Opcional(f.tabela, Clausula(ColTabela, Igual));
    ghost var r := Opcional(f.registro, Clausula(ColRegistro, Igual));
    ghost var a := Opcional(f.acao, Clausula(ColAcao, Igual));
    ghost var i := Opcional(f.dataInicio, Clausula(ColCriacao, APartirDe));
    clausulas := [Clausula(ColEmpresa, Igual)];
    params := [empresa];
    clausulas, params := Acrescentar(clausulas, params, e, f.usuario, Clausula(ColUsuario, Igual));
    clausulas, params := Acrescentar(clausulas, params, e + u, f.tabela, Clausula(ColTabela, Igual));
    clausulas, params := Acrescentar(clausulas, params, e + u + t, f.registro, Clausula(ColRegistro, Igual));
    clausulas, params := Acrescentar(clausulas, params, e + u + t + r, f.acao, Clausula(ColAcao, Igual));
    clausulas, params := Acrescentar(clausulas, params, e + u + t + r + a, f.dataInicio, Clausula(ColCriacao, APartirDe));
    clausulas, params := Acrescentar(clausulas, params, e + u + t + r + a + i, f.dataFim, Clausula(ColCriacao, AteInclusive));
    offset := (page - 1) * limit;
  }

  /** The audit trail of the database. */
  class Trilha {
    var logs: seq<Log>

    constructor()
      ensures logs == []
    {
      logs := [];
    }

    /**
     * registrarAuditoria: inserts the row unless the write fails (`falha`), and in both
     * cases returns normally, reporting nothing to the caller.
     */
    method Registrar(id: Id, p: Parametros, agora: string, falha: bool)
      modifies this`logs
      ensures logs == if falha then old(logs) else old(logs) + [LogDe(id, p, agora)]
    {
      if !falha {
        logs := logs + [LogDe(id, p, agora)];
      }
    }

    /** buscarAuditoria: the number of matching rows, and the query that finds them. */
    method Buscar(empresa: Id, f: Filtros)
      returns (total: nat, clausulas: seq<Clausula>, params: seq<string>, limit: int, offset: int)
      ensures total == Tables.Count(logs, (l: Log) => Corresponde(l, empresa, f))
      ensures Alinhadas(clausulas, params, Consulta(empresa, f))
      ensures limit == f.limit.GetOr(50) && offset == Helpers.CalcularOffset(f.page.GetOr(1), limit)
    {
      clausulas, params, limit, offset := MontarBusca(empresa, f);
      total := Tables.Count(logs, (l: Log) => Corresponde(l, empresa, f));
    }
  }

  /** A written row is found by an unfiltered search of its company. */
  lemma {:induction false} RegistroEncontrado(id: Id, p: Parametros, agora: string)
    ensures Corresponde(LogDe(id, p, agora), p.empresa, Filtros(None, None, None, None, None, None, None, None))
    ensures Truthy(p.registro) ==>
              Corresponde(LogDe(id, p, agora), p.empresa, Filtros(None, None, p.registro, None, None, None, None, None))
  {
  }

  // ---------------------------------------------------------------- field changes

  /** A record as passed to detectarAlteracoes; `None` is null or undefined, read as `{}`. */
  type Registro = Option<Js.Objeto>

  function Entradas(r: Registro): Js.Objeto
  {
    if r.Some? then r.value else []
  }

  /** `registro?.[chave]`. */
  function Ler(r: Registro, chave: string): Js.Valor
  {
    Js.Obter(Entradas(r), chave)
  }

  /** `updated_at`, `created_at` and `id` are never reported. */
  predicate Controle(chave: string)
  {
    chave == "updated_at" || chave == "created_at" || chave == "id"
  }

  predicate Distintos(xs: seq<string>)
  {
    forall i, j :: 0 <= i < j < |xs| ==> xs[i] != xs[j]
  }

  /** `[...new Set(xs)]`: each element once, at its first position. */
  function SemRepeticao(xs: seq<string>): (r: seq<string>)
    ensures forall x :: x in r <==> x in xs
    ensures Distintos(r)
  {
    if xs == [] then []
    else
      var p := SemRepeticao(xs[..|xs| - 1]);
      var x := xs[|xs| - 1];
      assert xs == xs[..|xs| - 1] + [x];
      if x in p then p else p + [x]
  }

  /** A list without repetitions is its own set. */
  lemma {:induction false} SemRepeticaoDistintos(xs: seq<string>)
    requires Distintos(xs)
    ensures SemRepeticao(xs) == xs
  {
    if xs != [] {
      var p := xs[..|xs| - 1];
      assert Distintos(p);
      SemRepeticaoDistintos(p);
      assert xs[|xs| - 1] !in p;
      assert p + [xs[|xs| - 1]] == xs;
    }
  }

  /** The set keeps the order of first insertion: distinct leading elements come first, in order. */
  lemma {:induction false} SemRepeticaoPrefixo(a: seq<string>, b: seq<string>)
    requires Distintos(a)
    ensures |SemRepeticao(a + b)| >= |a| && SemRepeticao(a + b)[..|a|] == a
  {
    if b == [] {
      assert a + b == a;
      SemRepeticaoDistintos(a);
    } else {
      var b0 := b[..|b| - 1];
      SemRepeticaoPrefixo(a, b0);
      assert (a + b)[..|a + b| - 1] == a + b0;
    }
  }

  /** `new Set([...Object.keys(anterior || {}), ...Object.keys(novo || {})])`. */
  function TodasChaves(anterior: Registro, novo: Registro): seq<string>
  {
    SemRepeticao(Js.Chaves(Entradas(anterior)) + Js.Chaves(Entradas(novo)))
  }

  datatype Alteracao = Alteracao(campo: string, de: Js.Valor, para: Js.Valor)

  /** Whether a key is reported: not a control field, and its two values serialize differently. */
  predicate Alterada(anterior: Registro, novo: Registro, chave: string)
  {
    !Controle(chave) && !Js.MesmoJson(Ler(anterior, chave), Ler(novo, chave))
  }

  /** The changes found among the first keys, in key order. */
  function Relatadas(chaves: seq<string>, anterior: Registro, novo: Registro): (r: seq<Alteracao>)
    ensures |r| <= |chaves|
  {
    if chaves == [] then []
    else
      var c := chaves[|chaves| - 1];
      Relatadas(chaves[..|chaves| - 1], anterior, novo)
      + (if Alterada(anterior, novo, c) then [Alteracao(c, Ler(anterior, c), Ler(novo, c))] else [])
  }

  /** The result of detectarAlteracoes. */
  function Diferencas(anterior: Registro, novo: Registro): seq<Alteracao>
  {
    Relatadas(TodasChaves(anterior, novo), anterior, novo)
  }

  /** Every reported change is a changed key of the list, with its old and its new value. */
  lemma {:induction false} RelatadasCorretas(chaves: seq<string>, anterior: Registro, novo: Registro)
    ensures forall a :: a in Relatadas(chaves, anterior, novo) ==>
              a.campo in chaves && Alterada(anterior, novo, a.campo)
              && a.de == Ler(anterior, a.campo) && a.para == Ler(novo, a.campo)
  {
    if chaves != [] {
      RelatadasCorretas(chaves[..|chaves| - 1], anterior, novo);
      assert chaves == chaves[..|chaves| - 1] + [chaves[|chaves| - 1]];
    }
  }

  /** Every changed key of the list is reported. */
  lemma {:induction false} RelatadasCompletas(chaves: seq<string>, anterior: Registro, novo: Registro, c: string)
    requires c in chaves && Alterada(anterior, novo, c)
    ensures exists a :: a in Relatadas(chaves, anterior, novo) && a.campo == c
  {
    var ultima := chaves[|chaves| - 1];
    if c == ultima {
      var a := Alteracao(c, Ler(anterior, c), Ler(novo, c));
      assert a in Relatadas(chaves, anterior, novo);
    } else {
      assert chaves == chaves[..|chaves| - 1] + [ultima];
      RelatadasCompletas(chaves[..|chaves| - 1], anterior, novo, c);
    }
  }

  /** Keys listed once are reported at most once. */
  lemma {:induction false} RelatadasDistintas(chaves: seq<string>, anterior: Registro, novo: Registro)
    requires Distintos(chaves)
    ensures forall i, j :: 0 <= i < j < |Relatadas(chaves, anterior, novo)| ==>
              Relatadas(chaves, anterior, novo)[i].campo != Relatadas(chaves, anterior, novo)[j].campo
  {
    if chaves != [] {
      var p := chaves[..|chaves| - 1];
      var c := chaves[|chaves| - 1];
      assert Distintos(p);
      RelatadasDistintas(p, anterior, novo);
      RelatadasCorretas(p, anterior, novo);
      var anteriores := Relatadas(p, anterior, novo);
      assert forall i :: 0 <= i < |anteriores| ==> anteriores[i] in anteriores;
      assert c !in p;
    }
  }

  /**
   * A key is reported exactly when it is a key of either record, is not a control field,
   * and its values differ; the report carries the old and the new value, once per key.
   */
  lemma {:induction false} DiferencasSignificam(anterior: Registro, novo: Registro, c: string)
    ensures (exists a :: a in Diferencas(anterior, novo) && a.campo == c)
        <==> (c in Js.Chaves(Entradas(anterior)) || c in Js.Chaves(Entradas(novo))) && Alterada(anterior, novo, c)
    ensures forall a :: a in Diferencas(anterior, novo) ==> a.de == Ler(anterior, a.campo) && a.para == Ler(novo, a.campo)
    ensures forall i, j :: 0 <= i < j < |Diferencas(anterior, novo)| ==>
              Diferencas(anterior, novo)[i].campo != Diferencas(anterior, novo)[j].campo
  {
    var chaves := TodasChaves(anterior, novo);
    RelatadasCorretas(chaves, anterior, novo);
    RelatadasDistintas(chaves, anterior, novo);
    if (c in Js.Chaves(Entradas(anterior)) || c in Js.Chaves(Entradas(novo))) && Alterada(anterior, novo, c) {
      RelatadasCompletas(chaves, anterior, novo, c);
    }
  }

  /** Nothing differs between a record and itself. */
  lemma {:induction false} RelatadasIdenticas(chaves: seq<string>, r: Registro)
    ensures Relatadas(chaves, r, r) == []
  {
    if chaves != [] {
      RelatadasIdenticas(chaves[..|chaves| - 1], r);
    }
  }

  lemma {:induction false} DiferencasIdenticas(r: Registro)
    ensures Diferencas(r, r) == []
  {
    RelatadasIdenticas(TodasChaves(r, r), r);
  }

  /** detectarAlteracoes: walks the key set and pushes one change per differing field. */
  method DetectarAlteracoes(anterior: Registro, novo: Registro) returns (alteracoes: seq<Alteracao>)
    ensures alteracoes == Diferencas(anterior, novo)
  {
    alteracoes := [];
    var todasChaves := SemRepeticao(Js.Chaves(Entradas(anterior)) + Js.Chaves(Entradas(novo)));
    var k := 0;
    while k < |todasChaves|
      invariant k <= |todasChaves|
      invariant alteracoes == Relatadas(todasChaves[..k], anterior, novo)
    {
      var chave := todasChaves[k];
      assert todasChaves[..k + 1][..k] == todasChaves[..k];
      if !Controle(chave) {
        var valorAnterior := Ler(anterior, chave);
        var valorNovo := Ler(novo, chave);
        if valorAnterior != valorNovo {
          alteracoes := alteracoes + [Alteracao(chave, valorAnterior, valorNovo)];
        }
      }
      k := k + 1;
    }
    assert todasChaves[..k] == todasChaves;
  }
}
