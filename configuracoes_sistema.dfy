/**
 * System settings (configuracoes) and number sequences (sequencias): the key/value
 * upsert per company, key and branch, the branch-over-global lookup, the fiscal
 * parameters, and the configurable counters with peek, consume and configure.
 */
module ConfiguracoesSistema {
  import opened Outcome
  import opened Numbering

  /** A row of configuracoes; `filial` absent is a company-wide setting. */
  datatype Config = Config(id: Id, empresa: Id, filial: Option<Id>, grupo: string, chave: string, valor: string)

  // ---------------------------------------------------------------- lookup

  /** The rows `WHERE empresa_id = ? AND chave = ? AND filial_id IS ?`, optionally inside one group. */
  predicate Casa(c: Config, empresa: Id, chave: string, filial: Option<Id>, grupo: Option<string>)
  {
    c.empresa == empresa && c.chave == chave && c.filial == filial && (grupo.Some? ==> c.grupo == grupo.value)
  }

  /** `.first()` of that query. */
  function Existente(rows: seq<Config>, empresa: Id, chave: string, filial: Option<Id>, grupo: Option<string>): (r: Option<nat>)
    ensures r.Some? ==> r.value < |rows| && Casa(rows[r.value], empresa, chave, filial, grupo)
                        && forall k :: 0 <= k < r.value ==> !Casa(rows[k], empresa, chave, filial, grupo)
    ensures r.None? <==> forall k :: 0 <= k < |rows| ==> !Casa(rows[k], empresa, chave, filial, grupo)
  {
    if rows == [] then None
    else if Casa(rows[0], empresa, chave, filial, grupo) then Some(0)
    else match Existente(rows[1..], empresa, chave, filial, grupo)
      case None => None
      case Some(i) => Some(i + 1)
  }

  /**
   * GET /configuracoes/:chave. With a branch, the branch's own row wins over the
   * company-wide one (`ORDER BY filial_id DESC NULLS LAST LIMIT 1`); without a branch
   * only the company-wide row is looked at.
   */
  function Buscar(rows: seq<Config>, empresa: Id, chave: string, filial: Option<string>): (r: Option<Config>)
    ensures Truthy(filial) && Existente(rows, empresa, chave, filial, None).Some? ==>
      r.Some? && r.value.filial == filial && r.value.chave == chave && r.value.empresa == empresa
    ensures Truthy(filial) && Existente(rows, empresa, chave, filial, None).None? ==>
      r == (var g := Existente(rows, empresa, chave, None, None); if g.Some? then Some(rows[g.value]) else None)
    ensures !Truthy(filial) ==> r.Some? ==> r.value.filial.None? && r.value.chave == chave && r.value.empresa == empresa
    ensures r.None? <==>
      Existente(rows, empresa, chave, None, None).None?
      && (Truthy(filial) ==> Existente(rows, empresa, chave, filial, None).None?)
  {
    var propria := if Truthy(filial) then Existente(rows, empresa, chave, filial, None) else None;
    if propria.Some? then Some(rows[propria.value])
    else
      var global := Existente(rows, empresa, chave, None, None);
      if global.Some? then Some(rows[global.value]) else None
  }

  // ---------------------------------------------------------------- upsert

  /** One setting to save; `grupo` is only used when the row is new. */
  datatype Entrada = Entrada(chave: string, valor: string, grupo: Option<string>)

  /** `body.grupo || 'GERAL'`. */
  function GrupoNovo(grupo: Option<string>): string
  {
    if Truthy(grupo) then grupo.value else "GERAL"
  }

  /**
   * The upsert on (company, key, branch): the first matching row gets the new value, else a
   * row is inserted. The general endpoints match in any group; the fiscal one only in FISCAL.
   */
  function Salvar(rows: seq<Config>, id: Id, empresa: Id, filial: Option<string>, e: Entrada, busca: Option<string>): seq<Config>
  {
    var f := OrNull(filial);
    match Existente(rows, empresa, e.chave, f, busca)
    case Some(i) => rows[i := rows[i].(valor := e.valor)]
    case None => rows + [Config(id, empresa, f, GrupoNovo(e.grupo), e.chave, e.valor)]
  }

  /**
   * After an upsert the key is found with the saved value; an existing row only changes
   * its value, a missing one is added with grupo defaulting to 'GERAL'; no other row changes.
   */
  lemma {:induction false} SalvarEfeito(rows: seq<Config>, id: Id, empresa: Id, filial: Option<string>, e: Entrada, busca: Option<string>)
    requires busca.Some? ==> GrupoNovo(e.grupo) == busca.value
    ensures var r := Salvar(rows, id, empresa, filial, e, busca);
      var x := Existente(r, empresa, e.chave, OrNull(filial), busca);
      x.Some? && r[x.value].valor == e.valor
      && (Existente(rows, empresa, e.chave, OrNull(filial), busca).Some? ==>
            |r| == |rows| && x == Existente(rows, empresa, e.chave, OrNull(filial), busca)
            && r[x.value] == rows[x.value].(valor := e.valor)
            && forall k :: 0 <= k < |rows| && k != x.value ==> r[k] == rows[k])
      && (Existente(rows, empresa, e.chave, OrNull(filial), busca).None? ==>
            r == rows + [Config(id, empresa, OrNull(filial), GrupoNovo(e.grupo), e.chave, e.valor)])
  {
    var f := OrNull(filial);
    var r := Salvar(rows, id, empresa, filial, e, busca);
    match Existente(rows, empresa, e.chave, f, busca)
    case Some(i) =>
      ExistenteIgual(rows, r, empresa, e.chave, f, busca);
    case None =>
      ExistenteAcrescentar(rows, r[|rows|], empresa, e.chave, f, busca);
  }

  /** Rows that agree on every matching column are found at the same place. */
  lemma {:induction false} ExistenteIgual(a: seq<Config>, b: seq<Config>, empresa: Id, chave: string, filial: Option<Id>, grupo: Option<string>)
    requires |a| == |b|
    requires forall k :: 0 <= k < |a| ==> a[k].(valor := "") == b[k].(valor := "")
    ensures Existente(a, empresa, chave, filial, grupo) == Existente(b, empresa, chave, filial, grupo)
  {
    if a != [] {
      assert a[0].(valor := "") == b[0].(valor := "");
      ExistenteIgual(a[1..], b[1..], empresa, chave, filial, grupo);
    }
  }

  lemma {:induction false} ExistenteAcrescentar(rows: seq<Config>, c: Config, empresa: Id, chave: string, filial: Option<Id>, grupo: Option<string>)
    ensures Existente(rows + [c], empresa, chave, filial, grupo)
            == match Existente(rows, empresa, chave, filial, grupo)
               case Some(i) => Some(i)
               case None => if Casa(c, empresa, chave, filial, grupo) then Some(|rows|) else None
  {
    if rows != [] {
      assert (rows + [c])[1..] == rows[1..] + [c];
      ExistenteAcrescentar(rows[1..], c, empresa, chave, filial, grupo);
    }
  }

  /** Saving one key does not move or change what another key finds. */
  lemma {:induction false} SalvarOutraChave(rows: seq<Config>, id: Id, empresa: Id, filial: Option<string>, e: Entrada, busca: Option<string>, chave: string)
    requires chave != e.chave
    ensures var r := Salvar(rows, id, empresa, filial, e, busca);
      var x := Existente(rows, empresa, chave, OrNull(filial), busca);
      Existente(r, empresa, chave, OrNull(filial), busca) == x
      && (x.Some? ==> r[x.value] == rows[x.value])
  {
    var f := OrNull(filial);
    var r := Salvar(rows, id, empresa, filial, e, busca);
    match Existente(rows, empresa, e.chave, f, busca)
    case Some(i) =>
      ExistenteIgual(rows, r, empresa, chave, f, busca);
    case None =>
      ExistenteAcrescentar(rows, r[|rows|], empresa, chave, f, busca);
  }

  /** The batch endpoints: one upsert per entry, in order. */
  function SalvarTodas(rows: seq<Config>, ids: seq<Id>, empresa: Id, filial: Option<string>, es: seq<Entrada>, busca: Option<string>): seq<Config>
    requires |ids| == |es|
  {
    if es == [] then rows
    else Salvar(SalvarTodas(rows, ids[..|ids| - 1], empresa, filial, es[..|es| - 1], busca),
                ids[|ids| - 1], empresa, filial, es[|es| - 1], busca)
  }

  /** After a batch every key is found, holding the value of its last entry in the batch. */
  lemma {:induction false} SalvarTodasUltimo(rows: seq<Config>, ids: seq<Id>, empresa: Id, filial: Option<string>,
                                             es: seq<Entrada>, busca: Option<string>, k: nat)
    requires |ids| == |es| && k < |es|
    requires forall j :: k < j < |es| ==> es[j].chave != es[k].chave
    requires busca.Some? ==> forall j :: 0 <= j < |es| ==> GrupoNovo(es[j].grupo) == busca.value
    ensures var r := SalvarTodas(rows, ids, empresa, filial, es, busca);
      var x := Existente(r, empresa, es[k].chave, OrNull(filial), busca);
      x.Some? && r[x.value].valor == es[k].valor
  {
    var n := |es|;
    var antes := SalvarTodas(rows, ids[..n - 1], empresa, filial, es[..n - 1], busca);
    if k == n - 1 {
      SalvarEfeito(antes, ids[n - 1], empresa, filial, es[n - 1], busca);
    } else {
      SalvarTodasUltimo(rows, ids[..n - 1], empresa, filial, es[..n - 1], busca, k);
      SalvarOutraChave(antes, ids[n - 1], empresa, filial, es[n - 1], busca, es[k].chave);
    }
  }

  /** The loop of POST /configuracoes/lote and PUT /configuracoes/fiscal. */
  method SalvarLote(rows: seq<Config>, ids: seq<Id>, empresa: Id, filial: Option<string>, es: seq<Entrada>, busca: Option<string>)
    returns (r: seq<Config>)
    requires |ids| == |es|
    ensures r == SalvarTodas(rows, ids, empresa, filial, es, busca)
  {
    r := rows;
    var k := 0;
    while k < |es|
      invariant 0 <= k <= |es|
      invariant r == SalvarTodas(rows, ids[..k], empresa, filial, es[..k], busca)
    {
      assert ids[..k + 1][..k] == ids[..k];
      assert es[..k + 1][..k] == es[..k];
      assert SalvarTodas(rows, ids[..k + 1], empresa, filial, es[..k + 1], busca)
             == Salvar(r, ids[k], empresa, filial, es[k], busca);
      r := Salvar(r, ids[k], empresa, filial, es[k], busca);
      k := k + 1;
    }
    assert ids[..k] == ids && es[..k] == es;
  }

  /** Within one company, key, branch and group there is at most one row. */
  predicate ConfigsUnicas(rows: seq<Config>)
  {
    forall i, j :: 0 <= i < |rows| && 0 <= j < |rows| && i != j ==>
      !Casa(rows[j], rows[i].empresa, rows[i].chave, rows[i].filial, Some(rows[i].grupo))
  }

  /** Both kinds of upsert keep that uniqueness. */
  lemma {:induction false} SalvarUnicas(rows: seq<Config>, id: Id, empresa: Id, filial: Option<string>, e: Entrada, busca: Option<string>)
    requires ConfigsUnicas(rows)
    requires busca.Some? ==> GrupoNovo(e.grupo) == busca.value
    ensures ConfigsUnicas(Salvar(rows, id, empresa, filial, e, busca))
  {
    var r := Salvar(rows, id, empresa, filial, e, busca);
    var f := OrNull(filial);
    match Existente(rows, empresa, e.chave, f, busca)
    case Some(x) =>
      forall i, j | 0 <= i < |r| && 0 <= j < |r| && i != j
        ensures !Casa(r[j], r[i].empresa, r[i].chave, r[i].filial, Some(r[i].grupo))
      {
        assert !Casa(rows[j], rows[i].empresa, rows[i].chave, rows[i].filial, Some(rows[i].grupo));
      }
    case None =>
      forall i, j | 0 <= i < |r| && 0 <= j < |r| && i != j
        ensures !Casa(r[j], r[i].empresa, r[i].chave, r[i].filial, Some(r[i].grupo))
      {
        if i == |rows| {
          assert !Casa(rows[j], empresa, e.chave, f, busca);
        } else if j == |rows| {
          assert !Casa(rows[i], empresa, e.chave, f, busca);
        }
      }
  }

  lemma {:induction false} SalvarTodasUnicas(rows: seq<Config>, ids: seq<Id>, empresa: Id, filial: Option<string>,
                                             es: seq<Entrada>, busca: Option<string>)
    requires |ids| == |es| && ConfigsUnicas(rows)
    requires busca.Some? ==> forall k :: 0 <= k < |es| ==> GrupoNovo(es[k].grupo) == busca.value
    ensures ConfigsUnicas(SalvarTodas(rows, ids, empresa, filial, es, busca))
  {
    if es != [] {
      var n := |es|;
      SalvarTodasUnicas(rows, ids[..n - 1], empresa, filial, es[..n - 1], busca);
      SalvarUnicas(SalvarTodas(rows, ids[..n - 1], empresa, filial, es[..n - 1], busca), ids[n - 1], empresa, filial, es[n - 1], busca);
    }
  }

  // ---------------------------------------------------------------- fiscal parameters

  /** A JSON value of the fiscal body (fractional numbers are left out). */
  datatype Valor = Texto(s: string) | Inteiro(n: int) | Logico(b: bool)

  /** `String(valor)`. */
  function Texto(v: Valor): string
  {
    match v
    case Texto(s) => s
    case Inteiro(n) => IntText(n)
    case Logico(b) => if b then "true" else "false"
  }

  /** Each fiscal parameter becomes an entry of group FISCAL holding String(valor). */
  function EntradasFiscais(params: seq<(string, Valor)>): (r: seq<Entrada>)
    ensures |r| == |params|
    ensures forall k :: 0 <= k < |params| ==> r[k] == Entrada(params[k].0, Texto(params[k].1), Some("FISCAL"))
  {
    if params == [] then []
    else EntradasFiscais(params[..|params| - 1])
         + [Entrada(params[|params| - 1].0, Texto(params[|params| - 1].1), Some("FISCAL"))]
  }

  // ---------------------------------------------------------------- sequences

  /** A row of sequencias; `ultimo` is the last number handed out. */
  datatype Sequencia = Sequencia(id: Id, empresa: Id, filial: Option<Id>, tipo: string, prefixo: Option<string>,
                                 sufixo: Option<string>, tamanho: int, ultimo: int)

  /** The peek/consume query: the branch's own sequence, or the company-wide one without a branch. */
  function LocalizarSequencia(rows: seq<Sequencia>, empresa: Id, tipo: string, filial: Option<Id>): (r: Option<nat>)
    ensures r.Some? ==> r.value < |rows| && rows[r.value].empresa == empresa && rows[r.value].tipo == tipo
                        && rows[r.value].filial == filial
    ensures r.None? <==> forall k :: 0 <= k < |rows| ==>
      !(rows[k].empresa == empresa && rows[k].tipo == tipo && rows[k].filial == filial)
  {
    if rows == [] then None
    else match LocalizarSequencia(rows[..|rows| - 1], empresa, tipo, filial)
      case Some(i) => Some(i)
      case None =>
        var s := rows[|rows| - 1];
        if s.empresa == empresa && s.tipo == tipo && s.filial == filial then Some(|rows| - 1) else None
  }

  /** `sequencia.tamanho || 6`. */
  function Largura(s: Sequencia): int { if s.tamanho == 0 then 6 else s.tamanho }

  /** prefixo + left-pad(ultimo + 1, tamanho or 6, '0') + sufixo. */
  function Proximo(s: Sequencia): string
    requires s.ultimo >= 0
  {
    Formatted(s.prefixo.GetOr(""), s.ultimo + 1, Largura(s), s.sufixo.GetOr(""))
  }

  /** The sequence after n consumes. */
  function Apos(s: Sequencia, n: nat): Sequencia { s.(ultimo := s.ultimo + n) }

  /** The number handed out reads back in the middle of the string as ultimo + 1. */
  lemma {:induction false} ProximoValor(s: Sequencia)
    requires s.ultimo >= 0
    ensures var p := Proximo(s); var pre := s.prefixo.GetOr(""); var suf := s.sufixo.GetOr("");
      |p| >= |pre| + |suf| && p[..|pre|] == pre && p[|p| - |suf|..] == suf
      && ValueOf(p[|pre|..|p| - |suf|]) == s.ultimo + 1
  {
    FormattedMiddle(s.prefixo.GetOr(""), s.ultimo + 1, Largura(s), s.sufixo.GetOr(""));
  }

  /** Successive consumes of one sequence never hand out the same number twice. */
  lemma {:induction false} ConsumosDistintos(s: Sequencia, n: nat, m: nat)
    requires s.ultimo >= 0 && n != m
    ensures Proximo(Apos(s, n)) != Proximo(Apos(s, m))
  {
    var pre, suf := s.prefixo.GetOr(""), s.sufixo.GetOr("");
    assert Proximo(Apos(s, n)) == Formatted(pre, s.ultimo + n + 1, Largura(s), suf);
    assert Proximo(Apos(s, m)) == Formatted(pre, s.ultimo + m + 1, Largura(s), suf);
    FormattedInjective(pre, s.ultimo + n + 1, s.ultimo + m + 1, Largura(s), suf);
  }

  /** The validated body of PUT /sequencias/:tipo (tamanho already defaulted to 6). */
  datatype Configuracao = Configuracao(filial: Option<string>, prefixo: Option<string>, sufixo: Option<string>,
                                       tamanho: int, ultimo: Option<int>)

  predicate ValidConfiguracao(c: Configuracao)
  {
    (c.prefixo.Some? ==> |c.prefixo.value| <= 10) && (c.sufixo.Some? ==> |c.sufixo.value| <= 10)
    && 1 <= c.tamanho <= 20 && (c.ultimo.Some? ==> c.ultimo.value >= 0)
  }

  /** Existing row: only the supplied fields (tamanho is always supplied after defaulting). */
  function Reconfigurada(s: Sequencia, c: Configuracao): Sequencia
  {
    s.(prefixo := if c.prefixo.Some? then c.prefixo else s.prefixo,
       sufixo := if c.sufixo.Some? then c.sufixo else s.sufixo,
       tamanho := c.tamanho,
       ultimo := if c.ultimo.Some? then c.ultimo.value else s.ultimo)
  }

  /** New row: empty prefix and suffix stored as null, counter from 0 unless given. */
  function Nova(id: Id, empresa: Id, tipo: string, c: Configuracao): Sequencia
  {
    Sequencia(id, empresa, OrNull(c.filial), tipo, OrNull(c.prefixo), OrNull(c.sufixo), c.tamanho,
              if c.ultimo.Some? then c.ultimo.value else 0)
  }

  function Configurar(rows: seq<Sequencia>, id: Id, empresa: Id, tipo: string, c: Configuracao): seq<Sequencia>
  {
    match LocalizarSequencia(rows, empresa, tipo, OrNull(c.filial))
    case Some(i) => rows[i := Reconfigurada(rows[i], c)]
    case None => rows + [Nova(id, empresa, tipo, c)]
  }

  /** Every counter is non-negative; one sequence per company, type and branch. */
  predicate SequenciasValidas(rows: seq<Sequencia>)
  {
    (forall k :: 0 <= k < |rows| ==> rows[k].ultimo >= 0)
    && forall i, j :: 0 <= i < |rows| && 0 <= j < |rows| && i != j ==>
      !(rows[i].empresa == rows[j].empresa && rows[i].tipo == rows[j].tipo && rows[i].filial == rows[j].filial)
  }

  /** Configuring keeps the table valid. */
  lemma {:induction false} ConfigurarValidas(rows: seq<Sequencia>, id: Id, empresa: Id, tipo: string, c: Configuracao)
    requires SequenciasValidas(rows) && ValidConfiguracao(c)
    ensures SequenciasValidas(Configurar(rows, id, empresa, tipo, c))
  {
    var r := Configurar(rows, id, empresa, tipo, c);
    var f := OrNull(c.filial);
    match LocalizarSequencia(rows, empresa, tipo, f)
    case Some(x) =>
      forall i, j | 0 <= i < |r| && 0 <= j < |r| && i != j
        ensures !(r[i].empresa == r[j].empresa && r[i].tipo == r[j].tipo && r[i].filial == r[j].filial)
      {
        assert r[i].(ultimo := 0, prefixo := None, sufixo := None, tamanho := 0)
               == rows[i].(ultimo := 0, prefixo := None, sufixo := None, tamanho := 0);
        assert r[j].(ultimo := 0, prefixo := None, sufixo := None, tamanho := 0)
               == rows[j].(ultimo := 0, prefixo := None, sufixo := None, tamanho := 0);
      }
    case None =>
      forall i, j | 0 <= i < |r| && 0 <= j < |r| && i != j
        ensures !(r[i].empresa == r[j].empresa && r[i].tipo == r[j].tipo && r[i].filial == r[j].filial)
      {
        if i == |rows| {
          assert !(rows[j].empresa == empresa && rows[j].tipo == tipo && rows[j].filial == f);
        } else if j == |rows| {
          assert !(rows[i].empresa == empresa && rows[i].tipo == tipo && rows[i].filial == f);
        }
      }
  }

  /** After configuring, the sequence is found with the new settings; a new one starts at 0 unless given. */
  lemma {:induction false} ConfigurarEfeito(rows: seq<Sequencia>, id: Id, empresa: Id, tipo: string, c: Configuracao)
    requires SequenciasValidas(rows) && ValidConfiguracao(c)
    ensures var r := Configurar(rows, id, empresa, tipo, c);
      var i := LocalizarSequencia(r, empresa, tipo, OrNull(c.filial));
      i.Some? && r[i.value].tamanho == c.tamanho
      && (c.ultimo.Some? ==> r[i.value].ultimo == c.ultimo.value)
      && (LocalizarSequencia(rows, empresa, tipo, OrNull(c.filial)).None? ==>
            r[i.value].ultimo == (if c.ultimo.Some? then c.ultimo.value else 0))
  {
    var r := Configurar(rows, id, empresa, tipo, c);
    match LocalizarSequencia(rows, empresa, tipo, OrNull(c.filial))
    case Some(x) =>
      ConfigurarValidas(rows, id, empresa, tipo, c);
      UnicaLocalizada(r, x, empresa, tipo, OrNull(c.filial));
    case None =>
      assert r[..|r| - 1] == rows;
  }

  /** In a valid table the only matching row is the one found. */
  lemma {:induction false} UnicaLocalizada(rows: seq<Sequencia>, x: nat, empresa: Id, tipo: string, filial: Option<Id>)
    requires SequenciasValidas(rows) && x < |rows|
    requires rows[x].empresa == empresa && rows[x].tipo == tipo && rows[x].filial == filial
    ensures LocalizarSequencia(rows, empresa, tipo, filial) == Some(x)
  {
    var i := LocalizarSequencia(rows, empresa, tipo, filial);
    assert i.Some?;
  }

  // ---------------------------------------------------------------- state

  class Configuracoes {
    var configs: seq<Config>
    var sequencias: seq<Sequencia>

    ghost predicate Valid()
      reads this`configs, this`sequencias
    {
      ConfigsUnicas(configs) && SequenciasValidas(sequencias)
    }

    constructor ()
      ensures Valid() && configs == [] && sequencias == []
    {
      configs, sequencias := [], [];
    }

    /** PUT /configuracoes/:chave. */
    method Atualizar(id: Id, empresa: Id, chave: string, filial: Option<string>, valor: string, grupo: Option<string>)
      requires Valid()
      modifies this`configs
      ensures Valid()
      ensures configs == Salvar(old(configs), id, empresa, filial, Entrada(chave, valor, grupo), None)
    {
      SalvarUnicas(configs, id, empresa, filial, Entrada(chave, valor, grupo), None);
      configs := Salvar(configs, id, empresa, filial, Entrada(chave, valor, grupo), None);
    }

    /** POST /configuracoes/lote. */
    method AtualizarLote(ids: seq<Id>, empresa: Id, filial: Option<string>, es: seq<Entrada>) returns (salvas: nat)
      requires Valid() && |ids| == |es|
      modifies this`configs
      ensures Valid()
      ensures configs == SalvarTodas(old(configs), ids, empresa, filial, es, None) && salvas == |es|
    {
      SalvarTodasUnicas(configs, ids, empresa, filial, es, None);
      configs := SalvarLote(configs, ids, empresa, filial, es, None);
      salvas := |es|;
    }

    /** PUT /configuracoes/fiscal: every parameter as String(valor), matched and created in group FISCAL. */
    method SalvarFiscal(ids: seq<Id>, empresa: Id, filial: Option<string>, params: seq<(string, Valor)>)
      requires Valid() && |ids| == |params|
      modifies this`configs
      ensures Valid()
      ensures configs == SalvarTodas(old(configs), ids, empresa, filial, EntradasFiscais(params), Some("FISCAL"))
    {
      var es := EntradasFiscais(params);
      SalvarTodasUnicas(configs, ids, empresa, filial, es, Some("FISCAL"));
      configs := SalvarLote(configs, ids, empresa, filial, es, Some("FISCAL"));
    }

    /** GET /sequencias/proximo/:tipo: the next number, without consuming it. */
    method Espiar(empresa: Id, tipo: string, filial: Option<string>) returns (o: Outcome, numero: string, valor: int)
      requires Valid()
      ensures var i := LocalizarSequencia(sequencias, empresa, tipo, OrNull(filial));
        o == (if i.None? then NotFound else Ok)
        && (o == Ok ==> numero == Proximo(sequencias[i.value]) && valor == sequencias[i.value].ultimo + 1)
    {
      var i := LocalizarSequencia(sequencias, empresa, tipo, OrNull(filial));
      if i.None? {
        return NotFound, "", 0;
      }
      var s := sequencias[i.value];
      o, numero, valor := Ok, Proximo(s), s.ultimo + 1;
    }

    /** POST /sequencias/consumir/:tipo: the number peek would show, and the counter moves on by one. */
    method Consumir(empresa: Id, tipo: string, filial: Option<string>) returns (o: Outcome, numero: string, valor: int)
      requires Valid()
      modifies this`sequencias
      ensures Valid()
      ensures var i := LocalizarSequencia(old(sequencias), empresa, tipo, OrNull(filial));
        o == (if i.None? then NotFound else Ok)
        && (o == Ok ==> numero == Proximo(old(sequencias)[i.value]) && valor == old(sequencias)[i.value].ultimo + 1
                        && sequencias == old(sequencias)[i.value := Apos(old(sequencias)[i.value], 1)])
        && (o != Ok ==> sequencias == old(sequencias))
    {
      var i := LocalizarSequencia(sequencias, empresa, tipo, OrNull(filial));
      if i.None? {
        return NotFound, "", 0;
      }
      var s := sequencias[i.value];
      o, numero, valor := Ok, Proximo(s), s.ultimo + 1;
      sequencias := sequencias[i.value := Apos(s, 1)];
    }

    /** PUT /sequencias/:tipo. */
    method ConfigurarSequencia(id: Id, empresa: Id, tipo: string, c: Configuracao) returns (o: Outcome)
      requires Valid()
      modifies this`sequencias
      ensures Valid()
      ensures o == if ValidConfiguracao(c) then Ok else BadRequest
      ensures sequencias == if o == Ok then Configurar(old(sequencias), id, empresa, tipo, c) else old(sequencias)
    {
      if !ValidConfiguracao(c) {
        return BadRequest;
      }
      ConfigurarValidas(sequencias, id, empresa, tipo, c);
      sequencias := Configurar(sequencias, id, empresa, tipo, c);
      o := Ok;
    }
  }
}
