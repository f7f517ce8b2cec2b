/**
 * Units of measure (unidades) and the conversions between them.
 *
 * A unit's sigla is stored upper-cased and is unique per company without regard
 * to case. Conversions are created in pairs: asking for A→B with factor f also
 * stores B→A with factor 1/f, and deleting either one deletes both. `converter`
 * multiplies a quantity by the stored factor.
 */
module Unidades {
  import opened Outcome
  import opened Letras

  datatype Unidade = Unidade(id: Id, empresa: Id, sigla: string, nome: string, fracionavel: bool, casas: int,
                             ativa: bool)

  datatype Conversao = Conversao(id: Id, empresa: Id, origem: Id, destino: Id, fator: real)

  // ---------------------------------------------------------------- units

  /** The body of POST /unidades, with the defaults not yet applied. */
  datatype NovaUnidade = NovaUnidade(sigla: string, nome: string, fracionavel: Option<bool>, casas: Option<int>,
                                     ativa: Option<bool>)

  predicate ValidSigla(s: string) { 1 <= |s| <= 10 }

  predicate ValidNome(s: string) { 2 <= |s| <= 50 }

  predicate ValidCasas(n: int) { 0 <= n <= 6 }

  predicate ValidNovaUnidade(d: NovaUnidade)
  {
    ValidSigla(d.sigla) && ValidNome(d.nome) && (d.casas.Some? ==> ValidCasas(d.casas.value))
  }

  /** The stored row: sigla upper-cased; not fractional, no decimals and active unless said otherwise. */
  function UnidadeDe(id: Id, empresa: Id, d: NovaUnidade): (u: Unidade)
    ensures u.id == id && u.empresa == empresa && u.nome == d.nome
    ensures u.sigla == Maiusculas(d.sigla) && Maiusculas(u.sigla) == u.sigla
    ensures u.fracionavel == (d.fracionavel == Some(true)) && u.ativa == (d.ativa != Some(false))
    ensures u.casas == d.casas.GetOr(0)
  {
    MaiusculasIdempotente(d.sigla);
    Unidade(id, empresa, Maiusculas(d.sigla), d.nome, d.fracionavel.GetOr(false), d.casas.GetOr(0),
            d.ativa.GetOr(true))
  }

  /** Another unit of the company (other than `exceto`) has the same sigla up to case. */
  predicate SiglaEmUso(us: seq<Unidade>, empresa: Id, sigla: string, exceto: Option<Id>)
  {
    exists k :: 0 <= k < |us| && us[k].empresa == empresa && Maiusculas(us[k].sigla) == Maiusculas(sigla)
                && (exceto.None? || us[k].id != exceto.value)
  }

  /** The partial body of PUT /unidades/:id: no defaults, every field optional. */
  datatype Alteracao = Alteracao(sigla: Option<string>, nome: Option<string>, fracionavel: Option<bool>,
                                 casas: Option<int>, ativa: Option<bool>)

  predicate ValidAlteracao(a: Alteracao)
  {
    (a.sigla.Some? ==> ValidSigla(a.sigla.value)) && (a.nome.Some? ==> ValidNome(a.nome.value))
    && (a.casas.Some? ==> ValidCasas(a.casas.value))
  }

  /** The COALESCE update: supplied fields replace the stored ones, a new sigla upper-cased. */
  function Alterada(u: Unidade, a: Alteracao): (r: Unidade)
    ensures r.id == u.id && r.empresa == u.empresa
    ensures r.sigla == if a.sigla.Some? then Maiusculas(a.sigla.value) else u.sigla
    ensures r.nome == a.nome.GetOr(u.nome) && r.fracionavel == a.fracionavel.GetOr(u.fracionavel)
    ensures r.casas == a.casas.GetOr(u.casas) && r.ativa == a.ativa.GetOr(u.ativa)
    ensures a == Alteracao(None, None, None, None, None) ==> r == u
  {
    Unidade(u.id, u.empresa, if a.sigla.Some? then Maiusculas(a.sigla.value) else u.sigla, a.nome.GetOr(u.nome),
            a.fracionavel.GetOr(u.fracionavel), a.casas.GetOr(u.casas), a.ativa.GetOr(u.ativa))
  }

  function Localizar(us: seq<Unidade>, id: Id, empresa: Id): (r: Option<nat>)
    ensures r.Some? ==> r.value < |us| && us[r.value].id == id && us[r.value].empresa == empresa
    ensures r.None? <==> !UnidadeExiste(us, id, empresa)
  {
    if us == [] then None
    else match Localizar(us[..|us| - 1], id, empresa)
      case Some(i) => Some(i)
      case None => if us[|us| - 1].id == id && us[|us| - 1].empresa == empresa then Some(|us| - 1) else None
  }

  predicate UnidadeExiste(us: seq<Unidade>, id: Id, empresa: Id)
  {
    exists k :: 0 <= k < |us| && us[k].id == id && us[k].empresa == empresa
  }

  /** `DELETE FROM unidades WHERE id = ?`: every row with that id goes, whatever its company. */
  function ForaId(us: seq<Unidade>, id: Id): (r: seq<Unidade>)
    ensures |r| <= |us|
    ensures forall k :: 0 <= k < |r| ==> r[k] in us && r[k].id != id
    ensures forall k :: 0 <= k < |us| && us[k].id != id ==> us[k] in r
  {
    if us == [] then []
    else if us[|us| - 1].id == id then ForaId(us[..|us| - 1], id)
    else ForaId(us[..|us| - 1], id) + [us[|us| - 1]]
  }

  predicate IdsUnicos(us: seq<Unidade>)
  {
    forall i, j :: 0 <= i < |us| && 0 <= j < |us| && us[i].id == us[j].id ==> i == j
  }

  /** Every stored sigla is already upper case. */
  predicate Normalizadas(us: seq<Unidade>)
  {
    forall k :: 0 <= k < |us| ==> Maiusculas(us[k].sigla) == us[k].sigla
  }

  /** No two units of a company share a sigla, whatever the case. */
  predicate SiglasUnicas(us: seq<Unidade>)
  {
    forall i, j ::
      0 <= i < |us| && 0 <= j < |us| && us[i].empresa == us[j].empresa && Maiusculas(us[i].sigla) == Maiusculas(us[j].sigla)
      ==> i == j
  }

  predicate UnidadesValidas(us: seq<Unidade>)
  {
    IdsUnicos(us) && Normalizadas(us) && SiglasUnicas(us)
  }

  // ---------------------------------------------------------------- conversions

  /** The body of POST /unidades/conversoes. */
  datatype NovaConversao = NovaConversao(origem: Id, destino: Id, fator: real)

  predicate ValidNovaConversao(d: NovaConversao) { d.fator > 0.0 }

  /** The stored A→B row, if any, of a company: the first one. */
  function Direcao(cs: seq<Conversao>, empresa: Id, origem: Id, destino: Id): (r: Option<nat>)
    ensures r.Some? ==> r.value < |cs| && cs[r.value].empresa == empresa && cs[r.value].origem == origem
                        && cs[r.value].destino == destino
    ensures r.Some? ==> forall k :: 0 <= k < r.value ==> !Liga(cs[k], empresa, origem, destino)
    ensures r.None? <==> forall k :: 0 <= k < |cs| ==> !Liga(cs[k], empresa, origem, destino)
  {
    if cs == [] then None
    else match Direcao(cs[..|cs| - 1], empresa, origem, destino)
      case Some(i) => Some(i)
      case None => if Liga(cs[|cs| - 1], empresa, origem, destino) then Some(|cs| - 1) else None
  }

  predicate Liga(c: Conversao, empresa: Id, origem: Id, destino: Id)
  {
    c.empresa == empresa && c.origem == origem && c.destino == destino
  }

  /** `1 / f`; only positive factors are ever stored. */
  function Inverso(f: real): real
  {
    if f == 0.0 then 0.0 else 1.0 / f
  }

  lemma {:induction false} InversoInvolutivo(f: real)
    requires f > 0.0
    ensures Inverso(f) > 0.0 && f * Inverso(f) == 1.0 && Inverso(Inverso(f)) == f
  {
  }

  /** The pair of rows POST /unidades/conversoes stores: A→B with f, B→A with 1/f. */
  function Par(id: Id, idReverso: Id, empresa: Id, d: NovaConversao): (r: seq<Conversao>)
    requires ValidNovaConversao(d)
    ensures |r| == 2 && Liga(r[0], empresa, d.origem, d.destino) && Liga(r[1], empresa, d.destino, d.origem)
    ensures r[0].fator == d.fator && r[1].fator == Inverso(d.fator)
  {
    [Conversao(id, empresa, d.origem, d.destino, d.fator), Conversao(idReverso, empresa, d.destino, d.origem, Inverso(d.fator))]
  }

  /** The handler's checks, in order: validation, both units in the company, no A→B row yet. */
  function VereditoConversao(us: seq<Unidade>, cs: seq<Conversao>, empresa: Id, d: NovaConversao): Outcome
  {
    if !ValidNovaConversao(d) then BadRequest
    else if !UnidadeExiste(us, d.origem, empresa) || !UnidadeExiste(us, d.destino, empresa) then NotFound
    else if Direcao(cs, empresa, d.origem, d.destino).Some? then BadRequest
    else Ok
  }

  /** Rows kept by a DELETE whose WHERE clause is the negation of `fica`. */
  function Filtrar(cs: seq<Conversao>, fica: Conversao -> bool): (r: seq<Conversao>)
    ensures |r| <= |cs|
    ensures forall k :: 0 <= k < |r| ==> r[k] in cs && fica(r[k])
    ensures forall k :: 0 <= k < |cs| && fica(cs[k]) ==> cs[k] in r
  {
    if cs == [] then []
    else if fica(cs[|cs| - 1]) then Filtrar(cs[..|cs| - 1], fica) + [cs[|cs| - 1]]
    else Filtrar(cs[..|cs| - 1], fica)
  }

  /** The row joins `a` and `b` in either direction within the company. */
  predicate NoPar(c: Conversao, empresa: Id, a: Id, b: Id)
  {
    c.empresa == empresa && ((c.origem == a && c.destino == b) || (c.origem == b && c.destino == a))
  }

  /** DELETE /unidades/conversoes/:id: the row and its reverse. */
  function SemPar(cs: seq<Conversao>, empresa: Id, a: Id, b: Id): (r: seq<Conversao>)
    ensures |r| <= |cs|
    ensures forall k :: 0 <= k < |r| ==> r[k] in cs && !NoPar(r[k], empresa, a, b)
    ensures forall k :: 0 <= k < |cs| && !NoPar(cs[k], empresa, a, b) ==> cs[k] in r
  {
    Filtrar(cs, (c: Conversao) => !NoPar(c, empresa, a, b))
  }

  /** DELETE /unidades/:id removes every conversion from or to the unit. */
  function SemUnidade(cs: seq<Conversao>, id: Id): (r: seq<Conversao>)
    ensures |r| <= |cs|
    ensures forall k :: 0 <= k < |r| ==> r[k] in cs && r[k].origem != id && r[k].destino != id
    ensures forall k :: 0 <= k < |cs| && cs[k].origem != id && cs[k].destino != id ==> cs[k] in r
  {
    Filtrar(cs, (c: Conversao) => c.origem != id && c.destino != id)
  }

  predicate Positivos(cs: seq<Conversao>)
  {
    forall k :: 0 <= k < |cs| ==> cs[k].fator > 0.0
  }

  /** The row B→A with the inverse factor of `c` is stored. */
  predicate ReversaExiste(cs: seq<Conversao>, c: Conversao)
  {
    exists j :: 0 <= j < |cs| && Liga(cs[j], c.empresa, c.destino, c.origem) && cs[j].fator == Inverso(c.fator)
  }

  /** Every conversion has its reverse. The trigger keeps each witness from asking for a reverse of its own. */
  predicate Pareadas(cs: seq<Conversao>)
  {
    forall k {:trigger ReversaExiste(cs, cs[k])} :: 0 <= k < |cs| ==> ReversaExiste(cs, cs[k])
  }

  /** Between two different units a company stores at most one row per direction. */
  predicate DirecoesUnicas(cs: seq<Conversao>)
  {
    forall i, j ::
      0 <= i < |cs| && 0 <= j < |cs| && cs[i].origem != cs[i].destino && Liga(cs[j], cs[i].empresa, cs[i].origem, cs[i].destino)
      ==> i == j
  }

  /** Both ends of every conversion are units of the conversion's company. */
  predicate Ligadas(us: seq<Unidade>, cs: seq<Conversao>)
  {
    forall k :: 0 <= k < |cs| ==> UnidadeExiste(us, cs[k].origem, cs[k].empresa)
                                  && UnidadeExiste(us, cs[k].destino, cs[k].empresa)
  }

  predicate ConversoesValidas(cs: seq<Conversao>)
  {
    Positivos(cs) && Pareadas(cs) && DirecoesUnicas(cs)
  }

  predicate Consistente(us: seq<Unidade>, cs: seq<Conversao>)
  {
    UnidadesValidas(us) && ConversoesValidas(cs) && Ligadas(us, cs)
  }

  // ---------------------------------------------------------------- converter

  datatype Convertido = Convertido(quantidadeOrigem: real, quantidadeDestino: real, fator: real)

  /** POST /unidades/converter: a read-only lookup. */
  function Converter(cs: seq<Conversao>, empresa: Id, origem: Option<Id>, destino: Option<Id>, quantidade: Option<real>)
    : (r: Result<Convertido>)
    ensures !Truthy(origem) || !Truthy(destino) || quantidade.None? ==> r == Failure(BadRequest)
    ensures Truthy(origem) && Truthy(destino) && quantidade.Some? && origem == destino ==>
              r == Success(Convertido(quantidade.value, quantidade.value, 1.0))
    ensures Truthy(origem) && Truthy(destino) && quantidade.Some? && origem != destino ==>
              (r.Failure? <==> Direcao(cs, empresa, origem.value, destino.value).None?)
    ensures r.Failure? ==> r.error == BadRequest
    ensures r.Success? && origem != destino ==>
              exists k :: 0 <= k < |cs| && Liga(cs[k], empresa, origem.value, destino.value)
                          && r.value == Convertido(quantidade.value, quantidade.value * cs[k].fator, cs[k].fator)
  {
    if !Truthy(origem) || !Truthy(destino) || quantidade.None? then Failure(BadRequest)
    else if origem == destino then Success(Convertido(quantidade.value, quantidade.value, 1.0))
    else match Direcao(cs, empresa, origem.value, destino.value)
      case None => Failure(BadRequest)
      case Some(i) => Success(Convertido(quantidade.value, quantidade.value * cs[i].fator, cs[i].fator))
  }

  /** Converting A→B and the result back B→A gives the starting quantity. */
  lemma {:induction false} ConverterIdaVolta(cs: seq<Conversao>, empresa: Id, a: Id, b: Id, q: real)
    requires ConversoesValidas(cs)
    requires Converter(cs, empresa, Some(a), Some(b), Some(q)).Success?
    ensures var ida := Converter(cs, empresa, Some(a), Some(b), Some(q)).value;
      var volta := Converter(cs, empresa, Some(b), Some(a), Some(ida.quantidadeDestino));
      volta.Success? && volta.value.quantidadeDestino == q && volta.value.fator == Inverso(ida.fator)
  {
    if a != b {
      var i := Direcao(cs, empresa, a, b).value;
      assert ReversaExiste(cs, cs[i]);
      var j :| 0 <= j < |cs| && Liga(cs[j], empresa, b, a) && cs[j].fator == Inverso(cs[i].fator);
      var v := Direcao(cs, empresa, b, a).value;
      assert v == j;
      var f, g := cs[i].fator, cs[j].fator;
      InversoInvolutivo(f);
      assert f * g == 1.0;
      calc {
        q * f * g;
        q * (f * g);
        q * 1.0;
      }
    }
  }

  // ---------------------------------------------------------------- invariant lemmas

  lemma {:induction false} UnidadesAcrescentar(us: seq<Unidade>, u: Unidade)
    requires UnidadesValidas(us) && Maiusculas(u.sigla) == u.sigla
    requires forall k :: 0 <= k < |us| ==> us[k].id != u.id
    requires !SiglaEmUso(us, u.empresa, u.sigla, None)
    ensures UnidadesValidas(us + [u])
  {
    var n := us + [u];
    assert forall k :: 0 <= k < |us| ==> n[k] == us[k];
    assert n[|us|] == u;
  }

  lemma {:induction false} LigadasAcrescentar(us: seq<Unidade>, cs: seq<Conversao>, u: Unidade)
    requires Ligadas(us, cs)
    ensures Ligadas(us + [u], cs)
  {
    var n := us + [u];
    forall k | 0 <= k < |cs|
      ensures UnidadeExiste(n, cs[k].origem, cs[k].empresa) && UnidadeExiste(n, cs[k].destino, cs[k].empresa)
    {
      ExisteAcrescentar(us, u, cs[k].origem, cs[k].empresa);
      ExisteAcrescentar(us, u, cs[k].destino, cs[k].empresa);
    }
  }

  /** A unit that exists still exists once another is appended. */
  lemma {:induction false} ExisteAcrescentar(us: seq<Unidade>, u: Unidade, id: Id, empresa: Id)
    requires UnidadeExiste(us, id, empresa)
    ensures UnidadeExiste(us + [u], id, empresa)
  {
    var i :| 0 <= i < |us| && us[i].id == id && us[i].empresa == empresa;
    assert (us + [u])[i] == us[i];
  }

  /** Replacing unit i by its update, when the new sigla is not in use by another unit. */
  lemma {:induction false} UnidadesSubstituir(us: seq<Unidade>, i: nat, a: Alteracao)
    requires UnidadesValidas(us) && i < |us|
    requires a.sigla.Some? ==> !SiglaEmUso(us, us[i].empresa, a.sigla.value, Some(us[i].id))
    ensures UnidadesValidas(us[i := Alterada(us[i], a)])
  {
    var u := Alterada(us[i], a);
    var n := us[i := u];
    if a.sigla.Some? {
      MaiusculasIdempotente(a.sigla.value);
    }
    assert Maiusculas(u.sigla) == u.sigla;
    forall y | 0 <= y < |us| && y != i
      ensures !(us[y].empresa == u.empresa && Maiusculas(us[y].sigla) == Maiusculas(u.sigla))
    {
      assert us[y].id != us[i].id;
    }
    assert forall k :: 0 <= k < |n| && k != i ==> n[k] == us[k];
    assert n[i] == u;
  }

  lemma {:induction false} LigadasSubstituir(us: seq<Unidade>, cs: seq<Conversao>, i: nat, u: Unidade)
    requires Ligadas(us, cs) && i < |us| && u.id == us[i].id && u.empresa == us[i].empresa
    ensures Ligadas(us[i := u], cs)
  {
    var n := us[i := u];
    forall k | 0 <= k < |cs|
      ensures UnidadeExiste(n, cs[k].origem, cs[k].empresa) && UnidadeExiste(n, cs[k].destino, cs[k].empresa)
    {
      var x :| 0 <= x < |us| && us[x].id == cs[k].origem && us[x].empresa == cs[k].empresa;
      var y :| 0 <= y < |us| && us[y].id == cs[k].destino && us[y].empresa == cs[k].empresa;
      assert n[x].id == us[x].id && n[x].empresa == us[x].empresa;
      assert n[y].id == us[y].id && n[y].empresa == us[y].empresa;
    }
  }

  lemma {:induction false} ReversaDe(cs: seq<Conversao>, k: nat)
    requires Pareadas(cs) && k < |cs|
    ensures ReversaExiste(cs, cs[k])
  {
  }

  /** With every row paired, a missing A→B means a missing B→A too. */
  lemma {:induction false} ReversaAusente(cs: seq<Conversao>, empresa: Id, a: Id, b: Id)
    requires Pareadas(cs) && Direcao(cs, empresa, a, b).None?
    ensures Direcao(cs, empresa, b, a).None?
  {
    if Direcao(cs, empresa, b, a).Some? {
      ReversaDe(cs, Direcao(cs, empresa, b, a).value);
      assert false;
    }
  }

  lemma {:induction false} PareadasPar(cs: seq<Conversao>, id: Id, idReverso: Id, empresa: Id, d: NovaConversao)
    requires Pareadas(cs) && ValidNovaConversao(d)
    ensures Pareadas(cs + Par(id, idReverso, empresa, d))
  {
    var p := Par(id, idReverso, empresa, d);
    var n := cs + p;
    var m := |cs|;
    assert n[m] == p[0] && n[m + 1] == p[1];
    InversoInvolutivo(d.fator);
    assert Liga(n[m + 1], n[m].empresa, n[m].destino, n[m].origem);
    assert Liga(n[m], n[m + 1].empresa, n[m + 1].destino, n[m + 1].origem);
    forall k | 0 <= k < m
      ensures ReversaExiste(n, n[k])
    {
      assert ReversaExiste(cs, cs[k]);
      var j :| 0 <= j < m && Liga(cs[j], cs[k].empresa, cs[k].destino, cs[k].origem) && cs[j].fator == Inverso(cs[k].fator);
      assert n[j] == cs[j] && n[k] == cs[k];
    }
  }

  lemma {:induction false} UnicasPar(cs: seq<Conversao>, id: Id, idReverso: Id, empresa: Id, d: NovaConversao)
    requires DirecoesUnicas(cs) && ValidNovaConversao(d)
    requires Direcao(cs, empresa, d.origem, d.destino).None? && Direcao(cs, empresa, d.destino, d.origem).None?
    ensures DirecoesUnicas(cs + Par(id, idReverso, empresa, d))
  {
    var p := Par(id, idReverso, empresa, d);
    var n := cs + p;
    assert forall k :: 0 <= k < |cs| ==> n[k] == cs[k];
    assert n[|cs|] == p[0] && n[|cs| + 1] == p[1];
  }

  /** The new pair satisfies the conversion invariants when no A→B row existed. */
  lemma {:induction false} ConversoesAcrescentar(cs: seq<Conversao>, id: Id, idReverso: Id, empresa: Id, d: NovaConversao)
    requires ConversoesValidas(cs) && ValidNovaConversao(d)
    requires Direcao(cs, empresa, d.origem, d.destino).None?
    ensures ConversoesValidas(cs + Par(id, idReverso, empresa, d))
  {
    var n := cs + Par(id, idReverso, empresa, d);
    InversoInvolutivo(d.fator);
    ReversaAusente(cs, empresa, d.origem, d.destino);
    PareadasPar(cs, id, idReverso, empresa, d);
    UnicasPar(cs, id, idReverso, empresa, d);
    assert forall k :: 0 <= k < |cs| ==> n[k] == cs[k];
  }

  lemma {:induction false} LigadasPar(us: seq<Unidade>, cs: seq<Conversao>, id: Id, idReverso: Id, empresa: Id, d: NovaConversao)
    requires Ligadas(us, cs) && ValidNovaConversao(d)
    requires UnidadeExiste(us, d.origem, empresa) && UnidadeExiste(us, d.destino, empresa)
    ensures Ligadas(us, cs + Par(id, idReverso, empresa, d))
  {
    var n := cs + Par(id, idReverso, empresa, d);
    assert forall k :: 0 <= k < |cs| ==> n[k] == cs[k];
  }

  /** Removing rows never breaks per-direction uniqueness: the survivors keep their order. */
  lemma {:induction false} FiltrarUnicas(cs: seq<Conversao>, fica: Conversao -> bool)
    requires DirecoesUnicas(cs)
    ensures DirecoesUnicas(Filtrar(cs, fica))
  {
    if cs != [] {
      var p := cs[..|cs| - 1];
      var u := cs[|cs| - 1];
      assert forall k :: 0 <= k < |p| ==> p[k] == cs[k];
      FiltrarUnicas(p, fica);
      if fica(u) {
        var f := Filtrar(p, fica);
        forall k | 0 <= k < |f|
          ensures u.origem != u.destino ==> !Liga(f[k], u.empresa, u.origem, u.destino)
          ensures f[k].origem != f[k].destino ==> !Liga(u, f[k].empresa, f[k].origem, f[k].destino)
        {
          var x :| 0 <= x < |p| && p[x] == f[k];
          assert cs[x] == f[k];
        }
        var n := f + [u];
        assert forall k :: 0 <= k < |f| ==> n[k] == f[k];
        assert n[|f|] == u;
      }
    }
  }

  /** Filtering keeps a row whose reverse is kept with it paired. */
  lemma {:induction false} FiltrarPareadas(cs: seq<Conversao>, fica: Conversao -> bool)
    requires Pareadas(cs)
    requires forall k, j :: 0 <= k < |cs| && 0 <= j < |cs| && fica(cs[k]) && Liga(cs[j], cs[k].empresa, cs[k].destino, cs[k].origem)
               ==> fica(cs[j])
    ensures Pareadas(Filtrar(cs, fica))
  {
    var r := Filtrar(cs, fica);
    forall k | 0 <= k < |r|
      ensures ReversaExiste(r, r[k])
    {
      var x :| 0 <= x < |cs| && cs[x] == r[k];
      assert ReversaExiste(cs, cs[x]);
      var j :| 0 <= j < |cs| && Liga(cs[j], cs[x].empresa, cs[x].destino, cs[x].origem) && cs[j].fator == Inverso(cs[x].fator);
      assert cs[j] in r;
      var y :| 0 <= y < |r| && r[y] == cs[j];
    }
  }

  lemma {:induction false} FiltrarPositivos(cs: seq<Conversao>, fica: Conversao -> bool)
    requires Positivos(cs)
    ensures Positivos(Filtrar(cs, fica))
  {
    var r := Filtrar(cs, fica);
    forall k | 0 <= k < |r|
      ensures r[k].fator > 0.0
    {
      var x :| 0 <= x < |cs| && cs[x] == r[k];
    }
  }

  /** Deleting both directions of a pair keeps the conversion invariants. */
  lemma {:induction false} ConversoesSemPar(cs: seq<Conversao>, empresa: Id, a: Id, b: Id)
    requires ConversoesValidas(cs)
    ensures ConversoesValidas(SemPar(cs, empresa, a, b))
  {
    var fica := (c: Conversao) => !NoPar(c, empresa, a, b);
    FiltrarUnicas(cs, fica);
    FiltrarPareadas(cs, fica);
    FiltrarPositivos(cs, fica);
  }

  /** Deleting every conversion touching a unit keeps the conversion invariants. */
  lemma {:induction false} ConversoesSemUnidade(cs: seq<Conversao>, id: Id)
    requires ConversoesValidas(cs)
    ensures ConversoesValidas(SemUnidade(cs, id))
  {
    var fica := (c: Conversao) => c.origem != id && c.destino != id;
    FiltrarUnicas(cs, fica);
    FiltrarPareadas(cs, fica);
    FiltrarPositivos(cs, fica);
  }

  lemma {:induction false} LigadasSubconjunto(us: seq<Unidade>, cs: seq<Conversao>, r: seq<Conversao>)
    requires Ligadas(us, cs)
    requires forall k :: 0 <= k < |r| ==> r[k] in cs
    ensures Ligadas(us, r)
  {
    forall k | 0 <= k < |r|
      ensures UnidadeExiste(us, r[k].origem, r[k].empresa) && UnidadeExiste(us, r[k].destino, r[k].empresa)
    {
      var x :| 0 <= x < |cs| && cs[x] == r[k];
    }
  }

  /** Removing a unit's rows keeps the unit invariants. */
  lemma {:induction false} UnidadesForaId(us: seq<Unidade>, id: Id)
    requires UnidadesValidas(us)
    ensures UnidadesValidas(ForaId(us, id))
  {
    if us != [] {
      var p := us[..|us| - 1];
      var u := us[|us| - 1];
      assert forall k :: 0 <= k < |p| ==> p[k] == us[k];
      UnidadesForaId(p, id);
      if u.id != id {
        var f := ForaId(p, id);
        forall k | 0 <= k < |f|
          ensures f[k].id != u.id
          ensures !(f[k].empresa == u.empresa && Maiusculas(f[k].sigla) == Maiusculas(u.sigla))
        {
          var x :| 0 <= x < |p| && p[x] == f[k];
          assert us[x] == f[k];
        }
        assert Maiusculas(us[|us| - 1].sigla) == us[|us| - 1].sigla;
        UnidadesAnexar(f, u);
      }
    }
  }

  /** A normalized unit that clashes with no row by id or by sigla can go at the end. */
  lemma {:induction false} UnidadesAnexar(us: seq<Unidade>, u: Unidade)
    requires UnidadesValidas(us) && Maiusculas(u.sigla) == u.sigla
    requires forall k :: 0 <= k < |us| ==>
      us[k].id != u.id && !(us[k].empresa == u.empresa && Maiusculas(us[k].sigla) == Maiusculas(u.sigla))
    ensures UnidadesValidas(us + [u])
  {
    var n := us + [u];
    assert forall k :: 0 <= k < |us| ==> n[k] == us[k];
    assert n[|us|] == u;
  }

  /** With the unit's conversions gone, the remaining ones still point at remaining units. */
  lemma {:induction false} LigadasForaId(us: seq<Unidade>, cs: seq<Conversao>, id: Id)
    requires Ligadas(us, cs)
    ensures Ligadas(ForaId(us, id), SemUnidade(cs, id))
  {
    var n := ForaId(us, id);
    var r := SemUnidade(cs, id);
    forall k | 0 <= k < |r|
      ensures UnidadeExiste(n, r[k].origem, r[k].empresa) && UnidadeExiste(n, r[k].destino, r[k].empresa)
    {
      var x :| 0 <= x < |cs| && cs[x] == r[k];
      var i :| 0 <= i < |us| && us[i].id == cs[x].origem && us[i].empresa == cs[x].empresa;
      var j :| 0 <= j < |us| && us[j].id == cs[x].destino && us[j].empresa == cs[x].empresa;
      assert us[i] in n && us[j] in n;
      var i' :| 0 <= i' < |n| && n[i'] == us[i];
      var j' :| 0 <= j' < |n| && n[j'] == us[j];
    }
  }

  /** After A→B is created, asking for B→A is refused as a duplicate. */
  lemma {:induction false} ReversaRecusada(us: seq<Unidade>, cs: seq<Conversao>, id: Id, idReverso: Id, empresa: Id,
                        d: NovaConversao, g: real)
    requires VereditoConversao(us, cs, empresa, d) == Ok && g > 0.0
    ensures VereditoConversao(us, cs + Par(id, idReverso, empresa, d), empresa, NovaConversao(d.destino, d.origem, g))
            == BadRequest
  {
    var n := cs + Par(id, idReverso, empresa, d);
    assert Liga(n[|cs| + 1], empresa, d.destino, d.origem);
  }

  /** Creating the same A→B twice: the second request is refused. */
  lemma {:induction false} RepetidaRecusada(us: seq<Unidade>, cs: seq<Conversao>, id: Id, idReverso: Id, empresa: Id,
                         d: NovaConversao, g: real)
    requires VereditoConversao(us, cs, empresa, d) == Ok && g > 0.0
    ensures VereditoConversao(us, cs + Par(id, idReverso, empresa, d), empresa, NovaConversao(d.origem, d.destino, g))
            == BadRequest
  {
    var n := cs + Par(id, idReverso, empresa, d);
    assert Liga(n[|cs|], empresa, d.origem, d.destino);
  }

  // ---------------------------------------------------------------- state

  class Cadastro {
    var unidades: seq<Unidade>
    var conversoes: seq<Conversao>
    /** `produtos.unidade_id` of every product, read by the delete guard. */
    var produtos: seq<Id>

    ghost predicate Valid()
      reads this`unidades, this`conversoes
    {
      Consistente(unidades, conversoes)
    }

    constructor (produtos: seq<Id>)
      ensures Valid() && unidades == [] && conversoes == [] && this.produtos == produtos
    {
      unidades, conversoes, this.produtos := [], [], produtos;
    }

    /** POST /unidades: a duplicate sigla (up to case) is a 400. */
    method Criar(id: Id, empresa: Id, d: NovaUnidade) returns (o: Outcome)
      requires Valid()
      requires forall k :: 0 <= k < |unidades| ==> unidades[k].id != id
      modifies this`unidades
      ensures Valid()
      ensures o == if !ValidNovaUnidade(d) || SiglaEmUso(old(unidades), empresa, d.sigla, None) then BadRequest else Ok
      ensures unidades == if o == Ok then old(unidades) + [UnidadeDe(id, empresa, d)] else old(unidades)
    {
      if !ValidNovaUnidade(d) {
        return BadRequest;
      }
      if SiglaEmUso(unidades, empresa, d.sigla, None) {
        return BadRequest;
      }
      var u := UnidadeDe(id, empresa, d);
      MaiusculasIdempotente(d.sigla);
      assert !SiglaEmUso(unidades, u.empresa, u.sigla, None);
      UnidadesAcrescentar(unidades, u);
      LigadasAcrescentar(unidades, conversoes, u);
      unidades := unidades + [u];
      o := Ok;
    }

    /** POST /unidades/conversoes: stores A→B and its reverse. */
    method CriarConversao(id: Id, idReverso: Id, empresa: Id, d: NovaConversao) returns (o: Outcome)
      requires Valid()
      modifies this`conversoes
      ensures Valid()
      ensures o == VereditoConversao(unidades, old(conversoes), empresa, d)
      ensures conversoes == if o == Ok then old(conversoes) + Par(id, idReverso, empresa, d) else old(conversoes)
    {
      if !ValidNovaConversao(d) {
        return BadRequest;
      }
      var a := Localizar(unidades, d.origem, empresa);
      var b := Localizar(unidades, d.destino, empresa);
      if a.None? || b.None? {
        return NotFound;
      }
      if Direcao(conversoes, empresa, d.origem, d.destino).Some? {
        return BadRequest;
      }
      ConversoesAcrescentar(conversoes, id, idReverso, empresa, d);
      LigadasPar(unidades, conversoes, id, idReverso, empresa, d);
      conversoes := conversoes + Par(id, idReverso, empresa, d);
      o := Ok;
    }

    /** PUT /unidades/:id: not-found first, then validation, then the sigla check excluding the unit itself. */
    method Atualizar(id: Id, empresa: Id, a: Alteracao) returns (o: Outcome)
      requires Valid()
      modifies this`unidades
      ensures Valid()
      ensures var i := Localizar(old(unidades), id, empresa);
        o == (if i.None? then NotFound else if !ValidAlteracao(a) then BadRequest
              else if a.sigla.Some? && SiglaEmUso(old(unidades), empresa, a.sigla.value, Some(id)) then BadRequest
              else Ok)
        && unidades == if o == Ok then old(unidades)[i.value := Alterada(old(unidades)[i.value], a)] else old(unidades)
    {
      var i := Localizar(unidades, id, empresa);
      if i.None? {
        return NotFound;
      }
      if !ValidAlteracao(a) {
        return BadRequest;
      }
      if a.sigla.Some? && SiglaEmUso(unidades, empresa, a.sigla.value, Some(id)) {
        return BadRequest;
      }
      UnidadesSubstituir(unidades, i.value, a);
      LigadasSubstituir(unidades, conversoes, i.value, Alterada(unidades[i.value], a));
      unidades := unidades[i.value := Alterada(unidades[i.value], a)];
      o := Ok;
    }

    /** DELETE /unidades/:id: refused while a product uses the unit; its conversions go with it. */
    method Excluir(id: Id, empresa: Id) returns (o: Outcome)
      requires Valid()
      modifies this`unidades, this`conversoes
      ensures Valid()
      ensures o == (if !UnidadeExiste(old(unidades), id, empresa) then NotFound
                    else if id in produtos then BadRequest else Ok)
      ensures unidades == if o == Ok then ForaId(old(unidades), id) else old(unidades)
      ensures conversoes == if o == Ok then SemUnidade(old(conversoes), id) else old(conversoes)
    {
      var i := Localizar(unidades, id, empresa);
      if i.None? {
        return NotFound;
      }
      if id in produtos {
        return BadRequest;
      }
      UnidadesForaId(unidades, id);
      ConversoesSemUnidade(conversoes, id);
      LigadasForaId(unidades, conversoes, id);
      conversoes := SemUnidade(conversoes, id);
      unidades := ForaId(unidades, id);
      o := Ok;
    }

    /** DELETE /unidades/conversoes/:id: the row found in the company and its reverse. */
    method ExcluirConversao(id: Id, empresa: Id) returns (o: Outcome)
      requires Valid()
      modifies this`conversoes
      ensures Valid()
      ensures var i := PorId(old(conversoes), id, empresa);
        o == (if i.None? then NotFound else Ok)
        && conversoes == if o == Ok then SemPar(old(conversoes), empresa, old(conversoes)[i.value].origem,
                                                old(conversoes)[i.value].destino)
                         else old(conversoes)
    {
      var i := PorId(conversoes, id, empresa);
      if i.None? {
        return NotFound;
      }
      var c := conversoes[i.value];
      ConversoesSemPar(conversoes, empresa, c.origem, c.destino);
      LigadasSubconjunto(unidades, conversoes, SemPar(conversoes, empresa, c.origem, c.destino));
      conversoes := SemPar(conversoes, empresa, c.origem, c.destino);
      o := Ok;
    }
  }

  /** The conversion row with this id in the company. */
  function PorId(cs: seq<Conversao>, id: Id, empresa: Id): (r: Option<nat>)
    ensures r.Some? ==> r.value < |cs| && cs[r.value].id == id && cs[r.value].empresa == empresa
    ensures r.None? <==> forall k :: 0 <= k < |cs| ==> !(cs[k].id == id && cs[k].empresa == empresa)
  {
    if cs == [] then None
    else match PorId(cs[..|cs| - 1], id, empresa)
      case Some(i) => Some(i)
      case None => if cs[|cs| - 1].id == id && cs[|cs| - 1].empresa == empresa then Some(|cs| - 1) else None
  }
}
