/**
 * Fixed assets (bens): registration with a per-company tag (plaqueta), partial update,
 * write-off (baixa), transfer, and the monthly straight-line depreciation run, whose
 * amounts are capped so that an asset never depreciates past its acquisition value.
 */
module Patrimonio {
  import opened Outcome
  import opened Numbering
  import opened Money

  datatype StatusBem = Ativo | Baixado
  datatype Motivo = Venda | Doacao | Perda | Obsolescencia | Furto | Sinistro

  function MotivoNome(m: Motivo): string
  {
    match m
    case Venda => "VENDA"
    case Doacao => "DOACAO"
    case Perda => "PERDA"
    case Obsolescencia => "OBSOLESCENCIA"
    case Furto => "FURTO"
    case Sinistro => "SINISTRO"
  }

  /** An asset category; `taxa` is the annual depreciation rate in percent. */
  datatype Categoria = Categoria(id: Id, empresa: Id, nome: string, vidaUtil: int, taxa: real)

  datatype Bem = Bem(id: Id, empresa: Id, plaqueta: string, descricao: string, categoria: Id, valorAquisicao: real,
                     marca: Option<string>, modelo: Option<string>, localizacao: Option<string>,
                     responsavel: Option<Id>, observacoes: Option<string>, status: StatusBem,
                     motivoBaixa: Option<Motivo>, valorBaixa: real)

  datatype Depreciacao = Depreciacao(id: Id, bem: Id, competencia: string, valor: real)

  datatype TipoMovimentacao = Transferencia | Baixa
  datatype Movimentacao = Movimentacao(id: Id, bem: Id, tipo: TipoMovimentacao, origem: Option<string>,
                                       destino: Option<string>, anterior: Option<Id>, novo: Option<Id>,
                                       observacao: Option<string>)

  // ---------------------------------------------------------------- categories

  datatype NovaCategoria = NovaCategoria(nome: string, vidaUtil: Option<int>, taxa: real)

  predicate ValidNovaCategoria(d: NovaCategoria)
  {
    1 <= |d.nome| <= 100 && (d.vidaUtil.Some? ==> d.vidaUtil.value >= 12) && 0.0 <= d.taxa <= 100.0
  }

  /** `vida_util_meses` defaults to 60. */
  function CategoriaDe(id: Id, empresa: Id, d: NovaCategoria): (c: Categoria)
    requires ValidNovaCategoria(d)
    ensures c.vidaUtil >= 12 && 0.0 <= c.taxa <= 100.0
    ensures d.vidaUtil.None? ==> c.vidaUtil == 60
  {
    Categoria(id, empresa, d.nome, d.vidaUtil.GetOr(60), d.taxa)
  }

  /** The rate of the category an asset points to (the JOIN on categoria_id). */
  function Taxa(cats: seq<Categoria>, categoria: Id): (r: Option<real>)
    ensures r.Some? <==> exists k :: 0 <= k < |cats| && cats[k].id == categoria
  {
    if cats == [] then None
    else if cats[0].id == categoria then Some(cats[0].taxa)
    else
      var r := Taxa(cats[1..], categoria);
      assert forall k :: 1 <= k < |cats| ==> cats[k] == cats[1..][k - 1];
      r
  }

  // ---------------------------------------------------------------- assets

  datatype NovoBem = NovoBem(plaqueta: string, descricao: string, categoria: Id, valorAquisicao: real,
                             marca: Option<string>, modelo: Option<string>, localizacao: Option<string>,
                             responsavel: Option<Id>, observacoes: Option<string>)

  predicate ValidNovoBem(d: NovoBem)
  {
    1 <= |d.plaqueta| <= 20 && 1 <= |d.descricao| <= 200 && d.valorAquisicao >= 0.0
  }

  /** A new asset is ATIVO; empty optional texts are stored as null. */
  function BemDe(id: Id, empresa: Id, d: NovoBem): Bem
  {
    Bem(id, empresa, d.plaqueta, d.descricao, d.categoria, d.valorAquisicao, OrNull(d.marca), OrNull(d.modelo),
        OrNull(d.localizacao), OrNull(d.responsavel), OrNull(d.observacoes), Ativo, None, 0.0)
  }

  predicate PlaquetaUsada(bens: seq<Bem>, empresa: Id, plaqueta: string)
  {
    exists k :: 0 <= k < |bens| && bens[k].empresa == empresa && bens[k].plaqueta == plaqueta
  }

  function Localizar(bens: seq<Bem>, id: Id, empresa: Id): (r: Option<nat>)
    ensures r.Some? ==> r.value < |bens| && bens[r.value].id == id && bens[r.value].empresa == empresa
    ensures r.None? <==> forall k :: 0 <= k < |bens| ==> !(bens[k].id == id && bens[k].empresa == empresa)
  {
    if bens == [] then None
    else match Localizar(bens[..|bens| - 1], id, empresa)
      case Some(i) => Some(i)
      case None => if bens[|bens| - 1].id == id && bens[|bens| - 1].empresa == empresa then Some(|bens| - 1) else None
  }

  /**
   * The fields PUT /bens/:id may set; anything else in the body is ignored. The body is
   * not validated, so each nullable field may be absent, `null` or a value.
   */
  datatype Alteracao = Alteracao(descricao: Option<string>, localizacao: Campo<string>, responsavel: Campo<Id>,
                                 observacoes: Campo<string>, marca: Campo<string>, modelo: Campo<string>)

  /** Each allow-listed key the body has is written, a `null` clearing its column; nothing else changes. */
  function Alterado(b: Bem, a: Alteracao): (r: Bem)
    ensures r.(descricao := b.descricao, localizacao := b.localizacao, responsavel := b.responsavel,
               observacoes := b.observacoes, marca := b.marca, modelo := b.modelo) == b
    ensures r.descricao == a.descricao.GetOr(b.descricao)
    ensures Aplicado(a.localizacao, b.localizacao, r.localizacao) && Aplicado(a.responsavel, b.responsavel, r.responsavel)
    ensures Aplicado(a.observacoes, b.observacoes, r.observacoes)
    ensures Aplicado(a.marca, b.marca, r.marca) && Aplicado(a.modelo, b.modelo, r.modelo)
    ensures a == Alteracao(None, Ausente, Ausente, Ausente, Ausente, Ausente) ==> r == b
  {
    b.(descricao := a.descricao.GetOr(b.descricao),
       localizacao := Escrito(a.localizacao, b.localizacao),
       responsavel := Escrito(a.responsavel, b.responsavel),
       observacoes := Escrito(a.observacoes, b.observacoes),
       marca := Escrito(a.marca, b.marca),
       modelo := Escrito(a.modelo, b.modelo))
  }

  /** `COALESCE(observacoes || ' | ', '') || observacao`. */
  function ObservacaoBaixa(antes: Option<string>, observacao: string): string
  {
    if antes.Some? then antes.value + " | " + observacao else observacao
  }

  /** The write-off: BAIXADO with reason and value; only the write-off fields change. */
  function ComBaixa(b: Bem, motivo: Motivo, valor: real, observacao: string): (r: Bem)
    ensures r.status == Baixado && r.motivoBaixa == Some(motivo)
    ensures r.(status := b.status, motivoBaixa := b.motivoBaixa, valorBaixa := b.valorBaixa, observacoes := b.observacoes) == b
  {
    b.(status := Baixado, motivoBaixa := Some(motivo), valorBaixa := valor,
       observacoes := Some(ObservacaoBaixa(b.observacoes, observacao)))
  }

  /** The row recorded by a write-off: "Baixa: MOTIVO. observacao". */
  function MovimentoBaixa(id: Id, bem: Id, motivo: Motivo, observacao: string): Movimentacao
  {
    Movimentacao(id, bem, Baixa, None, None, None, None, Some("Baixa: " + MotivoNome(motivo) + ". " + observacao))
  }

  /** The row recorded by a transfer holds the asset's old place and keeper and the new ones. */
  function MovimentoTransferencia(id: Id, b: Bem, destino: string, novo: Option<Id>, observacao: Option<string>): (m: Movimentacao)
    ensures m.bem == b.id && m.origem == b.localizacao && m.anterior == b.responsavel && m.destino == Some(destino)
  {
    Movimentacao(id, b.id, Transferencia, b.localizacao, Some(destino), b.responsavel, OrNull(novo), OrNull(observacao))
  }

  function Transferido(b: Bem, destino: string, novo: Option<Id>): Bem
  {
    b.(localizacao := Some(destino), responsavel := OrNull(novo))
  }

  // ---------------------------------------------------------------- depreciation

  /** The accumulated depreciation of an asset. */
  function Depreciado(deps: seq<Depreciacao>, bem: Id): real
  {
    if deps == [] then 0.0
    else Depreciado(deps[..|deps| - 1], bem) + (if deps[|deps| - 1].bem == bem then deps[|deps| - 1].valor else 0.0)
  }

  lemma {:induction false} DepreciadoConcat(a: seq<Depreciacao>, b: seq<Depreciacao>, bem: Id)
    ensures Depreciado(a + b, bem) == Depreciado(a, bem) + Depreciado(b, bem)
  {
    if b == [] {
      assert a + b == a;
    } else {
      assert (a + b)[..|a + b| - 1] == a + b[..|b| - 1];
      DepreciadoConcat(a, b[..|b| - 1], bem);
    }
  }

  lemma {:induction false} DepreciadoAusente(deps: seq<Depreciacao>, bem: Id)
    requires forall k :: 0 <= k < |deps| ==> deps[k].bem != bem
    ensures Depreciado(deps, bem) == 0.0
  {
    if deps != [] {
      DepreciadoAusente(deps[..|deps| - 1], bem);
    }
  }

  /** valor_residual of the asset detail and of the inventory report. */
  function Residual(b: Bem, deps: seq<Depreciacao>): real
  {
    b.valorAquisicao - Depreciado(deps, b.id)
  }

  /** "YYYY-MM", the month zero-padded to two digits. */
  function Competencia(ano: int, mes: int): string
    requires 1 <= mes <= 12
  {
    IntText(ano) + "-" + Padded(mes, 2)
  }

  /** The text splits back into the year, a dash and the two-digit month. */
  lemma {:induction false} CompetenciaPartes(ano: int, mes: int)
    requires 1 <= mes <= 12
    ensures var c := Competencia(ano, mes);
      |c| >= 3 && c[..|c| - 3] == IntText(ano) && c[|c| - 3] == '-' && c[|c| - 2..] == Padded(mes, 2)
      && ValueOf(c[|c| - 2..]) == mes
  {
    MesDoisDigitos(mes);
    var x, p := IntText(ano), Padded(mes, 2);
    assert Competencia(ano, mes) == x + "-" + p;
    TracoSepara(x, p);
  }

  /** Splitting `x + "-" + p` back apart when `p` has two characters. */
  lemma {:induction false} TracoSepara(x: string, p: string)
    requires |p| == 2
    ensures var c := x + "-" + p;
      |c| >= 3 && c[..|c| - 3] == x && c[|c| - 3] == '-' && c[|c| - 2..] == p
  {
    var c := x + "-" + p;
    assert |c| == |x| + 3;
    assert c[..|x|] == x;
    assert c[|x| + 1..] == p;
  }

  lemma {:induction false} MesDoisDigitos(mes: int)
    requires 1 <= mes <= 12
    ensures |Padded(mes, 2)| == 2 && ValueOf(Padded(mes, 2)) == mes
  {
    PaddedRoundTrip(mes, 2);
    if mes >= 10 {
      assert Digits(mes) == Digits(mes / 10) + [DigitChar(mes % 10)];
    }
  }

  /** A competência names exactly one month: different (year, month) pairs give different texts. */
  lemma {:induction false} CompetenciaInjective(a: int, m: int, a2: int, m2: int)
    requires 1 <= m <= 12 && 1 <= m2 <= 12
    ensures Competencia(a, m) == Competencia(a2, m2) <==> a == a2 && m == m2
  {
    if Competencia(a, m) == Competencia(a2, m2) {
      CompetenciaPartes(a, m);
      CompetenciaPartes(a2, m2);
      IntTextInjective(a, a2);
      PaddedInjective(m, m2, 2);
    }
  }

  /** The run is refused when any asset of the company already has a row for that month. */
  predicate JaCalculada(bens: seq<Bem>, deps: seq<Depreciacao>, empresa: Id, competencia: string)
  {
    exists k, j :: 0 <= k < |deps| && 0 <= j < |bens| && deps[k].competencia == competencia
                   && bens[j].id == deps[k].bem && bens[j].empresa == empresa
  }

  /** The assets the run looks at: ATIVO, of the company, in a category with a positive rate. */
  predicate Elegivel(b: Bem, cats: seq<Categoria>, empresa: Id)
  {
    b.empresa == empresa && b.status == Ativo && Taxa(cats, b.categoria).Some? && Taxa(cats, b.categoria).value > 0.0
  }

  function Elegiveis(bens: seq<Bem>, cats: seq<Categoria>, empresa: Id): (r: seq<Bem>)
    ensures |r| <= |bens|
    ensures forall k :: 0 <= k < |r| ==> Elegivel(r[k], cats, empresa) && r[k] in bens
  {
    if bens == [] then []
    else
      var r := Elegiveis(bens[..|bens| - 1], cats, empresa);
      var b := bens[|bens| - 1];
      if Elegivel(b, cats, empresa) then r + [b] else r
  }

  /**
   * One month of an asset: the annual rate over 12 months applied to the acquisition
   * value, capped at the residual; nothing when the residual is not positive.
   */
  function Quota(b: Bem, taxa: real, deps: seq<Depreciacao>): real
  {
    var residual := Residual(b, deps);
    if residual <= 0.0 then 0.0
    else
      var mensal := b.valorAquisicao * (taxa / 12.0 / 100.0);
      if mensal > residual then residual else mensal
  }

  /** Whatever the rate, a quota never exceeds the residual value. */
  lemma {:induction false} QuotaLimitada(b: Bem, taxa: real, deps: seq<Depreciacao>)
    ensures Quota(b, taxa, deps) > 0.0 ==> Quota(b, taxa, deps) <= Residual(b, deps)
    ensures Residual(b, deps) <= 0.0 ==> Quota(b, taxa, deps) == 0.0
  {
  }

  function QuotaDe(b: Bem, cats: seq<Categoria>, deps: seq<Depreciacao>): real
  {
    match Taxa(cats, b.categoria)
    case Some(t) => Quota(b, t, deps)
    case None => 0.0
  }

  /** The rows written by the run: one per considered asset whose quota is positive. */
  function Lancamentos(el: seq<Bem>, cats: seq<Categoria>, deps: seq<Depreciacao>, ids: seq<Id>, competencia: string): seq<Depreciacao>
    requires |el| <= |ids|
  {
    if el == [] then []
    else
      var r := Lancamentos(el[..|el| - 1], cats, deps, ids, competencia);
      var b := el[|el| - 1];
      var q := QuotaDe(b, cats, deps);
      if q > 0.0 then r + [Depreciacao(ids[|el| - 1], b.id, competencia, q)] else r
  }

  /** Every written row is positive, for that month, and belongs to a considered asset. */
  lemma {:induction false} LancamentosForma(el: seq<Bem>, cats: seq<Categoria>, deps: seq<Depreciacao>, ids: seq<Id>, competencia: string)
    requires |el| <= |ids|
    ensures var r := Lancamentos(el, cats, deps, ids, competencia);
      |r| <= |el| && forall k :: 0 <= k < |r| ==>
        r[k].valor > 0.0 && r[k].competencia == competencia && exists j :: 0 <= j < |el| && el[j].id == r[k].bem
  {
    if el != [] {
      var n := |el|;
      LancamentosForma(el[..n - 1], cats, deps, ids, competencia);
      var r := Lancamentos(el[..n - 1], cats, deps, ids, competencia);
      forall k | 0 <= k < |r|
        ensures exists j :: 0 <= j < n && el[j].id == r[k].bem
      {
        var j :| 0 <= j < n - 1 && el[..n - 1][j].id == r[k].bem;
        assert el[j].id == r[k].bem;
      }
    }
  }

  predicate IdsUnicos(bens: seq<Bem>)
  {
    forall i, j :: 0 <= i < |bens| && 0 <= j < |bens| && i != j ==> bens[i].id != bens[j].id
  }

  /** The positive part of an asset's quota: what the run adds to its accumulated depreciation. */
  function Lancado(b: Bem, cats: seq<Categoria>, deps: seq<Depreciacao>): real
  {
    var q := QuotaDe(b, cats, deps);
    if q > 0.0 then q else 0.0
  }

  /** With distinct ids, the run adds to an asset exactly its own quota, and nothing to the rest. */
  lemma {:induction false} DepreciadoLancamentos(el: seq<Bem>, cats: seq<Categoria>, deps: seq<Depreciacao>, ids: seq<Id>,
                                                 competencia: string, x: Id)
    requires |el| <= |ids| && IdsUnicos(el)
    ensures var d := Depreciado(Lancamentos(el, cats, deps, ids, competencia), x);
      (forall j :: 0 <= j < |el| ==> el[j].id != x) ==> d == 0.0
    ensures var d := Depreciado(Lancamentos(el, cats, deps, ids, competencia), x);
      forall j :: 0 <= j < |el| && el[j].id == x ==> d == Lancado(el[j], cats, deps)
  {
    if el != [] {
      var n := |el|;
      var init := el[..n - 1];
      assert forall j :: 0 <= j < n - 1 ==> init[j] == el[j];
      DepreciadoLancamentos(init, cats, deps, ids, competencia, x);
      DepreciadoUltimo(el, cats, deps, ids, competencia, x);
      var d0 := Depreciado(Lancamentos(init, cats, deps, ids, competencia), x);
      var d := Depreciado(Lancamentos(el, cats, deps, ids, competencia), x);
      forall j | 0 <= j < n && el[j].id == x
        ensures d == Lancado(el[j], cats, deps)
      {
        if j < n - 1 {
          assert el[n - 1].id != x;
          assert d0 == Lancado(init[j], cats, deps);
        } else {
          assert forall i :: 0 <= i < n - 1 ==> init[i].id != x;
        }
      }
    }
  }

  /** The run over a list adds to an asset what the run over all but the last asset adds, plus the last one's part. */
  lemma {:induction false} DepreciadoUltimo(el: seq<Bem>, cats: seq<Categoria>, deps: seq<Depreciacao>, ids: seq<Id>,
                         competencia: string, x: Id)
    requires 0 < |el| <= |ids|
    ensures Depreciado(Lancamentos(el, cats, deps, ids, competencia), x)
            == Depreciado(Lancamentos(el[..|el| - 1], cats, deps, ids, competencia), x)
               + (if el[|el| - 1].id == x then Lancado(el[|el| - 1], cats, deps) else 0.0)
  {
    var n := |el|;
    var r := Lancamentos(el[..n - 1], cats, deps, ids, competencia);
    var b := el[n - 1];
    var q := QuotaDe(b, cats, deps);
    if q > 0.0 {
      var d := Depreciacao(ids[n - 1], b.id, competencia, q);
      assert (r + [d])[..|r|] == r;
    }
  }

  /** Distinct ids stay distinct in the considered subsequence. */
  lemma {:induction false} ElegiveisUnicos(bens: seq<Bem>, cats: seq<Categoria>, empresa: Id)
    requires IdsUnicos(bens)
    ensures IdsUnicos(Elegiveis(bens, cats, empresa))
  {
    if bens != [] {
      var n := |bens|;
      ElegiveisUnicos(bens[..n - 1], cats, empresa);
      var r := Elegiveis(bens[..n - 1], cats, empresa);
      forall k | 0 <= k < |r|
        ensures r[k].id != bens[n - 1].id
      {
        var j :| 0 <= j < n - 1 && bens[..n - 1][j] == r[k];
        assert bens[j] == r[k];
      }
    }
  }

  /** The loop of POST /depreciacao/calcular: the rows, their sum and their number. */
  method Depreciar(el: seq<Bem>, cats: seq<Categoria>, deps: seq<Depreciacao>, ids: seq<Id>, competencia: string)
    returns (novas: seq<Depreciacao>, total: real, quantos: nat)
    requires |el| <= |ids|
    ensures novas == Lancamentos(el, cats, deps, ids, competencia)
    ensures total == SumOf(novas, ValorDe) && quantos == |novas|
  {
    novas, total, quantos := [], 0.0, 0;
    var k := 0;
    while k < |el|
      invariant 0 <= k <= |el|
      invariant novas == Lancamentos(el[..k], cats, deps, ids, competencia)
      invariant total == SumOf(novas, ValorDe) && quantos == |novas|
    {
      assert el[..k + 1][..k] == el[..k];
      var b := el[k];
      var residual := b.valorAquisicao - Depreciado(deps, b.id);
      var t := Taxa(cats, b.categoria);
      var valor := 0.0;
      if residual > 0.0 && t.Some? {
        valor := b.valorAquisicao * (t.value / 12.0 / 100.0);
        if valor > residual {
          valor := residual;
        }
      }
      assert valor == QuotaDe(b, cats, deps);
      if valor > 0.0 {
        var d := Depreciacao(ids[k], b.id, competencia, valor);
        SumOfAppend(novas, d, ValorDe);
        novas := novas + [d];
        total := total + valor;
        quantos := quantos + 1;
      }
      k := k + 1;
    }
    assert el[..k] == el;
  }

  function ValorDe(d: Depreciacao): real { d.valor }

  // ---------------------------------------------------------------- invariants

  predicate PlaquetasUnicas(bens: seq<Bem>)
  {
    forall i, j :: 0 <= i < |bens| && 0 <= j < |bens| && i != j && bens[i].empresa == bens[j].empresa ==>
      bens[i].plaqueta != bens[j].plaqueta
  }

  /** Acquisition values are non-negative and no asset has depreciated past its acquisition value. */
  predicate Limitados(bens: seq<Bem>, deps: seq<Depreciacao>)
  {
    forall k :: 0 <= k < |bens| ==> 0.0 <= Depreciado(deps, bens[k].id) <= bens[k].valorAquisicao
  }

  /** Every depreciation row belongs to a registered asset. */
  predicate Conhecidas(bens: seq<Bem>, deps: seq<Depreciacao>)
  {
    forall k :: 0 <= k < |deps| ==> exists j :: 0 <= j < |bens| && bens[j].id == deps[k].bem
  }

  /** The run keeps every asset within its acquisition value, and every new row points to an asset. */
  lemma {:induction false} DepreciarLimitados(bens: seq<Bem>, cats: seq<Categoria>, deps: seq<Depreciacao>, ids: seq<Id>,
                           empresa: Id, competencia: string)
    requires IdsUnicos(bens) && Limitados(bens, deps) && Conhecidas(bens, deps)
    requires |Elegiveis(bens, cats, empresa)| <= |ids|
    ensures var r := deps + Lancamentos(Elegiveis(bens, cats, empresa), cats, deps, ids, competencia);
      Limitados(bens, r) && Conhecidas(bens, r)
  {
    var el := Elegiveis(bens, cats, empresa);
    var novas := Lancamentos(el, cats, deps, ids, competencia);
    ElegiveisUnicos(bens, cats, empresa);
    LancamentosForma(el, cats, deps, ids, competencia);
    forall k | 0 <= k < |bens|
      ensures 0.0 <= Depreciado(deps + novas, bens[k].id) <= bens[k].valorAquisicao
    {
      var b := bens[k];
      DepreciadoConcat(deps, novas, b.id);
      DepreciadoLancamentos(el, cats, deps, ids, competencia, b.id);
      if j :| 0 <= j < |el| && el[j].id == b.id {
        assert el[j] == b;
        match Taxa(cats, b.categoria)
        case Some(t) => QuotaLimitada(b, t, deps);
        case None =>
      }
    }
    forall k | 0 <= k < |deps + novas|
      ensures exists j :: 0 <= j < |bens| && bens[j].id == (deps + novas)[k].bem
    {
      if k >= |deps| {
        var i :| 0 <= i < |el| && el[i].id == novas[k - |deps|].bem;
        assert el[i] in bens;
      }
    }
  }

  /** The sum of the rows of one run is the sum of the considered assets' quotas, each within its residual. */
  lemma {:induction false} LancamentosTotal(el: seq<Bem>, cats: seq<Categoria>, deps: seq<Depreciacao>, ids: seq<Id>, competencia: string)
    requires |el| <= |ids|
    ensures SumOf(Lancamentos(el, cats, deps, ids, competencia), ValorDe) == SumOf(el, (b: Bem) => Lancado(b, cats, deps))
  {
    if el != [] {
      var n := |el|;
      LancamentosTotal(el[..n - 1], cats, deps, ids, competencia);
      var b := el[n - 1];
      var r := Lancamentos(el[..n - 1], cats, deps, ids, competencia);
      if QuotaDe(b, cats, deps) > 0.0 {
        SumOfAppend(r, Depreciacao(ids[n - 1], b.id, competencia, QuotaDe(b, cats, deps)), ValorDe);
      }
    }
  }

  predicate Consistente(bens: seq<Bem>, deps: seq<Depreciacao>)
  {
    IdsUnicos(bens) && PlaquetasUnicas(bens) && Limitados(bens, deps) && Conhecidas(bens, deps)
  }

  /** Registering an asset with a fresh id, a free tag and a non-negative value keeps the table consistent. */
  lemma {:induction false} ConsistenteAcrescentar(bens: seq<Bem>, deps: seq<Depreciacao>, b: Bem)
    requires Consistente(bens, deps) && b.valorAquisicao >= 0.0
    requires forall k :: 0 <= k < |bens| ==> bens[k].id != b.id
    requires !PlaquetaUsada(bens, b.empresa, b.plaqueta)
    ensures Consistente(bens + [b], deps)
  {
    var r := bens + [b];
    assert forall k :: 0 <= k < |bens| ==> r[k] == bens[k];
    forall k | 0 <= k < |deps|
      ensures exists j :: 0 <= j < |r| && r[j].id == deps[k].bem
    {
      var j :| 0 <= j < |bens| && bens[j].id == deps[k].bem;
      assert r[j].id == deps[k].bem;
    }
    forall k | 0 <= k < |deps|
      ensures deps[k].bem != b.id
    {
      var j :| 0 <= j < |bens| && bens[j].id == deps[k].bem;
    }
    DepreciadoAusente(deps, b.id);
  }

  /** Changing an asset's other fields keeps the table consistent. */
  lemma {:induction false} ConsistenteSubstituir(bens: seq<Bem>, deps: seq<Depreciacao>, i: nat, b: Bem)
    requires Consistente(bens, deps) && i < |bens|
    requires b.id == bens[i].id && b.empresa == bens[i].empresa && b.plaqueta == bens[i].plaqueta
    requires b.valorAquisicao == bens[i].valorAquisicao
    ensures Consistente(bens[i := b], deps)
  {
    var r := bens[i := b];
    forall k | 0 <= k < |deps|
      ensures exists j :: 0 <= j < |r| && r[j].id == deps[k].bem
    {
      var j :| 0 <= j < |bens| && bens[j].id == deps[k].bem;
      assert r[j].id == deps[k].bem;
    }
  }

  // ---------------------------------------------------------------- state

  class Patrimonio {
    var categorias: seq<Categoria>
    var bens: seq<Bem>
    var depreciacoes: seq<Depreciacao>
    var movimentacoes: seq<Movimentacao>

    ghost predicate Valid()
      reads this`bens, this`depreciacoes
    {
      Consistente(bens, depreciacoes)
    }

    constructor ()
      ensures Valid() && categorias == [] && bens == [] && depreciacoes == [] && movimentacoes == []
    {
      categorias, bens, depreciacoes, movimentacoes := [], [], [], [];
    }

    /** POST /categorias. */
    method CriarCategoria(id: Id, empresa: Id, d: NovaCategoria) returns (o: Outcome)
      modifies this`categorias
      ensures o == if ValidNovaCategoria(d) then Ok else BadRequest
      ensures categorias == if o == Ok then old(categorias) + [CategoriaDe(id, empresa, d)] else old(categorias)
    {
      if !ValidNovaCategoria(d) {
        return BadRequest;
      }
      categorias := categorias + [CategoriaDe(id, empresa, d)];
      o := Ok;
    }

    /** POST /bens: 400 on invalid data, 409 on a tag already used in the company. */
    method Criar(id: Id, empresa: Id, d: NovoBem) returns (o: Outcome)
      requires Valid()
      requires forall k :: 0 <= k < |bens| ==> bens[k].id != id
      modifies this`bens
      ensures Valid()
      ensures o == if !ValidNovoBem(d) then BadRequest
                   else if PlaquetaUsada(old(bens), empresa, d.plaqueta) then Conflict else Ok
      ensures bens == if o == Ok then old(bens) + [BemDe(id, empresa, d)] else old(bens)
    {
      if !ValidNovoBem(d) {
        return BadRequest;
      }
      if PlaquetaUsada(bens, empresa, d.plaqueta) {
        return Conflict;
      }
      var b := BemDe(id, empresa, d);
      ConsistenteAcrescentar(bens, depreciacoes, b);
      bens := bens + [b];
      o := Ok;
    }

    /** GET /bens/:id: accumulated depreciation and residual value, never negative. */
    method Detalhe(id: Id, empresa: Id) returns (o: Outcome, acumulada: real, residual: real)
      requires Valid()
      ensures var i := Localizar(bens, id, empresa);
        o == (if i.None? then NotFound else Ok)
        && (o == Ok ==> acumulada == Depreciado(depreciacoes, id) && residual == Residual(bens[i.value], depreciacoes)
                        && 0.0 <= residual <= bens[i.value].valorAquisicao)
    {
      var i := Localizar(bens, id, empresa);
      if i.None? {
        return NotFound, 0.0, 0.0;
      }
      acumulada := Depreciado(depreciacoes, id);
      residual := bens[i.value].valorAquisicao - acumulada;
      o := Ok;
    }

    /** PUT /bens/:id: only the permitted fields of the company's asset; always answers success. */
    method Atualizar(id: Id, empresa: Id, a: Alteracao)
      requires Valid()
      modifies this`bens
      ensures Valid()
      ensures var i := Localizar(old(bens), id, empresa);
        bens == if i.Some? then old(bens)[i.value := Alterado(old(bens)[i.value], a)] else old(bens)
    {
      var i := Localizar(bens, id, empresa);
      if i.Some? {
        var b := Alterado(bens[i.value], a);
        ConsistenteSubstituir(bens, depreciacoes, i.value, b);
        bens := bens[i.value := b];
      }
    }

    /** POST /bens/:id/baixar: no existence check; the BAIXA movement is recorded even when no asset matched. */
    method Baixar(id: Id, empresa: Id, movId: Id, motivo: Motivo, valor: Option<real>, observacao: Option<string>)
      returns (o: Outcome)
      requires Valid()
      modifies this`bens, this`movimentacoes
      ensures Valid()
      ensures o == if valor.Some? && valor.value < 0.0 then BadRequest else Ok
      ensures var i := Localizar(old(bens), id, empresa);
        var obs := observacao.GetOr("");
        bens == (if o == Ok && i.Some? then old(bens)[i.value := ComBaixa(old(bens)[i.value], motivo, valor.GetOr(0.0), obs)]
                 else old(bens))
        && movimentacoes == if o == Ok then old(movimentacoes) + [MovimentoBaixa(movId, id, motivo, obs)] else old(movimentacoes)
    {
      if valor.Some? && valor.value < 0.0 {
        return BadRequest;
      }
      var obs := observacao.GetOr("");
      var i := Localizar(bens, id, empresa);
      if i.Some? {
        var b := ComBaixa(bens[i.value], motivo, valor.GetOr(0.0), obs);
        ConsistenteSubstituir(bens, depreciacoes, i.value, b);
        bens := bens[i.value := b];
      }
      movimentacoes := movimentacoes + [MovimentoBaixa(movId, id, motivo, obs)];
      o := Ok;
    }

    /** POST /bens/:id/transferir: records where the asset was and with whom, then moves it. */
    method Transferir(id: Id, empresa: Id, movId: Id, destino: string, novo: Option<Id>, observacao: Option<string>)
      returns (o: Outcome)
      requires Valid()
      modifies this`bens, this`movimentacoes
      ensures Valid()
      ensures var i := Localizar(old(bens), id, empresa);
        o == (if |destino| < 1 then BadRequest else if i.None? then NotFound else Ok)
        && bens == (if o == Ok then old(bens)[i.value := Transferido(old(bens)[i.value], destino, novo)] else old(bens))
        && movimentacoes == if o == Ok then old(movimentacoes) + [MovimentoTransferencia(movId, old(bens)[i.value], destino, novo, observacao)]
                            else old(movimentacoes)
    {
      if |destino| < 1 {
        return BadRequest;
      }
      var i := Localizar(bens, id, empresa);
      if i.None? {
        return NotFound;
      }
      var b := bens[i.value];
      movimentacoes := movimentacoes + [MovimentoTransferencia(movId, b, destino, novo, observacao)];
      ConsistenteSubstituir(bens, depreciacoes, i.value, Transferido(b, destino, novo));
      bens := bens[i.value := Transferido(b, destino, novo)];
      o := Ok;
    }

    /** POST /depreciacao/calcular. */
    method CalcularDepreciacao(empresa: Id, ano: int, mes: int, ids: seq<Id>)
      returns (o: Outcome, competencia: string, quantos: nat, total: real)
      requires Valid() && |ids| >= |bens|
      modifies this`depreciacoes
      ensures Valid()
      ensures o == if !(1 <= mes <= 12) then BadRequest
                   else if JaCalculada(bens, old(depreciacoes), empresa, Competencia(ano, mes)) then Conflict else Ok
      ensures o == Ok ==> competencia == Competencia(ano, mes)
      ensures var novas := if o == Ok then Lancamentos(Elegiveis(bens, categorias, empresa), categorias, old(depreciacoes), ids, competencia) else [];
        depreciacoes == old(depreciacoes) + novas && quantos == |novas| && total == SumOf(novas, ValorDe)
    {
      if !(1 <= mes <= 12) {
        return BadRequest, "", 0, 0.0;
      }
      competencia := Competencia(ano, mes);
      if JaCalculada(bens, depreciacoes, empresa, competencia) {
        return Conflict, competencia, 0, 0.0;
      }
      var el := Elegiveis(bens, categorias, empresa);
      var novas;
      novas, total, quantos := Depreciar(el, categorias, depreciacoes, ids, competencia);
      DepreciarLimitados(bens, categorias, depreciacoes, ids, empresa, competencia);
      depreciacoes := depreciacoes + novas;
      o := Ok;
    }
  }
}
