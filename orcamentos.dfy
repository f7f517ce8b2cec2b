/**
 * Sales quotes (orcamentos): lines with a percentage discount, header totals kept equal
 * to the sums over the lines plus freight, the rascunho → enviado → aprovado → convertido
 * lifecycle with one history row per step, and conversion into a sales order.
 */
module Orcamentos {
  import opened Outcome
  import opened Tables
  import opened Money
  import opened Numbering

  datatype Status = Rascunho | Enviado | Aprovado | Convertido

  /** A validated input line. */
  datatype NovoItem = NovoItem(produto: Id, quantidade: real, precoUnitario: real, descontoPercentual: real)

  predicate ValidNovoItem(n: NovoItem)
  {
    n.quantidade > 0.0 && n.precoUnitario >= 0.0 && 0.0 <= n.descontoPercentual <= 100.0
  }

  /** A stored line (orcamentos_itens). */
  datatype Item = Item(id: Id, sequencia: nat, produto: Id, quantidade: real, precoUnitario: real,
                       descontoPercentual: real, valorDesconto: real, valorSubtotal: real, valorTotal: real)

  datatype Orcamento = Orcamento(id: Id, empresa: Id, filial: Id, numero: string, cliente: Id,
                                 vendedor: Option<Id>, tabelaPreco: Option<Id>, condicaoPagamento: Option<Id>,
                                 status: Status, validadeDias: Option<real>, observacao: Option<string>,
                                 observacaoInterna: Option<string>, valorSubtotal: real, valorDesconto: real,
                                 valorFrete: Option<real>, valorTotal: real, pedido: Option<Id>, itens: seq<Item>)

  /** The validated body of POST /orcamentos (`validade_dias` after its default of 30). */
  datatype Dados = Dados(filial: Id, cliente: Id, vendedor: Option<Id>, tabelaPreco: Option<Id>,
                         condicaoPagamento: Option<Id>, validadeDias: real, observacao: Option<string>,
                         observacaoInterna: Option<string>, itens: seq<NovoItem>)

  predicate ValidDados(d: Dados)
  {
    d.validadeDias >= 1.0 && |d.itens| >= 1 && forall i :: 0 <= i < |d.itens| ==> ValidNovoItem(d.itens[i])
  }

  /** A row of orcamentos_historico. */
  datatype Historico = Historico(orcamento: Id, anterior: Option<Status>, novo: Status, observacao: string, usuario: Id)

  /** A row of pedidos_venda with its copied lines. */
  datatype PedidoVenda = PedidoVenda(id: Id, empresa: Id, filial: Id, numero: string, orcamento: Id, cliente: Id,
                                     vendedor: Option<Id>, valorSubtotal: real, valorDesconto: real,
                                     valorFrete: Option<real>, valorTotal: real, itens: seq<Item>)

  // ---------------------------------------------------------------- line arithmetic

  function SubtotalNovo(n: NovoItem): real { n.quantidade * n.precoUnitario }

  function DescontoNovo(n: NovoItem): real { SubtotalNovo(n) * (n.descontoPercentual / 100.0) }

  function SubtotalDe(it: Item): real { it.valorSubtotal }

  function DescontoDe(it: Item): real { it.valorDesconto }

  function TotalDe(it: Item): real { it.valorTotal }

  /** A stored line: subtotal = quantity × price, discount = subtotal × pct / 100, total = subtotal − discount. */
  function ItemDe(n: NovoItem, id: Id, sequencia: nat): Item
  {
    Item(id, sequencia, n.produto, n.quantidade, n.precoUnitario, n.descontoPercentual,
         DescontoNovo(n), SubtotalNovo(n), SubtotalNovo(n) - DescontoNovo(n))
  }

  /** A line's discount stays between zero and its subtotal, so its total is never negative. */
  lemma {:induction false} ItemLimites(n: NovoItem, id: Id, sequencia: nat)
    requires ValidNovoItem(n)
    ensures var it := ItemDe(n, id, sequencia);
      0.0 <= it.valorDesconto <= it.valorSubtotal && 0.0 <= it.valorTotal <= it.valorSubtotal
  {
    var s := n.quantidade * n.precoUnitario;
    var f := n.descontoPercentual / 100.0;
    assert s >= 0.0 by {
      assert n.quantidade >= 0.0 && n.precoUnitario >= 0.0;
    }
    assert 0.0 <= f <= 1.0;
    assert s * f <= s * 1.0 by {
      assert s * (1.0 - f) >= 0.0;
    }
  }

  /** The lines in input order, numbered 1..n. */
  function ItensDe(novos: seq<NovoItem>, ids: seq<Id>): (r: seq<Item>)
    requires |ids| == |novos|
    ensures |r| == |novos|
    ensures forall k :: 0 <= k < |novos| ==> r[k] == ItemDe(novos[k], ids[k], k + 1)
  {
    if novos == [] then []
    else ItensDe(novos[..|novos| - 1], ids[..|ids| - 1]) + [ItemDe(novos[|novos| - 1], ids[|ids| - 1], |novos|)]
  }

  /** The stored lines add up to the header sums the create handler computes from the input. */
  lemma {:induction false} ItensDeSomas(novos: seq<NovoItem>, ids: seq<Id>)
    requires |ids| == |novos|
    ensures SumOf(ItensDe(novos, ids), SubtotalDe) == SumOf(novos, SubtotalNovo)
    ensures SumOf(ItensDe(novos, ids), DescontoDe) == SumOf(novos, DescontoNovo)
    ensures SumOf(ItensDe(novos, ids), TotalDe) == SumOf(novos, SubtotalNovo) - SumOf(novos, DescontoNovo)
  {
    if novos != [] {
      var n := |novos|;
      ItensDeSomas(novos[..n - 1], ids[..n - 1]);
      var init := ItensDe(novos[..n - 1], ids[..n - 1]);
      var last := ItemDe(novos[n - 1], ids[n - 1], n);
      SumOfAppend(init, last, SubtotalDe);
      SumOfAppend(init, last, DescontoDe);
      SumOfAppend(init, last, TotalDe);
    }
  }

  /** The create handler's totals loop. */
  method SomarItens(novos: seq<NovoItem>) returns (subtotal: real, desconto: real)
    ensures subtotal == SumOf(novos, SubtotalNovo)
    ensures desconto == SumOf(novos, DescontoNovo)
  {
    subtotal, desconto := 0.0, 0.0;
    var k := 0;
    while k < |novos|
      invariant 0 <= k <= |novos|
      invariant subtotal == SumOf(novos[..k], SubtotalNovo)
      invariant desconto == SumOf(novos[..k], DescontoNovo)
    {
      var item := novos[k];
      SumOfStep(novos, k, SubtotalNovo);
      SumOfStep(novos, k, DescontoNovo);
      var subtotalItem := item.quantidade * item.precoUnitario;
      var descontoItem := subtotalItem * (item.descontoPercentual / 100.0);
      subtotal := subtotal + subtotalItem;
      desconto := desconto + descontoItem;
      k := k + 1;
    }
    assert novos[..k] == novos;
  }

  // ---------------------------------------------------------------- invariants

  /** The header holds the sums over its lines, the total adding the freight (`COALESCE(valor_frete, 0)`). */
  predicate Totalizado(o: Orcamento)
  {
    o.valorSubtotal == SumOf(o.itens, SubtotalDe)
    && o.valorDesconto == SumOf(o.itens, DescontoDe)
    && o.valorTotal == SumOf(o.itens, TotalDe) + o.valorFrete.GetOr(0.0)
  }

  /** Line numbers strictly increase along the list. */
  predicate Sequenciado(itens: seq<Item>)
  {
    forall i, j :: 0 <= i < j < |itens| ==> itens[i].sequencia < itens[j].sequencia
  }

  predicate Coerente(o: Orcamento) { Totalizado(o) && Sequenciado(o.itens) }

  /**
   * The quote table's invariant: every quote numbers its lines in order, and every quote
   * except those in `truncados` (the creates that failed after the header was written)
   * holds the sums over its lines.
   */
  predicate Coerentes(rows: seq<Orcamento>, truncados: set<Id>)
  {
    forall k :: 0 <= k < |rows| ==> Sequenciado(rows[k].itens) && (rows[k].id !in truncados ==> Totalizado(rows[k]))
  }

  /** A quote that may sit in a table whose invariant exempts `truncados`. */
  predicate Admissivel(o: Orcamento, truncados: set<Id>)
  {
    Sequenciado(o.itens) && (o.id !in truncados ==> Totalizado(o))
  }

  lemma {:induction false} CoerentesAtualizar(rows: seq<Orcamento>, t: set<Id>, i: nat, o: Orcamento)
    requires Coerentes(rows, t) && i < |rows| && Admissivel(o, t)
    ensures Coerentes(rows[i := o], t)
  {
  }

  lemma {:induction false} CoerentesAcrescentar(rows: seq<Orcamento>, t: set<Id>, o: Orcamento)
    requires Coerentes(rows, t) && Admissivel(o, t)
    ensures Coerentes(rows + [o], t)
  {
  }

  // ---------------------------------------------------------------- totals

  /** recalcularTotaisOrcamento: the sums over the lines, the freight added to the total. */
  function Recalcular(o: Orcamento): (r: Orcamento)
    ensures Totalizado(r)
    ensures r.itens == o.itens && r.status == o.status && r.valorFrete == o.valorFrete
  {
    o.(valorSubtotal := SumOf(o.itens, SubtotalDe), valorDesconto := SumOf(o.itens, DescontoDe),
       valorTotal := SumOf(o.itens, TotalDe) + o.valorFrete.GetOr(0.0))
  }

  /** Recalculation changes nothing on a quote whose header already holds its sums. */
  lemma {:induction false} RecalcularEstavel(o: Orcamento)
    ensures Recalcular(o) == o <==> Totalizado(o)
  {
  }

  // ---------------------------------------------------------------- lookups

  function Localizar(rows: seq<Orcamento>, id: Id, empresa: Id): (r: Option<nat>)
    ensures r.Some? ==> r.value < |rows| && rows[r.value].id == id && rows[r.value].empresa == empresa
    ensures r.None? ==> forall k :: 0 <= k < |rows| ==> !(rows[k].id == id && rows[k].empresa == empresa)
  {
    FirstIndex(rows, (o: Orcamento) => o.id == id && o.empresa == empresa)
  }

  function NumerosOrcamentos(rows: seq<Orcamento>, empresa: Id, filial: Id): (r: seq<string>)
    ensures forall k :: 0 <= k < |rows| && rows[k].empresa == empresa && rows[k].filial == filial ==> rows[k].numero in r
  {
    if rows == [] then []
    else NumerosOrcamentos(rows[..|rows| - 1], empresa, filial)
         + (var o := rows[|rows| - 1]; if o.empresa == empresa && o.filial == filial then [o.numero] else [])
  }

  function NumerosPedidos(rows: seq<PedidoVenda>, empresa: Id, filial: Id): (r: seq<string>)
    ensures forall k :: 0 <= k < |rows| && rows[k].empresa == empresa && rows[k].filial == filial ==> rows[k].numero in r
  {
    if rows == [] then []
    else NumerosPedidos(rows[..|rows| - 1], empresa, filial)
         + (var p := rows[|rows| - 1]; if p.empresa == empresa && p.filial == filial then [p.numero] else [])
  }

  // ---------------------------------------------------------------- create

  /** The created quote: rascunho, numbered for its (company, branch), lines 1..n, no freight. */
  function Novo(rows: seq<Orcamento>, id: Id, empresa: Id, d: Dados, itemIds: seq<Id>,
                subtotal: real, desconto: real): Orcamento
    requires |itemIds| == |d.itens|
  {
    Orcamento(id, empresa, d.filial, NextNumero(NumerosOrcamentos(rows, empresa, d.filial)), d.cliente,
              OrNull(d.vendedor), OrNull(d.tabelaPreco), OrNull(d.condicaoPagamento), Rascunho, Some(d.validadeDias),
              OrNull(d.observacao), OrNull(d.observacaoInterna), subtotal, desconto, Some(0.0), subtotal - desconto, None,
              ItensDe(d.itens, itemIds))
  }

  /**
   * With the header sums the create handler computes, the new quote is consistent: its total is
   * Σ subtotal − Σ discount, which is what recalculation would store; its lines are numbered 1..n;
   * its number is above every number of its (company, branch).
   */
  lemma {:induction false} NovoCoerente(rows: seq<Orcamento>, id: Id, empresa: Id, d: Dados, itemIds: seq<Id>)
    requires |itemIds| == |d.itens|
    ensures var o := Novo(rows, id, empresa, d, itemIds, SumOf(d.itens, SubtotalNovo), SumOf(d.itens, DescontoNovo));
      Coerente(o) && Recalcular(o) == o
      && o.status == Rascunho && o.valorFrete == Some(0.0) && o.pedido.None?
      && |o.itens| == |d.itens| && (forall k :: 0 <= k < |o.itens| ==> o.itens[k].sequencia == k + 1)
      && forall k :: 0 <= k < |rows| && rows[k].empresa == empresa && rows[k].filial == d.filial ==>
           CastInteger(rows[k].numero) < CastInteger(o.numero)
  {
    var o := Novo(rows, id, empresa, d, itemIds, SumOf(d.itens, SubtotalNovo), SumOf(d.itens, DescontoNovo));
    NextNumeroFresh(NumerosOrcamentos(rows, empresa, d.filial));
    ItensDeSomas(d.itens, itemIds);
    assert o.itens == ItensDe(d.itens, itemIds);
    assert Totalizado(o);
    RecalcularEstavel(o);
  }

  /** The quote table after a create. */
  function Orcar(rows: seq<Orcamento>, id: Id, empresa: Id, d: Dados, itemIds: seq<Id>,
                 subtotal: real, desconto: real): seq<Orcamento>
    requires |itemIds| == |d.itens|
  {
    rows + [Novo(rows, id, empresa, d, itemIds, subtotal, desconto)]
  }

  /** With the sums of the create handler's loop, the new table stays consistent. */
  lemma {:induction false} OrcarCoerentes(rows: seq<Orcamento>, t: set<Id>, id: Id, empresa: Id, d: Dados, itemIds: seq<Id>)
    requires |itemIds| == |d.itens| && Coerentes(rows, t)
    ensures Coerentes(Orcar(rows, id, empresa, d, itemIds, SumOf(d.itens, SubtotalNovo), SumOf(d.itens, DescontoNovo)), t)
  {
    NovoCoerente(rows, id, empresa, d, itemIds);
    CoerentesAcrescentar(rows, t, Novo(rows, id, empresa, d, itemIds, SumOf(d.itens, SubtotalNovo), SumOf(d.itens, DescontoNovo)));
  }

  /** The first line whose product does not exist (`SELECT … FROM produtos WHERE id = ?` finds nothing). */
  function ProdutoAusente(produtos: map<Id, Id>, novos: seq<NovoItem>): (r: Option<nat>)
    ensures r.Some? ==> r.value < |novos| && novos[r.value].produto !in produtos
                        && forall k :: 0 <= k < r.value ==> novos[k].produto in produtos
    ensures r.None? <==> forall k :: 0 <= k < |novos| ==> novos[k].produto in produtos
  {
    FirstIndex(novos, (n: NovoItem) => n.produto !in produtos)
  }

  /**
   * The create handler's line loop: each line is stored in turn; reading `produto.codigo` of a
   * product that does not exist throws, so the lines before it stay stored and the rest are not.
   */
  method InserirItens(produtos: map<Id, Id>, novos: seq<NovoItem>, ids: seq<Id>) returns (itens: seq<Item>, falta: Option<nat>)
    requires |ids| == |novos|
    ensures falta == ProdutoAusente(produtos, novos)
    ensures itens == ItensDe(novos, ids)[..if falta.Some? then falta.value else |novos|]
  {
    ghost var todos := ItensDe(novos, ids);
    itens := [];
    var k := 0;
    while k < |novos|
      invariant 0 <= k <= |novos|
      invariant forall i :: 0 <= i < k ==> novos[i].produto in produtos
      invariant itens == todos[..k]
    {
      if novos[k].produto !in produtos {
        ProdutoAusenteEm(produtos, novos, k);
        falta := Some(k);
        return;
      }
      assert todos[..k + 1] == todos[..k] + [todos[k]];
      itens := itens + [ItemDe(novos[k], ids[k], k + 1)];
      k := k + 1;
    }
    assert todos[..k] == todos;
    falta := None;
  }

  /** The first missing product is the one at `k` when every earlier product exists. */
  lemma {:induction false} ProdutoAusenteEm(produtos: map<Id, Id>, novos: seq<NovoItem>, k: nat)
    requires k < |novos| && novos[k].produto !in produtos
    requires forall i :: 0 <= i < k ==> novos[i].produto in produtos
    ensures ProdutoAusente(produtos, novos) == Some(k)
  {
    var r := ProdutoAusente(produtos, novos);
    assert r.Some? && r.value <= k;
  }

  /** The quote table after a create that passed its checks, whether or not its line loop threw. */
  function Inserido(rows: seq<Orcamento>, produtos: map<Id, Id>, id: Id, empresa: Id, d: Dados, itemIds: seq<Id>): (r: seq<Orcamento>)
    requires |itemIds| == |d.itens|
    ensures ProdutoAusente(produtos, d.itens).None? ==>
      r == Orcar(rows, id, empresa, d, itemIds, SumOf(d.itens, SubtotalNovo), SumOf(d.itens, DescontoNovo))
    ensures ProdutoAusente(produtos, d.itens).Some? ==>
      r == rows + [Truncado(rows, id, empresa, d, itemIds, ProdutoAusente(produtos, d.itens).value)]
  {
    match ProdutoAusente(produtos, d.itens)
    case None => Orcar(rows, id, empresa, d, itemIds, SumOf(d.itens, SubtotalNovo), SumOf(d.itens, DescontoNovo))
    case Some(j) => rows + [Truncado(rows, id, empresa, d, itemIds, j)]
  }

  /**
   * The create handler's writes after its checks: the totals loop, the header, then the line
   * loop, which may stop at a missing product.
   */
  method Orcado(rows: seq<Orcamento>, ghost t: set<Id>, produtos: map<Id, Id>, id: Id, empresa: Id, d: Dados, itemIds: seq<Id>)
    returns (novos: seq<Orcamento>, falta: Option<nat>)
    requires |itemIds| == |d.itens| && Coerentes(rows, t)
    ensures falta == ProdutoAusente(produtos, d.itens)
    ensures novos == Inserido(rows, produtos, id, empresa, d, itemIds)
    ensures Coerentes(novos, if falta.Some? then t + {id} else t)
  {
    var subtotal, desconto := SomarItens(d.itens);
    var itens, f := InserirItens(produtos, d.itens, itemIds);
    falta := f;
    var novo := Novo(rows, id, empresa, d, itemIds, subtotal, desconto).(itens := itens);
    if falta.Some? {
      assert novo == Truncado(rows, id, empresa, d, itemIds, falta.value);
      CoerentesExcecao(rows, t, id);
      CoerentesAcrescentar(rows, t + {id}, novo);
    } else {
      assert itens == ItensDe(d.itens, itemIds);
      OrcarCoerentes(rows, t, id, empresa, d, itemIds);
    }
    novos := rows + [novo];
  }

  /** Exempting one more quote keeps the invariant. */
  lemma {:induction false} CoerentesExcecao(rows: seq<Orcamento>, t: set<Id>, id: Id)
    requires Coerentes(rows, t)
    ensures Coerentes(rows, t + {id})
  {
  }

  /** The first `j` lines of a create are the lines a create of just those inputs would store. */
  lemma {:induction false} ItensDePrefixo(novos: seq<NovoItem>, ids: seq<Id>, j: nat)
    requires |ids| == |novos| && j <= |novos|
    ensures ItensDe(novos, ids)[..j] == ItensDe(novos[..j], ids[..j])
  {
    var a := ItensDe(novos, ids)[..j];
    var b := ItensDe(novos[..j], ids[..j]);
    assert |a| == |b|;
    forall k | 0 <= k < j
      ensures a[k] == b[k]
    {
      assert novos[..j][k] == novos[k] && ids[..j][k] == ids[k];
    }
  }

  /**
   * The quote a create leaves when it throws at line `j`: the header with the sums of every
   * input line, but only the lines before `j`.
   */
  function Truncado(rows: seq<Orcamento>, id: Id, empresa: Id, d: Dados, itemIds: seq<Id>, j: nat): (o: Orcamento)
    requires |itemIds| == |d.itens| && j <= |d.itens|
    ensures o.id == id && o.status == Rascunho && |o.itens| == j
    ensures Sequenciado(o.itens)
    ensures o.valorSubtotal == SumOf(d.itens, SubtotalNovo) && o.valorDesconto == SumOf(d.itens, DescontoNovo)
    ensures SumOf(o.itens, SubtotalDe) == SumOf(d.itens[..j], SubtotalNovo)
  {
    var o := Novo(rows, id, empresa, d, itemIds, SumOf(d.itens, SubtotalNovo), SumOf(d.itens, DescontoNovo))
             .(itens := ItensDe(d.itens, itemIds)[..j]);
    ItensDePrefixo(d.itens, itemIds, j);
    ItensDeSomas(d.itens[..j], itemIds[..j]);
    o
  }

  /**
   * When the throw leaves out a line with a positive subtotal, the stored header no longer
   * equals the sum over the stored lines.
   */
  lemma {:induction false} TruncadoDescompasso(rows: seq<Orcamento>, id: Id, empresa: Id, d: Dados, itemIds: seq<Id>, j: nat)
    requires ValidDados(d) && |itemIds| == |d.itens| && j < |d.itens| && d.itens[j].precoUnitario > 0.0
    ensures !Totalizado(Truncado(rows, id, empresa, d, itemIds, j))
  {
    SubtotalAlemDoPrefixo(d.itens, j);
  }

  /** A valid line's subtotal is not negative, and positive when its price is. */
  lemma {:induction false} SubtotalSinal(n: NovoItem)
    requires ValidNovoItem(n)
    ensures SubtotalNovo(n) >= 0.0 && (n.precoUnitario > 0.0 ==> SubtotalNovo(n) > 0.0)
  {
    if n.precoUnitario > 0.0 {
      assert n.quantidade * n.precoUnitario > 0.0;
    }
  }

  /** Leaving out a line with a positive price lowers the sum of valid lines' subtotals. */
  lemma {:induction false} SubtotalAlemDoPrefixo(novos: seq<NovoItem>, j: nat)
    requires forall k :: 0 <= k < |novos| ==> ValidNovoItem(novos[k])
    requires j < |novos| && novos[j].precoUnitario > 0.0
    ensures SumOf(novos[..j], SubtotalNovo) < SumOf(novos, SubtotalNovo)
  {
    var resto := novos[j + 1..];
    assert novos == novos[..j] + ([novos[j]] + resto);
    SumOfConcat(novos[..j], [novos[j]] + resto, SubtotalNovo);
    SumOfConcat([novos[j]], resto, SubtotalNovo);
    SumOfAppend([], novos[j], SubtotalNovo);
    forall k | 0 <= k < |resto|
      ensures SubtotalNovo(resto[k]) >= 0.0
    {
      assert resto[k] == novos[j + 1 + k];
      SubtotalSinal(resto[k]);
    }
    SumOfNonNegative(resto, SubtotalNovo);
    SubtotalSinal(novos[j]);
  }

  /** Every line of a fresh quote was discounted within its bounds, so the quote's total is not negative. */
  lemma {:induction false} NovoNaoNegativo(rows: seq<Orcamento>, id: Id, empresa: Id, d: Dados, itemIds: seq<Id>)
    requires ValidDados(d) && |itemIds| == |d.itens|
    ensures var o := Novo(rows, id, empresa, d, itemIds, SumOf(d.itens, SubtotalNovo), SumOf(d.itens, DescontoNovo));
      0.0 <= o.valorDesconto <= o.valorSubtotal && o.valorTotal >= 0.0
  {
    var itens := ItensDe(d.itens, itemIds);
    forall k | 0 <= k < |itens|
      ensures 0.0 <= itens[k].valorDesconto <= itens[k].valorSubtotal
    {
      ItemLimites(d.itens[k], itemIds[k], k + 1);
    }
    SumOfNonNegative(itens, DescontoDe);
    SumOfMonotone(itens, DescontoDe, SubtotalDe);
    ItensDeSomas(d.itens, itemIds);
  }

  // ---------------------------------------------------------------- edit and lines

  /**
   * The allow-listed fields of PUT /orcamentos/:id as the unchecked body carries them: each one
   * that is not `undefined` is written, a `null` included.
   */
  datatype Edicao = Edicao(vendedor: Campo<Id>, tabelaPreco: Campo<Id>, condicaoPagamento: Campo<Id>,
                           validadeDias: Campo<real>, observacao: Campo<string>,
                           observacaoInterna: Campo<string>, valorFrete: Campo<real>)

  function ComEdicao(o: Orcamento, e: Edicao): (r: Orcamento)
    ensures Aplicado(e.vendedor, o.vendedor, r.vendedor) && Aplicado(e.tabelaPreco, o.tabelaPreco, r.tabelaPreco)
    ensures Aplicado(e.condicaoPagamento, o.condicaoPagamento, r.condicaoPagamento)
    ensures Aplicado(e.validadeDias, o.validadeDias, r.validadeDias)
    ensures Aplicado(e.observacao, o.observacao, r.observacao)
    ensures Aplicado(e.observacaoInterna, o.observacaoInterna, r.observacaoInterna)
    ensures Aplicado(e.valorFrete, o.valorFrete, r.valorFrete)
    ensures r.id == o.id && r.empresa == o.empresa && r.filial == o.filial && r.numero == o.numero
    ensures r.cliente == o.cliente && r.status == o.status && r.pedido == o.pedido && r.itens == o.itens
    ensures Totalizado(r)
  {
    Recalcular(o.(vendedor := Escrito(e.vendedor, o.vendedor),
                  tabelaPreco := Escrito(e.tabelaPreco, o.tabelaPreco),
                  condicaoPagamento := Escrito(e.condicaoPagamento, o.condicaoPagamento),
                  validadeDias := Escrito(e.validadeDias, o.validadeDias),
                  observacao := Escrito(e.observacao, o.observacao),
                  observacaoInterna := Escrito(e.observacaoInterna, o.observacaoInterna),
                  valorFrete := Escrito(e.valorFrete, o.valorFrete)))
  }

  /** An edit that supplies nothing leaves a totalled quote as it was. */
  lemma {:induction false} EditarVazio(o: Orcamento)
    requires Totalizado(o)
    ensures ComEdicao(o, Edicao(Ausente, Ausente, Ausente, Ausente, Ausente, Ausente, Ausente)) == o
  {
  }

  /** A `null` freight is read as zero by the recalculation, so the total is the sum over the lines. */
  lemma {:induction false} FreteNulo(o: Orcamento, e: Edicao)
    requires e.valorFrete.Nulo?
    ensures ComEdicao(o, e).valorTotal == SumOf(o.itens, TotalDe)
  {
  }

  /** `MAX(sequencia)`, 0 for no lines. */
  function MaxSequencia(itens: seq<Item>): (m: nat)
    ensures forall k :: 0 <= k < |itens| ==> itens[k].sequencia <= m
    ensures itens == [] ==> m == 0
  {
    if itens == [] then 0 else Max(MaxSequencia(itens[..|itens| - 1]), itens[|itens| - 1].sequencia)
  }

  /** POST /:id/itens: the line is appended with the next line number, then the totals are recalculated. */
  function AcrescentarItem(o: Orcamento, n: NovoItem, itemId: Id): (r: Orcamento)
    ensures r.itens == o.itens + [ItemDe(n, itemId, MaxSequencia(o.itens) + 1)]
    ensures Totalizado(r) && (Sequenciado(o.itens) ==> Sequenciado(r.itens))
    ensures r.id == o.id && r.status == o.status && r.valorFrete == o.valorFrete
  {
    Recalcular(o.(itens := o.itens + [ItemDe(n, itemId, MaxSequencia(o.itens) + 1)]))
  }

  /** Adding a line to one quote of a coherent table keeps the table coherent. */
  lemma {:induction false} AcrescentarCoerentes(rows: seq<Orcamento>, t: set<Id>, i: nat, n: NovoItem, itemId: Id)
    requires Coerentes(rows, t) && i < |rows|
    ensures Coerentes(rows[i := AcrescentarItem(rows[i], n, itemId)], t)
  {
    assert Sequenciado(rows[i].itens);
    CoerentesAtualizar(rows, t, i, AcrescentarItem(rows[i], n, itemId));
  }

  /** The totals grow by exactly the new line's amounts. */
  lemma {:induction false} AcrescentarSoma(o: Orcamento, n: NovoItem, itemId: Id)
    requires Totalizado(o)
    ensures var r := AcrescentarItem(o, n, itemId);
      r.valorSubtotal == o.valorSubtotal + SubtotalNovo(n)
      && r.valorDesconto == o.valorDesconto + DescontoNovo(n)
      && r.valorTotal == o.valorTotal + SubtotalNovo(n) - DescontoNovo(n)
  {
    var it := ItemDe(n, itemId, MaxSequencia(o.itens) + 1);
    SumOfAppend(o.itens, it, SubtotalDe);
    SumOfAppend(o.itens, it, DescontoDe);
    SumOfAppend(o.itens, it, TotalDe);
  }

  /** `DELETE … WHERE id = itemId AND orcamento_id = ?`: every line with that id goes, the others keep their order. */
  function SemItem(itens: seq<Item>, itemId: Id): (r: seq<Item>)
    ensures forall x :: x in r <==> x in itens && x.id != itemId
    ensures |r| <= |itens|
  {
    if itens == [] then []
    else SemItem(itens[..|itens| - 1], itemId)
         + (if itens[|itens| - 1].id == itemId then [] else [itens[|itens| - 1]])
  }

  lemma {:induction false} SemItemSequenciado(itens: seq<Item>, itemId: Id)
    requires Sequenciado(itens)
    ensures Sequenciado(SemItem(itens, itemId))
  {
    if itens != [] {
      var init := itens[..|itens| - 1];
      var last := itens[|itens| - 1];
      assert Sequenciado(init);
      SemItemSequenciado(init, itemId);
      var r0 := SemItem(init, itemId);
      forall x | x in r0
        ensures x.sequencia < last.sequencia
      {
        var k :| 0 <= k < |init| && init[k] == x;
        assert itens[k] == x;
      }
    }
  }

  function ComRemocao(o: Orcamento, itemId: Id): (r: Orcamento)
    ensures r.itens == SemItem(o.itens, itemId)
    ensures Totalizado(r) && (Sequenciado(o.itens) ==> Sequenciado(r.itens))
    ensures r.id == o.id && r.status == o.status
  {
    SemItemSequenciado0(o.itens, itemId);
    Recalcular(o.(itens := SemItem(o.itens, itemId)))
  }

  lemma {:induction false} SemItemSequenciado0(itens: seq<Item>, itemId: Id)
    ensures Sequenciado(itens) ==> Sequenciado(SemItem(itens, itemId))
  {
    if Sequenciado(itens) {
      SemItemSequenciado(itens, itemId);
    }
  }

  // ---------------------------------------------------------------- lifecycle

  /** The step each status change takes, from its only allowed predecessor. */
  function Anterior(s: Status): Option<Status>
  {
    match s
    case Rascunho => None
    case Enviado => Some(Rascunho)
    case Aprovado => Some(Enviado)
    case Convertido => Some(Aprovado)
  }

  function Mudar(o: Orcamento, para: Status): (r: Orcamento)
    requires Anterior(para) == Some(o.status)
    ensures r.status == para && r.id == o.id && r.itens == o.itens && (Totalizado(o) ==> Totalizado(r))
  {
    o.(status := para)
  }

  /** Each step advances the status by exactly one place in rascunho, enviado, aprovado, convertido. */
  function Posicao(s: Status): nat
  {
    match s
    case Rascunho => 0
    case Enviado => 1
    case Aprovado => 2
    case Convertido => 3
  }

  lemma {:induction false} MudarAvanca(o: Orcamento, para: Status)
    requires Anterior(para) == Some(o.status)
    ensures Posicao(Mudar(o, para).status) == Posicao(o.status) + 1
  {
  }

  /** The sales order a conversion creates: the quote's totals and a copy of every line. */
  function PedidoDe(o: Orcamento, pedidoId: Id, numero: string): (p: PedidoVenda)
    ensures p.orcamento == o.id && p.empresa == o.empresa && p.filial == o.filial && p.cliente == o.cliente
    ensures p.valorSubtotal == o.valorSubtotal && p.valorDesconto == o.valorDesconto
    ensures p.valorFrete == o.valorFrete && p.valorTotal == o.valorTotal && p.itens == o.itens
  {
    PedidoVenda(pedidoId, o.empresa, o.filial, numero, o.id, o.cliente, o.vendedor, o.valorSubtotal,
                o.valorDesconto, o.valorFrete, o.valorTotal, o.itens)
  }

  /** The sales order of a conversion, numbered above the orders of the quote's (company, branch). */
  function PedidoGerado(pedidos: seq<PedidoVenda>, q: Orcamento, pedidoId: Id): (p: PedidoVenda)
    ensures p == PedidoDe(q, pedidoId, p.numero)
    ensures forall k :: 0 <= k < |pedidos| && pedidos[k].empresa == q.empresa && pedidos[k].filial == q.filial ==>
      CastInteger(pedidos[k].numero) < CastInteger(p.numero)
  {
    var numeros := NumerosPedidos(pedidos, q.empresa, q.filial);
    NextNumeroFresh(numeros);
    PedidoDe(q, pedidoId, NextNumero(numeros))
  }

  /** The converted quote: convertido, pointing at its order, everything else kept. */
  function Convertida(q: Orcamento, pedidoId: Id): (r: Orcamento)
    requires q.status == Aprovado
    ensures r == q.(status := Convertido, pedido := Some(pedidoId))
    ensures Coerente(q) ==> Coerente(r)
  {
    Mudar(q, Convertido).(pedido := Some(pedidoId))
  }

  /** The response class of a create, in the order the handler checks. */
  function Criacao(clientes: map<Id, Id>, produtos: map<Id, Id>, empresa: Id, d: Dados): (o: Outcome)
    ensures o == Ok || o == ServerError ==> ValidDados(d)
  {
    if !ValidDados(d) then BadRequest
    else if !(d.cliente in clientes && clientes[d.cliente] == empresa) then NotFound
    else if ProdutoAusente(produtos, d.itens).Some? then ServerError
    else Ok
  }

  // ---------------------------------------------------------------- state

  class Orcamentos {
    var clientes: map<Id, Id>
    var produtos: map<Id, Id>
    var orcamentos: seq<Orcamento>
    var historico: seq<Historico>
    var pedidos: seq<PedidoVenda>
    /** The quotes whose create threw after the header was written. */
    ghost var truncados: set<Id>

    ghost predicate Valid()
      reads this`orcamentos, this`truncados
    {
      Coerentes(orcamentos, truncados)
    }

    constructor (clientes0: map<Id, Id>, produtos0: map<Id, Id>)
      ensures Valid()
      ensures clientes == clientes0 && produtos == produtos0
      ensures orcamentos == [] && historico == [] && pedidos == []
    {
      clientes, produtos := clientes0, produtos0;
      orcamentos, historico, pedidos := [], [], [];
      truncados := {};
    }

    /**
     * POST /orcamentos: the header, then the lines one by one, then the history row. A line
     * naming a product that does not exist throws (500) after the header and the earlier lines
     * were written; the product's company is not checked.
     */
    method Criar(id: Id, empresa: Id, usuario: Id, d: Dados, itemIds: seq<Id>) returns (o: Outcome)
      requires Valid() && |itemIds| == |d.itens|
      modifies this`orcamentos, this`historico, this`truncados
      ensures Valid()
      ensures o == Criacao(clientes, produtos, empresa, d)
      ensures orcamentos == if o == Ok || o == ServerError then Inserido(old(orcamentos), produtos, id, empresa, d, itemIds)
                            else old(orcamentos)
      ensures historico == if o == Ok
        then old(historico) + [Historico(id, None, Rascunho, "Orçamento criado", usuario)]
        else old(historico)
      ensures truncados == if o == ServerError then old(truncados) + {id} else old(truncados)
    {
      o := Criacao(clientes, produtos, empresa, d);
      if o == Ok || o == ServerError {
        var falta := Inserir(id, empresa, d, itemIds);
        if falta.None? {
          historico := historico + [Historico(id, None, Rascunho, "Orçamento criado", usuario)];
        }
      }
    }

    /** The create's writes once its checks passed: the header and the lines, up to a missing product. */
    method Inserir(id: Id, empresa: Id, d: Dados, itemIds: seq<Id>) returns (falta: Option<nat>)
      requires Valid() && |itemIds| == |d.itens|
      modifies this`orcamentos, this`truncados
      ensures Valid()
      ensures falta == ProdutoAusente(produtos, d.itens)
      ensures orcamentos == Inserido(old(orcamentos), produtos, id, empresa, d, itemIds)
      ensures truncados == if falta.Some? then old(truncados) + {id} else old(truncados)
    {
      var novos;
      novos, falta := Orcado(orcamentos, truncados, produtos, id, empresa, d, itemIds);
      orcamentos := novos;
      if falta.Some? {
        truncados := truncados + {id};
      }
    }

    /** PUT /orcamentos/:id: only in rascunho or enviado. */
    method Editar(id: Id, empresa: Id, e: Edicao) returns (o: Outcome)
      requires Valid()
      modifies this`orcamentos
      ensures Valid()
      ensures var i := Localizar(old(orcamentos), id, empresa);
        o == (if i.None? then NotFound
              else if old(orcamentos)[i.value].status !in {Rascunho, Enviado} then BadRequest else Ok)
      ensures orcamentos == if o == Ok
        then var i := Localizar(old(orcamentos), id, empresa).value;
             old(orcamentos)[i := ComEdicao(old(orcamentos)[i], e)]
        else old(orcamentos)
    {
      var i := Localizar(orcamentos, id, empresa);
      if i.None? {
        return NotFound;
      }
      if orcamentos[i.value].status !in {Rascunho, Enviado} {
        return BadRequest;
      }
      var novo := ComEdicao(orcamentos[i.value], e);
      CoerentesAtualizar(orcamentos, truncados, i.value, novo);
      orcamentos := orcamentos[i.value := novo];
      o := Ok;
    }

    /** POST /orcamentos/:id/itens: the product must belong to the company. */
    method AdicionarItem(id: Id, empresa: Id, n: NovoItem, itemId: Id) returns (o: Outcome)
      requires Valid()
      modifies this`orcamentos
      ensures Valid()
      ensures var i := Localizar(old(orcamentos), id, empresa);
        o == (if !ValidNovoItem(n) then BadRequest
              else if i.None? then NotFound
              else if old(orcamentos)[i.value].status !in {Rascunho, Enviado} then BadRequest
              else if !(n.produto in produtos && produtos[n.produto] == empresa) then NotFound
              else Ok)
      ensures orcamentos == if o == Ok
        then var i := Localizar(old(orcamentos), id, empresa).value;
             old(orcamentos)[i := AcrescentarItem(old(orcamentos)[i], n, itemId)]
        else old(orcamentos)
    {
      if !ValidNovoItem(n) {
        return BadRequest;
      }
      var i := Localizar(orcamentos, id, empresa);
      if i.None? {
        return NotFound;
      }
      if orcamentos[i.value].status !in {Rascunho, Enviado} {
        return BadRequest;
      }
      if !(n.produto in produtos && produtos[n.produto] == empresa) {
        return NotFound;
      }
      ghost var antes := orcamentos;
      var novo := AcrescentarItem(orcamentos[i.value], n, itemId);
      AcrescentarCoerentes(antes, truncados, i.value, n, itemId);
      orcamentos := orcamentos[i.value := novo];
      o := Ok;
    }

    /** DELETE /orcamentos/:id/itens/:itemId: a missing quote and a wrong status are both a 400. */
    method RemoverItem(id: Id, empresa: Id, itemId: Id) returns (o: Outcome)
      requires Valid()
      modifies this`orcamentos
      ensures Valid()
      ensures var i := Localizar(old(orcamentos), id, empresa);
        o == (if i.None? || old(orcamentos)[i.value].status !in {Rascunho, Enviado} then BadRequest else Ok)
      ensures orcamentos == if o == Ok
        then var i := Localizar(old(orcamentos), id, empresa).value;
             old(orcamentos)[i := ComRemocao(old(orcamentos)[i], itemId)]
        else old(orcamentos)
    {
      var i := Localizar(orcamentos, id, empresa);
      if i.None? || orcamentos[i.value].status !in {Rascunho, Enviado} {
        return BadRequest;
      }
      var novo := ComRemocao(orcamentos[i.value], itemId);
      CoerentesAtualizar(orcamentos, truncados, i.value, novo);
      orcamentos := orcamentos[i.value := novo];
      o := Ok;
    }

    /**
     * POST /:id/enviar and /:id/aprovar: one step from the predecessor status, with one history
     * row; approval also refuses an expired quote (expiry is an input).
     */
    method Avancar(id: Id, empresa: Id, usuario: Id, para: Status, expirado: bool) returns (o: Outcome)
      requires Valid() && para in {Enviado, Aprovado}
      modifies this`orcamentos, this`historico
      ensures Valid()
      ensures var i := Localizar(old(orcamentos), id, empresa);
        o == (if i.None? then NotFound
              else if Anterior(para) != Some(old(orcamentos)[i.value].status) then BadRequest
              else if para == Aprovado && expirado then BadRequest
              else Ok)
      ensures orcamentos == if o == Ok
        then var i := Localizar(old(orcamentos), id, empresa).value;
             old(orcamentos)[i := Mudar(old(orcamentos)[i], para)]
        else old(orcamentos)
      ensures historico == if o == Ok
        then old(historico) + [Historico(id, Anterior(para), para,
                                         if para == Enviado then "Orçamento enviado ao cliente"
                                         else "Orçamento aprovado pelo cliente", usuario)]
        else old(historico)
    {
      var i := Localizar(orcamentos, id, empresa);
      if i.None? {
        return NotFound;
      }
      if Anterior(para) != Some(orcamentos[i.value].status) {
        return BadRequest;
      }
      if para == Aprovado && expirado {
        return BadRequest;
      }
      var novo := Mudar(orcamentos[i.value], para);
      CoerentesAtualizar(orcamentos, truncados, i.value, novo);
      orcamentos := orcamentos[i.value := novo];
      historico := historico + [Historico(id, Anterior(para), para,
                                          if para == Enviado then "Orçamento enviado ao cliente"
                                          else "Orçamento aprovado pelo cliente", usuario)];
      o := Ok;
    }

    /** POST /:id/converter: an aprovado quote becomes a pendente sales order numbered per branch. */
    method Converter(id: Id, empresa: Id, usuario: Id, pedidoId: Id) returns (o: Outcome)
      requires Valid()
      modifies this`orcamentos, this`historico, this`pedidos
      ensures Valid()
      ensures var i := Localizar(old(orcamentos), id, empresa);
        o == (if i.None? then NotFound
              else if old(orcamentos)[i.value].status != Aprovado then BadRequest
              else Ok)
      ensures o == Ok ==>
        var i := Localizar(old(orcamentos), id, empresa).value;
        var p := PedidoGerado(old(pedidos), old(orcamentos)[i], pedidoId);
        pedidos == old(pedidos) + [p]
        && orcamentos == old(orcamentos)[i := Convertida(old(orcamentos)[i], pedidoId)]
        && historico == old(historico) + [Historico(id, Some(Aprovado), Convertido, "Convertido em pedido " + p.numero, usuario)]
      ensures o != Ok ==> orcamentos == old(orcamentos) && pedidos == old(pedidos) && historico == old(historico)
    {
      var i := Localizar(orcamentos, id, empresa);
      if i.None? {
        return NotFound;
      }
      var q := orcamentos[i.value];
      if q.status != Aprovado {
        return BadRequest;
      }
      var p := PedidoGerado(pedidos, q, pedidoId);
      pedidos := pedidos + [p];
      CoerentesAtualizar(orcamentos, truncados, i.value, Convertida(q, pedidoId));
      orcamentos := orcamentos[i.value := Convertida(q, pedidoId)];
      historico := historico + [Historico(id, Some(Aprovado), Convertido, "Convertido em pedido " + p.numero, usuario)];
      o := Ok;
    }
  }
}
