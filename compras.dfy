/**
 * Purchasing (compras): requisitions, quotations with their invited suppliers, and
 * purchase orders received into stock. Each document is a row with its lines nested;
 * numbers are the company's largest number + 1 on six digits.
 */
module Compras {
  import opened Outcome
  import opened Tables
  import opened Money
  import opened Numbering
  import opened Estoque

  // ---------------------------------------------------------------- requisitions

  datatype StatusRequisicao = Pendente | Aprovada | Rejeitada | EmCotacao

  datatype ItemRequisicao = ItemRequisicao(produto: Id, quantidade: real, observacao: Option<string>)

  datatype Requisicao = Requisicao(id: Id, empresa: Id, numero: string, descricao: string, solicitante: Id,
                                   local: Option<Id>, prioridade: string, necessidade: Option<string>,
                                   observacoes: Option<string>, status: StatusRequisicao,
                                   aprovador: Option<Id>, itens: seq<ItemRequisicao>)

  /** The priorities `z.enum` accepts. */
  const Prioridades: set<string> := {"BAIXA", "NORMAL", "ALTA", "URGENTE"}

  /** The schema: a priority, when sent, from the enum; at least one line; every quantity positive. */
  predicate ValidRequisicao(prioridade: Option<string>, itens: seq<ItemRequisicao>)
  {
    (prioridade.None? || prioridade.value in Prioridades)
    && |itens| >= 1 && forall i :: 0 <= i < |itens| ==> itens[i].quantidade > 0.0
  }

  /** The line rows of a requisition: each input line with `observacao || null`. */
  function LinhasRequisicao(itens: seq<ItemRequisicao>): (r: seq<ItemRequisicao>)
    ensures |r| == |itens|
    ensures forall i :: 0 <= i < |itens| ==>
      r[i].produto == itens[i].produto && r[i].quantidade == itens[i].quantidade
      && (r[i].observacao.Some? <==> Truthy(itens[i].observacao))
      && (r[i].observacao.Some? ==> r[i].observacao == itens[i].observacao)
  {
    seq(|itens|, i requires 0 <= i < |itens| => itens[i].(observacao := OrNull(itens[i].observacao)))
  }

  /** `COALESCE(observacoes || ' | ', '') || 'REJEITADA: ' || (motivo || 'Sem motivo informado')`. */
  function ObservacaoRejeicao(observacoes: Option<string>, motivo: Option<string>): (r: string)
    ensures var m := if Truthy(motivo) then motivo.value else "Sem motivo informado";
      var prefixo := if observacoes.Some? then observacoes.value + " | " else "";
      |r| == |prefixo| + |"REJEITADA: "| + |m|
      && r[..|prefixo|] == prefixo && r[|prefixo| + |"REJEITADA: "|..] == m
  {
    (if observacoes.Some? then observacoes.value + " | " else "") + "REJEITADA: "
    + (if Truthy(motivo) then motivo.value else "Sem motivo informado")
  }

  function LocalizarRequisicao(rows: seq<Requisicao>, id: Id, empresa: Id): (r: Option<nat>)
    ensures r.Some? ==> r.value < |rows| && rows[r.value].id == id && rows[r.value].empresa == empresa
    ensures r.None? ==> forall k :: 0 <= k < |rows| ==> !(rows[k].id == id && rows[k].empresa == empresa)
  {
    FirstIndex(rows, (v: Requisicao) => v.id == id && v.empresa == empresa)
  }

  function NumerosRequisicoes(rows: seq<Requisicao>, empresa: Id): (r: seq<string>)
    ensures forall k :: 0 <= k < |rows| && rows[k].empresa == empresa ==> rows[k].numero in r
  {
    if rows == [] then []
    else NumerosRequisicoes(rows[..|rows| - 1], empresa)
         + (if rows[|rows| - 1].empresa == empresa then [rows[|rows| - 1].numero] else [])
  }

  /**
   * The requisition table after a create: the new PENDENTE row at the end, numbered
   * above every number the company already uses.
   */
  function Requisitar(rows: seq<Requisicao>, id: Id, empresa: Id, usuario: Id, descricao: string,
                      local: Option<Id>, prioridade: Option<string>, necessidade: Option<string>,
                      obs: Option<string>, itens: seq<ItemRequisicao>): (r: seq<Requisicao>)
    ensures |r| == |rows| + 1 && r[..|rows|] == rows
    ensures var n := r[|rows|];
      n.id == id && n.empresa == empresa && n.solicitante == usuario && n.status == Pendente
      && n.aprovador.None? && n.itens == LinhasRequisicao(itens) && n.descricao == descricao
      && n.prioridade == prioridade.GetOr("NORMAL") && n.necessidade == OrNull(necessidade)
      && n.local == OrNull(local) && n.observacoes == OrNull(obs)
    ensures forall k :: 0 <= k < |rows| && rows[k].empresa == empresa ==>
      CastInteger(rows[k].numero) < CastInteger(r[|rows|].numero)
  {
    var numeros := NumerosRequisicoes(rows, empresa);
    NextNumeroFresh(numeros);
    rows + [Requisicao(id, empresa, NextNumero(numeros), descricao, usuario, OrNull(local),
                       prioridade.GetOr("NORMAL"), OrNull(necessidade), OrNull(obs),
                       Pendente, None, LinhasRequisicao(itens))]
  }

  /** A quotation linked to a requisition id moves every requisition with that id to EM_COTACAO. */
  function MarcarEmCotacao(rows: seq<Requisicao>, requisicao: Id): (r: seq<Requisicao>)
    ensures |r| == |rows|
    ensures forall k :: 0 <= k < |rows| ==>
      r[k] == (if rows[k].id == requisicao then rows[k].(status := EmCotacao) else rows[k])
  {
    seq(|rows|, k requires 0 <= k < |rows| => if rows[k].id == requisicao then rows[k].(status := EmCotacao) else rows[k])
  }

  // ---------------------------------------------------------------- quotations

  datatype StatusCotacao = Aberta | Finalizada

  datatype ItemCotacao = ItemCotacao(produto: Id, quantidade: real, especificacao: Option<string>)

  datatype Resposta = Resposta(precoUnitario: real, prazoEntrega: int, condicaoPagamento: string,
                               validadeProposta: Option<string>, observacoes: Option<string>)

  /** A row of cotacoes_fornecedores. */
  datatype Convidado = Convidado(fornecedor: Id, respondido: bool, resposta: Option<Resposta>,
                                 valorTotal: real, selecionado: bool)

  datatype Cotacao = Cotacao(id: Id, empresa: Id, numero: string, requisicao: Option<Id>, descricao: string,
                             status: StatusCotacao, itens: seq<ItemCotacao>, convidados: seq<Convidado>)

  predicate ValidResposta(r: Resposta) { r.precoUnitario > 0.0 && r.prazoEntrega > 0 }

  predicate ValidNovaCotacao(itens: seq<ItemCotacao>, fornecedores: seq<Id>)
  {
    |fornecedores| >= 1 && |itens| >= 1 && forall i :: 0 <= i < |itens| ==> itens[i].quantidade > 0.0
  }

  function ConvidadoNovo(f: Id): Convidado { Convidado(f, false, None, 0.0, false) }

  function LocalizarCotacao(rows: seq<Cotacao>, id: Id, empresa: Id): (r: Option<nat>)
    ensures r.Some? ==> r.value < |rows| && rows[r.value].id == id && rows[r.value].empresa == empresa
  {
    FirstIndex(rows, (v: Cotacao) => v.id == id && v.empresa == empresa)
  }

  function NumerosCotacoes(rows: seq<Cotacao>, empresa: Id): (r: seq<string>)
    ensures forall k :: 0 <= k < |rows| && rows[k].empresa == empresa ==> rows[k].numero in r
  {
    if rows == [] then []
    else NumerosCotacoes(rows[..|rows| - 1], empresa)
         + (if rows[|rows| - 1].empresa == empresa then [rows[|rows| - 1].numero] else [])
  }

  /**
   * The quotation table after a create: the new ABERTA row, numbered above the company's
   * numbers, every listed supplier invited, unanswered and not selected.
   */
  function Cotar(rows: seq<Cotacao>, id: Id, empresa: Id, requisicao: Option<Id>, descricao: string,
                 itens: seq<ItemCotacao>, fornecedores: seq<Id>): (r: seq<Cotacao>)
    ensures |r| == |rows| + 1 && r[..|rows|] == rows
    ensures var c := r[|rows|];
      c.id == id && c.empresa == empresa && c.status == Aberta && c.itens == itens
      && c.requisicao == OrNull(requisicao) && |c.convidados| == |fornecedores|
      && forall k :: 0 <= k < |fornecedores| ==>
        c.convidados[k].fornecedor == fornecedores[k] && !c.convidados[k].respondido && !c.convidados[k].selecionado
    ensures forall k :: 0 <= k < |rows| && rows[k].empresa == empresa ==>
      CastInteger(rows[k].numero) < CastInteger(r[|rows|].numero)
  {
    var numeros := NumerosCotacoes(rows, empresa);
    NextNumeroFresh(numeros);
    rows + [Cotacao(id, empresa, NextNumero(numeros), OrNull(requisicao), descricao, Aberta, itens,
                    seq(|fornecedores|, k requires 0 <= k < |fornecedores| => ConvidadoNovo(fornecedores[k])))]
  }

  /** A supplier's total: Σ quantidade × preco_unitario over the quotation lines. */
  function TotalResposta(itens: seq<ItemCotacao>, preco: real): (t: real)
    ensures preco >= 0.0 && (forall i :: 0 <= i < |itens| ==> itens[i].quantidade >= 0.0) ==> t >= 0.0
  {
    if itens == [] then 0.0
    else TotalResposta(itens[..|itens| - 1], preco) + itens[|itens| - 1].quantidade * preco
  }

  /** The total is the unit price times the total quantity asked for. */
  lemma {:induction false} TotalRespostaProporcional(itens: seq<ItemCotacao>, preco: real)
    ensures TotalResposta(itens, preco) == preco * SumOf(itens, (it: ItemCotacao) => it.quantidade)
  {
    if itens != [] {
      TotalRespostaProporcional(itens[..|itens| - 1], preco);
    }
  }

  predicate Convidou(c: Cotacao, fornecedor: Id)
  {
    exists k :: 0 <= k < |c.convidados| && c.convidados[k].fornecedor == fornecedor
  }

  /** The response is stored on every row of that supplier and marks it answered. */
  function Responder(c: Cotacao, fornecedor: Id, r: Resposta): (w: Cotacao)
    ensures w.status == c.status && w.itens == c.itens && |w.convidados| == |c.convidados|
    ensures forall k :: 0 <= k < |c.convidados| ==>
      w.convidados[k] == (if c.convidados[k].fornecedor == fornecedor
                          then c.convidados[k].(respondido := true, resposta := Some(r),
                                                valorTotal := TotalResposta(c.itens, r.precoUnitario))
                          else c.convidados[k])
  {
    c.(convidados := seq(|c.convidados|, k requires 0 <= k < |c.convidados| =>
         if c.convidados[k].fornecedor == fornecedor
         then c.convidados[k].(respondido := true, resposta := Some(r),
                               valorTotal := TotalResposta(c.itens, r.precoUnitario))
         else c.convidados[k]))
  }

  /** Clear every selection, select the rows of the winner, and finish the quotation. */
  function Selecionar(c: Cotacao, fornecedor: Id): (w: Cotacao)
    ensures w.status == Finalizada && w.itens == c.itens && |w.convidados| == |c.convidados|
    ensures forall k :: 0 <= k < |w.convidados| ==>
      (w.convidados[k].selecionado <==> w.convidados[k].fornecedor == fornecedor)
    ensures forall k :: 0 <= k < |w.convidados| ==>
      w.convidados[k] == c.convidados[k].(selecionado := c.convidados[k].fornecedor == fornecedor)
  {
    c.(status := Finalizada,
       convidados := seq(|c.convidados|, k requires 0 <= k < |c.convidados| =>
         c.convidados[k].(selecionado := c.convidados[k].fornecedor == fornecedor)))
  }

  /** All selected rows name one supplier. */
  predicate UmVencedor(c: Cotacao)
  {
    forall a, b ::
      0 <= a < |c.convidados| && 0 <= b < |c.convidados| && c.convidados[a].selecionado && c.convidados[b].selecionado ==>
      c.convidados[a].fornecedor == c.convidados[b].fornecedor
  }

  lemma {:induction false} SelecionarUmVencedor(c: Cotacao, fornecedor: Id)
    ensures UmVencedor(Selecionar(c, fornecedor))
    ensures Convidou(c, fornecedor) ==>
      exists k :: 0 <= k < |c.convidados| && Selecionar(c, fornecedor).convidados[k].selecionado
  {
  }

  lemma {:induction false} ResponderMantemVencedor(c: Cotacao, fornecedor: Id, r: Resposta)
    requires UmVencedor(c)
    ensures UmVencedor(Responder(c, fornecedor, r))
  {
  }

  // ---------------------------------------------------------------- purchase orders

  datatype StatusPedido = Rascunho | Enviado | Confirmado | Recebido | Cancelado

  datatype NovoItemPedido = NovoItemPedido(produto: Id, quantidade: real, precoUnitario: real)

  datatype ItemPedido = ItemPedido(produto: Id, quantidade: real, precoUnitario: real, valorTotal: real,
                                   quantidadeRecebida: real)

  datatype Pedido = Pedido(id: Id, empresa: Id, numero: string, fornecedor: Id, cotacao: Option<Id>,
                           localEntrega: Option<Id>, valorTotal: real, observacoes: Option<string>,
                           status: StatusPedido, notaFiscal: Option<string>, itens: seq<ItemPedido>)

  predicate ValidItensPedido(itens: seq<NovoItemPedido>)
  {
    |itens| >= 1 && forall i :: 0 <= i < |itens| ==> itens[i].quantidade > 0.0 && itens[i].precoUnitario > 0.0
  }

  function Subtotal(it: NovoItemPedido): real { it.quantidade * it.precoUnitario }

  function ValorItem(it: ItemPedido): real { it.valorTotal }

  function ItemPedidoDe(it: NovoItemPedido): (r: ItemPedido)
    ensures r.valorTotal == it.quantidade * it.precoUnitario && r.quantidadeRecebida == 0.0
  {
    ItemPedido(it.produto, it.quantidade, it.precoUnitario, Subtotal(it), 0.0)
  }

  function ItensPedido(itens: seq<NovoItemPedido>): (r: seq<ItemPedido>)
    ensures |r| == |itens| && forall i :: 0 <= i < |itens| ==> r[i] == ItemPedidoDe(itens[i])
  {
    if itens == [] then [] else ItensPedido(itens[..|itens| - 1]) + [ItemPedidoDe(itens[|itens| - 1])]
  }

  /** The header total the order stores is the sum of its stored line totals. */
  lemma {:induction false} TotalPedidoDosItens(itens: seq<NovoItemPedido>)
    ensures SumOf(ItensPedido(itens), ValorItem) == SumOf(itens, Subtotal)
  {
    if itens != [] {
      var init := itens[..|itens| - 1];
      TotalPedidoDosItens(init);
      SumOfAppend(ItensPedido(init), ItemPedidoDe(itens[|itens| - 1]), ValorItem);
    }
  }

  /** With positive quantities and prices the order total is positive. */
  lemma {:induction false} TotalPedidoPositivo(itens: seq<NovoItemPedido>)
    requires ValidItensPedido(itens)
    ensures SumOf(itens, Subtotal) > 0.0
  {
    var init := itens[..|itens| - 1];
    assert forall i :: 0 <= i < |init| ==> init[i] == itens[i];
    SumOfNonNegative(init, Subtotal);
  }

  /**
   * The order table after a create: the new RASCUNHO row, numbered above the company's
   * numbers, with one stored line per input line and the header total their sum.
   */
  function Encomendar(rows: seq<Pedido>, id: Id, empresa: Id, fornecedor: Id, cotacao: Option<Id>,
                      localEntrega: Option<Id>, obs: Option<string>, itens: seq<NovoItemPedido>): (r: seq<Pedido>)
    ensures |r| == |rows| + 1 && r[..|rows|] == rows
    ensures var p := r[|rows|];
      p.id == id && p.empresa == empresa && p.fornecedor == fornecedor && p.status == Rascunho
      && p.notaFiscal.None? && p.cotacao == OrNull(cotacao) && p.localEntrega == OrNull(localEntrega)
      && p.itens == ItensPedido(itens) && p.valorTotal == SumOf(itens, Subtotal)
      && p.valorTotal == SumOf(p.itens, ValorItem)
    ensures forall k :: 0 <= k < |rows| && rows[k].empresa == empresa ==>
      CastInteger(rows[k].numero) < CastInteger(r[|rows|].numero)
  {
    var numeros := NumerosPedidos(rows, empresa);
    NextNumeroFresh(numeros);
    TotalPedidoDosItens(itens);
    rows + [Pedido(id, empresa, NextNumero(numeros), fornecedor, OrNull(cotacao), OrNull(localEntrega),
                   SumOf(itens, Subtotal), OrNull(obs), Rascunho, None, ItensPedido(itens))]
  }

  function LocalizarPedido(rows: seq<Pedido>, id: Id, empresa: Id): (r: Option<nat>)
    ensures r.Some? ==> r.value < |rows| && rows[r.value].id == id && rows[r.value].empresa == empresa
  {
    FirstIndex(rows, (v: Pedido) => v.id == id && v.empresa == empresa)
  }

  function PedidoNoEstado(rows: seq<Pedido>, id: Id, empresa: Id, s: set<StatusPedido>): (r: Option<nat>)
    ensures r.Some? ==> r.value < |rows| && rows[r.value].id == id && rows[r.value].empresa == empresa
                        && rows[r.value].status in s
  {
    var i := LocalizarPedido(rows, id, empresa);
    if i.Some? && rows[i.value].status in s then i else None
  }

  function NumerosPedidos(rows: seq<Pedido>, empresa: Id): (r: seq<string>)
    ensures forall k :: 0 <= k < |rows| && rows[k].empresa == empresa ==> rows[k].numero in r
  {
    if rows == [] then []
    else NumerosPedidos(rows[..|rows| - 1], empresa)
         + (if rows[|rows| - 1].empresa == empresa then [rows[|rows| - 1].numero] else [])
  }

  /** Stock after receiving the lines: each line's quantity added at the location, rows created when absent. */
  function EntradaCompra(e: Posicao, itens: seq<ItemPedido>, local: Id): Posicao
  {
    if itens == [] then e
    else EntradaItem(EntradaCompra(e, itens[..|itens| - 1], local), itens[|itens| - 1], local)
  }

  /** One line: add to the existing row, or insert one costed at the purchase price. */
  function EntradaItem(e: Posicao, it: ItemPedido, local: Id): (r: Posicao)
    ensures r.Keys == e.Keys + {(it.produto, local)}
  {
    var k := (it.produto, local);
    if k in e then e[k := e[k].(quantidade := e[k].quantidade + it.quantidade)]
    else e[k := Saldo(it.quantidade, it.precoUnitario)]
  }

  lemma {:induction false} RecebimentoPasso(itens: seq<ItemPedido>, k: nat, e: Posicao, empresa: Id, local: Id, pedido: Id)
    requires k < |itens|
    ensures EntradaCompra(e, itens[..k + 1], local) == EntradaItem(EntradaCompra(e, itens[..k], local), itens[k], local)
    ensures MovimentosCompra(itens[..k + 1], empresa, local, pedido)
            == MovimentosCompra(itens[..k], empresa, local, pedido) + [MovimentoCompra(itens[k], empresa, local, pedido)]
  {
    assert itens[..k + 1][..k] == itens[..k];
  }

  /** Receiving keeps every stock row, adds rows only at the location, and leaves other locations alone. */
  lemma {:induction false} EntradaSoNoLocal(e: Posicao, itens: seq<ItemPedido>, local: Id)
    ensures var r := EntradaCompra(e, itens, local);
      e.Keys <= r.Keys
      && (forall k :: k in r && k !in e ==> k.1 == local)
      && forall k :: k in e && k.1 != local ==> r[k] == e[k]
  {
    if itens != [] {
      EntradaSoNoLocal(e, itens[..|itens| - 1], local);
    }
  }

  /** After receiving, every product ordered has a stock row at the location. */
  lemma {:induction false} EntradaCriaLinhas(e: Posicao, itens: seq<ItemPedido>, local: Id)
    ensures forall i :: 0 <= i < |itens| ==> (itens[i].produto, local) in EntradaCompra(e, itens, local)
  {
    if itens != [] {
      var init := itens[..|itens| - 1];
      EntradaCriaLinhas(e, init, local);
      assert forall i :: 0 <= i < |init| ==> init[i] == itens[i];
    }
  }

  /** Σ quantidade of the lines of one product. */
  function QuantidadePedida(itens: seq<ItemPedido>, produto: Id): real
  {
    SumOf(itens, (it: ItemPedido) => if it.produto == produto then it.quantidade else 0.0)
  }

  /** Receiving raises each product's stock at the location by exactly the quantity ordered. */
  lemma {:induction false} EntradaSoma(e: Posicao, itens: seq<ItemPedido>, local: Id, produto: Id)
    ensures QuantidadeEm(EntradaCompra(e, itens, local), produto, local)
            == QuantidadeEm(e, produto, local) + QuantidadePedida(itens, produto)
  {
    if itens != [] {
      var init := itens[..|itens| - 1];
      EntradaSoma(e, init, local, produto);
      SumOfAppend(init, itens[|itens| - 1], (it: ItemPedido) => if it.produto == produto then it.quantidade else 0.0);
      assert init + [itens[|itens| - 1]] == itens;
    }
  }

  function MovimentoCompra(it: ItemPedido, empresa: Id, local: Id, pedido: Id): MovEstoque
  {
    MovEstoque(empresa, it.produto, Some(local), Entrada, it.quantidade, "COMPRA", pedido)
  }

  /** One ENTRADA per line, in order. */
  function MovimentosCompra(itens: seq<ItemPedido>, empresa: Id, local: Id, pedido: Id): (ms: seq<MovEstoque>)
    ensures |ms| == |itens|
    ensures forall i :: 0 <= i < |itens| ==> ms[i] == MovimentoCompra(itens[i], empresa, local, pedido)
  {
    if itens == [] then []
    else MovimentosCompra(itens[..|itens| - 1], empresa, local, pedido)
         + [MovimentoCompra(itens[|itens| - 1], empresa, local, pedido)]
  }

  function MarcarRecebido(it: ItemPedido): ItemPedido { it.(quantidadeRecebida := it.quantidade) }

  lemma {:induction false} MarcadosAcrescentar(r: seq<ItemPedido>, itens: seq<ItemPedido>, k: nat)
    requires k < |itens| && |r| == k && forall i :: 0 <= i < k ==> r[i] == MarcarRecebido(itens[i])
    ensures forall i :: 0 <= i < k + 1 ==> (r + [MarcarRecebido(itens[k])])[i] == MarcarRecebido(itens[i])
  {
    var r2 := r + [MarcarRecebido(itens[k])];
    forall i | 0 <= i < k + 1
      ensures r2[i] == MarcarRecebido(itens[i])
    {
      if i < k {
        assert r2[i] == r[i];
      }
    }
  }

  /** The receiving loop on values: stock rows, movements and received quantities, line by line. */
  method ReceberItens(p: Pedido, notaFiscal: Option<string>, e: Posicao, empresa: Id, local: Id)
    returns (estoque: Posicao, movs: seq<MovEstoque>, recebido: Pedido)
    ensures estoque == EntradaCompra(e, p.itens, local)
    ensures movs == MovimentosCompra(p.itens, empresa, local, p.id)
    ensures recebido == PedidoRecebido(p, notaFiscal)
  {
    var itens := p.itens;
    var recebidos: seq<ItemPedido> := [];
    estoque, movs := e, [];
    var k := 0;
    while k < |itens|
      invariant 0 <= k <= |itens|
      invariant estoque == EntradaCompra(e, itens[..k], local)
      invariant movs == MovimentosCompra(itens[..k], empresa, local, p.id)
      invariant |recebidos| == k && forall i :: 0 <= i < k ==> recebidos[i] == MarcarRecebido(itens[i])
    {
      var it := itens[k];
      RecebimentoPasso(itens, k, e, empresa, local, p.id);
      estoque := EntradaItem(estoque, it, local);
      movs := movs + [MovimentoCompra(it, empresa, local, p.id)];
      MarcadosAcrescentar(recebidos, itens, k);
      recebidos := recebidos + [MarcarRecebido(it)];
      k := k + 1;
    }
    assert itens[..k] == itens;
    recebido := p.(status := Recebido, notaFiscal := OrNull(notaFiscal), itens := recebidos);
    assert recebido.itens == PedidoRecebido(p, notaFiscal).itens;
  }

  /** Every quotation has at most one winning supplier. */
  predicate Vencedores(cs: seq<Cotacao>)
  {
    forall k :: 0 <= k < |cs| ==> UmVencedor(cs[k])
  }

  lemma {:induction false} VencedoresAtualizar(cs: seq<Cotacao>, i: nat, c: Cotacao)
    requires Vencedores(cs) && i < |cs| && UmVencedor(c)
    ensures Vencedores(cs[i := c])
  {
  }

  lemma {:induction false} VencedoresAcrescentar(cs: seq<Cotacao>, c: Cotacao)
    requires Vencedores(cs) && UmVencedor(c)
    ensures Vencedores(cs + [c])
  {
  }

  /** An order's stored total matches its lines; a received order has every line received in full. */
  predicate PedidoCoerente(p: Pedido)
  {
    p.valorTotal == SumOf(p.itens, ValorItem)
    && (p.status == Recebido ==> forall i :: 0 <= i < |p.itens| ==> p.itens[i].quantidadeRecebida == p.itens[i].quantidade)
  }

  predicate PedidosCoerentes(ps: seq<Pedido>)
  {
    forall k :: 0 <= k < |ps| ==> PedidoCoerente(ps[k])
  }

  lemma {:induction false} PedidosAtualizar(ps: seq<Pedido>, i: nat, p: Pedido)
    requires PedidosCoerentes(ps) && i < |ps| && PedidoCoerente(p)
    ensures PedidosCoerentes(ps[i := p])
  {
  }

  lemma {:induction false} PedidosAcrescentar(ps: seq<Pedido>, p: Pedido)
    requires PedidosCoerentes(ps) && PedidoCoerente(p)
    ensures PedidosCoerentes(ps + [p])
  {
  }

  /** A new order is stored with a total that matches its lines. */
  lemma {:induction false} EncomendarCoerente(rows: seq<Pedido>, id: Id, empresa: Id, fornecedor: Id, cotacao: Option<Id>,
                           localEntrega: Option<Id>, obs: Option<string>, itens: seq<NovoItemPedido>)
    requires PedidosCoerentes(rows)
    ensures PedidosCoerentes(Encomendar(rows, id, empresa, fornecedor, cotacao, localEntrega, obs, itens))
  {
    var novos := Encomendar(rows, id, empresa, fornecedor, cotacao, localEntrega, obs, itens);
    assert novos == rows + [novos[|rows|]];
    PedidosAcrescentar(rows, novos[|rows|]);
  }

  /** The order total loop. */
  method SomarItens(itens: seq<NovoItemPedido>) returns (total: real)
    ensures total == SumOf(itens, Subtotal)
  {
    total := 0.0;
    var k := 0;
    while k < |itens|
      invariant 0 <= k <= |itens|
      invariant total == SumOf(itens[..k], Subtotal)
    {
      SumOfAppend(itens[..k], itens[k], Subtotal);
      assert itens[..k] + [itens[k]] == itens[..k + 1];
      total := total + itens[k].quantidade * itens[k].precoUnitario;
      k := k + 1;
    }
    assert itens[..k] == itens;
  }

  // ---------------------------------------------------------------- state

  class Compras {
    var requisicoes: seq<Requisicao>
    var cotacoes: seq<Cotacao>
    var pedidos: seq<Pedido>
    var estoque: Posicao
    var movimentos: seq<MovEstoque>

    ghost predicate Valid()
      reads this`cotacoes, this`pedidos
    {
      Vencedores(cotacoes) && PedidosCoerentes(pedidos)
    }

    constructor (saldos: Posicao)
      ensures Valid()
      ensures requisicoes == [] && cotacoes == [] && pedidos == [] && estoque == saldos && movimentos == []
    {
      requisicoes, cotacoes, pedidos, estoque, movimentos := [], [], [], saldos, [];
    }

    /** POST /requisicoes: a PENDENTE requisition numbered max + 1. */
    method CriarRequisicao(id: Id, empresa: Id, usuario: Id, descricao: string, local: Option<Id>,
                           prioridade: Option<string>, necessidade: Option<string>,
                           obs: Option<string>, itens: seq<ItemRequisicao>) returns (o: Outcome)
      requires Valid()
      modifies this
      ensures Valid()
      ensures o == (if ValidRequisicao(prioridade, itens) then Ok else BadRequest)
      ensures requisicoes == if o == Ok then Requisitar(old(requisicoes), id, empresa, usuario, descricao, local,
                                                        prioridade, necessidade, obs, itens)
                             else old(requisicoes)
      ensures cotacoes == old(cotacoes) && pedidos == old(pedidos)
      ensures estoque == old(estoque) && movimentos == old(movimentos)
    {
      if !ValidRequisicao(prioridade, itens) {
        return BadRequest;
      }
      requisicoes := Requisitar(requisicoes, id, empresa, usuario, descricao, local, prioridade, necessidade, obs, itens);
      o := Ok;
    }

    /** POST /requisicoes/:id/aprovar and /rejeitar: only a PENDENTE requisition of the company. */
    method DecidirRequisicao(id: Id, empresa: Id, usuario: Id, aprovar: bool, motivo: Option<string>)
      returns (o: Outcome)
      requires Valid()
      modifies this
      ensures Valid()
      ensures var i := LocalizarRequisicao(old(requisicoes), id, empresa);
        o == (if i.Some? && old(requisicoes)[i.value].status == Pendente then Ok else NotFound)
      ensures requisicoes == if o == Ok
        then var i := LocalizarRequisicao(old(requisicoes), id, empresa).value;
             var r := old(requisicoes)[i];
             old(requisicoes)[i := if aprovar then r.(status := Aprovada, aprovador := Some(usuario))
                                   else r.(status := Rejeitada, aprovador := Some(usuario),
                                           observacoes := Some(ObservacaoRejeicao(r.observacoes, motivo)))]
        else old(requisicoes)
      ensures cotacoes == old(cotacoes) && pedidos == old(pedidos)
      ensures estoque == old(estoque) && movimentos == old(movimentos)
    {
      var i := LocalizarRequisicao(requisicoes, id, empresa);
      if i.None? || requisicoes[i.value].status != Pendente {
        return NotFound;
      }
      var r := requisicoes[i.value];
      var novo := if aprovar then r.(status := Aprovada, aprovador := Some(usuario))
                  else r.(status := Rejeitada, aprovador := Some(usuario),
                          observacoes := Some(ObservacaoRejeicao(r.observacoes, motivo)));
      requisicoes := requisicoes[i.value := novo];
      o := Ok;
    }

    /** POST /cotacoes: an ABERTA quotation with its lines and uninvited-yet-unanswered suppliers. */
    method CriarCotacao(id: Id, empresa: Id, requisicao: Option<Id>, descricao: string,
                        itens: seq<ItemCotacao>, fornecedores: seq<Id>) returns (o: Outcome)
      requires Valid()
      modifies this
      ensures Valid()
      ensures o == (if ValidNovaCotacao(itens, fornecedores) then Ok else BadRequest)
      ensures cotacoes == if o == Ok then Cotar(old(cotacoes), id, empresa, requisicao, descricao, itens, fornecedores)
                          else old(cotacoes)
      ensures requisicoes == if o == Ok && Truthy(requisicao) then MarcarEmCotacao(old(requisicoes), requisicao.value)
                             else old(requisicoes)
      ensures pedidos == old(pedidos) && estoque == old(estoque) && movimentos == old(movimentos)
    {
      if !ValidNovaCotacao(itens, fornecedores) {
        return BadRequest;
      }
      var novas := Cotar(cotacoes, id, empresa, requisicao, descricao, itens, fornecedores);
      assert novas == cotacoes + [novas[|cotacoes|]];
      VencedoresAcrescentar(cotacoes, novas[|cotacoes|]);
      cotacoes := novas;
      if Truthy(requisicao) {
        requisicoes := MarcarEmCotacao(requisicoes, requisicao.value);
      }
      o := Ok;
    }

    /** POST /cotacoes/:id/resposta/:fornecedor_id: whatever the quotation's status. */
    method ResponderCotacao(id: Id, empresa: Id, fornecedor: Id, r: Resposta) returns (o: Outcome)
      requires Valid()
      modifies this
      ensures Valid()
      ensures var i := LocalizarCotacao(old(cotacoes), id, empresa);
        o == (if i.None? || !Convidou(old(cotacoes)[i.value], fornecedor) then NotFound
              else if !ValidResposta(r) then BadRequest else Ok)
      ensures cotacoes == if o == Ok
        then var i := LocalizarCotacao(old(cotacoes), id, empresa).value;
             old(cotacoes)[i := Responder(old(cotacoes)[i], fornecedor, r)]
        else old(cotacoes)
      ensures requisicoes == old(requisicoes) && pedidos == old(pedidos)
      ensures estoque == old(estoque) && movimentos == old(movimentos)
    {
      var i := LocalizarCotacao(cotacoes, id, empresa);
      if i.None? {
        return NotFound;
      }
      var c := cotacoes[i.value];
      var row := FirstIndex(c.convidados, (v: Convidado) => v.fornecedor == fornecedor);
      if row.None? {
        return NotFound;
      }
      if !ValidResposta(r) {
        return BadRequest;
      }
      ResponderMantemVencedor(c, fornecedor, r);
      VencedoresAtualizar(cotacoes, i.value, Responder(c, fornecedor, r));
      cotacoes := cotacoes[i.value := Responder(c, fornecedor, r)];
      o := Ok;
    }

    /** POST /cotacoes/:id/selecionar/:fornecedor_id: an ABERTA quotation ends FINALIZADA with one winner. */
    method SelecionarVencedor(id: Id, empresa: Id, fornecedor: Id) returns (o: Outcome)
      requires Valid()
      modifies this
      ensures Valid()
      ensures var i := LocalizarCotacao(old(cotacoes), id, empresa);
        o == (if i.Some? && old(cotacoes)[i.value].status == Aberta then Ok else NotFound)
      ensures cotacoes == if o == Ok
        then var i := LocalizarCotacao(old(cotacoes), id, empresa).value;
             old(cotacoes)[i := Selecionar(old(cotacoes)[i], fornecedor)]
        else old(cotacoes)
      ensures requisicoes == old(requisicoes) && pedidos == old(pedidos)
      ensures estoque == old(estoque) && movimentos == old(movimentos)
    {
      var i := LocalizarCotacao(cotacoes, id, empresa);
      if i.None? || cotacoes[i.value].status != Aberta {
        return NotFound;
      }
      SelecionarUmVencedor(cotacoes[i.value], fornecedor);
      VencedoresAtualizar(cotacoes, i.value, Selecionar(cotacoes[i.value], fornecedor));
      cotacoes := cotacoes[i.value := Selecionar(cotacoes[i.value], fornecedor)];
      o := Ok;
    }

    /** POST /pedidos: a RASCUNHO order whose total is Σ quantidade × preco_unitario. */
    method CriarPedido(id: Id, empresa: Id, fornecedor: Id, cotacao: Option<Id>, localEntrega: Option<Id>,
                       obs: Option<string>, itens: seq<NovoItemPedido>) returns (o: Outcome)
      requires Valid()
      modifies this
      ensures Valid()
      ensures o == (if ValidItensPedido(itens) then Ok else BadRequest)
      ensures pedidos == if o == Ok then Encomendar(old(pedidos), id, empresa, fornecedor, cotacao, localEntrega, obs, itens)
                         else old(pedidos)
      ensures requisicoes == old(requisicoes) && cotacoes == old(cotacoes)
      ensures estoque == old(estoque) && movimentos == old(movimentos)
    {
      if !ValidItensPedido(itens) {
        return BadRequest;
      }
      EncomendarCoerente(pedidos, id, empresa, fornecedor, cotacao, localEntrega, obs, itens);
      pedidos := Encomendar(pedidos, id, empresa, fornecedor, cotacao, localEntrega, obs, itens);
      o := Ok;
    }

    /**
     * The status-only steps: enviar (RASCUNHO → ENVIADO), confirmar (ENVIADO → CONFIRMADO) and
     * cancel (RASCUNHO or ENVIADO → CANCELADO); anything else is not found.
     */
    method MudarStatusPedido(id: Id, empresa: Id, de: set<StatusPedido>, para: StatusPedido) returns (o: Outcome)
      requires Valid()
      requires (de, para) in {({Rascunho}, Enviado), ({Enviado}, Confirmado), ({Rascunho, Enviado}, Cancelado)}
      modifies this
      ensures Valid()
      ensures o == (if PedidoNoEstado(old(pedidos), id, empresa, de).Some? then Ok else NotFound)
      ensures pedidos == if o == Ok
        then var i := PedidoNoEstado(old(pedidos), id, empresa, de).value;
             old(pedidos)[i := old(pedidos)[i].(status := para)]
        else old(pedidos)
      ensures requisicoes == old(requisicoes) && cotacoes == old(cotacoes)
      ensures estoque == old(estoque) && movimentos == old(movimentos)
    {
      var i := PedidoNoEstado(pedidos, id, empresa, de);
      if i.None? {
        return NotFound;
      }
      var p := pedidos[i.value].(status := para);
      assert PedidoCoerente(p);
      PedidosAtualizar(pedidos, i.value, p);
      pedidos := pedidos[i.value := p];
      o := Ok;
    }

    /**
     * POST /pedidos/:id/receber: an ENVIADO or CONFIRMADO order, received at the given location or
     * the order's delivery location; each line goes into stock with one ENTRADA movement.
     */
    method ReceberPedido(id: Id, empresa: Id, local: Option<Id>, notaFiscal: Option<string>) returns (o: Outcome)
      requires Valid()
      modifies this
      ensures Valid()
      ensures var i := PedidoNoEstado(old(pedidos), id, empresa, {Enviado, Confirmado});
        o == (if i.None? then NotFound
              else if !Truthy(local) && !Truthy(old(pedidos)[i.value].localEntrega) then BadRequest else Ok)
      ensures o == Ok ==>
        var i := PedidoNoEstado(old(pedidos), id, empresa, {Enviado, Confirmado}).value;
        var p := old(pedidos)[i];
        var l := if Truthy(local) then local.value else p.localEntrega.value;
        estoque == EntradaCompra(old(estoque), p.itens, l)
        && movimentos == old(movimentos) + MovimentosCompra(p.itens, empresa, l, id)
        && pedidos == old(pedidos)[i := PedidoRecebido(p, notaFiscal)]
      ensures o != Ok ==> pedidos == old(pedidos) && estoque == old(estoque) && movimentos == old(movimentos)
      ensures requisicoes == old(requisicoes) && cotacoes == old(cotacoes)
    {
      var i := PedidoNoEstado(pedidos, id, empresa, {Enviado, Confirmado});
      if i.None? {
        return NotFound;
      }
      var p := pedidos[i.value];
      if !Truthy(local) && !Truthy(p.localEntrega) {
        return BadRequest;
      }
      var l := if Truthy(local) then local.value else p.localEntrega.value;
      var novoEstoque, movs, q := ReceberItens(p, notaFiscal, estoque, empresa, l);
      PedidoRecebidoCoerente(p, notaFiscal);
      PedidosAtualizar(pedidos, i.value, q);
      estoque := novoEstoque;
      movimentos := movimentos + movs;
      pedidos := pedidos[i.value := q];
      o := Ok;
    }
  }

  /** The order after receiving: RECEBIDO, the invoice number kept, every line received in full. */
  function PedidoRecebido(p: Pedido, notaFiscal: Option<string>): (r: Pedido)
    ensures r.status == Recebido && r.notaFiscal == OrNull(notaFiscal) && |r.itens| == |p.itens|
    ensures forall k :: 0 <= k < |p.itens| ==> r.itens[k] == MarcarRecebido(p.itens[k])
  {
    p.(status := Recebido, notaFiscal := OrNull(notaFiscal),
       itens := seq(|p.itens|, k requires 0 <= k < |p.itens| => MarcarRecebido(p.itens[k])))
  }

  /** Receiving keeps an order's header total equal to its lines and fills every received quantity. */
  lemma {:induction false} PedidoRecebidoCoerente(p: Pedido, notaFiscal: Option<string>)
    requires PedidoCoerente(p)
    ensures PedidoCoerente(PedidoRecebido(p, notaFiscal))
    ensures PedidoRecebido(p, notaFiscal).valorTotal == p.valorTotal
  {
    MesmosTotais(p.itens, PedidoRecebido(p, notaFiscal).itens);
  }

  /** Marking lines received keeps the line totals. */
  lemma {:induction false} MesmosTotais(itens: seq<ItemPedido>, recebidos: seq<ItemPedido>)
    requires |recebidos| == |itens| && forall i :: 0 <= i < |itens| ==> recebidos[i] == MarcarRecebido(itens[i])
    ensures SumOf(recebidos, ValorItem) == SumOf(itens, ValorItem)
  {
    if itens != [] {
      MesmosTotais(itens[..|itens| - 1], recebidos[..|recebidos| - 1]);
    }
  }
}
