/**
 * Stock rows (estoque) and stock movements (estoque_movimentacoes), which the
 * inventory, purchasing and exchange modules write.
 */
module Estoque {
  import opened Outcome

  /** A catalogue product, as the inventory snapshot query reads it. */
  datatype Produto = Produto(id: Id, empresa: Id, ativo: bool, precoCusto: real,
                             categoria: Option<Id>, marca: Option<Id>)

  /** The stock row of a product at a location. */
  datatype Saldo = Saldo(quantidade: real, custoMedio: real)

  /** estoque keyed by (produto, local). */
  type Posicao = map<(Id, Id), Saldo>

  datatype TipoMovimento = Entrada | Saida

  /** A row of estoque_movimentacoes; `local` is absent for the exchange movements. */
  datatype MovEstoque = MovEstoque(empresa: Id, produto: Id, local: Option<Id>, tipo: TipoMovimento,
                                   quantidade: real, motivo: string, referencia: Id)

  /** The quantity a movement adds to stock: positive for ENTRADA, negative for SAIDA. */
  function Sinal(m: MovEstoque): real
  {
    if m.tipo == Entrada then m.quantidade else -m.quantidade
  }

  /** COALESCE(e.quantidade, 0). */
  function QuantidadeEm(e: Posicao, produto: Id, local: Id): real
  {
    if (produto, local) in e then e[(produto, local)].quantidade else 0.0
  }
}
