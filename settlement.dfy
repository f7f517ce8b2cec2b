/**
 * The title arithmetic shared by receivables (contas a receber) and payables
 * (contas a pagar): both route files compute totals, balances and the settled
 * status with the same expressions, so the pure step lives here once and each
 * ledger module applies it to its own table.
 */
module Settlement {
  import opened Outcome
  import opened Money

  /** ABERTO, the settled state (RECEBIDO for receivables, PAGO for payables) and CANCELADO. */
  datatype TituloStatus = Aberto | Quitado | Cancelado

  datatype Titulo = Titulo(
    empresa: Id,
    numeroDocumento: string,
    valorOriginal: real,
    valorJuros: real,
    valorMulta: real,
    valorDesconto: real,
    valorTotal: real,
    saldo: real,
    valorQuitado: real,              // valor_recebido / valor_pago
    status: TituloStatus,
    vencimento: string,
    dataQuitacao: Option<string>,    // data_recebimento / data_pagamento
    observacao: Option<string>)

  /** The validated body of a create request. */
  datatype NovoTitulo = NovoTitulo(
    numeroDocumento: string,
    valorOriginal: real,
    valorJuros: real,
    valorMulta: real,
    valorDesconto: real,
    vencimento: string,
    observacao: Option<string>)

  /** The schema: valor_original >= 0.01, the other amounts >= 0, document number at most 50 chars. */
  predicate ValidNovoTitulo(n: NovoTitulo)
  {
    n.valorOriginal >= 0.01 && n.valorJuros >= 0.0 && n.valorMulta >= 0.0 && n.valorDesconto >= 0.0
    && |n.numeroDocumento| <= 50
  }

  /** One line of the `formas` array of a posting. */
  datatype Forma = Forma(formaPagamentoId: Id, valor: real, observacao: Option<string>)

  /** The validated body of a receipt or payment. */
  datatype Baixa = Baixa(
    data: string,
    valor: real,                     // valor_recebido / valor_pago
    juros: real,
    multa: real,
    desconto: real,
    contaBancaria: Option<Id>,
    formas: seq<Forma>,
    observacao: Option<string>)

  predicate ValidBaixa(b: Baixa)
  {
    b.valor >= 0.01 && b.juros >= 0.0 && b.multa >= 0.0 && b.desconto >= 0.0
    && forall i :: 0 <= i < |b.formas| ==> b.formas[i].valor >= 0.01
  }

  /** The title a create request stores. */
  function Abrir(empresa: Id, n: NovoTitulo): (t: Titulo)
    ensures t.valorTotal == n.valorOriginal + n.valorJuros + n.valorMulta - n.valorDesconto
    ensures t.saldo == t.valorTotal && t.valorQuitado == 0.0
    ensures t.status == Aberto && t.dataQuitacao == None && t.empresa == empresa
  {
    var total := n.valorOriginal + n.valorJuros + n.valorMulta - n.valorDesconto;
    Titulo(empresa, n.numeroDocumento, n.valorOriginal, n.valorJuros, n.valorMulta, n.valorDesconto,
           total, total, 0.0, Aberto, n.vencimento, None,
           OrNull(n.observacao))
  }

  /** valor_liquido of the posting row and of the bank movement. */
  function Liquido(b: Baixa): real
  {
    b.valor + b.juros + b.multa - b.desconto
  }

  /** A posting settles the title when it covers the balance: `saldo - valor <= 0`. */
  predicate Quita(t: Titulo, b: Baixa) { t.saldo - b.valor <= 0.0 }

  /** The title after an accepted receipt or payment. */
  function Baixar(t: Titulo, b: Baixa): (r: Titulo)
    requires t.status == Aberto
    ensures r.saldo >= 0.0
    ensures r.status == Quitado <==> b.valor >= t.saldo
    ensures r.status == Quitado ==> r.saldo == 0.0
    ensures r.status == Aberto ==> r.saldo == t.saldo - b.valor > 0.0
    ensures r.status != Cancelado
    ensures r.valorQuitado == t.valorQuitado + b.valor
    ensures r.dataQuitacao == if r.status == Quitado then Some(b.data) else t.dataQuitacao
    ensures r == t.(saldo := r.saldo, valorQuitado := r.valorQuitado, status := r.status,
                    dataQuitacao := r.dataQuitacao)
  {
    var novoSaldo := t.saldo - b.valor;
    t.(saldo := MaxReal(0.0, novoSaldo),
       valorQuitado := t.valorQuitado + b.valor,
       status := if novoSaldo <= 0.0 then Quitado else Aberto,
       dataQuitacao := if novoSaldo <= 0.0 then Some(b.data) else t.dataQuitacao)
  }

  /** Cancel: status CANCELADO, observacao = motivo || previous observacao; nothing else changes. */
  function Cancelar(t: Titulo, motivo: Option<string>): (r: Titulo)
    ensures r.status == Cancelado
    ensures r.saldo == t.saldo && r.valorQuitado == t.valorQuitado && r.valorTotal == t.valorTotal
    ensures r.observacao == if Truthy(motivo) then motivo else t.observacao
    ensures r == t.(status := Cancelado, observacao := r.observacao)
  {
    t.(status := Cancelado, observacao := if Truthy(motivo) then motivo else t.observacao)
  }

  /** The only change a due-date update makes. */
  function Reprogramar(t: Titulo, vencimento: string): (r: Titulo)
    ensures r.vencimento == vencimento
    ensures r.empresa == t.empresa && r.numeroDocumento == t.numeroDocumento && r.status == t.status
    ensures r.valorOriginal == t.valorOriginal && r.valorJuros == t.valorJuros && r.valorMulta == t.valorMulta
    ensures r.valorDesconto == t.valorDesconto && r.valorTotal == t.valorTotal
    ensures r.saldo == t.saldo && r.valorQuitado == t.valorQuitado
    ensures r.dataQuitacao == t.dataQuitacao && r.observacao == t.observacao
  {
    t.(vencimento := vencimento)
  }

  /** The title exists and belongs to the caller's company (`WHERE id = ? AND empresa_id = ?`). */
  predicate Pertence(titulos: map<Id, Titulo>, id: Id, empresa: Id)
  {
    id in titulos && titulos[id].empresa == empresa
  }

  /** The response class of a posting, in the order the handler checks. */
  function BaixarOutcome(titulos: map<Id, Titulo>, id: Id, empresa: Id, b: Baixa): (o: Outcome)
    ensures o == Ok <==> ValidBaixa(b) && id in titulos && titulos[id].empresa == empresa
                         && titulos[id].status == Aberto
    ensures o == NotFound <==> ValidBaixa(b) && (id !in titulos || titulos[id].empresa != empresa)
  {
    if !ValidBaixa(b) then BadRequest
    else if id !in titulos || titulos[id].empresa != empresa then NotFound
    else if titulos[id].status != Aberto then BadRequest
    else Ok
  }

  /** A sequence of posting attempts on one title; rejected ones leave it unchanged. */
  function BaixarTodas(t: Titulo, bs: seq<Baixa>): Titulo
    decreases |bs|
  {
    if bs == [] then t
    else if t.status == Aberto && ValidBaixa(bs[0]) then BaixarTodas(Baixar(t, bs[0]), bs[1..])
    else BaixarTodas(t, bs[1..])
  }

  /** A settled or cancelled title accepts no posting: every later attempt is rejected. */
  lemma {:induction false} FechadoRejeitaBaixas(t: Titulo, bs: seq<Baixa>)
    requires t.status != Aberto
    ensures BaixarTodas(t, bs) == t
    decreases |bs|
  {
    if bs != [] {
      FechadoRejeitaBaixas(t, bs[1..]);
    }
  }

  /**
   * From a non-negative balance, postings never raise the balance and never make
   * it negative, and the amount settled grows by the accepted amounts only.
   */
  lemma {:induction false} SaldoNaoCresce(t: Titulo, bs: seq<Baixa>)
    requires t.saldo >= 0.0
    ensures BaixarTodas(t, bs).saldo <= t.saldo
    ensures BaixarTodas(t, bs).saldo >= 0.0
    ensures BaixarTodas(t, bs).valorQuitado >= t.valorQuitado
    decreases |bs|
  {
    if bs != [] {
      if t.status == Aberto && ValidBaixa(bs[0]) {
        SaldoNaoCresce(Baixar(t, bs[0]), bs[1..]);
      } else {
        SaldoNaoCresce(t, bs[1..]);
      }
    }
  }

  /** After any accepted posting the stored balance is non-negative, even from a negative start. */
  lemma {:induction false} SaldoAposBaixa(t: Titulo, bs: seq<Baixa>)
    requires t.status == Aberto && bs != [] && ValidBaixa(bs[0])
    ensures BaixarTodas(t, bs).saldo >= 0.0
  {
    SaldoNaoCresce(Baixar(t, bs[0]), bs[1..]);
  }

  /**
   * Settled amount bookkeeping: without cancellation, total posted equals the
   * growth of valorQuitado, and a title that settles keeps saldo 0 afterwards.
   */
  lemma {:induction false} QuitadoFinal(t: Titulo, bs: seq<Baixa>)
    requires t.status == Aberto && bs != [] && ValidBaixa(bs[0]) && Quita(t, bs[0])
    ensures BaixarTodas(t, bs).status == Quitado
    ensures BaixarTodas(t, bs).saldo == 0.0
  {
    FechadoRejeitaBaixas(Baixar(t, bs[0]), bs[1..]);
  }

  /**
   * What the stored amounts of a title mean: before any posting the balance is the
   * total; afterwards it is what remains of the total, floored at zero; a settled
   * title has balance zero, and an open title with postings still owes something.
   */
  predicate Coerente(t: Titulo)
  {
    t.valorQuitado >= 0.0
    && (t.valorQuitado == 0.0 ==> t.saldo == t.valorTotal)
    && (t.valorQuitado > 0.0 ==> t.saldo == MaxReal(0.0, t.valorTotal - t.valorQuitado))
    && (t.status == Quitado ==> t.saldo == 0.0 && t.valorQuitado > 0.0)
    && (t.status == Aberto && t.valorQuitado > 0.0 ==> t.saldo > 0.0)
  }

  lemma {:induction false} AbrirCoerente(empresa: Id, n: NovoTitulo)
    ensures Coerente(Abrir(empresa, n))
  {
  }

  /** An accepted posting keeps a coherent title coherent. */
  lemma {:induction false} BaixarCoerente(t: Titulo, b: Baixa)
    requires Coerente(t) && t.status == Aberto && ValidBaixa(b)
    ensures Coerente(Baixar(t, b))
  {
  }

  lemma {:induction false} CancelarCoerente(t: Titulo, motivo: Option<string>)
    requires Coerente(t)
    ensures Coerente(Cancelar(t, motivo))
  {
  }

  /** A coherent settled title has received at least its total. */
  lemma {:induction false} QuitadoCobreTotal(t: Titulo)
    requires Coerente(t) && t.status == Quitado
    ensures t.valorQuitado >= t.valorTotal
  {
  }

  /** The row a receipt or payment inserts (recebimentos / pagamentos). */
  datatype Lancamento = Lancamento(
    id: Id, empresa: Id, titulo: Id, data: string,
    valor: real, juros: real, multa: real, desconto: real, liquido: real,
    contaBancaria: Option<Id>, usuario: Id, observacao: Option<string>)

  function LancamentoDe(id: Id, empresa: Id, titulo: Id, usuario: Id, b: Baixa): (l: Lancamento)
    ensures l.titulo == titulo && l.valor == b.valor && l.liquido == Liquido(b)
  {
    Lancamento(id, empresa, titulo, b.data, b.valor, b.juros, b.multa, b.desconto, Liquido(b),
               b.contaBancaria, usuario, OrNull(b.observacao))
  }

  /** A row of recebimentos_formas / pagamentos_formas (its own UUID is not modelled). */
  datatype FormaRow = FormaRow(lancamento: Id, formaPagamentoId: Id, valor: real, observacao: Option<string>)

  function FormaRowDe(lancamento: Id, f: Forma): FormaRow
  {
    FormaRow(lancamento, f.formaPagamentoId, f.valor, OrNull(f.observacao))
  }

  /** One row per line of `formas`, in order, all pointing at the posting. */
  function FormaRows(lancamento: Id, fs: seq<Forma>): (rows: seq<FormaRow>)
    ensures |rows| == |fs|
    ensures forall i :: 0 <= i < |fs| ==> rows[i] == FormaRowDe(lancamento, fs[i])
  {
    if fs == [] then [] else FormaRows(lancamento, fs[..|fs| - 1]) + [FormaRowDe(lancamento, fs[|fs| - 1])]
  }

  datatype Direcao = Credito | Debito
  datatype Origem = OrigemRecebimento | OrigemPagamento

  /** A row of movimentacoes_bancarias. */
  datatype Movimento = Movimento(
    empresa: Id, contaBancaria: Id, tipo: Direcao, valor: real, data: string,
    descricao: string, origemTipo: Origem, origemId: Id)

  /** Total posted against one title: Σ valor over its rows. */
  function TotalLancado(rows: seq<Lancamento>, titulo: Id): real
  {
    SumOf(rows, (l: Lancamento) => if l.titulo == titulo then l.valor else 0.0)
  }

  lemma {:induction false} TotalLancadoAppend(rows: seq<Lancamento>, l: Lancamento, titulo: Id)
    ensures TotalLancado(rows + [l], titulo)
            == TotalLancado(rows, titulo) + (if l.titulo == titulo then l.valor else 0.0)
  {
    SumOfAppend(rows, l, (l: Lancamento) => if l.titulo == titulo then l.valor else 0.0);
  }

  /** A title nobody posted against has a zero total. */
  lemma {:induction false} TotalLancadoAusente(rows: seq<Lancamento>, titulo: Id)
    requires forall i :: 0 <= i < |rows| ==> rows[i].titulo != titulo
    ensures TotalLancado(rows, titulo) == 0.0
  {
    if rows != [] {
      var init := rows[..|rows| - 1];
      assert rows == init + [rows[|rows| - 1]];
      TotalLancadoAusente(init, titulo);
      TotalLancadoAppend(init, rows[|rows| - 1], titulo);
    }
  }

  /**
   * The ledger tables of one side (receivable or payable): every posting row points at
   * a stored title, and each title's settled amount is the sum of its postings.
   */
  predicate Escriturado(titulos: map<Id, Titulo>, lancamentos: seq<Lancamento>)
  {
    (forall i :: 0 <= i < |lancamentos| ==> lancamentos[i].titulo in titulos)
    && (forall id :: id in titulos ==>
          Coerente(titulos[id]) && titulos[id].valorQuitado == TotalLancado(lancamentos, id))
  }

  lemma {:induction false} EscrituradoCriar(titulos: map<Id, Titulo>, lancamentos: seq<Lancamento>, id: Id, t: Titulo)
    requires Escriturado(titulos, lancamentos) && id !in titulos
    requires Coerente(t) && t.valorQuitado == 0.0
    ensures Escriturado(titulos[id := t], lancamentos)
  {
    TotalLancadoAusente(lancamentos, id);
  }

  lemma {:induction false} EscrituradoBaixar(titulos: map<Id, Titulo>, lancamentos: seq<Lancamento>, id: Id,
                          b: Baixa, l: Lancamento)
    requires Escriturado(titulos, lancamentos)
    requires id in titulos && titulos[id].status == Aberto && ValidBaixa(b)
    requires l.titulo == id && l.valor == b.valor
    ensures Escriturado(titulos[id := Baixar(titulos[id], b)], lancamentos + [l])
  {
    var t' := titulos[id := Baixar(titulos[id], b)];
    var rows := lancamentos + [l];
    forall k | k in t'
      ensures Coerente(t'[k]) && t'[k].valorQuitado == TotalLancado(rows, k)
    {
      TotalLancadoAppend(lancamentos, l, k);
      if k == id {
        BaixarCoerente(titulos[id], b);
      }
    }
  }

  lemma {:induction false} EscrituradoAlterar(titulos: map<Id, Titulo>, lancamentos: seq<Lancamento>, id: Id, t: Titulo)
    requires Escriturado(titulos, lancamentos) && id in titulos
    requires Coerente(t) && t.valorQuitado == titulos[id].valorQuitado
    ensures Escriturado(titulos[id := t], lancamentos)
  {
  }
}
