/**
 * Payables (contas a pagar): titles owed by a company, the payments posted against
 * them with their payment-method lines, and the bank debits a payment produces.
 * Each handler that changes the database is a method of `ContasPagar`; the
 * arithmetic is the shared step in `Settlement`.
 */
module ContasPagar {
  import opened Outcome
  import opened Settlement

  /** Description of the bank movement: `Pagamento - <numero_documento>`. */
  function DescricaoPagamento(numeroDocumento: string): (d: string)
    ensures "Pagamento - " <= d
    ensures |d| == |"Pagamento - "| + |numeroDocumento| && d[|"Pagamento - "|..] == numeroDocumento
  {
    "Pagamento - " + numeroDocumento
  }

  /** The bank debit of a payment, present exactly when a bank account was given. */
  function DebitoDe(empresa: Id, t: Titulo, pagamento: Id, b: Baixa): (m: seq<Movimento>)
    ensures |m| == (if b.contaBancaria.Some? then 1 else 0)
    ensures forall i :: 0 <= i < |m| ==>
      m[i].tipo == Debito && m[i].origemTipo == OrigemPagamento && m[i].origemId == pagamento
      && m[i].valor == Liquido(b) && m[i].contaBancaria == b.contaBancaria.value
  {
    if b.contaBancaria.Some? then
      [Movimento(empresa, b.contaBancaria.value, Debito, Liquido(b), b.data,
                 DescricaoPagamento(t.numeroDocumento), OrigemPagamento, pagamento)]
    else []
  }

  class ContasPagar {
    var titulos: map<Id, Titulo>
    var pagamentos: seq<Lancamento>
    var formas: seq<FormaRow>
    var movimentos: seq<Movimento>

    ghost predicate Valid()
      reads this
    {
      Escriturado(titulos, pagamentos)
    }

    constructor ()
      ensures Valid()
      ensures titulos == map[] && pagamentos == [] && formas == [] && movimentos == []
    {
      titulos := map[];
      pagamentos := [];
      formas := [];
      movimentos := [];
    }

    /** POST /: a valid body creates an open title whose balance is its total. */
    method Criar(id: Id, empresa: Id, n: NovoTitulo) returns (o: Outcome)
      requires Valid() && id !in titulos
      modifies this
      ensures Valid()
      ensures o == (if ValidNovoTitulo(n) then Ok else BadRequest)
      ensures titulos == if o == Ok then old(titulos)[id := Abrir(empresa, n)] else old(titulos)
      ensures pagamentos == old(pagamentos) && formas == old(formas) && movimentos == old(movimentos)
    {
      if !ValidNovoTitulo(n) {
        return BadRequest;
      }
      AbrirCoerente(empresa, n);
      EscrituradoCriar(titulos, pagamentos, id, Abrir(empresa, n));
      titulos := titulos[id := Abrir(empresa, n)];
      o := Ok;
    }

    /**
     * POST /:id/pagar: the payment row, one row per payment-method line, the new
     * balance and status of the title, and a bank debit when an account is given.
     */
    method Pagar(id: Id, empresa: Id, usuario: Id, pagamentoId: Id, b: Baixa) returns (o: Outcome)
      requires Valid()
      modifies this
      ensures Valid()
      ensures o == BaixarOutcome(old(titulos), id, empresa, b)
      ensures o != Ok ==> titulos == old(titulos) && pagamentos == old(pagamentos)
                          && formas == old(formas) && movimentos == old(movimentos)
      ensures o == Ok ==>
        titulos == old(titulos)[id := Baixar(old(titulos)[id], b)]
        && pagamentos == old(pagamentos) + [LancamentoDe(pagamentoId, empresa, id, usuario, b)]
        && formas == old(formas) + FormaRows(pagamentoId, b.formas)
        && movimentos == old(movimentos) + DebitoDe(empresa, old(titulos)[id], pagamentoId, b)
    {
      o := BaixarOutcome(titulos, id, empresa, b);
      if o != Ok {
        return;
      }
      var conta := titulos[id];
      var rec := LancamentoDe(pagamentoId, empresa, id, usuario, b);
      EscrituradoBaixar(titulos, pagamentos, id, b, rec);
      pagamentos := pagamentos + [rec];

      var i := 0;
      while i < |b.formas|
        invariant 0 <= i <= |b.formas|
        invariant formas == old(formas) + FormaRows(pagamentoId, b.formas[..i])
        invariant titulos == old(titulos) && pagamentos == old(pagamentos) + [rec]
        invariant movimentos == old(movimentos)
      {
        assert b.formas[..i + 1][..i] == b.formas[..i];
        formas := formas + [FormaRowDe(pagamentoId, b.formas[i])];
        i := i + 1;
      }
      assert b.formas[..i] == b.formas;

      titulos := titulos[id := Baixar(conta, b)];
      movimentos := movimentos + DebitoDe(empresa, conta, pagamentoId, b);
    }

    /** POST /:id/cancelar: any title of the company becomes CANCELADO. */
    method Cancelar(id: Id, empresa: Id, motivo: Option<string>) returns (o: Outcome)
      requires Valid()
      modifies this
      ensures Valid()
      ensures o == (if Pertence(old(titulos), id, empresa) then Ok else NotFound)
      ensures titulos == if o == Ok then old(titulos)[id := Settlement.Cancelar(old(titulos)[id], motivo)]
                         else old(titulos)
      ensures pagamentos == old(pagamentos) && formas == old(formas) && movimentos == old(movimentos)
    {
      if !Pertence(titulos, id, empresa) {
        return NotFound;
      }
      CancelarCoerente(titulos[id], motivo);
      EscrituradoAlterar(titulos, pagamentos, id, Settlement.Cancelar(titulos[id], motivo));
      titulos := titulos[id := Settlement.Cancelar(titulos[id], motivo)];
      o := Ok;
    }

    /** PUT /:id/vencimento: only an open title of the company gets a new due date. */
    method AlterarVencimento(id: Id, empresa: Id, vencimento: string) returns (o: Outcome)
      requires Valid()
      modifies this
      ensures Valid()
      ensures o == (if Pertence(old(titulos), id, empresa) && old(titulos)[id].status == Aberto
                    then Ok else NotFound)
      ensures titulos == if o == Ok then old(titulos)[id := Reprogramar(old(titulos)[id], vencimento)]
                         else old(titulos)
      ensures pagamentos == old(pagamentos) && formas == old(formas) && movimentos == old(movimentos)
    {
      if !Pertence(titulos, id, empresa) || titulos[id].status != Aberto {
        return NotFound;
      }
      EscrituradoAlterar(titulos, pagamentos, id, Reprogramar(titulos[id], vencimento));
      titulos := titulos[id := Reprogramar(titulos[id], vencimento)];
      o := Ok;
    }
  }
}
