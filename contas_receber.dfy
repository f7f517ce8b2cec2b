/**
 * Receivables (contas a receber): titles of a company, the receipts posted against
 * them with their payment-method lines, and the bank credits a receipt produces.
 * Each handler that changes the database is a method of `ContasReceber`; the
 * arithmetic is the shared step in `Settlement`.
 */
module ContasReceber {
  import opened Outcome
  import opened Settlement

  /** Description of the bank movement: `Recebimento - <numero_documento>`. */
  function DescricaoRecebimento(numeroDocumento: string): (d: string)
    ensures "Recebimento - " <= d
    ensures |d| == |"Recebimento - "| + |numeroDocumento| && d[|"Recebimento - "|..] == numeroDocumento
  {
    "Recebimento - " + numeroDocumento
  }

  /** The bank credit of a receipt, present exactly when a bank account was given. */
  function CreditoDe(empresa: Id, t: Titulo, recebimento: Id, b: Baixa): (m: seq<Movimento>)
    ensures |m| == (if b.contaBancaria.Some? then 1 else 0)
    ensures forall i :: 0 <= i < |m| ==>
      m[i].tipo == Credito && m[i].origemTipo == OrigemRecebimento && m[i].origemId == recebimento
      && m[i].valor == Liquido(b) && m[i].contaBancaria == b.contaBancaria.value
  {
    if b.contaBancaria.Some? then
      [Movimento(empresa, b.contaBancaria.value, Credito, Liquido(b), b.data,
                 DescricaoRecebimento(t.numeroDocumento), OrigemRecebimento, recebimento)]
    else []
  }

  class ContasReceber {
    var titulos: map<Id, Titulo>
    var recebimentos: seq<Lancamento>
    var formas: seq<FormaRow>
    var movimentos: seq<Movimento>

    ghost predicate Valid()
      reads this
    {
      Escriturado(titulos, recebimentos)
    }

    constructor ()
      ensures Valid()
      ensures titulos == map[] && recebimentos == [] && formas == [] && movimentos == []
    {
      titulos := map[];
      recebimentos := [];
      formas := [];
      movimentos := [];
    }

    /** POST /: a valid body creates an open title whose balance is its total. */
    method Criar(id: Id, empresa: Id, n: NovoTitulo) returns (o: Outcome)
      requires Valid() && id !in titulos
      modifies this
      ensures Valid()
      ensures o == (if ValidNovoTitulo(n) then Ok else BadRequest)
      ensures titulos == if o == Ok then old(titulos)[id := Abrir(empresa, n)] else old(titulos)
      ensures recebimentos == old(recebimentos) && formas == old(formas) && movimentos == old(movimentos)
    {
      if !ValidNovoTitulo(n) {
        return BadRequest;
      }
      AbrirCoerente(empresa, n);
      EscrituradoCriar(titulos, recebimentos, id, Abrir(empresa, n));
      titulos := titulos[id := Abrir(empresa, n)];
      o := Ok;
    }

    /**
     * POST /:id/receber: the receipt row, one row per payment-method line, the new
     * balance and status of the title, and a bank credit when an account is given.
     */
    method Receber(id: Id, empresa: Id, usuario: Id, recebimentoId: Id, b: Baixa) returns (o: Outcome)
      requires Valid()
      modifies this
      ensures Valid()
      ensures o == BaixarOutcome(old(titulos), id, empresa, b)
      ensures o != Ok ==> titulos == old(titulos) && recebimentos == old(recebimentos)
                          && formas == old(formas) && movimentos == old(movimentos)
      ensures o == Ok ==>
        titulos == old(titulos)[id := Baixar(old(titulos)[id], b)]
        && recebimentos == old(recebimentos) + [LancamentoDe(recebimentoId, empresa, id, usuario, b)]
        && formas == old(formas) + FormaRows(recebimentoId, b.formas)
        && movimentos == old(movimentos) + CreditoDe(empresa, old(titulos)[id], recebimentoId, b)
    {
      o := BaixarOutcome(titulos, id, empresa, b);
      if o != Ok {
        return;
      }
      var conta := titulos[id];
      var rec := LancamentoDe(recebimentoId, empresa, id, usuario, b);
      EscrituradoBaixar(titulos, recebimentos, id, b, rec);
      recebimentos := recebimentos + [rec];

      var i := 0;
      while i < |b.formas|
        invariant 0 <= i <= |b.formas|
        invariant formas == old(formas) + FormaRows(recebimentoId, b.formas[..i])
        invariant titulos == old(titulos) && recebimentos == old(recebimentos) + [rec]
        invariant movimentos == old(movimentos)
      {
        assert b.formas[..i + 1][..i] == b.formas[..i];
        formas := formas + [FormaRowDe(recebimentoId, b.formas[i])];
        i := i + 1;
      }
      assert b.formas[..i] == b.formas;

      titulos := titulos[id := Baixar(conta, b)];
      movimentos := movimentos + CreditoDe(empresa, conta, recebimentoId, b);
    }

    /** POST /:id/cancelar: any title of the company becomes CANCELADO. */
    method Cancelar(id: Id, empresa: Id, motivo: Option<string>) returns (o: Outcome)
      requires Valid()
      modifies this
      ensures Valid()
      ensures o == (if Pertence(old(titulos), id, empresa) then Ok else NotFound)
      ensures titulos == if o == Ok then old(titulos)[id := Settlement.Cancelar(old(titulos)[id], motivo)]
                         else old(titulos)
      ensures recebimentos == old(recebimentos) && formas == old(formas) && movimentos == old(movimentos)
    {
      if !Pertence(titulos, id, empresa) {
        return NotFound;
      }
      CancelarCoerente(titulos[id], motivo);
      EscrituradoAlterar(titulos, recebimentos, id, Settlement.Cancelar(titulos[id], motivo));
      titulos := titulos[id := Settlement.Cancelar(titulos[id], motivo)];
      o := Ok;
    }

    /** PUT /:id/vencimento: only an open title of the company gets a new due date. */
    method AlterarVencimento(id: Id, empresa: Id, vencimento: string) returns (o: Outcome)
      requires Valid()
      modifies this
      ensures Valid()
      ensures o == (if Pertence(old(titulos), id, empresa) && old(titulos)[id].status == Aberto
                    then Ok else NotFound)
      ensures titulos == if o == Ok then old(titulos)[id := Reprogramar(old(titulos)[id], vencimento)]
                         else old(titulos)
      ensures recebimentos == old(recebimentos) && formas == old(formas) && movimentos == old(movimentos)
    {
      if !Pertence(titulos, id, empresa) || titulos[id].status != Aberto {
        return NotFound;
      }
      EscrituradoAlterar(titulos, recebimentos, id, Reprogramar(titulos[id], vencimento));
      titulos := titulos[id := Reprogramar(titulos[id], vencimento)];
      o := Ok;
    }
  }
}
