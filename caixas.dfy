/**
 * Cash-till sessions (caixas): opening a session on a till, cash supply (suprimento)
 * and withdrawal (sangria), the live balance and closing. Sessions are identified by
 * their position in `sessoes`; each movement row names its session.
 */
module Caixas {
  import opened Outcome
  import opened Money

  /** A till: its company, whether it is active, and its default bank account. */
  datatype Caixa = Caixa(empresa: Id, nome: string, ativo: bool, contaBancaria: Option<Id>)

  datatype SessaoStatus = Aberto | Fechado

  /** The six amounts the operator declares at close. */
  datatype Contagem = Contagem(dinheiro: real, pix: real, cartaoDebito: real, cartaoCredito: real,
                               cheque: real, outros: real)

  /** What closing stores: informed and system amounts, their difference, and the declared split. */
  datatype Fechamento = Fechamento(informado: real, sistema: real, diferenca: real, contagem: Contagem,
                                   observacoes: Option<string>)

  datatype Sessao = Sessao(id: Id, caixa: Id, usuario: Id, valorAbertura: real, observacoesAbertura: Option<string>,
                           status: SessaoStatus, fechamento: Option<Fechamento>)

  datatype TipoMovimento = Entrada | Saida
  datatype FormaPagamento = Dinheiro | Pix | CartaoDebito | CartaoCredito | Cheque | OutraForma

  /** A row of caixas_movimentacoes. */
  datatype MovCaixa = MovCaixa(sessao: nat, tipo: TipoMovimento, forma: FormaPagamento, valor: real,
                               descricao: string, usuario: Id)

  /** The CREDITO bank row a withdrawal sends to an account (categoria SANGRIA_CAIXA). */
  datatype MovBanco = MovBanco(contaBancaria: Id, valor: real, descricao: string)

  /** Description of a withdrawal's bank credit: `Sangria do caixa - <session id>`. */
  function DescricaoSangria(sessao: Id): (d: string)
    ensures "Sangria do caixa - " <= d
    ensures |d| == |"Sangria do caixa - "| + |sessao| && d[|"Sangria do caixa - "|..] == sessao
  {
    "Sangria do caixa - " + sessao
  }

  /** `valor` for ENTRADA, `-valor` for SAIDA. */
  function Sinal(m: MovCaixa): real
  {
    if m.tipo == Entrada then m.valor else -m.valor
  }

  /** valor_abertura + Σ signed movements of the session over every payment method. */
  function SaldoSistema(sessoes: seq<Sessao>, movs: seq<MovCaixa>, s: nat): real
    requires s < |sessoes|
  {
    sessoes[s].valorAbertura + SumOf(movs, (m: MovCaixa) => if m.sessao == s then Sinal(m) else 0.0)
  }

  /** valor_abertura + Σ signed DINHEIRO movements of the session: the cash in the drawer. */
  function SaldoDinheiro(sessoes: seq<Sessao>, movs: seq<MovCaixa>, s: nat): real
    requires s < |sessoes|
  {
    sessoes[s].valorAbertura
    + SumOf(movs, (m: MovCaixa) => if m.sessao == s && m.forma == Dinheiro then Sinal(m) else 0.0)
  }

  /** The first open session whose till (or operator) is `k`, as `.first()` returns it. */
  function PrimeiraAberta(sessoes: seq<Sessao>, porCaixa: bool, k: Id): (r: Option<nat>)
    ensures r.Some? ==> r.value < |sessoes| && sessoes[r.value].status == Aberto
                        && (if porCaixa then sessoes[r.value].caixa else sessoes[r.value].usuario) == k
    ensures r.None? <==> forall i :: 0 <= i < |sessoes| ==>
      !(sessoes[i].status == Aberto && (if porCaixa then sessoes[i].caixa else sessoes[i].usuario) == k)
  {
    if sessoes == [] then None
    else if sessoes[0].status == Aberto && (if porCaixa then sessoes[0].caixa else sessoes[0].usuario) == k
    then Some(0)
    else match PrimeiraAberta(sessoes[1..], porCaixa, k)
      case None => None
      case Some(i) => Some(i + 1)
  }

  /** At most one open session per till and at most one per operator. */
  predicate UmaAbertaPorCaixaEUsuario(sessoes: seq<Sessao>)
  {
    forall i, j :: 0 <= i < j < |sessoes| && sessoes[i].status == Aberto && sessoes[j].status == Aberto ==>
      sessoes[i].caixa != sessoes[j].caixa && sessoes[i].usuario != sessoes[j].usuario
  }

  /** The response class of POST /abrir, in the order the handler checks. */
  function AbrirOutcome(caixas: map<Id, Caixa>, sessoes: seq<Sessao>, empresa: Id, usuario: Id,
                        caixa: Id, valorAbertura: real): (o: Outcome)
    ensures o == Ok ==> caixa in caixas && caixas[caixa].empresa == empresa && caixas[caixa].ativo
    ensures o == Ok ==> PrimeiraAberta(sessoes, true, caixa).None? && PrimeiraAberta(sessoes, false, usuario).None?
    ensures o == NotFound <==>
      valorAbertura >= 0.0 && !(caixa in caixas && caixas[caixa].empresa == empresa && caixas[caixa].ativo)
  {
    if valorAbertura < 0.0 then BadRequest
    else if !(caixa in caixas && caixas[caixa].empresa == empresa && caixas[caixa].ativo) then NotFound
    else if PrimeiraAberta(sessoes, true, caixa).Some? then BadRequest
    else if PrimeiraAberta(sessoes, false, usuario).Some? then BadRequest
    else Ok
  }

  /** Opening after a successful check keeps at most one open session per till and per operator. */
  lemma {:induction false} AbrirPreservaUnicidade(sessoes: seq<Sessao>, s: Sessao)
    requires UmaAbertaPorCaixaEUsuario(sessoes)
    requires PrimeiraAberta(sessoes, true, s.caixa).None? && PrimeiraAberta(sessoes, false, s.usuario).None?
    ensures UmaAbertaPorCaixaEUsuario(sessoes + [s])
  {
    var t := sessoes + [s];
    forall i, j | 0 <= i < j < |t| && t[i].status == Aberto && t[j].status == Aberto
      ensures t[i].caixa != t[j].caixa && t[i].usuario != t[j].usuario
    {
      if j == |sessoes| {
        assert t[i] == sessoes[i];
      }
    }
  }

  function SomaContagem(c: Contagem): real
  {
    c.dinheiro + c.pix + c.cartaoDebito + c.cartaoCredito + c.cheque + c.outros
  }

  predicate ValidContagem(c: Contagem)
  {
    c.dinheiro >= 0.0 && c.pix >= 0.0 && c.cartaoDebito >= 0.0 && c.cartaoCredito >= 0.0
    && c.cheque >= 0.0 && c.outros >= 0.0
  }

  /** The session a close stores: FECHADO with informado, sistema and their difference. */
  function Encerrar(s: Sessao, sistema: real, c: Contagem, obs: Option<string>): (r: Sessao)
    ensures r.status == Fechado && r.fechamento.Some?
    ensures r.fechamento.value.diferenca == 0.0 <==> SomaContagem(c) == sistema
    ensures r.fechamento.value.informado - r.fechamento.value.sistema == r.fechamento.value.diferenca
    ensures r.caixa == s.caixa && r.usuario == s.usuario && r.valorAbertura == s.valorAbertura
  {
    var informado := SomaContagem(c);
    s.(status := Fechado,
       fechamento := Some(Fechamento(informado, sistema, informado - sistema, c,
                                     OrNull(obs))))
  }

  /** A movement only changes the balances of its own session. */
  lemma {:induction false} SaldosAposMovimento(sessoes: seq<Sessao>, movs: seq<MovCaixa>, m: MovCaixa, s: nat)
    requires s < |sessoes|
    ensures SaldoDinheiro(sessoes, movs + [m], s)
            == SaldoDinheiro(sessoes, movs, s) + (if m.sessao == s && m.forma == Dinheiro then Sinal(m) else 0.0)
    ensures SaldoSistema(sessoes, movs + [m], s)
            == SaldoSistema(sessoes, movs, s) + (if m.sessao == s then Sinal(m) else 0.0)
  {
    SumOfAppend(movs, m, (m: MovCaixa) => if m.sessao == s && m.forma == Dinheiro then Sinal(m) else 0.0);
    SumOfAppend(movs, m, (m: MovCaixa) => if m.sessao == s then Sinal(m) else 0.0);
  }

  /** A freshly opened session has no movements: both balances are its opening amount. */
  lemma {:induction false} SaldosSessaoNova(sessoes: seq<Sessao>, movs: seq<MovCaixa>, s: Sessao)
    requires forall i :: 0 <= i < |movs| ==> movs[i].sessao < |sessoes|
    ensures SaldoDinheiro(sessoes + [s], movs, |sessoes|) == s.valorAbertura
    ensures SaldoSistema(sessoes + [s], movs, |sessoes|) == s.valorAbertura
  {
    var n := |sessoes|;
    SumOfZero(movs, (m: MovCaixa) => if m.sessao == n && m.forma == Dinheiro then Sinal(m) else 0.0);
    SumOfZero(movs, (m: MovCaixa) => if m.sessao == n then Sinal(m) else 0.0);
  }

  /** Balances depend on the opening amount and movements only, not on the rest of the session. */
  lemma {:induction false} SaldosComMesmaAbertura(sessoes: seq<Sessao>, movs: seq<MovCaixa>, k: nat, r: Sessao, s: nat)
    requires k < |sessoes| && s < |sessoes| && r.valorAbertura == sessoes[k].valorAbertura
    ensures SaldoDinheiro(sessoes[k := r], movs, s) == SaldoDinheiro(sessoes, movs, s)
  {
  }

  class Tesouraria {
    var caixas: map<Id, Caixa>
    var sessoes: seq<Sessao>
    var movimentos: seq<MovCaixa>
    var movimentosBancarios: seq<MovBanco>

    /**
     * Every session is on a known till and opened with a non-negative amount, every movement
     * names a session, at most one session is open per till and per operator, and no
     * session's cash balance is negative.
     */
    ghost predicate Valid()
      reads this
    {
      (forall i :: 0 <= i < |sessoes| ==> sessoes[i].caixa in caixas)
      && (forall i :: 0 <= i < |movimentos| ==> movimentos[i].sessao < |sessoes|)
      && UmaAbertaPorCaixaEUsuario(sessoes)
      && (forall s :: 0 <= s < |sessoes| ==> SaldoDinheiro(sessoes, movimentos, s) >= 0.0)
    }

    /** The tills are configured elsewhere; the model starts with a given set and no sessions. */
    constructor (tills: map<Id, Caixa>)
      ensures Valid()
      ensures caixas == tills && sessoes == [] && movimentos == [] && movimentosBancarios == []
    {
      caixas := tills;
      sessoes := [];
      movimentos := [];
      movimentosBancarios := [];
    }

    /** GET /meu-caixa: the operator's open session and its live balance, or nothing. */
    method MeuCaixa(usuario: Id) returns (r: Option<(nat, real)>)
      requires Valid()
      ensures r.None? <==> forall i :: 0 <= i < |sessoes| ==>
                             !(sessoes[i].status == Aberto && sessoes[i].usuario == usuario)
      ensures r.Some? ==> r.value.0 < |sessoes| && sessoes[r.value.0].usuario == usuario
                          && sessoes[r.value.0].status == Aberto
                          && r.value.1 == SaldoSistema(sessoes, movimentos, r.value.0)
    {
      var s := PrimeiraAberta(sessoes, false, usuario);
      if s.None? {
        return None;
      }
      r := Some((s.value, SaldoSistema(sessoes, movimentos, s.value)));
    }

    /** POST /abrir. */
    method Abrir(id: Id, empresa: Id, usuario: Id, caixa: Id, valorAbertura: real, obs: Option<string>)
      returns (o: Outcome)
      requires Valid()
      modifies this
      ensures Valid()
      ensures o == AbrirOutcome(old(caixas), old(sessoes), empresa, usuario, caixa, valorAbertura)
      ensures sessoes == if o == Ok
                         then old(sessoes) + [Sessao(id, caixa, usuario, valorAbertura,
                                                     OrNull(obs), Aberto, None)]
                         else old(sessoes)
      ensures caixas == old(caixas) && movimentos == old(movimentos)
      ensures movimentosBancarios == old(movimentosBancarios)
    {
      o := AbrirOutcome(caixas, sessoes, empresa, usuario, caixa, valorAbertura);
      if o != Ok {
        return;
      }
      var s := Sessao(id, caixa, usuario, valorAbertura, OrNull(obs), Aberto, None);
      AbrirPreservaUnicidade(sessoes, s);
      SaldosSessaoNova(sessoes, movimentos, s);
      assert forall k :: 0 <= k < |sessoes| ==>
        SaldoDinheiro(sessoes + [s], movimentos, k) == SaldoDinheiro(sessoes, movimentos, k);
      sessoes := sessoes + [s];
    }

    /** POST /suprimento: one ENTRADA/DINHEIRO row on the caller's open session. */
    method Suprimento(usuario: Id, valor: real, motivo: Option<string>) returns (o: Outcome)
      requires Valid()
      modifies this
      ensures Valid()
      ensures o == (if valor <= 0.0 || PrimeiraAberta(old(sessoes), false, usuario).None? then BadRequest else Ok)
      ensures movimentos == if o == Ok
        then old(movimentos) + [MovCaixa(PrimeiraAberta(old(sessoes), false, usuario).value, Entrada, Dinheiro,
                                         valor, if Truthy(motivo) then motivo.value else "Suprimento de caixa",
                                         usuario)]
        else old(movimentos)
      ensures caixas == old(caixas) && sessoes == old(sessoes)
      ensures movimentosBancarios == old(movimentosBancarios)
    {
      if valor <= 0.0 {
        return BadRequest;
      }
      var s := PrimeiraAberta(sessoes, false, usuario);
      if s.None? {
        return BadRequest;
      }
      var m := MovCaixa(s.value, Entrada, Dinheiro, valor,
                        if Truthy(motivo) then motivo.value else "Suprimento de caixa", usuario);
      forall k | 0 <= k < |sessoes|
        ensures SaldoDinheiro(sessoes, movimentos + [m], k) >= 0.0
      {
        SaldosAposMovimento(sessoes, movimentos, m, k);
      }
      movimentos := movimentos + [m];
      o := Ok;
    }

    /**
     * POST /sangria: refused when the amount exceeds the cash balance; otherwise one
     * SAIDA/DINHEIRO row, and a bank credit to the given account or the till's own.
     */
    method Sangria(usuario: Id, valor: real, motivo: Option<string>, destino: Option<Id>) returns (o: Outcome)
      requires Valid()
      modifies this
      ensures Valid()
      ensures o == Ok <==> valor > 0.0 && PrimeiraAberta(old(sessoes), false, usuario).Some?
                           && valor <= SaldoDinheiro(old(sessoes), old(movimentos),
                                                     PrimeiraAberta(old(sessoes), false, usuario).value)
      ensures caixas == old(caixas) && sessoes == old(sessoes)
      ensures o != Ok ==> o == BadRequest && movimentos == old(movimentos)
                          && movimentosBancarios == old(movimentosBancarios)
      ensures o == Ok ==>
        var s := PrimeiraAberta(old(sessoes), false, usuario).value;
        var conta := if Truthy(destino) then destino else caixas[sessoes[s].caixa].contaBancaria;
        movimentos == old(movimentos) + [MovCaixa(s, Saida, Dinheiro, valor,
                                                  if Truthy(motivo) then motivo.value else "Sangria de caixa", usuario)]
        && SaldoDinheiro(sessoes, movimentos, s) == SaldoDinheiro(old(sessoes), old(movimentos), s) - valor
        && movimentosBancarios == old(movimentosBancarios)
                                  + (if conta.Some? then [MovBanco(conta.value, valor, DescricaoSangria(sessoes[s].id))] else [])
    {
      if valor <= 0.0 {
        return BadRequest;
      }
      var s := PrimeiraAberta(sessoes, false, usuario);
      if s.None? {
        return BadRequest;
      }
      var saldo := SaldoDinheiro(sessoes, movimentos, s.value);
      if valor > saldo {
        return BadRequest;
      }
      var m := MovCaixa(s.value, Saida, Dinheiro, valor,
                        if Truthy(motivo) then motivo.value else "Sangria de caixa", usuario);
      forall k | 0 <= k < |sessoes|
        ensures SaldoDinheiro(sessoes, movimentos + [m], k) >= 0.0
      {
        SaldosAposMovimento(sessoes, movimentos, m, k);
      }
      SaldosAposMovimento(sessoes, movimentos, m, s.value);
      movimentos := movimentos + [m];
      var conta := if Truthy(destino) then destino else caixas[sessoes[s.value].caixa].contaBancaria;
      if conta.Some? {
        movimentosBancarios := movimentosBancarios + [MovBanco(conta.value, valor, DescricaoSangria(sessoes[s.value].id))];
      }
      o := Ok;
    }

    /** POST /fechar: the caller's open session becomes FECHADO with informado, sistema and diferenca. */
    method Fechar(usuario: Id, c: Contagem, obs: Option<string>) returns (o: Outcome)
      requires Valid()
      modifies this
      ensures Valid()
      ensures o == (if !ValidContagem(c) || PrimeiraAberta(old(sessoes), false, usuario).None? then BadRequest else Ok)
      ensures sessoes == if o == Ok
        then var s := PrimeiraAberta(old(sessoes), false, usuario).value;
             old(sessoes)[s := Encerrar(old(sessoes)[s], SaldoSistema(old(sessoes), old(movimentos), s), c, obs)]
        else old(sessoes)
      ensures caixas == old(caixas) && movimentos == old(movimentos)
      ensures movimentosBancarios == old(movimentosBancarios)
    {
      if !ValidContagem(c) {
        return BadRequest;
      }
      var s := PrimeiraAberta(sessoes, false, usuario);
      if s.None? {
        return BadRequest;
      }
      var sistema := SaldoSistema(sessoes, movimentos, s.value);
      var fechada := Encerrar(sessoes[s.value], sistema, c, obs);
      var novas := sessoes[s.value := fechada];
      forall k | 0 <= k < |novas|
        ensures SaldoDinheiro(novas, movimentos, k) >= 0.0
      {
        SaldosComMesmaAbertura(sessoes, movimentos, s.value, fechada, k);
      }
      sessoes := novas;
      o := Ok;
    }
  }
}
