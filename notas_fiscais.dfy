/**
 * Fiscal notes (notas_fiscais): header totals accumulated from the lines on creation,
 * transmission (numbering per company, branch and note type), cancellation and
 * correction letters, each recorded as one nfe_eventos row.
 */
module NotasFiscais {
  import opened Outcome
  import opened Money
  import opened Numbering

  /** PENDENTE is written and immediately overwritten by the simulated transmission. */
  datatype Status = Rascunho | Pendente | Autorizada | Rejeitada | Cancelada

  datatype Tipo = NFe | NFCe | NFSe

  /** A validated input line, with its taxes (absent amounts are 0). */
  datatype NovoItem = NovoItem(produto: Id, quantidade: real, valorUnitario: real, valorDesconto: real,
                               valorIcms: real, valorIcmsSt: real, valorPis: real, valorCofins: real,
                               valorIpi: real)

  predicate ValidNovoItem(n: NovoItem)
  {
    n.quantidade >= 0.001 && n.valorUnitario >= 0.0 && n.valorDesconto >= 0.0 && n.valorIcms >= 0.0
    && n.valorIcmsSt >= 0.0 && n.valorPis >= 0.0 && n.valorCofins >= 0.0 && n.valorIpi >= 0.0
  }

  datatype Pagamento = Pagamento(forma: Id, meio: string, valor: real)

  /** The validated body of POST /fiscal/notas (descriptive columns, copied verbatim, are left out). */
  datatype Dados = Dados(filial: Id, cliente: Id, pedido: Option<Id>, tipo: Tipo, valorFrete: real,
                         valorSeguro: real, valorDesconto: real, valorOutras: real,
                         itens: seq<NovoItem>, pagamentos: seq<Pagamento>)

  predicate ValidDados(d: Dados)
  {
    d.valorFrete >= 0.0 && d.valorSeguro >= 0.0 && d.valorDesconto >= 0.0 && d.valorOutras >= 0.0
    && (forall k :: 0 <= k < |d.itens| ==> ValidNovoItem(d.itens[k]))
    && (forall k :: 0 <= k < |d.pagamentos| ==> d.pagamentos[k].valor >= 0.01)
  }

  /** A stored line (nfe_itens). */
  datatype Item = Item(id: Id, numeroItem: nat, produto: Id, quantidade: real, valorUnitario: real,
                       valorTotal: real, valorDesconto: real, valorIcms: real, valorIcmsSt: real,
                       valorPis: real, valorCofins: real, valorIpi: real)

  datatype Nota = Nota(id: Id, empresa: Id, filial: Id, cliente: Id, pedido: Option<Id>, tipo: Tipo,
                       status: Status, numero: Option<string>, serie: Option<string>,
                       valorProdutos: real, valorFrete: real, valorSeguro: real, valorDesconto: real,
                       valorOutras: real, valorIcms: real, valorIcmsSt: real, valorPis: real,
                       valorCofins: real, valorIpi: real, valorTotal: real,
                       justificativa: Option<string>, itens: seq<Item>, pagamentos: seq<Pagamento>)

  datatype TipoEvento = Autorizacao | Cancelamento | CartaCorrecao

  /** A row of nfe_eventos (protocol numbers and timestamps are left out). */
  datatype Evento = Evento(nota: Id, tipo: TipoEvento, justificativa: Option<string>,
                           sequencia: Option<nat>, correcao: Option<string>)

  // ---------------------------------------------------------------- line amounts

  function ProdutoNovo(n: NovoItem): real { n.quantidade * n.valorUnitario }
  function DescontoNovo(n: NovoItem): real { n.valorDesconto }
  function IcmsNovo(n: NovoItem): real { n.valorIcms }
  function IcmsStNovo(n: NovoItem): real { n.valorIcmsSt }
  function PisNovo(n: NovoItem): real { n.valorPis }
  function CofinsNovo(n: NovoItem): real { n.valorCofins }
  function IpiNovo(n: NovoItem): real { n.valorIpi }

  function ProdutoDe(it: Item): real { it.valorTotal }
  function DescontoDe(it: Item): real { it.valorDesconto }
  function IcmsDe(it: Item): real { it.valorIcms }
  function IcmsStDe(it: Item): real { it.valorIcmsSt }
  function PisDe(it: Item): real { it.valorPis }
  function CofinsDe(it: Item): real { it.valorCofins }
  function IpiDe(it: Item): real { it.valorIpi }

  /** The seven `+=` accumulators of the create handler. */
  datatype Totais = Totais(produtos: real, icms: real, icmsSt: real, pis: real, cofins: real,
                           ipi: real, desconto: real)

  /** The accumulators after the whole loop: one sum per column over the input lines. */
  function TotaisDe(novos: seq<NovoItem>): Totais
  {
    Totais(SumOf(novos, ProdutoNovo), SumOf(novos, IcmsNovo), SumOf(novos, IcmsStNovo),
           SumOf(novos, PisNovo), SumOf(novos, CofinsNovo), SumOf(novos, IpiNovo),
           SumOf(novos, DescontoNovo))
  }

  /** The create handler's totals loop. */
  method Totalizar(novos: seq<NovoItem>) returns (t: Totais)
    ensures t == TotaisDe(novos)
  {
    var produtos, icms, icmsSt, pis, cofins, ipi, desconto := 0.0, 0.0, 0.0, 0.0, 0.0, 0.0, 0.0;
    var k := 0;
    while k < |novos|
      invariant 0 <= k <= |novos|
      invariant Totais(produtos, icms, icmsSt, pis, cofins, ipi, desconto) == TotaisDe(novos[..k])
    {
      var item := novos[k];
      assert novos[..k] + [item] == novos[..k + 1];
      SumOfAppend(novos[..k], item, ProdutoNovo);
      SumOfAppend(novos[..k], item, IcmsNovo);
      SumOfAppend(novos[..k], item, IcmsStNovo);
      SumOfAppend(novos[..k], item, PisNovo);
      SumOfAppend(novos[..k], item, CofinsNovo);
      SumOfAppend(novos[..k], item, IpiNovo);
      SumOfAppend(novos[..k], item, DescontoNovo);
      produtos := produtos + item.quantidade * item.valorUnitario;
      icms := icms + item.valorIcms;
      icmsSt := icmsSt + item.valorIcmsSt;
      pis := pis + item.valorPis;
      cofins := cofins + item.valorCofins;
      ipi := ipi + item.valorIpi;
      desconto := desconto + item.valorDesconto;
      k := k + 1;
    }
    assert novos[..k] == novos;
    t := Totais(produtos, icms, icmsSt, pis, cofins, ipi, desconto);
  }

  /** A stored line: its total is quantity × unit price; discount and taxes are copied. */
  function ItemDe(n: NovoItem, id: Id, numeroItem: nat): Item
  {
    Item(id, numeroItem, n.produto, n.quantidade, n.valorUnitario, n.quantidade * n.valorUnitario,
         n.valorDesconto, n.valorIcms, n.valorIcmsSt, n.valorPis, n.valorCofins, n.valorIpi)
  }

  /** The lines in input order, numbered 1..n (`numeroItem++`). */
  function ItensDe(novos: seq<NovoItem>, ids: seq<Id>): (r: seq<Item>)
    requires |ids| == |novos|
    ensures |r| == |novos|
    ensures forall k :: 0 <= k < |novos| ==> r[k] == ItemDe(novos[k], ids[k], k + 1)
  {
    if novos == [] then []
    else ItensDe(novos[..|novos| - 1], ids[..|ids| - 1]) + [ItemDe(novos[|novos| - 1], ids[|ids| - 1], |novos|)]
  }

  /** A column the stored line copies (or computes) from its input line sums up the same. */
  lemma {:induction false} ItensDeSoma(novos: seq<NovoItem>, ids: seq<Id>, f: NovoItem -> real, g: Item -> real)
    requires |ids| == |novos|
    requires forall k :: 0 <= k < |novos| ==> g(ItemDe(novos[k], ids[k], k + 1)) == f(novos[k])
    ensures SumOf(ItensDe(novos, ids), g) == SumOf(novos, f)
  {
    if novos != [] {
      var n := |novos|;
      ItensDeSoma(novos[..n - 1], ids[..n - 1], f, g);
      assert novos[..n - 1] + [novos[n - 1]] == novos;
      SumOfAppend(novos[..n - 1], novos[n - 1], f);
      SumOfAppend(ItensDe(novos[..n - 1], ids[..n - 1]), ItemDe(novos[n - 1], ids[n - 1], n), g);
    }
  }

  /** The header sums of the stored lines equal the accumulators computed from the input. */
  lemma {:induction false} ItensDeSomas(novos: seq<NovoItem>, ids: seq<Id>)
    requires |ids| == |novos|
    ensures var itens := ItensDe(novos, ids);
      TotaisDe(novos) == Totais(SumOf(itens, ProdutoDe), SumOf(itens, IcmsDe), SumOf(itens, IcmsStDe),
                                SumOf(itens, PisDe), SumOf(itens, CofinsDe), SumOf(itens, IpiDe),
                                SumOf(itens, DescontoDe))
  {
    ItensDeSoma(novos, ids, ProdutoNovo, ProdutoDe);
    ItensDeSoma(novos, ids, IcmsNovo, IcmsDe);
    ItensDeSoma(novos, ids, IcmsStNovo, IcmsStDe);
    ItensDeSoma(novos, ids, PisNovo, PisDe);
    ItensDeSoma(novos, ids, CofinsNovo, CofinsDe);
    ItensDeSoma(novos, ids, IpiNovo, IpiDe);
    ItensDeSoma(novos, ids, DescontoNovo, DescontoDe);
  }

  // ---------------------------------------------------------------- invariants

  /**
   * The stored header agrees with its lines: each tax column and the products value are the
   * sums over the lines, the stored discount is the line discounts plus the header discount,
   * and the total is products + freight + insurance + other + ICMS-ST + IPI − discount.
   */
  predicate Totalizada(n: Nota)
  {
    n.valorProdutos == SumOf(n.itens, ProdutoDe)
    && n.valorIcms == SumOf(n.itens, IcmsDe) && n.valorIcmsSt == SumOf(n.itens, IcmsStDe)
    && n.valorPis == SumOf(n.itens, PisDe) && n.valorCofins == SumOf(n.itens, CofinsDe)
    && n.valorIpi == SumOf(n.itens, IpiDe)
    && SumOf(n.itens, DescontoDe) <= n.valorDesconto
    && n.valorTotal == n.valorProdutos + n.valorFrete + n.valorSeguro + n.valorOutras
                       + n.valorIcmsSt + n.valorIpi - n.valorDesconto
  }

  /** A note carries a number exactly from its authorisation on; a draft has none. */
  predicate Numerada(n: Nota)
  {
    (n.status in {Autorizada, Cancelada} ==> n.numero.Some? && n.serie == Some("1"))
    && (n.status == Rascunho ==> n.numero.None?)
  }

  predicate Coerente(n: Nota) { Totalizada(n) && Numerada(n) }

  predicate MesmaSerie(a: Nota, b: Nota) { a.empresa == b.empresa && a.filial == b.filial && a.tipo == b.tipo }

  /** Within one (company, branch, type) no two numbered notes share a numeric value. */
  predicate NumerosUnicos(rows: seq<Nota>)
  {
    forall i, j :: 0 <= i < |rows| && 0 <= j < |rows| && i != j && MesmaSerie(rows[i], rows[j])
                   && rows[i].numero.Some? && rows[j].numero.Some? ==>
      CastInteger(rows[i].numero.value) != CastInteger(rows[j].numero.value)
  }

  predicate IdsUnicos(rows: seq<Nota>)
  {
    forall i, j :: 0 <= i < |rows| && 0 <= j < |rows| && i != j ==> rows[i].id != rows[j].id
  }

  predicate Coerentes(rows: seq<Nota>)
  {
    (forall k :: 0 <= k < |rows| ==> Coerente(rows[k])) && NumerosUnicos(rows) && IdsUnicos(rows)
  }

  /** Correction letters already recorded for a note. */
  function CartasDe(eventos: seq<Evento>, nota: Id): nat
  {
    if eventos == [] then 0
    else CartasDe(eventos[..|eventos| - 1], nota)
         + (var e := eventos[|eventos| - 1]; if e.nota == nota && e.tipo == CartaCorrecao then 1 else 0)
  }

  /** The k-th correction letter of a note carries sequencia k. */
  predicate CartasSequenciadas(eventos: seq<Evento>)
  {
    forall j :: 0 <= j < |eventos| && eventos[j].tipo == CartaCorrecao ==>
      eventos[j].sequencia == Some(CartasDe(eventos[..j], eventos[j].nota) + 1)
  }

  /** Appending an event keeps the letters numbered; a letter must carry the next sequencia. */
  lemma {:induction false} CartasAcrescentar(eventos: seq<Evento>, e: Evento)
    requires CartasSequenciadas(eventos)
    requires e.tipo == CartaCorrecao ==> e.sequencia == Some(CartasDe(eventos, e.nota) + 1)
    ensures CartasSequenciadas(eventos + [e])
  {
    var r := eventos + [e];
    forall j | 0 <= j < |r| && r[j].tipo == CartaCorrecao
      ensures r[j].sequencia == Some(CartasDe(r[..j], r[j].nota) + 1)
    {
      if j < |eventos| {
        PrefixoAcrescentado(eventos, e, j);
        assert r[j] == eventos[j];
      } else {
        PrefixoAcrescentado(eventos, e, j);
        assert r[j] == e;
      }
    }
  }

  /** A prefix of `s + [x]` that stops before `x` is a prefix of `s`. */
  lemma {:induction false} PrefixoAcrescentado(s: seq<Evento>, x: Evento, j: nat)
    requires j <= |s|
    ensures (s + [x])[..j] == s[..j]
  {
  }

  /** Adding one event adds one letter to exactly the note it is a letter of. */
  lemma {:induction false} CartasDeAcrescentar(eventos: seq<Evento>, e: Evento, nota: Id)
    ensures CartasDe(eventos + [e], nota)
            == CartasDe(eventos, nota) + (if e.nota == nota && e.tipo == CartaCorrecao then 1 else 0)
  {
    assert (eventos + [e])[..|eventos|] == eventos;
  }

  // ---------------------------------------------------------------- lookups and numbering

  function Localizar(rows: seq<Nota>, id: Id, empresa: Id): (r: Option<nat>)
    ensures r.Some? ==> r.value < |rows| && rows[r.value].id == id && rows[r.value].empresa == empresa
    ensures r.None? ==> forall k :: 0 <= k < |rows| ==> !(rows[k].id == id && rows[k].empresa == empresa)
  {
    if rows == [] then None
    else match Localizar(rows[..|rows| - 1], id, empresa)
      case Some(i) => Some(i)
      case None => if rows[|rows| - 1].id == id && rows[|rows| - 1].empresa == empresa then Some(|rows| - 1) else None
  }

  /** The numbers present in one (company, branch, type); SQL's MAX skips the null ones. */
  function NumerosSerie(rows: seq<Nota>, empresa: Id, filial: Id, tipo: Tipo): (r: seq<string>)
    ensures forall k :: 0 <= k < |rows| && rows[k].empresa == empresa && rows[k].filial == filial
                        && rows[k].tipo == tipo && rows[k].numero.Some? ==>
      rows[k].numero.value in r
  {
    if rows == [] then []
    else NumerosSerie(rows[..|rows| - 1], empresa, filial, tipo)
         + (var n := rows[|rows| - 1];
            if n.empresa == empresa && n.filial == filial && n.tipo == tipo && n.numero.Some?
            then [n.numero.value] else [])
  }

  /** gerarNumeroNFe: `(MAX(CAST(numero AS INTEGER)) || 0) + 1` as a plain, unpadded string. */
  function NumeroNFe(rows: seq<Nota>, empresa: Id, filial: Id, tipo: Tipo): string
  {
    Digits(MaxNumero(NumerosSerie(rows, empresa, filial, tipo)) + 1)
  }

  /** The allocated number is one past the largest of its series, so above each of them. */
  lemma {:induction false} NumeroNFeAcima(rows: seq<Nota>, empresa: Id, filial: Id, tipo: Tipo)
    ensures CastInteger(NumeroNFe(rows, empresa, filial, tipo)) == MaxNumero(NumerosSerie(rows, empresa, filial, tipo)) + 1
    ensures forall k :: 0 <= k < |rows| && rows[k].empresa == empresa && rows[k].filial == filial
                        && rows[k].tipo == tipo && rows[k].numero.Some? ==>
      CastInteger(rows[k].numero.value) < CastInteger(NumeroNFe(rows, empresa, filial, tipo))
  {
    var numeros := NumerosSerie(rows, empresa, filial, tipo);
    CastDigits(MaxNumero(numeros) + 1);
    MaxNumeroBounds(numeros);
  }

  // ---------------------------------------------------------------- create

  /** The created note: rascunho, unnumbered, lines 1..n, header totals from the accumulators. */
  function Nova(id: Id, empresa: Id, d: Dados, itemIds: seq<Id>, t: Totais): Nota
    requires |itemIds| == |d.itens|
  {
    Nota(id, empresa, d.filial, d.cliente, d.pedido, d.tipo, Rascunho, None, None,
         t.produtos, d.valorFrete, d.valorSeguro, t.desconto + d.valorDesconto, d.valorOutras,
         t.icms, t.icmsSt, t.pis, t.cofins, t.ipi,
         t.produtos + d.valorFrete + d.valorSeguro + d.valorOutras + t.icmsSt + t.ipi
         - t.desconto - d.valorDesconto,
         None, ItensDe(d.itens, itemIds), d.pagamentos)
  }

  /**
   * A fresh note is coherent: products = Σ quantity × unit price over its lines, stored discount
   * = Σ line discounts + header discount, and its lines are numbered 1..n in input order.
   */
  lemma {:induction false} NovaCoerente(id: Id, empresa: Id, d: Dados, itemIds: seq<Id>)
    requires |itemIds| == |d.itens| && ValidDados(d)
    ensures var n := Nova(id, empresa, d, itemIds, TotaisDe(d.itens));
      Coerente(n) && n.status == Rascunho && n.numero.None?
      && n.valorProdutos == SumOf(d.itens, ProdutoNovo)
      && n.valorDesconto == SumOf(n.itens, DescontoDe) + d.valorDesconto
      && |n.itens| == |d.itens|
      && forall k :: 0 <= k < |n.itens| ==> n.itens[k].numeroItem == k + 1 && n.itens[k].produto == d.itens[k].produto
  {
    ItensDeSomas(d.itens, itemIds);
  }

  function Emitir(rows: seq<Nota>, id: Id, empresa: Id, d: Dados, itemIds: seq<Id>, t: Totais): seq<Nota>
    requires |itemIds| == |d.itens|
  {
    rows + [Nova(id, empresa, d, itemIds, t)]
  }

  lemma {:induction false} EmitirCoerentes(rows: seq<Nota>, id: Id, empresa: Id, d: Dados, itemIds: seq<Id>)
    requires |itemIds| == |d.itens| && Coerentes(rows) && ValidDados(d)
    requires forall k :: 0 <= k < |rows| ==> rows[k].id != id
    ensures Coerentes(Emitir(rows, id, empresa, d, itemIds, TotaisDe(d.itens)))
  {
    NovaCoerente(id, empresa, d, itemIds);
    var r := Emitir(rows, id, empresa, d, itemIds, TotaisDe(d.itens));
    assert forall k :: 0 <= k < |rows| ==> r[k] == rows[k];
  }

  // ---------------------------------------------------------------- transmit, cancel

  /** The authorised note: numbered for its series, serie '1'. */
  function Autorizar(rows: seq<Nota>, i: nat): Nota
    requires i < |rows|
  {
    var n := rows[i];
    n.(status := Autorizada, numero := Some(NumeroNFe(rows, n.empresa, n.filial, n.tipo)), serie := Some("1"))
  }

  /** Replacing a row by one with the same id and series membership keeps the ids unique. */
  lemma {:induction false} IdsAtualizar(rows: seq<Nota>, i: nat, n: Nota)
    requires IdsUnicos(rows) && i < |rows| && n.id == rows[i].id
    ensures IdsUnicos(rows[i := n])
  {
  }

  /** The new number is above every number of its series, so the series stays duplicate-free. */
  lemma {:induction false} AutorizarUnicos(rows: seq<Nota>, i: nat)
    requires NumerosUnicos(rows) && i < |rows|
    ensures NumerosUnicos(rows[i := Autorizar(rows, i)])
  {
    var n := rows[i];
    var novo := Autorizar(rows, i);
    NumeroNFeAcima(rows, n.empresa, n.filial, n.tipo);
    var r := rows[i := novo];
    forall a, b | 0 <= a < |r| && 0 <= b < |r| && a != b && MesmaSerie(r[a], r[b])
                  && r[a].numero.Some? && r[b].numero.Some?
      ensures CastInteger(r[a].numero.value) != CastInteger(r[b].numero.value)
    {
      if a == i {
        assert r[b] == rows[b];
        assert CastInteger(rows[b].numero.value) < CastInteger(novo.numero.value);
      } else if b == i {
        assert r[a] == rows[a];
        assert CastInteger(rows[a].numero.value) < CastInteger(novo.numero.value);
      } else {
        assert r[a] == rows[a] && r[b] == rows[b];
      }
    }
  }

  lemma {:induction false} AutorizarCoerentes(rows: seq<Nota>, i: nat)
    requires Coerentes(rows) && i < |rows|
    ensures Coerentes(rows[i := Autorizar(rows, i)])
  {
    AutorizarUnicos(rows, i);
    IdsAtualizar(rows, i, Autorizar(rows, i));
    var r := rows[i := Autorizar(rows, i)];
    assert Totalizada(rows[i]);
    assert forall k :: 0 <= k < |r| ==> Coerente(r[k]);
  }

  /** The transmitted note's number is new in its series. */
  lemma {:induction false} AutorizarNumeroNovo(rows: seq<Nota>, i: nat)
    requires i < |rows|
    ensures var n := Autorizar(rows, i);
      n.numero.Some? && n.status == Autorizada && n.serie == Some("1")
      && CastInteger(n.numero.value) == MaxNumero(NumerosSerie(rows, n.empresa, n.filial, n.tipo)) + 1
      && forall k :: 0 <= k < |rows| && MesmaSerie(rows[k], n) && rows[k].numero.Some? ==>
           rows[k].numero != n.numero
  {
    var n := rows[i];
    NumeroNFeAcima(rows, n.empresa, n.filial, n.tipo);
  }

  function ComCancelamento(n: Nota, justificativa: string): (r: Nota)
    requires n.status == Autorizada
    ensures Coerente(n) ==> Coerente(r)
    ensures r.numero == n.numero && r.itens == n.itens && r.valorTotal == n.valorTotal
  {
    n.(status := Cancelada, justificativa := Some(justificativa))
  }

  lemma {:induction false} CoerentesAtualizar(rows: seq<Nota>, i: nat, n: Nota)
    requires Coerentes(rows) && i < |rows| && Coerente(n)
    requires n.id == rows[i].id && n.empresa == rows[i].empresa && n.filial == rows[i].filial
             && n.tipo == rows[i].tipo && n.numero == rows[i].numero
    ensures Coerentes(rows[i := n])
  {
    var r := rows[i := n];
    forall a, b | 0 <= a < |r| && 0 <= b < |r| && a != b && MesmaSerie(r[a], r[b])
                  && r[a].numero.Some? && r[b].numero.Some?
      ensures CastInteger(r[a].numero.value) != CastInteger(r[b].numero.value)
    {
      assert MesmaSerie(rows[a], rows[b]);
    }
  }

  // ---------------------------------------------------------------- state

  class NotasFiscais {
    var notas: seq<Nota>
    var eventos: seq<Evento>

    ghost predicate Valid()
      reads this`notas, this`eventos
    {
      Coerentes(notas) && CartasSequenciadas(eventos)
    }

    constructor ()
      ensures Valid() && notas == [] && eventos == []
    {
      notas, eventos := [], [];
    }

    /** POST /fiscal/notas. */
    method Criar(id: Id, empresa: Id, d: Dados, itemIds: seq<Id>) returns (o: Outcome)
      requires Valid() && |itemIds| == |d.itens|
      requires forall k :: 0 <= k < |notas| ==> notas[k].id != id
      modifies this`notas
      ensures Valid()
      ensures o == if ValidDados(d) then Ok else BadRequest
      ensures notas == if o == Ok then Emitir(old(notas), id, empresa, d, itemIds, TotaisDe(d.itens)) else old(notas)
    {
      if !ValidDados(d) {
        return BadRequest;
      }
      EmitirCoerentes(notas, id, empresa, d, itemIds);
      var t := Totalizar(d.itens);
      notas := Emitir(notas, id, empresa, d, itemIds, t);
      o := Ok;
    }

    /** POST /:id/transmitir: from rascunho or rejeitada, ending autorizada with one AUTORIZACAO event. */
    method Transmitir(id: Id, empresa: Id) returns (o: Outcome)
      requires Valid()
      modifies this`notas, this`eventos
      ensures Valid()
      ensures var i := Localizar(old(notas), id, empresa);
        o == (if i.None? then NotFound
              else if old(notas)[i.value].status !in {Rascunho, Rejeitada} then BadRequest
              else Ok)
      ensures notas == if o == Ok
        then var i := Localizar(old(notas), id, empresa).value; old(notas)[i := Autorizar(old(notas), i)]
        else old(notas)
      ensures eventos == if o == Ok then old(eventos) + [Evento(id, Autorizacao, None, None, None)] else old(eventos)
    {
      var i := Localizar(notas, id, empresa);
      if i.None? {
        return NotFound;
      }
      if notas[i.value].status !in {Rascunho, Rejeitada} {
        return BadRequest;
      }
      AutorizarCoerentes(notas, i.value);
      CartasAcrescentar(eventos, Evento(id, Autorizacao, None, None, None));
      notas := notas[i.value := Autorizar(notas, i.value)];
      eventos := eventos + [Evento(id, Autorizacao, None, None, None)];
      o := Ok;
    }

    /** POST /:id/cancelar: a justification of at least 15 characters, then only autorizada notes. */
    method Cancelar(id: Id, empresa: Id, justificativa: string) returns (o: Outcome)
      requires Valid()
      modifies this`notas, this`eventos
      ensures Valid()
      ensures var i := Localizar(old(notas), id, empresa);
        o == (if |justificativa| < 15 then BadRequest
              else if i.None? then NotFound
              else if old(notas)[i.value].status != Autorizada then BadRequest
              else Ok)
      ensures notas == if o == Ok
        then var i := Localizar(old(notas), id, empresa).value; old(notas)[i := ComCancelamento(old(notas)[i], justificativa)]
        else old(notas)
      ensures eventos == if o == Ok
        then old(eventos) + [Evento(id, Cancelamento, Some(justificativa), None, None)]
        else old(eventos)
    {
      if |justificativa| < 15 {
        return BadRequest;
      }
      var i := Localizar(notas, id, empresa);
      if i.None? {
        return NotFound;
      }
      if notas[i.value].status != Autorizada {
        return BadRequest;
      }
      var novo := ComCancelamento(notas[i.value], justificativa);
      CoerentesAtualizar(notas, i.value, novo);
      CartasAcrescentar(eventos, Evento(id, Cancelamento, Some(justificativa), None, None));
      notas := notas[i.value := novo];
      eventos := eventos + [Evento(id, Cancelamento, Some(justificativa), None, None)];
      o := Ok;
    }

    /**
     * POST /:id/carta-correcao: 15..1000 characters, only autorizada notes; the letter is
     * numbered after the note's earlier letters and the note itself is not changed.
     */
    method RegistrarCarta(id: Id, empresa: Id, correcao: string) returns (o: Outcome, sequencia: nat)
      requires Valid()
      modifies this`eventos
      ensures Valid()
      ensures var i := Localizar(notas, id, empresa);
        o == (if |correcao| < 15 || |correcao| > 1000 then BadRequest
              else if i.None? then NotFound
              else if notas[i.value].status != Autorizada then BadRequest
              else Ok)
      ensures o == Ok ==> sequencia == CartasDe(old(eventos), id) + 1
      ensures eventos == if o == Ok
        then old(eventos) + [Evento(id, CartaCorrecao, None, Some(sequencia), Some(correcao))]
        else old(eventos)
    {
      sequencia := 0;
      if |correcao| < 15 || |correcao| > 1000 {
        return BadRequest, sequencia;
      }
      var i := Localizar(notas, id, empresa);
      if i.None? {
        return NotFound, sequencia;
      }
      if notas[i.value].status != Autorizada {
        return BadRequest, sequencia;
      }
      sequencia := CartasDe(eventos, id) + 1;
      CartasAcrescentar(eventos, Evento(id, CartaCorrecao, None, Some(sequencia), Some(correcao)));
      eventos := eventos + [Evento(id, CartaCorrecao, None, Some(sequencia), Some(correcao))];
      o := Ok;
    }
  }
}
