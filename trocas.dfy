/**
 * Product exchanges (trocas): the returned and the new lines with their values, the
 * 'TRO' + counter number, the SOLICITADA → APROVADA → PRODUTOS_RECEBIDOS → FINALIZADA
 * lifecycle, the stock movements written on receiving and on finalising, and cancellation.
 */
module Trocas {
  import opened Outcome
  import opened Money
  import opened Numbering
  import opened Estoque

  datatype Status = Solicitada | Aprovada | ProdutosRecebidos | Finalizada | Cancelada

  datatype Motivo = Defeito | TamanhoIncorreto | CorIncorreta | Arrependimento | Avaria | Outros

  datatype Condicao = Bom | Avariado | Defeituoso

  /** Validated input lines. */
  datatype NovoDevolvido = NovoDevolvido(produto: Id, quantidade: int, valorUnitario: real, motivo: Option<string>)
  datatype NovoItem = NovoItem(produto: Id, quantidade: int, valorUnitario: real)

  /** A row of trocas_itens_devolvidos, with what the receiving step records. */
  datatype Devolvido = Devolvido(id: Id, produto: Id, quantidade: int, valorUnitario: real, motivo: Option<string>,
                                 quantidadeRecebida: Option<int>, condicao: Option<Condicao>,
                                 observacao: Option<string>)

  /** A row of trocas_itens_novos. */
  datatype ItemNovo = ItemNovo(id: Id, produto: Id, quantidade: int, valorUnitario: real)

  datatype Troca = Troca(id: Id, empresa: Id, numero: string, cliente: Id, pedidoOriginal: Option<Id>,
                         motivo: Motivo, descricao: string, valorDevolvido: real, valorNovo: real,
                         diferenca: real, status: Status, criadoPor: Id, aprovadaPor: Option<Id>,
                         observacoesAprovacao: Option<string>, recebidoPor: Option<Id>,
                         observacoesRecebimento: Option<string>, finalizadoPor: Option<Id>,
                         motivoCancelamento: Option<string>, canceladoPor: Option<Id>,
                         devolvidos: seq<Devolvido>, novos: seq<ItemNovo>)

  /** The validated body of POST /trocas; absent new lines are an empty list. */
  datatype Dados = Dados(cliente: Id, pedidoOriginal: Option<Id>, motivo: Motivo, descricao: string,
                         devolvidos: seq<NovoDevolvido>, novos: seq<NovoItem>)

  predicate ValidDados(d: Dados)
  {
    |d.descricao| >= 1 && |d.devolvidos| >= 1
    && (forall k :: 0 <= k < |d.devolvidos| ==> d.devolvidos[k].quantidade >= 1 && d.devolvidos[k].valorUnitario >= 0.0)
    && (forall k :: 0 <= k < |d.novos| ==> d.novos[k].quantidade >= 1 && d.novos[k].valorUnitario >= 0.0)
  }

  /** One entry of `itens_recebidos`. */
  datatype Recebimento = Recebimento(item: Id, quantidadeRecebida: int, condicao: Condicao, observacao: Option<string>)

  predicate ValidRecebimentos(rs: seq<Recebimento>)
  {
    forall k :: 0 <= k < |rs| ==> rs[k].quantidadeRecebida >= 0
  }

  // ---------------------------------------------------------------- values

  function ValorNovoDevolvido(n: NovoDevolvido): real { (n.quantidade as real) * n.valorUnitario }
  function ValorNovoItem(n: NovoItem): real { (n.quantidade as real) * n.valorUnitario }
  function ValorDevolvido(d: Devolvido): real { (d.quantidade as real) * d.valorUnitario }
  function ValorItemNovo(n: ItemNovo): real { (n.quantidade as real) * n.valorUnitario }

  /** The stored values agree with the stored lines. */
  predicate Valorada(t: Troca)
  {
    t.valorDevolvido == SumOf(t.devolvidos, ValorDevolvido)
    && t.valorNovo == SumOf(t.novos, ValorItemNovo)
    && t.diferenca == t.valorNovo - t.valorDevolvido
  }

  /** A stored returned line: the input line with `motivo || null`, nothing received yet. */
  function DevolvidoDe(n: NovoDevolvido, id: Id): (d: Devolvido)
    ensures d.id == id && d.produto == n.produto && d.quantidade == n.quantidade
            && d.valorUnitario == n.valorUnitario
    ensures d.motivo.Some? <==> Truthy(n.motivo)
    ensures d.motivo.Some? ==> d.motivo == n.motivo
  {
    Devolvido(id, n.produto, n.quantidade, n.valorUnitario, OrNull(n.motivo), None, None, None)
  }

  function ItemNovoDe(n: NovoItem, id: Id): ItemNovo
  {
    ItemNovo(id, n.produto, n.quantidade, n.valorUnitario)
  }

  function DevolvidosDe(ns: seq<NovoDevolvido>, ids: seq<Id>): (r: seq<Devolvido>)
    requires |ids| == |ns|
    ensures |r| == |ns| && forall k :: 0 <= k < |ns| ==> r[k] == DevolvidoDe(ns[k], ids[k])
  {
    if ns == [] then [] else DevolvidosDe(ns[..|ns| - 1], ids[..|ids| - 1]) + [DevolvidoDe(ns[|ns| - 1], ids[|ids| - 1])]
  }

  function NovosDe(ns: seq<NovoItem>, ids: seq<Id>): (r: seq<ItemNovo>)
    requires |ids| == |ns|
    ensures |r| == |ns| && forall k :: 0 <= k < |ns| ==> r[k] == ItemNovoDe(ns[k], ids[k])
  {
    if ns == [] then [] else NovosDe(ns[..|ns| - 1], ids[..|ids| - 1]) + [ItemNovoDe(ns[|ns| - 1], ids[|ids| - 1])]
  }

  lemma {:induction false} DevolvidosDeValor(ns: seq<NovoDevolvido>, ids: seq<Id>)
    requires |ids| == |ns|
    ensures SumOf(DevolvidosDe(ns, ids), ValorDevolvido) == SumOf(ns, ValorNovoDevolvido)
  {
    var r := DevolvidosDe(ns, ids);
    forall k | 0 <= k < |ns|
      ensures ValorDevolvido(r[k]) == ValorNovoDevolvido(ns[k])
    {
      assert r[k] == DevolvidoDe(ns[k], ids[k]);
    }
    SumOfPointwise(r, ns, ValorDevolvido, ValorNovoDevolvido);
  }

  lemma {:induction false} NovosDeValor(ns: seq<NovoItem>, ids: seq<Id>)
    requires |ids| == |ns|
    ensures SumOf(NovosDe(ns, ids), ValorItemNovo) == SumOf(ns, ValorNovoItem)
  {
    var r := NovosDe(ns, ids);
    forall k | 0 <= k < |ns|
      ensures ValorItemNovo(r[k]) == ValorNovoItem(ns[k])
    {
      assert r[k] == ItemNovoDe(ns[k], ids[k]);
    }
    SumOfPointwise(r, ns, ValorItemNovo, ValorNovoItem);
  }

  // ---------------------------------------------------------------- numbering

  /** `COUNT(*) FROM trocas WHERE empresa_id = ?`. */
  function DaEmpresa(rows: seq<Troca>, empresa: Id): nat
  {
    if rows == [] then 0
    else DaEmpresa(rows[..|rows| - 1], empresa) + (if rows[|rows| - 1].empresa == empresa then 1 else 0)
  }

  /** `'TRO' + String(count + 1).padStart(6, '0')`. */
  function NumeroTroca(rows: seq<Troca>, empresa: Id): string
  {
    CounterNumero("TRO", DaEmpresa(rows, empresa), 6)
  }

  /** Each exchange carries the number its company's count gave it when it was created. */
  predicate Numeradas(rows: seq<Troca>)
  {
    forall j :: 0 <= j < |rows| ==> rows[j].numero == NumeroTroca(rows[..j], rows[j].empresa)
  }

  lemma {:induction false} DaEmpresaCresce(rows: seq<Troca>, i: nat, j: nat, empresa: Id)
    requires i < j <= |rows| && rows[i].empresa == empresa
    ensures DaEmpresa(rows[..i], empresa) < DaEmpresa(rows[..j], empresa)
    decreases j
  {
    var p := rows[..j];
    assert p[..j - 1] == rows[..j - 1];
    if j - 1 == i {
    } else {
      DaEmpresaCresce(rows, i, j - 1, empresa);
    }
  }

  /** Creation numbers never repeat within a company. */
  lemma {:induction false} NumerosDistintos(rows: seq<Troca>, i: nat, j: nat)
    requires Numeradas(rows) && i < j < |rows| && rows[i].empresa == rows[j].empresa
    ensures rows[i].numero != rows[j].numero
  {
    DaEmpresaCresce(rows, i, j, rows[i].empresa);
    CounterNumeroInjective("TRO", DaEmpresa(rows[..i], rows[i].empresa), DaEmpresa(rows[..j], rows[i].empresa), 6);
  }

  lemma {:induction false} NumeradasAtualizar(rows: seq<Troca>, i: nat, t: Troca)
    requires Numeradas(rows) && i < |rows| && t.numero == rows[i].numero && t.empresa == rows[i].empresa
    ensures Numeradas(rows[i := t])
  {
    var r := rows[i := t];
    forall j | 0 <= j < |r|
      ensures r[j].numero == NumeroTroca(r[..j], r[j].empresa)
    {
      DaEmpresaIgual(rows[..j], r[..j], r[j].empresa);
    }
  }

  /** The count only sees the companies of the rows. */
  lemma {:induction false} DaEmpresaIgual(a: seq<Troca>, b: seq<Troca>, empresa: Id)
    requires |a| == |b| && forall k :: 0 <= k < |a| ==> a[k].empresa == b[k].empresa
    ensures DaEmpresa(a, empresa) == DaEmpresa(b, empresa)
  {
    if a != [] {
      DaEmpresaIgual(a[..|a| - 1], b[..|b| - 1], empresa);
    }
  }

  // ---------------------------------------------------------------- create

  function Nova(rows: seq<Troca>, id: Id, empresa: Id, usuario: Id, d: Dados, devIds: seq<Id>, novoIds: seq<Id>): Troca
    requires |devIds| == |d.devolvidos| && |novoIds| == |d.novos|
  {
    var valorDevolvido := SumOf(d.devolvidos, ValorNovoDevolvido);
    var valorNovo := SumOf(d.novos, ValorNovoItem);
    Troca(id, empresa, NumeroTroca(rows, empresa), d.cliente, OrNull(d.pedidoOriginal), d.motivo, d.descricao,
          valorDevolvido, valorNovo, valorNovo - valorDevolvido, Solicitada, usuario, None, None, None, None,
          None, None, None, DevolvidosDe(d.devolvidos, devIds), NovosDe(d.novos, novoIds))
  }

  function Solicitar(rows: seq<Troca>, id: Id, empresa: Id, usuario: Id, d: Dados, devIds: seq<Id>, novoIds: seq<Id>): seq<Troca>
    requires |devIds| == |d.devolvidos| && |novoIds| == |d.novos|
  {
    rows + [Nova(rows, id, empresa, usuario, d, devIds, novoIds)]
  }

  /**
   * A new exchange is SOLICITADA, numbered 'TRO' + (company count + 1), and its values are
   * Σ quantity × unit price over the returned and over the new lines, with
   * diferenca = new − returned.
   */
  lemma {:induction false} NovaValorada(rows: seq<Troca>, id: Id, empresa: Id, usuario: Id, d: Dados, devIds: seq<Id>, novoIds: seq<Id>)
    requires |devIds| == |d.devolvidos| && |novoIds| == |d.novos|
    ensures var t := Nova(rows, id, empresa, usuario, d, devIds, novoIds);
      Valorada(t) && t.status == Solicitada && t.numero == CounterNumero("TRO", DaEmpresa(rows, empresa), 6)
      && t.valorDevolvido == SumOf(d.devolvidos, ValorNovoDevolvido)
      && t.valorNovo == SumOf(d.novos, ValorNovoItem)
      && (d.novos == [] ==> t.valorNovo == 0.0)
  {
    DevolvidosDeValor(d.devolvidos, devIds);
    NovosDeValor(d.novos, novoIds);
  }

  lemma {:induction false} SolicitarNumeradas(rows: seq<Troca>, id: Id, empresa: Id, usuario: Id, d: Dados, devIds: seq<Id>, novoIds: seq<Id>)
    requires |devIds| == |d.devolvidos| && |novoIds| == |d.novos| && Numeradas(rows)
    ensures Numeradas(Solicitar(rows, id, empresa, usuario, d, devIds, novoIds))
  {
    var r := Solicitar(rows, id, empresa, usuario, d, devIds, novoIds);
    forall j | 0 <= j < |r|
      ensures r[j].numero == NumeroTroca(r[..j], r[j].empresa)
    {
      if j < |rows| {
        assert r[..j] == rows[..j];
      } else {
        assert r[..j] == rows;
      }
    }
  }

  // ---------------------------------------------------------------- receiving

  /** `SELECT … FROM trocas_itens_devolvidos WHERE id = ? AND troca_id = ?`. */
  function LocalizarDevolvido(devs: seq<Devolvido>, item: Id): (r: Option<nat>)
    ensures r.Some? ==> r.value < |devs| && devs[r.value].id == item
    ensures r.None? <==> forall k :: 0 <= k < |devs| ==> devs[k].id != item
  {
    if devs == [] then None
    else match LocalizarDevolvido(devs[..|devs| - 1], item)
      case Some(i) => Some(i)
      case None => if devs[|devs| - 1].id == item then Some(|devs| - 1) else None
  }

  /** State of the receiving loop: the lines, the movements so far, and whether it ran to the end. */
  datatype Progresso = Progresso(devolvidos: seq<Devolvido>, movimentos: seq<MovEstoque>, completo: bool)

  function Registrado(d: Devolvido, r: Recebimento): Devolvido
  {
    d.(quantidadeRecebida := Some(r.quantidadeRecebida), condicao := Some(r.condicao), observacao := OrNull(r.observacao))
  }

  /** The ENTRADA a receipt writes: only goods in BOM condition with a positive quantity. */
  function Reentrada(produto: Id, r: Recebimento, empresa: Id, troca: Id): seq<MovEstoque>
  {
    if r.condicao == Bom && r.quantidadeRecebida > 0
    then [MovEstoque(empresa, produto, None, Entrada, r.quantidadeRecebida as real, "TROCA", troca)]
    else []
  }

  /** One iteration: a line outside the exchange stops the loop, else it is recorded. */
  function Passo(p: Progresso, r: Recebimento, empresa: Id, troca: Id): Progresso
  {
    match LocalizarDevolvido(p.devolvidos, r.item)
    case None => p.(completo := false)
    case Some(i) =>
      Progresso(p.devolvidos[i := Registrado(p.devolvidos[i], r)],
                p.movimentos + Reentrada(p.devolvidos[i].produto, r, empresa, troca), true)
  }

  /** The loop over `itens_recebidos`, in order, stopping at the first unknown line. */
  function Processar(devs: seq<Devolvido>, rs: seq<Recebimento>, empresa: Id, troca: Id): Progresso
  {
    if rs == [] then Progresso(devs, [], true)
    else
      var p := Processar(devs, rs[..|rs| - 1], empresa, troca);
      if !p.completo then p else Passo(p, rs[|rs| - 1], empresa, troca)
  }

  /** Recording receipts changes no line's id, product, quantity or price. */
  predicate MesmasLinhas(a: seq<Devolvido>, b: seq<Devolvido>)
  {
    |a| == |b| && forall k :: 0 <= k < |a| ==>
      b[k].id == a[k].id && b[k].produto == a[k].produto && b[k].quantidade == a[k].quantidade
      && b[k].valorUnitario == a[k].valorUnitario
  }

  /** Recording receipts keeps the exchange's lines: same ids, products, quantities and prices. */
  lemma {:induction false} ProcessarLinhas(devs: seq<Devolvido>, rs: seq<Recebimento>, empresa: Id, troca: Id)
    ensures MesmasLinhas(devs, Processar(devs, rs, empresa, troca).devolvidos)
  {
    if rs != [] {
      ProcessarLinhas(devs, rs[..|rs| - 1], empresa, troca);
    }
  }

  /** A movement of the receiving loop is an ENTRADA 'TROCA' of a positive quantity of a returned product. */
  predicate Reentrou(m: MovEstoque, devs: seq<Devolvido>, empresa: Id, troca: Id)
  {
    m.tipo == Entrada && m.quantidade > 0.0 && m.motivo == "TROCA" && m.referencia == troca
    && m.empresa == empresa && exists k :: 0 <= k < |devs| && devs[k].produto == m.produto
  }

  lemma {:induction false} ProcessarMovimentos(devs: seq<Devolvido>, rs: seq<Recebimento>, empresa: Id, troca: Id)
    ensures forall m :: m in Processar(devs, rs, empresa, troca).movimentos ==> Reentrou(m, devs, empresa, troca)
  {
    if rs != [] {
      var n := |rs|;
      ProcessarMovimentos(devs, rs[..n - 1], empresa, troca);
      ProcessarLinhas(devs, rs[..n - 1], empresa, troca);
      var p := Processar(devs, rs[..n - 1], empresa, troca);
      if p.completo {
        match LocalizarDevolvido(p.devolvidos, rs[n - 1].item)
        case None =>
        case Some(i) =>
          assert p.devolvidos[i].produto == devs[i].produto;
          assert forall m :: m in Reentrada(p.devolvidos[i].produto, rs[n - 1], empresa, troca) ==>
            Reentrou(m, devs, empresa, troca);
      }
    }
  }

  /** Every receipt names a line of the exchange. */
  predicate Conhecidos(devs: seq<Devolvido>, rs: seq<Recebimento>)
  {
    forall k :: 0 <= k < |rs| ==> LocalizarDevolvido(devs, rs[k].item).Some?
  }

  lemma {:induction false} ConhecidosAcrescentar(devs: seq<Devolvido>, rs: seq<Recebimento>)
    requires rs != []
    ensures Conhecidos(devs, rs) <==>
      Conhecidos(devs, rs[..|rs| - 1]) && LocalizarDevolvido(devs, rs[|rs| - 1].item).Some?
  {
    assert forall k :: 0 <= k < |rs| - 1 ==> rs[..|rs| - 1][k] == rs[k];
  }

  /** The loop runs to the end iff every receipt names a line of the exchange. */
  lemma {:induction false} ProcessarCompleto(devs: seq<Devolvido>, rs: seq<Recebimento>, empresa: Id, troca: Id)
    ensures Processar(devs, rs, empresa, troca).completo <==> Conhecidos(devs, rs)
  {
    if rs != [] {
      var n := |rs|;
      ProcessarCompleto(devs, rs[..n - 1], empresa, troca);
      ProcessarLinhas(devs, rs[..n - 1], empresa, troca);
      ConhecidosAcrescentar(devs, rs);
      var p := Processar(devs, rs[..n - 1], empresa, troca);
      LocalizarMesmasLinhas(devs, p.devolvidos, rs[n - 1].item);
      if p.completo {
        assert Processar(devs, rs, empresa, troca) == Passo(p, rs[n - 1], empresa, troca);
      }
    }
  }

  /** Lines with the same ids are found at the same place. */
  lemma {:induction false} LocalizarMesmasLinhas(a: seq<Devolvido>, b: seq<Devolvido>, item: Id)
    requires MesmasLinhas(a, b)
    ensures LocalizarDevolvido(a, item) == LocalizarDevolvido(b, item)
  {
    if a != [] {
      LocalizarMesmasLinhas(a[..|a| - 1], b[..|b| - 1], item);
    }
  }

  /** Lines that keep their quantities and prices keep the returned value. */
  lemma {:induction false} MesmasLinhasValor(a: seq<Devolvido>, b: seq<Devolvido>)
    requires MesmasLinhas(a, b)
    ensures SumOf(b, ValorDevolvido) == SumOf(a, ValorDevolvido)
  {
    if a != [] {
      MesmasLinhasValor(a[..|a| - 1], b[..|b| - 1]);
    }
  }

  /** The receiving loop of POST /:id/receber. */
  method ReceberItens(devs: seq<Devolvido>, rs: seq<Recebimento>, empresa: Id, troca: Id) returns (p: Progresso)
    ensures p == Processar(devs, rs, empresa, troca)
  {
    p := Progresso(devs, [], true);
    var k := 0;
    while k < |rs|
      invariant 0 <= k <= |rs|
      invariant p == Processar(devs, rs[..k], empresa, troca) && p.completo
    {
      assert rs[..k + 1][..k] == rs[..k];
      var r := rs[k];
      var i := LocalizarDevolvido(p.devolvidos, r.item);
      if i.None? {
        p := p.(completo := false);
        assert p == Processar(devs, rs[..k + 1], empresa, troca);
        ProcessarParado(devs, rs, k + 1, empresa, troca);
        return;
      }
      var item := p.devolvidos[i.value];
      var movs := p.movimentos;
      if r.condicao == Bom && r.quantidadeRecebida > 0 {
        movs := movs + [MovEstoque(empresa, item.produto, None, Entrada, r.quantidadeRecebida as real, "TROCA", troca)];
      }
      p := Progresso(p.devolvidos[i.value := Registrado(item, r)], movs, true);
      k := k + 1;
    }
    assert rs[..k] == rs;
  }

  /** Once the loop stops, later receipts are not looked at. */
  lemma {:induction false} ProcessarParado(devs: seq<Devolvido>, rs: seq<Recebimento>, k: nat, empresa: Id, troca: Id)
    requires k <= |rs| && !Processar(devs, rs[..k], empresa, troca).completo
    ensures Processar(devs, rs, empresa, troca) == Processar(devs, rs[..k], empresa, troca)
    decreases |rs| - k
  {
    if k < |rs| {
      assert rs[..k + 1][..k] == rs[..k];
      ProcessarParado(devs, rs, k + 1, empresa, troca);
    } else {
      assert rs[..k] == rs;
    }
  }

  // ---------------------------------------------------------------- finalising

  /** One SAIDA 'TROCA' per new line, with that line's quantity. */
  function Saidas(novos: seq<ItemNovo>, empresa: Id, troca: Id): (r: seq<MovEstoque>)
    ensures |r| == |novos|
    ensures forall k :: 0 <= k < |novos| ==>
      r[k] == MovEstoque(empresa, novos[k].produto, None, Saida, novos[k].quantidade as real, "TROCA", troca)
  {
    if novos == [] then []
    else Saidas(novos[..|novos| - 1], empresa, troca)
         + [MovEstoque(empresa, novos[|novos| - 1].produto, None, Saida, novos[|novos| - 1].quantidade as real, "TROCA", troca)]
  }

  /** The finalising loop. */
  method BaixarNovos(novos: seq<ItemNovo>, empresa: Id, troca: Id) returns (movs: seq<MovEstoque>)
    ensures movs == Saidas(novos, empresa, troca)
  {
    movs := [];
    var k := 0;
    while k < |novos|
      invariant 0 <= k <= |novos|
      invariant movs == Saidas(novos[..k], empresa, troca)
    {
      assert novos[..k + 1][..k] == novos[..k];
      movs := movs + [MovEstoque(empresa, novos[k].produto, None, Saida, novos[k].quantidade as real, "TROCA", troca)];
      k := k + 1;
    }
    assert novos[..k] == novos;
  }

  // ---------------------------------------------------------------- lifecycle

  function Localizar(rows: seq<Troca>, id: Id, empresa: Id): (r: Option<nat>)
    ensures r.Some? ==> r.value < |rows| && rows[r.value].id == id && rows[r.value].empresa == empresa
    ensures r.None? ==> forall k :: 0 <= k < |rows| ==> !(rows[k].id == id && rows[k].empresa == empresa)
  {
    if rows == [] then None
    else match Localizar(rows[..|rows| - 1], id, empresa)
      case Some(i) => Some(i)
      case None => if rows[|rows| - 1].id == id && rows[|rows| - 1].empresa == empresa then Some(|rows| - 1) else None
  }

  /** The status each lifecycle step requires. */
  function Predecessor(s: Status): Option<Status>
  {
    match s
    case Aprovada => Some(Solicitada)
    case ProdutosRecebidos => Some(Aprovada)
    case Finalizada => Some(ProdutosRecebidos)
    case _ => None
  }

  predicate Coerentes(rows: seq<Troca>)
  {
    (forall k :: 0 <= k < |rows| ==> Valorada(rows[k])) && Numeradas(rows)
  }

  lemma {:induction false} CoerentesAtualizar(rows: seq<Troca>, i: nat, t: Troca)
    requires Coerentes(rows) && i < |rows| && Valorada(t) && t.numero == rows[i].numero && t.empresa == rows[i].empresa
    ensures Coerentes(rows[i := t])
  {
    NumeradasAtualizar(rows, i, t);
  }

  // ---------------------------------------------------------------- state

  class Trocas {
    var trocas: seq<Troca>
    var movimentos: seq<MovEstoque>

    ghost predicate Valid()
      reads this`trocas
    {
      Coerentes(trocas)
    }

    constructor ()
      ensures Valid() && trocas == [] && movimentos == []
    {
      trocas, movimentos := [], [];
    }

    /** POST /trocas. */
    method Criar(id: Id, empresa: Id, usuario: Id, d: Dados, devIds: seq<Id>, novoIds: seq<Id>) returns (o: Outcome)
      requires Valid() && |devIds| == |d.devolvidos| && |novoIds| == |d.novos|
      modifies this`trocas
      ensures Valid()
      ensures o == if ValidDados(d) then Ok else BadRequest
      ensures trocas == if o == Ok then Solicitar(old(trocas), id, empresa, usuario, d, devIds, novoIds) else old(trocas)
    {
      if !ValidDados(d) {
        return BadRequest;
      }
      NovaValorada(trocas, id, empresa, usuario, d, devIds, novoIds);
      SolicitarNumeradas(trocas, id, empresa, usuario, d, devIds, novoIds);
      trocas := Solicitar(trocas, id, empresa, usuario, d, devIds, novoIds);
      o := Ok;
    }

    /** POST /:id/aprovar: only a SOLICITADA exchange. */
    method Aprovar(id: Id, empresa: Id, usuario: Id, observacoes: Option<string>) returns (o: Outcome)
      requires Valid()
      modifies this`trocas
      ensures Valid()
      ensures var i := Localizar(old(trocas), id, empresa);
        o == (if i.None? then NotFound else if old(trocas)[i.value].status != Solicitada then BadRequest else Ok)
      ensures trocas == if o == Ok
        then var i := Localizar(old(trocas), id, empresa).value;
             old(trocas)[i := old(trocas)[i].(status := Aprovada, aprovadaPor := Some(usuario),
                                               observacoesAprovacao := OrNull(observacoes))]
        else old(trocas)
    {
      var i := Localizar(trocas, id, empresa);
      if i.None? {
        return NotFound;
      }
      if trocas[i.value].status != Solicitada {
        return BadRequest;
      }
      var t := trocas[i.value].(status := Aprovada, aprovadaPor := Some(usuario), observacoesAprovacao := OrNull(observacoes));
      CoerentesAtualizar(trocas, i.value, t);
      trocas := trocas[i.value := t];
      o := Ok;
    }

    /**
     * POST /:id/receber: only an APROVADA exchange. A receipt naming a line outside the
     * exchange ends the request with 404 before the status changes; the lines and movements
     * recorded before it stay.
     */
    method Receber(id: Id, empresa: Id, usuario: Id, rs: seq<Recebimento>, observacoes: Option<string>) returns (o: Outcome)
      requires Valid()
      modifies this`trocas, this`movimentos
      ensures Valid()
      ensures var i := Localizar(old(trocas), id, empresa);
        o == (if !ValidRecebimentos(rs) then BadRequest
              else if i.None? then NotFound
              else if old(trocas)[i.value].status != Aprovada then BadRequest
              else if !Processar(old(trocas)[i.value].devolvidos, rs, empresa, id).completo then NotFound
              else Ok)
      ensures o == Ok || o == NotFound ==>
        var i := Localizar(old(trocas), id, empresa);
        i.Some? && old(trocas)[i.value].status == Aprovada ==>
          var t := old(trocas)[i.value];
          var p := Processar(t.devolvidos, rs, empresa, id);
          movimentos == old(movimentos) + p.movimentos
          && trocas == old(trocas)[i.value := if p.completo
                                            then t.(devolvidos := p.devolvidos, status := ProdutosRecebidos,
                                                    recebidoPor := Some(usuario),
                                                    observacoesRecebimento := OrNull(observacoes))
                                            else t.(devolvidos := p.devolvidos)]
      ensures o == BadRequest || (o == NotFound && (Localizar(old(trocas), id, empresa).None? || old(trocas)[Localizar(old(trocas), id, empresa).value].status != Aprovada)) ==>
        trocas == old(trocas) && movimentos == old(movimentos)
    {
      if !ValidRecebimentos(rs) {
        return BadRequest;
      }
      var i := Localizar(trocas, id, empresa);
      if i.None? {
        return NotFound;
      }
      var t := trocas[i.value];
      if t.status != Aprovada {
        return BadRequest;
      }
      var p := ReceberItens(t.devolvidos, rs, empresa, id);
      ProcessarLinhas(t.devolvidos, rs, empresa, id);
      MesmasLinhasValor(t.devolvidos, p.devolvidos);
      movimentos := movimentos + p.movimentos;
      var novo := if p.completo
        then t.(devolvidos := p.devolvidos, status := ProdutosRecebidos, recebidoPor := Some(usuario),
                observacoesRecebimento := OrNull(observacoes))
        else t.(devolvidos := p.devolvidos);
      CoerentesAtualizar(trocas, i.value, novo);
      trocas := trocas[i.value := novo];
      o := if p.completo then Ok else NotFound;
    }

    /** POST /:id/finalizar: only after the returned goods arrived; one SAIDA per new line. */
    method Finalizar(id: Id, empresa: Id, usuario: Id) returns (o: Outcome)
      requires Valid()
      modifies this`trocas, this`movimentos
      ensures Valid()
      ensures var i := Localizar(old(trocas), id, empresa);
        o == (if i.None? then NotFound else if old(trocas)[i.value].status != ProdutosRecebidos then BadRequest else Ok)
      ensures o == Ok ==>
        var i := Localizar(old(trocas), id, empresa).value;
        movimentos == old(movimentos) + Saidas(old(trocas)[i].novos, empresa, id)
        && trocas == old(trocas)[i := old(trocas)[i].(status := Finalizada, finalizadoPor := Some(usuario))]
      ensures o != Ok ==> trocas == old(trocas) && movimentos == old(movimentos)
    {
      var i := Localizar(trocas, id, empresa);
      if i.None? {
        return NotFound;
      }
      var t := trocas[i.value];
      if t.status != ProdutosRecebidos {
        return BadRequest;
      }
      var movs := BaixarNovos(t.novos, empresa, id);
      movimentos := movimentos + movs;
      CoerentesAtualizar(trocas, i.value, t.(status := Finalizada, finalizadoPor := Some(usuario)));
      trocas := trocas[i.value := t.(status := Finalizada, finalizadoPor := Some(usuario))];
      o := Ok;
    }

    /** POST /:id/cancelar: a motive is required; only a FINALIZADA exchange is refused. */
    method Cancelar(id: Id, empresa: Id, usuario: Id, motivo: string) returns (o: Outcome)
      requires Valid()
      modifies this`trocas
      ensures Valid()
      ensures var i := Localizar(old(trocas), id, empresa);
        o == (if |motivo| < 1 then BadRequest
              else if i.None? then NotFound
              else if old(trocas)[i.value].status == Finalizada then BadRequest
              else Ok)
      ensures trocas == if o == Ok
        then var i := Localizar(old(trocas), id, empresa).value;
             old(trocas)[i := old(trocas)[i].(status := Cancelada, motivoCancelamento := Some(motivo),
                                               canceladoPor := Some(usuario))]
        else old(trocas)
    {
      if |motivo| < 1 {
        return BadRequest;
      }
      var i := Localizar(trocas, id, empresa);
      if i.None? {
        return NotFound;
      }
      if trocas[i.value].status == Finalizada {
        return BadRequest;
      }
      var t := trocas[i.value].(status := Cancelada, motivoCancelamento := Some(motivo), canceladoPor := Some(usuario));
      CoerentesAtualizar(trocas, i.value, t);
      trocas := trocas[i.value := t];
      o := Ok;
    }
  }
}
