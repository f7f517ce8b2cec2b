/**
 * Inventory count sessions (inventários): RASCUNHO → EM_ANDAMENTO → FINALIZADO → AJUSTADO,
 * with CANCELADO reachable from the first two. Generating items snapshots the stock of the
 * location, counts are recorded per product, and the adjustment writes one signed stock
 * movement per divergent line. The items of an inventory are kept with its row.
 */
module Inventarios {
  import opened Outcome
  import opened Tables
  import opened Money
  import opened Numbering
  import opened Estoque

  datatype Status = Rascunho | EmAndamento | Finalizado | Ajustado | Cancelado

  datatype TipoInventario = Total | Parcial | Rotativo

  /** Who counted, and the optional lot, expiry and note of the count. */
  datatype Registro = Registro(lote: Option<string>, validade: Option<string>, observacao: Option<string>,
                               usuario: Id)

  /** A row of inventarios_itens. */
  datatype Item = Item(produto: Id, quantidadeSistema: real, custoMedio: real, contada: Option<real>,
                       registro: Option<Registro>, ajustado: bool)

  datatype Inventario = Inventario(id: Id, empresa: Id, numero: string, local: Id, tipo: TipoInventario,
                                   responsavel: Id, observacoes: Option<string>, status: Status,
                                   itens: seq<Item>)

  /** A counting entry of `/contagem` and `/contagem-lote`. */
  datatype Contagem = Contagem(produto: Id, quantidade: real, lote: Option<string>, validade: Option<string>,
                               observacao: Option<string>)

  /** The optional filters of `/gerar-itens`. */
  datatype Filtro = Filtro(categoria: Option<Id>, marca: Option<Id>, apenasComEstoque: bool)

  // ---------------------------------------------------------------- lookups

  function Localizar(rows: seq<Inventario>, id: Id, empresa: Id): (r: Option<nat>)
    ensures r.Some? ==> r.value < |rows| && rows[r.value].id == id && rows[r.value].empresa == empresa
  {
    FirstIndex(rows, (v: Inventario) => v.id == id && v.empresa == empresa)
  }

  /** The inventory the handler's `WHERE id = ? AND empresa_id = ? AND status = …` finds. */
  function NoEstado(rows: seq<Inventario>, id: Id, empresa: Id, s: set<Status>): (r: Option<nat>)
    ensures r.Some? ==> r.value < |rows| && rows[r.value].id == id && rows[r.value].empresa == empresa
                        && rows[r.value].status in s
  {
    var i := Localizar(rows, id, empresa);
    if i.Some? && rows[i.value].status in s then i else None
  }

  /** An inventory in RASCUNHO or EM_ANDAMENTO holds its location. */
  predicate Ativo(v: Inventario) { v.status == Rascunho || v.status == EmAndamento }

  /** The numero column of the company's inventories. */
  function NumerosDa(rows: seq<Inventario>, empresa: Id): (r: seq<string>)
    ensures forall k :: 0 <= k < |rows| && rows[k].empresa == empresa ==> rows[k].numero in r
    ensures |r| <= |rows|
  {
    if rows == [] then []
    else NumerosDa(rows[..|rows| - 1], empresa)
         + (if rows[|rows| - 1].empresa == empresa then [rows[|rows| - 1].numero] else [])
  }

  // ---------------------------------------------------------------- snapshot

  predicate Selecionado(p: Produto, empresa: Id, e: Posicao, local: Id, f: Filtro)
  {
    p.empresa == empresa && p.ativo
    && (Truthy(f.categoria) ==> p.categoria == f.categoria)
    && (Truthy(f.marca) ==> p.marca == f.marca)
    && (f.apenasComEstoque ==> QuantidadeEm(e, p.id, local) > 0.0)
  }

  /** quantidade_sistema = COALESCE(e.quantidade, 0); custo = COALESCE(e.custo_medio, p.preco_custo). */
  function ItemNovo(p: Produto, e: Posicao, local: Id): (it: Item)
    ensures it.produto == p.id && it.quantidadeSistema == QuantidadeEm(e, p.id, local)
    ensures it.contada.None? && it.registro.None? && !it.ajustado
  {
    Item(p.id, QuantidadeEm(e, p.id, local),
         if (p.id, local) in e then e[(p.id, local)].custoMedio else p.precoCusto, None, None, false)
  }

  /** `it` is the snapshot line of some selected product of `produtos`. */
  predicate DeSelecionado(produtos: seq<Produto>, empresa: Id, e: Posicao, local: Id, f: Filtro, it: Item)
  {
    exists k :: 0 <= k < |produtos| && Selecionado(produtos[k], empresa, e, local, f) && it == ItemNovo(produtos[k], e, local)
  }

  lemma {:induction false} DeSelecionadoPrefixo(produtos: seq<Produto>, n: nat, empresa: Id, e: Posicao, local: Id, f: Filtro, it: Item)
    requires n <= |produtos| && DeSelecionado(produtos[..n], empresa, e, local, f, it)
    ensures DeSelecionado(produtos, empresa, e, local, f, it)
  {
    var k :| 0 <= k < n && Selecionado(produtos[..n][k], empresa, e, local, f) && it == ItemNovo(produtos[..n][k], e, local);
    assert produtos[..n][k] == produtos[k];
  }

  /** The items `/gerar-itens` inserts: one uncounted item per selected product, in order. */
  function Snapshot(produtos: seq<Produto>, empresa: Id, e: Posicao, local: Id, f: Filtro): (r: seq<Item>)
    ensures |r| <= |produtos|
    ensures forall k :: 0 <= k < |produtos| && Selecionado(produtos[k], empresa, e, local, f) ==>
              ItemNovo(produtos[k], e, local) in r
    ensures forall i :: 0 <= i < |r| ==> DeSelecionado(produtos, empresa, e, local, f, r[i])
    ensures forall i :: 0 <= i < |r| ==> r[i].contada.None? && r[i].registro.None? && !r[i].ajustado
  {
    if produtos == [] then []
    else
      var n := |produtos| - 1;
      var init := produtos[..n];
      var p := produtos[n];
      var r0 := Snapshot(init, empresa, e, local, f);
      var r := r0 + (if Selecionado(p, empresa, e, local, f) then [ItemNovo(p, e, local)] else []);
      assert forall k :: 0 <= k < |init| ==> init[k] == produtos[k];
      assert forall i :: 0 <= i < |r0| ==> r[i] == r0[i];
      assert forall i :: 0 <= i < |r| ==> DeSelecionado(produtos, empresa, e, local, f, r[i]) by {
        forall i | 0 <= i < |r|
          ensures DeSelecionado(produtos, empresa, e, local, f, r[i])
        {
          if i < |r0| {
            DeSelecionadoPrefixo(produtos, n, empresa, e, local, f, r0[i]);
          } else {
            assert Selecionado(produtos[n], empresa, e, local, f) && r[i] == ItemNovo(produtos[n], e, local);
          }
        }
      }
      r
  }

  // ---------------------------------------------------------------- counting

  predicate ValidContagem(c: Contagem) { c.quantidade >= 0.0 }

  predicate SemContagem(it: Item) { it.contada.None? }

  predicate Contado(it: Item) { it.contada.Some? }

  predicate Divergente(it: Item) { it.contada.Some? && it.contada.value != it.quantidadeSistema }

  /** A divergent line that `/ajustar-estoque` still has to adjust. */
  predicate AAjustar(it: Item) { Divergente(it) && !it.ajustado }

  /** product is on the item list */
  predicate Listado(itens: seq<Item>, produto: Id)
  {
    exists i :: 0 <= i < |itens| && itens[i].produto == produto
  }

  /** The `UPDATE … WHERE inventario_id = ? AND produto_id = ?` of one count: every line of that product. */
  function Contar(itens: seq<Item>, c: Contagem, usuario: Id): (r: seq<Item>)
    ensures |r| == |itens|
    ensures forall i :: 0 <= i < |itens| ==>
      r[i].produto == itens[i].produto && r[i].quantidadeSistema == itens[i].quantidadeSistema
      && r[i].ajustado == itens[i].ajustado
      && r[i].contada == (if itens[i].produto == c.produto then Some(c.quantidade) else itens[i].contada)
    ensures forall i :: 0 <= i < |itens| && itens[i].produto != c.produto ==> r[i] == itens[i]
  {
    seq(|itens|, i requires 0 <= i < |itens| =>
      if itens[i].produto == c.produto
      then itens[i].(contada := Some(c.quantidade),
                     registro := Some(Registro(OrNull(c.lote), OrNull(c.validade), OrNull(c.observacao), usuario)))
      else itens[i])
  }

  /** Re-counting a product overwrites the earlier count: only the last one is kept. */
  lemma {:induction false} RecontagemSobrescreve(itens: seq<Item>, c1: Contagem, c2: Contagem, u1: Id, u2: Id)
    requires c1.produto == c2.produto
    ensures Contar(Contar(itens, c1, u1), c2, u2) == Contar(itens, c2, u2)
  {
  }

  /** Counts of different products commute. */
  lemma {:induction false} ContagensComutam(itens: seq<Item>, c1: Contagem, c2: Contagem, u1: Id, u2: Id)
    requires c1.produto != c2.produto
    ensures Contar(Contar(itens, c1, u1), c2, u2) == Contar(Contar(itens, c2, u2), c1, u1)
  {
  }

  /** `/contagem-lote`: each valid entry in order is applied as a single count; invalid ones are skipped. */
  function ContarLote(itens: seq<Item>, cs: seq<Contagem>, usuario: Id): (r: seq<Item>)
    ensures |r| == |itens|
    ensures forall i :: 0 <= i < |itens| ==>
      r[i].produto == itens[i].produto && r[i].quantidadeSistema == itens[i].quantidadeSistema
      && r[i].ajustado == itens[i].ajustado
    ensures forall i :: 0 <= i < |itens| && itens[i].contada.Some? ==> r[i].contada.Some?
  {
    if cs == [] then itens
    else
      var r0 := ContarLote(itens, cs[..|cs| - 1], usuario);
      if ValidContagem(cs[|cs| - 1]) then Contar(r0, cs[|cs| - 1], usuario) else r0
  }

  /** Sequences of entries naming only unlisted products leave the items as they were. */
  lemma {:induction false} ContarLoteNaoListados(itens: seq<Item>, cs: seq<Contagem>, usuario: Id)
    requires forall j :: 0 <= j < |cs| ==> !Listado(itens, cs[j].produto)
    ensures ContarLote(itens, cs, usuario) == itens
  {
    if cs != [] {
      ContarLoteNaoListados(itens, cs[..|cs| - 1], usuario);
    }
  }

  // ---------------------------------------------------------------- adjustment

  /** contada − sistema for a line still to adjust, 0 otherwise. */
  function DiferencaAAjustar(it: Item): real
  {
    if AAjustar(it) then it.contada.value - it.quantidadeSistema else 0.0
  }

  function MovimentoAjuste(it: Item, empresa: Id, local: Id, inventario: Id): (m: MovEstoque)
    requires AAjustar(it)
    ensures Sinal(m) == it.contada.value - it.quantidadeSistema
    ensures m.quantidade > 0.0 && m.produto == it.produto && m.local == Some(local)
  {
    var d := it.contada.value - it.quantidadeSistema;
    MovEstoque(empresa, it.produto, Some(local), if d > 0.0 then Entrada else Saida,
               if d >= 0.0 then d else -d, "AJUSTE_INVENTARIO", inventario)
  }

  /** One movement per line to adjust, in item order. */
  function MovimentosAjuste(itens: seq<Item>, empresa: Id, local: Id, inventario: Id): (ms: seq<MovEstoque>)
    ensures |ms| == Count(itens, AAjustar)
  {
    if itens == [] then []
    else
      var it := itens[|itens| - 1];
      MovimentosAjuste(itens[..|itens| - 1], empresa, local, inventario)
      + (if AAjustar(it) then [MovimentoAjuste(it, empresa, local, inventario)] else [])
  }

  /** The movements add up to the total divergence: Σ signed quantity = Σ (contada − sistema). */
  lemma {:induction false} AjusteSomaDivergencia(itens: seq<Item>, empresa: Id, local: Id, inventario: Id)
    ensures SumOf(MovimentosAjuste(itens, empresa, local, inventario), Sinal) == SumOf(itens, DiferencaAAjustar)
  {
    if itens != [] {
      var init := itens[..|itens| - 1];
      var it := itens[|itens| - 1];
      AjusteSomaDivergencia(init, empresa, local, inventario);
      var ms0 := MovimentosAjuste(init, empresa, local, inventario);
      if AAjustar(it) {
        SumOfAppend(ms0, MovimentoAjuste(it, empresa, local, inventario), Sinal);
      } else {
        assert MovimentosAjuste(itens, empresa, local, inventario) == ms0;
      }
    }
  }

  /** One line's `UPDATE estoque SET quantidade = ?`: only a line to adjust, only an existing row. */
  function AjustarLinha(e: Posicao, it: Item, local: Id): Posicao
  {
    if AAjustar(it) && (it.produto, local) in e
    then e[(it.produto, local) := e[(it.produto, local)].(quantidade := it.contada.value)]
    else e
  }

  /** Each line to adjust sets its existing stock row to the counted quantity; absent rows are not created. */
  function EstoqueAjustado(e: Posicao, itens: seq<Item>, local: Id): (r: Posicao)
    ensures r.Keys == e.Keys
    ensures forall k :: k in e && k.1 != local ==> r[k] == e[k]
  {
    if itens == [] then e
    else AjustarLinha(EstoqueAjustado(e, itens[..|itens| - 1], local), itens[|itens| - 1], local)
  }

  /** The stock row of a product the inventory does not list is left as it was. */
  lemma {:induction false} EstoqueAjustadoNaoListado(e: Posicao, itens: seq<Item>, local: Id, produto: Id)
    requires (produto, local) in e && !Listado(itens, produto)
    ensures EstoqueAjustado(e, itens, local)[(produto, local)] == e[(produto, local)]
  {
    if itens != [] {
      var init := itens[..|itens| - 1];
      assert !Listado(init, produto) by {
        forall i | 0 <= i < |init| ensures init[i].produto != produto {
          assert init[i] == itens[i];
        }
      }
      EstoqueAjustadoNaoListado(e, init, local, produto);
    }
  }

  function Marcar(it: Item): Item
  {
    if AAjustar(it) then it.(ajustado := true) else it
  }

  /** `ajuste_realizado = 1` on every line adjusted. */
  function MarcarAjustados(itens: seq<Item>): (r: seq<Item>)
    ensures |r| == |itens|
    ensures forall i :: 0 <= i < |itens| ==> r[i] == Marcar(itens[i]) && !AAjustar(r[i])
                                             && r[i].contada == itens[i].contada
  {
    seq(|itens|, i requires 0 <= i < |itens| => Marcar(itens[i]))
  }

  // ---------------------------------------------------------------- statistics

  function ValorDivergencia(it: Item): real
  {
    if Divergente(it) then (it.contada.value - it.quantidadeSistema) * it.custoMedio else 0.0
  }

  lemma {:induction false} SemDivergenciaValorNulo(itens: seq<Item>)
    ensures Count(itens, Divergente) == 0 ==> SumOf(itens, ValorDivergencia) == 0.0
  {
    if Count(itens, Divergente) == 0 {
      CountZero(itens, Divergente);
      SumOfZero(itens, ValorDivergencia);
    }
  }

  datatype Estatisticas = Estatisticas(totalItens: nat, itensContados: nat, itensDivergentes: nat,
                                       valorDivergencia: real)

  /** The `estatisticas` block of GET /:id. */
  function EstatisticasDe(itens: seq<Item>): (s: Estatisticas)
    ensures s.totalItens == |itens|
    ensures s.itensDivergentes <= s.itensContados <= s.totalItens
    ensures s.itensDivergentes == 0 ==> s.valorDivergencia == 0.0
  {
    CountMonotone(itens, Divergente, Contado);
    SemDivergenciaValorNulo(itens);
    Estatisticas(|itens|, Count(itens, Contado), Count(itens, Divergente), SumOf(itens, ValorDivergencia))
  }

  /** When nothing is pending, every item counts as counted. */
  lemma {:induction false} SemPendentesTodosContados(itens: seq<Item>)
    requires Count(itens, SemContagem) == 0
    ensures EstatisticasDe(itens).itensContados == |itens|
  {
    if itens != [] {
      var init := itens[..|itens| - 1];
      CountZero(itens, SemContagem);
      CountZero(init, SemContagem);
      assert forall j :: 0 <= j < |init| ==> init[j] == itens[j];
      SemPendentesTodosContados(init);
    }
  }

  // ---------------------------------------------------------------- state

  predicate CoerenteComStatus(v: Inventario)
  {
    (v.status == Rascunho ==> forall k :: 0 <= k < |v.itens| ==> v.itens[k].contada.None? && !v.itens[k].ajustado)
    && (v.status in {EmAndamento, Finalizado, Ajustado} ==> |v.itens| > 0)
    && (v.status in {Finalizado, Ajustado} ==> forall k :: 0 <= k < |v.itens| ==> v.itens[k].contada.Some?)
    && (v.status == Ajustado ==> forall k :: 0 <= k < |v.itens| ==> !AAjustar(v.itens[k]))
  }

  /**
   * Ids are unique; at most one RASCUNHO/EM_ANDAMENTO inventory per company and location;
   * a draft holds only uncounted lines; a started inventory has lines; a finished one has
   * every line counted; an adjusted one has nothing left to adjust.
   */
  predicate Consistente(rows: seq<Inventario>)
  {
    (forall i, j :: 0 <= i < j < |rows| ==> rows[i].id != rows[j].id)
    && (forall i, j :: 0 <= i < j < |rows| && Ativo(rows[i]) && Ativo(rows[j]) ==>
          rows[i].empresa != rows[j].empresa || rows[i].local != rows[j].local)
    && (forall i :: 0 <= i < |rows| ==> CoerenteComStatus(rows[i]))
  }

  /** Marking a finished inventory adjusted keeps the table consistent. */
  lemma {:induction false} AjustadoConsistente(rows: seq<Inventario>, i: nat)
    requires Consistente(rows) && i < |rows| && rows[i].status == Finalizado
    ensures Consistente(rows[i := rows[i].(status := Ajustado, itens := MarcarAjustados(rows[i].itens))])
  {
    var v := rows[i];
    assert CoerenteComStatus(v);
    ConsistenteAtualizar(rows, i, v.(status := Ajustado, itens := MarcarAjustados(v.itens)));
  }

  /** Rewriting one inventory keeps the table consistent if it keeps its key and does not become active. */
  lemma {:induction false} ConsistenteAtualizar(rows: seq<Inventario>, i: nat, w: Inventario)
    requires Consistente(rows) && i < |rows|
    requires w.id == rows[i].id && w.empresa == rows[i].empresa && w.local == rows[i].local
    requires Ativo(w) ==> Ativo(rows[i])
    requires CoerenteComStatus(w)
    ensures Consistente(rows[i := w])
  {
    var r := rows[i := w];
    forall a, b | 0 <= a < b < |r| && Ativo(r[a]) && Ativo(r[b])
      ensures r[a].empresa != r[b].empresa || r[a].local != r[b].local
    {
      assert Ativo(rows[a]) && Ativo(rows[b]);
    }
  }

  /** A new draft for a free location with a new id keeps the table consistent. */
  lemma {:induction false} ConsistenteAcrescentar(rows: seq<Inventario>, w: Inventario)
    requires Consistente(rows) && w.status == Rascunho && w.itens == []
    requires forall k :: 0 <= k < |rows| ==> rows[k].id != w.id
    requires forall k :: 0 <= k < |rows| ==> !(rows[k].empresa == w.empresa && rows[k].local == w.local && Ativo(rows[k]))
    ensures Consistente(rows + [w])
  {
    var r := rows + [w];
    forall a, b | 0 <= a < b < |r| && Ativo(r[a]) && Ativo(r[b])
      ensures r[a].empresa != r[b].empresa || r[a].local != r[b].local
    {
      if b == |rows| {
        assert r[a] == rows[a];
      }
    }
  }

  /** One more line of the adjustment loop, as the three specification functions unfold. */
  lemma {:induction false} AjustePasso(itens: seq<Item>, k: nat, e: Posicao, empresa: Id, local: Id, inventario: Id)
    requires k < |itens|
    ensures var it := itens[k];
      MovimentosAjuste(itens[..k + 1], empresa, local, inventario)
        == MovimentosAjuste(itens[..k], empresa, local, inventario)
           + (if AAjustar(it) then [MovimentoAjuste(it, empresa, local, inventario)] else [])
      && EstoqueAjustado(e, itens[..k + 1], local) == AjustarLinha(EstoqueAjustado(e, itens[..k], local), it, local)
      && Count(itens[..k + 1], AAjustar) == Count(itens[..k], AAjustar) + (if AAjustar(it) then 1 else 0)
  {
    assert itens[..k + 1][..k] == itens[..k];
    assert itens[..k + 1][k] == itens[k];
    CountAppend(itens[..k], itens[k], AAjustar);
    assert itens[..k] + [itens[k]] == itens[..k + 1];
  }

  /** The work of the adjustment loop on the inventory's lines and the location's stock. */
  method AplicarAjustes(itens: seq<Item>, e: Posicao, empresa: Id, local: Id, inventario: Id)
    returns (marcados: seq<Item>, estoque: Posicao, movs: seq<MovEstoque>, ajustes: nat)
    ensures marcados == MarcarAjustados(itens)
    ensures estoque == EstoqueAjustado(e, itens, local)
    ensures movs == MovimentosAjuste(itens, empresa, local, inventario)
    ensures ajustes == Count(itens, AAjustar)
  {
    marcados, estoque, movs, ajustes := [], e, [], 0;
    var k := 0;
    while k < |itens|
      invariant 0 <= k <= |itens|
      invariant |marcados| == k
      invariant forall t :: 0 <= t < k ==> marcados[t] == Marcar(itens[t])
      invariant movs == MovimentosAjuste(itens[..k], empresa, local, inventario)
      invariant estoque == EstoqueAjustado(e, itens[..k], local)
      invariant ajustes == Count(itens[..k], AAjustar)
    {
      var it := itens[k];
      AjustePasso(itens, k, e, empresa, local, inventario);
      if AAjustar(it) {
        movs := movs + [MovimentoAjuste(it, empresa, local, inventario)];
        ajustes := ajustes + 1;
      }
      estoque := AjustarLinha(estoque, it, local);
      marcados := marcados + [Marcar(it)];
      k := k + 1;
    }
    assert itens[..k] == itens;
  }

  /** The product loop of `/gerar-itens`: each selected product, in catalogue order, becomes an uncounted item. */
  method Selecionar(produtos: seq<Produto>, empresa: Id, e: Posicao, local: Id, f: Filtro) returns (novos: seq<Item>)
    ensures novos == Snapshot(produtos, empresa, e, local, f)
  {
    novos := [];
    var k := 0;
    while k < |produtos|
      invariant 0 <= k <= |produtos|
      invariant novos == Snapshot(produtos[..k], empresa, e, local, f)
    {
      assert produtos[..k + 1][..k] == produtos[..k];
      if Selecionado(produtos[k], empresa, e, local, f) {
        novos := novos + [ItemNovo(produtos[k], e, local)];
      }
      k := k + 1;
    }
    assert produtos[..k] == produtos;
  }

  class Inventarios {
    var locais: map<Id, Id>          // locais_estoque: id -> empresa
    var produtos: seq<Produto>
    var estoque: Posicao
    var inventarios: seq<Inventario>
    var movimentos: seq<MovEstoque>

    ghost predicate Valid()
      reads this`inventarios
    {
      Consistente(inventarios)
    }

    constructor (locaisEstoque: map<Id, Id>, catalogo: seq<Produto>, saldos: Posicao)
      ensures Valid()
      ensures locais == locaisEstoque && produtos == catalogo && estoque == saldos
      ensures inventarios == [] && movimentos == []
    {
      locais := locaisEstoque;
      produtos := catalogo;
      estoque := saldos;
      inventarios := [];
      movimentos := [];
    }

    /** POST /: an unknown location is not found; a location already being counted is refused. */
    method Criar(id: Id, empresa: Id, local: Id, tipo: TipoInventario, responsavel: Id, obs: Option<string>)
      returns (o: Outcome)
      requires Valid() && forall k :: 0 <= k < |inventarios| ==> inventarios[k].id != id
      modifies this`inventarios
      ensures Valid()
      ensures o == (if !(local in old(locais) && old(locais)[local] == empresa) then NotFound
                    else if exists k :: 0 <= k < |old(inventarios)| && old(inventarios)[k].empresa == empresa
                                        && old(inventarios)[k].local == local && Ativo(old(inventarios)[k])
                    then BadRequest else Ok)
      ensures inventarios == if o == Ok
        then old(inventarios) + [Inventario(id, empresa, NextNumero(NumerosDa(old(inventarios), empresa)), local,
                                            tipo, responsavel, OrNull(obs), Rascunho, [])]
        else old(inventarios)
    {
      if !(local in locais && locais[local] == empresa) {
        return NotFound;
      }
      var emAndamento := FirstIndex(inventarios, (v: Inventario) => v.empresa == empresa && v.local == local && Ativo(v));
      if emAndamento.Some? {
        return BadRequest;
      }
      var numero := NextNumero(NumerosDa(inventarios, empresa));
      var novo := Inventario(id, empresa, numero, local, tipo, responsavel, OrNull(obs), Rascunho, []);
      ConsistenteAcrescentar(inventarios, novo);
      inventarios := inventarios + [novo];
      o := Ok;
    }

    /** POST /:id/gerar-itens: only a draft; its lines become the snapshot of the location's stock. */
    method GerarItens(id: Id, empresa: Id, f: Filtro) returns (o: Outcome)
      requires Valid()
      modifies this`inventarios
      ensures Valid()
      ensures o == (if NoEstado(old(inventarios), id, empresa, {Rascunho}).Some? then Ok else NotFound)
      ensures inventarios == if o == Ok
        then var i := NoEstado(old(inventarios), id, empresa, {Rascunho}).value;
             old(inventarios)[i := old(inventarios)[i].(itens :=
               Snapshot(produtos, empresa, estoque, old(inventarios)[i].local, f))]
        else old(inventarios)
    {
      var found := NoEstado(inventarios, id, empresa, {Rascunho});
      if found.None? {
        return NotFound;
      }
      var i := found.value;
      var novos := Selecionar(produtos, empresa, estoque, inventarios[i].local, f);
      assert forall t :: 0 <= t < |novos| ==> novos[t].contada.None? && !novos[t].ajustado;
      ConsistenteAtualizar(inventarios, i, inventarios[i].(itens := novos));
      inventarios := inventarios[i := inventarios[i].(itens := novos)];
      o := Ok;
    }

    /** POST /:id/iniciar: a draft with at least one line starts counting. */
    method Iniciar(id: Id, empresa: Id) returns (o: Outcome)
      requires Valid()
      modifies this`inventarios
      ensures Valid()
      ensures var f := NoEstado(old(inventarios), id, empresa, {Rascunho});
        o == (if f.None? then NotFound else if |old(inventarios)[f.value].itens| == 0 then BadRequest else Ok)
      ensures inventarios == if o == Ok
        then var i := NoEstado(old(inventarios), id, empresa, {Rascunho}).value;
             old(inventarios)[i := old(inventarios)[i].(status := EmAndamento)]
        else old(inventarios)
    {
      var found := NoEstado(inventarios, id, empresa, {Rascunho});
      if found.None? {
        return NotFound;
      }
      if |inventarios[found.value].itens| == 0 {
        return BadRequest;
      }
      ConsistenteAtualizar(inventarios, found.value, inventarios[found.value].(status := EmAndamento));
      inventarios := inventarios[found.value := inventarios[found.value].(status := EmAndamento)];
      o := Ok;
    }

    /** POST /:id/contagem: only while counting, and only for a listed product. */
    method Contagem(id: Id, empresa: Id, usuario: Id, c: Contagem) returns (o: Outcome)
      requires Valid()
      modifies this`inventarios
      ensures Valid()
      ensures var f := NoEstado(old(inventarios), id, empresa, {EmAndamento});
        o == (if f.None? then NotFound else if !ValidContagem(c) then BadRequest
              else if !Listado(old(inventarios)[f.value].itens, c.produto) then NotFound else Ok)
      ensures inventarios == if o == Ok
        then var i := NoEstado(old(inventarios), id, empresa, {EmAndamento}).value;
             old(inventarios)[i := old(inventarios)[i].(itens := Contar(old(inventarios)[i].itens, c, usuario))]
        else old(inventarios)
    {
      var found := NoEstado(inventarios, id, empresa, {EmAndamento});
      if found.None? {
        return NotFound;
      }
      if !ValidContagem(c) {
        return BadRequest;
      }
      var itens := inventarios[found.value].itens;
      var item := FirstIndex(itens, (it: Item) => it.produto == c.produto);
      if item.None? {
        return NotFound;
      }
      ConsistenteAtualizar(inventarios, found.value, inventarios[found.value].(itens := Contar(itens, c, usuario)));
      inventarios := inventarios[found.value := inventarios[found.value].(itens := Contar(itens, c, usuario))];
      o := Ok;
    }

    /** POST /:id/contagem-lote: every valid entry is applied and counted, listed product or not. */
    method ContagemLote(id: Id, empresa: Id, usuario: Id, cs: seq<Contagem>) returns (o: Outcome, processados: nat)
      requires Valid()
      modifies this`inventarios
      ensures Valid()
      ensures var f := NoEstado(old(inventarios), id, empresa, {EmAndamento});
        o == (if f.None? then NotFound else if cs == [] then BadRequest else Ok)
      ensures processados == (if o == Ok then Count(cs, ValidContagem) else 0)
      ensures inventarios == if o == Ok
        then var i := NoEstado(old(inventarios), id, empresa, {EmAndamento}).value;
             old(inventarios)[i := old(inventarios)[i].(itens := ContarLote(old(inventarios)[i].itens, cs, usuario))]
        else old(inventarios)
    {
      processados := 0;
      var found := NoEstado(inventarios, id, empresa, {EmAndamento});
      if found.None? {
        return NotFound, 0;
      }
      if cs == [] {
        return BadRequest, 0;
      }
      var i := found.value;
      var base := inventarios[i].itens;
      var itens := base;
      var k := 0;
      while k < |cs|
        invariant 0 <= k <= |cs|
        invariant itens == ContarLote(base, cs[..k], usuario)
        invariant processados == Count(cs[..k], ValidContagem)
        invariant inventarios == old(inventarios)
      {
        assert cs[..k + 1][..k] == cs[..k];
        CountAppend(cs[..k], cs[k], ValidContagem);
        assert cs[..k] + [cs[k]] == cs[..k + 1];
        if ValidContagem(cs[k]) {
          itens := Contar(itens, cs[k], usuario);
          processados := processados + 1;
        }
        k := k + 1;
      }
      assert cs[..k] == cs;
      ConsistenteAtualizar(inventarios, i, inventarios[i].(itens := itens));
      inventarios := inventarios[i := inventarios[i].(itens := itens)];
      o := Ok;
    }

    /** POST /:id/finalizar: refused, with the number of uncounted lines, while any line is uncounted. */
    method Finalizar(id: Id, empresa: Id) returns (o: Outcome, pendentes: nat)
      requires Valid()
      modifies this`inventarios
      ensures Valid()
      ensures var f := NoEstado(old(inventarios), id, empresa, {EmAndamento});
        o == (if f.None? then NotFound else if Count(old(inventarios)[f.value].itens, SemContagem) > 0
              then BadRequest else Ok)
      ensures o == BadRequest ==>
        pendentes == Count(old(inventarios)[NoEstado(old(inventarios), id, empresa, {EmAndamento}).value].itens,
                           SemContagem) > 0
      ensures inventarios == if o == Ok
        then var i := NoEstado(old(inventarios), id, empresa, {EmAndamento}).value;
             old(inventarios)[i := old(inventarios)[i].(status := Finalizado)]
        else old(inventarios)
    {
      pendentes := 0;
      var found := NoEstado(inventarios, id, empresa, {EmAndamento});
      if found.None? {
        return NotFound, 0;
      }
      var i := found.value;
      pendentes := Count(inventarios[i].itens, SemContagem);
      if pendentes > 0 {
        return BadRequest, pendentes;
      }
      CountZero(inventarios[i].itens, SemContagem);
      ConsistenteAtualizar(inventarios, i, inventarios[i].(status := Finalizado));
      inventarios := inventarios[i := inventarios[i].(status := Finalizado)];
      o := Ok;
    }

    /**
     * POST /:id/ajustar-estoque: for each counted line that differs from the system quantity and
     * is not yet adjusted, one signed movement, the existing stock row set to the counted value,
     * and the line marked adjusted; then AJUSTADO. Refused when there is nothing to adjust.
     */
    method AjustarEstoque(id: Id, empresa: Id) returns (o: Outcome, ajustes: nat)
      requires Valid()
      modifies this`inventarios, this`estoque, this`movimentos
      ensures Valid()
      ensures var f := NoEstado(old(inventarios), id, empresa, {Finalizado});
        o == (if f.None? then NotFound else if Count(old(inventarios)[f.value].itens, AAjustar) == 0
              then BadRequest else Ok)
      ensures o == Ok ==>
        var i := NoEstado(old(inventarios), id, empresa, {Finalizado}).value;
        var v := old(inventarios)[i];
        ajustes == Count(v.itens, AAjustar)
        && movimentos == old(movimentos) + MovimentosAjuste(v.itens, empresa, v.local, id)
        && estoque == EstoqueAjustado(old(estoque), v.itens, v.local)
        && inventarios == old(inventarios)[i := v.(status := Ajustado, itens := MarcarAjustados(v.itens))]
      ensures o != Ok ==> inventarios == old(inventarios) && estoque == old(estoque)
                          && movimentos == old(movimentos) && ajustes == 0
    {
      ajustes := 0;
      var found := NoEstado(inventarios, id, empresa, {Finalizado});
      if found.None? {
        return NotFound, 0;
      }
      var i := found.value;
      var v := inventarios[i];
      if Count(v.itens, AAjustar) == 0 {
        return BadRequest, 0;
      }
      var marcados, novoEstoque, movs, n := AplicarAjustes(v.itens, estoque, empresa, v.local, id);
      var w := v.(status := Ajustado, itens := marcados);
      AjustadoConsistente(inventarios, i);
      movimentos := movimentos + movs;
      estoque := novoEstoque;
      inventarios := inventarios[i := w];
      o, ajustes := Ok, n;
    }

    /** DELETE /:id: a draft or an inventory being counted becomes CANCELADO. */
    method Cancelar(id: Id, empresa: Id) returns (o: Outcome)
      requires Valid()
      modifies this`inventarios
      ensures Valid()
      ensures o == (if NoEstado(old(inventarios), id, empresa, {Rascunho, EmAndamento}).Some? then Ok else NotFound)
      ensures inventarios == if o == Ok
        then var i := NoEstado(old(inventarios), id, empresa, {Rascunho, EmAndamento}).value;
             old(inventarios)[i := old(inventarios)[i].(status := Cancelado)]
        else old(inventarios)
    {
      var found := NoEstado(inventarios, id, empresa, {Rascunho, EmAndamento});
      if found.None? {
        return NotFound;
      }
      ConsistenteAtualizar(inventarios, found.value, inventarios[found.value].(status := Cancelado));
      inventarios := inventarios[found.value := inventarios[found.value].(status := Cancelado)];
      o := Ok;
    }

    /** GET /:id: the statistics of an inventory of the company. */
    method Estatisticas(id: Id, empresa: Id) returns (r: Result<Estatisticas>)
      requires Valid()
      ensures var f := Localizar(inventarios, id, empresa);
        r == if f.None? then Failure(NotFound) else Success(EstatisticasDe(inventarios[f.value].itens))
      ensures r.Success? ==> r.value.itensDivergentes <= r.value.itensContados <= r.value.totalItens
    {
      var f := Localizar(inventarios, id, empresa);
      if f.None? {
        return Failure(NotFound);
      }
      r := Success(EstatisticasDe(inventarios[f.value].itens));
    }
  }
}
