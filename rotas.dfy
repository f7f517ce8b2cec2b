/**
 * Delivery routes (rotas): a route is planned, started and finished; its stops
 * (rotas_entregas) can be added, removed and reordered while the route allows it, and
 * the optimisation suggestion orders a set of deliveries by postal code.
 */
module Rotas {
  import opened Outcome

  datatype Status = Planejada | EmAndamento | Finalizada

  datatype Rota = Rota(id: Id, empresa: Id, nome: string, descricao: Option<string>, motorista: Option<Id>,
                       veiculo: Option<Id>, kmEstimado: Option<real>, tempoEstimado: Option<real>,
                       status: Status, kmReal: Option<real>,
                       observacoesFinalizacao: Option<string>)

  /** A stop: one delivery on one route, at a position. */
  datatype Parada = Parada(id: Id, rota: Id, entrega: Id, ordem: int)

  /** The delivery's client and the address fields the optimisation looks at. */
  datatype Entrega = Entrega(id: Id, empresa: Id, cliente: Option<Id>, cep: Option<string>, bairro: Option<string>)

  /** `valor || null` for a number: zero is stored as null. */
  function NaoZero(v: Option<real>): Option<real>
  {
    if v.Some? && v.value != 0.0 then v else None
  }

  // ---------------------------------------------------------------- routes

  datatype NovaRota = NovaRota(nome: string, descricao: Option<string>, motorista: Option<Id>, veiculo: Option<Id>,
                               kmEstimado: Option<real>, tempoEstimado: Option<real>)

  predicate ValidNovaRota(d: NovaRota)
  {
    1 <= |d.nome| <= 100 && (d.kmEstimado.Some? ==> d.kmEstimado.value >= 0.0)
    && (d.tempoEstimado.Some? ==> d.tempoEstimado.value >= 0.0)
  }

  /** A new route is PLANEJADA, with no distance travelled yet. */
  function RotaDe(id: Id, empresa: Id, d: NovaRota): Rota
  {
    Rota(id, empresa, d.nome, OrNull(d.descricao), OrNull(d.motorista), OrNull(d.veiculo), NaoZero(d.kmEstimado),
         NaoZero(d.tempoEstimado), Planejada, None, None)
  }

  /** The partial body of PUT /rotas/:id: every field optional. */
  datatype Alteracao = Alteracao(nome: Option<string>, descricao: Option<string>, motorista: Option<Id>,
                                 veiculo: Option<Id>, kmEstimado: Option<real>, tempoEstimado: Option<real>)

  predicate ValidAlteracao(a: Alteracao)
  {
    (a.nome.Some? ==> 1 <= |a.nome.value| <= 100) && (a.kmEstimado.Some? ==> a.kmEstimado.value >= 0.0)
    && (a.tempoEstimado.Some? ==> a.tempoEstimado.value >= 0.0)
  }

  /** Only the supplied fields change; a driver or vehicle can be replaced but never cleared. */
  function Alterada(r: Rota, a: Alteracao): (q: Rota)
    ensures q.id == r.id && q.empresa == r.empresa && q.status == r.status
    ensures r.motorista.Some? ==> q.motorista.Some?
    ensures r.veiculo.Some? ==> q.veiculo.Some?
    ensures a == Alteracao(None, None, None, None, None, None) ==> q == r
  {
    r.(nome := a.nome.GetOr(r.nome),
       descricao := if a.descricao.Some? then a.descricao else r.descricao,
       motorista := if a.motorista.Some? then a.motorista else r.motorista,
       veiculo := if a.veiculo.Some? then a.veiculo else r.veiculo,
       kmEstimado := if a.kmEstimado.Some? then a.kmEstimado else r.kmEstimado,
       tempoEstimado := if a.tempoEstimado.Some? then a.tempoEstimado else r.tempoEstimado)
  }

  function Localizar(rotas: seq<Rota>, id: Id, empresa: Id): (r: Option<nat>)
    ensures r.Some? ==> r.value < |rotas| && rotas[r.value].id == id && rotas[r.value].empresa == empresa
    ensures r.None? <==> forall k :: 0 <= k < |rotas| ==> !(rotas[k].id == id && rotas[k].empresa == empresa)
  {
    if rotas == [] then None
    else match Localizar(rotas[..|rotas| - 1], id, empresa)
      case Some(i) => Some(i)
      case None => if rotas[|rotas| - 1].id == id && rotas[|rotas| - 1].empresa == empresa then Some(|rotas| - 1) else None
  }

  predicate EntregaExiste(entregas: seq<Entrega>, id: Id, empresa: Id)
  {
    exists k :: 0 <= k < |entregas| && entregas[k].id == id && entregas[k].empresa == empresa
  }

  predicate TemParadas(ps: seq<Parada>, rota: Id)
  {
    exists k :: 0 <= k < |ps| && ps[k].rota == rota
  }

  /** finalizar: the body is not required to be valid; an invalid one stores nulls. */
  function Encerrada(r: Rota, kmFinal: Option<real>, observacoes: Option<string>): (q: Rota)
    ensures q.status == Finalizada && q.id == r.id && q.motorista == r.motorista && q.veiculo == r.veiculo
    ensures kmFinal.Some? && kmFinal.value > 0.0 ==> q.kmReal == kmFinal
    ensures kmFinal.Some? && kmFinal.value < 0.0 ==> q.kmReal.None? && q.observacoesFinalizacao.None?
  {
    var valido := kmFinal.Some? ==> kmFinal.value >= 0.0;
    r.(status := Finalizada,
       kmReal := if valido then NaoZero(kmFinal) else None,
       observacoesFinalizacao := if valido then OrNull(observacoes) else None)
  }

  // ---------------------------------------------------------------- stops

  function Contagem(ps: seq<Parada>, rota: Id, entrega: Id): nat
  {
    if ps == [] then 0
    else Contagem(ps[..|ps| - 1], rota, entrega) + (if ps[|ps| - 1].rota == rota && ps[|ps| - 1].entrega == entrega then 1 else 0)
  }

  /** DELETE ... WHERE rota_id = ? AND entrega_id = ?: every matching stop goes, the rest stay in order. */
  function Sem(ps: seq<Parada>, rota: Id, entrega: Id): (r: seq<Parada>)
    ensures |r| + Contagem(ps, rota, entrega) == |ps|
    ensures forall k :: 0 <= k < |r| ==> !(r[k].rota == rota && r[k].entrega == entrega) && r[k] in ps
    ensures forall k :: 0 <= k < |ps| && !(ps[k].rota == rota && ps[k].entrega == entrega) ==> ps[k] in r
  {
    if ps == [] then []
    else
      var p := ps[|ps| - 1];
      var r := Sem(ps[..|ps| - 1], rota, entrega);
      assert forall k :: 0 <= k < |ps| - 1 ==> ps[k] == ps[..|ps| - 1][k];
      if p.rota == rota && p.entrega == entrega then r else r + [p]
  }

  /** DELETE FROM rotas_entregas WHERE rota_id = ?. */
  function SemRota(ps: seq<Parada>, rota: Id): (r: seq<Parada>)
    ensures forall k :: 0 <= k < |r| ==> r[k].rota != rota && r[k] in ps
    ensures forall k :: 0 <= k < |ps| && ps[k].rota != rota ==> ps[k] in r
  {
    if ps == [] then []
    else
      var p := ps[|ps| - 1];
      var r := SemRota(ps[..|ps| - 1], rota);
      assert forall k :: 0 <= k < |ps| - 1 ==> ps[k] == ps[..|ps| - 1][k];
      if p.rota == rota then r else r + [p]
  }

  /** One UPDATE of the reorder loop: every stop of that delivery on that route takes the new position. */
  function ComOrdem(ps: seq<Parada>, rota: Id, entrega: Id, ordem: int): (r: seq<Parada>)
    ensures |r| == |ps|
    ensures forall k :: 0 <= k < |ps| ==> r[k] == (if ps[k].rota == rota && ps[k].entrega == entrega then ps[k].(ordem := ordem) else ps[k])
  {
    if ps == [] then []
    else
      var p := ps[|ps| - 1];
      ComOrdem(ps[..|ps| - 1], rota, entrega, ordem) + [if p.rota == rota && p.entrega == entrega then p.(ordem := ordem) else p]
  }

  datatype Posicao = Posicao(entrega: Id, ordem: int)

  function Reordenadas(ps: seq<Parada>, rota: Id, itens: seq<Posicao>): (r: seq<Parada>)
    ensures |r| == |ps|
  {
    if itens == [] then ps
    else
      var it := itens[|itens| - 1];
      ComOrdem(Reordenadas(ps, rota, itens[..|itens| - 1]), rota, it.entrega, it.ordem)
  }

  /** Reordering changes only positions, and only of the route's stops named in the request. */
  lemma {:induction false} ReordenadasPreserva(ps: seq<Parada>, rota: Id, itens: seq<Posicao>)
    ensures var r := Reordenadas(ps, rota, itens);
      |r| == |ps| && forall k :: 0 <= k < |ps| ==>
        r[k] == ps[k].(ordem := r[k].ordem)
        && (ps[k].rota != rota || (forall j :: 0 <= j < |itens| ==> itens[j].entrega != ps[k].entrega) ==> r[k] == ps[k])
  {
    if itens != [] {
      ReordenadasPreserva(ps, rota, itens[..|itens| - 1]);
    }
  }

  /** A stop of the route named in the request ends at the position its last mention gives. */
  lemma {:induction false} ReordenadasUltima(ps: seq<Parada>, rota: Id, itens: seq<Posicao>, k: nat, j: nat)
    requires k < |ps| && j < |itens| && ps[k].rota == rota && itens[j].entrega == ps[k].entrega
    requires forall i :: j < i < |itens| ==> itens[i].entrega != ps[k].entrega
    ensures k < |Reordenadas(ps, rota, itens)| && Reordenadas(ps, rota, itens)[k].ordem == itens[j].ordem
  {
    var n := |itens|;
    var init := itens[..n - 1];
    var last := itens[n - 1];
    ReordenadasPreserva(ps, rota, init);
    var r0 := Reordenadas(ps, rota, init);
    assert Reordenadas(ps, rota, itens) == ComOrdem(r0, rota, last.entrega, last.ordem);
    assert r0[k].rota == rota && r0[k].entrega == ps[k].entrega;
    if j < n - 1 {
      assert forall i :: j < i < |init| ==> init[i] == itens[i];
      ReordenadasUltima(ps, rota, init, k, j);
      assert last.entrega != ps[k].entrega;
    }
  }

  /** The loop of PUT /rotas/:id/reordenar. */
  method ReordenarParadas(ps: seq<Parada>, rota: Id, itens: seq<Posicao>) returns (r: seq<Parada>)
    ensures r == Reordenadas(ps, rota, itens)
  {
    r := ps;
    var k := 0;
    while k < |itens|
      invariant 0 <= k <= |itens|
      invariant r == Reordenadas(ps, rota, itens[..k])
    {
      assert itens[..k + 1][..k] == itens[..k];
      r := ComOrdem(r, rota, itens[k].entrega, itens[k].ordem);
      k := k + 1;
    }
    assert itens[..k] == itens;
  }

  // ---------------------------------------------------------------- optimisation

  /** `String.prototype.localeCompare`, as code-point order. */
  function Comparar(a: string, b: string): int
  {
    if a == [] && b == [] then 0
    else if a == [] then -1
    else if b == [] then 1
    else if a[0] < b[0] then -1
    else if a[0] > b[0] then 1
    else Comparar(a[1..], b[1..])
  }

  lemma {:induction false} CompararOposto(a: string, b: string)
    ensures Comparar(a, b) == -Comparar(b, a)
  {
    if a != [] && b != [] && a[0] == b[0] {
      CompararOposto(a[1..], b[1..]);
    }
  }

  lemma {:induction false} CompararTransitivo(a: string, b: string, c: string)
    requires Comparar(a, b) <= 0 && Comparar(b, c) <= 0
    ensures Comparar(a, c) <= 0
  {
    if a != [] && b != [] && c != [] && a[0] == b[0] && b[0] == c[0] {
      CompararTransitivo(a[1..], b[1..], c[1..]);
    }
  }

  /** The sort comparator: by CEP when both have one, else by bairro when both have one, else equal. */
  function Ordem(a: Entrega, b: Entrega): int
  {
    if Truthy(a.cep) && Truthy(b.cep) then Comparar(a.cep.value, b.cep.value)
    else if Truthy(a.bairro) && Truthy(b.bairro) then Comparar(a.bairro.value, b.bairro.value)
    else 0
  }

  /** Stable insertion of one delivery: after every element the comparator does not put after it. */
  function Inserir(x: Entrega, t: seq<Entrega>): (r: seq<Entrega>)
    ensures multiset(r) == multiset(t) + multiset{x}
  {
    if t == [] then [x]
    else if Ordem(t[|t| - 1], x) <= 0 then t + [x]
    else
      assert t == t[..|t| - 1] + [t[|t| - 1]];
      Inserir(x, t[..|t| - 1]) + [t[|t| - 1]]
  }

  function Ordenar(s: seq<Entrega>): (r: seq<Entrega>)
    ensures multiset(r) == multiset(s)
  {
    if s == [] then []
    else
      assert s == s[..|s| - 1] + [s[|s| - 1]];
      Inserir(s[|s| - 1], Ordenar(s[..|s| - 1]))
  }

  predicate ComCep(s: seq<Entrega>)
  {
    forall k :: 0 <= k < |s| ==> Truthy(s[k].cep)
  }

  predicate PorCep(s: seq<Entrega>)
    requires ComCep(s)
  {
    forall i, j :: 0 <= i < j < |s| ==> Comparar(s[i].cep.value, s[j].cep.value) <= 0
  }

  lemma {:induction false} ComCepMultiset(s: seq<Entrega>, t: seq<Entrega>)
    requires multiset(s) == multiset(t) && ComCep(t)
    ensures ComCep(s)
  {
    forall k | 0 <= k < |s|
      ensures Truthy(s[k].cep)
    {
      assert s[k] in multiset(t);
    }
  }

  /** Appending an element no smaller than every element keeps CEP order. */
  lemma {:induction false} AcrescentarMaior(s: seq<Entrega>, y: Entrega)
    requires ComCep(s) && Truthy(y.cep) && PorCep(s)
    requires forall k :: 0 <= k < |s| ==> Comparar(s[k].cep.value, y.cep.value) <= 0
    ensures ComCep(s + [y]) && PorCep(s + [y])
  {
    var r := s + [y];
    assert forall k :: 0 <= k < |s| ==> r[k] == s[k];
    forall i, j | 0 <= i < j < |r|
      ensures Comparar(r[i].cep.value, r[j].cep.value) <= 0
    {
      if j < |s| {
        assert r[i] == s[i] && r[j] == s[j];
      }
    }
  }

  /** Every element of the insertion is bounded by a bound of the list and of the element. */
  lemma {:induction false} InserirLimitado(x: Entrega, t: seq<Entrega>, u: Entrega)
    requires ComCep(t) && Truthy(x.cep) && Truthy(u.cep) && ComCep(Inserir(x, t))
    requires forall k :: 0 <= k < |t| ==> Comparar(t[k].cep.value, u.cep.value) <= 0
    requires Comparar(x.cep.value, u.cep.value) <= 0
    ensures forall k :: 0 <= k < |Inserir(x, t)| ==> Comparar(Inserir(x, t)[k].cep.value, u.cep.value) <= 0
  {
    var r := Inserir(x, t);
    forall k | 0 <= k < |r|
      ensures Comparar(r[k].cep.value, u.cep.value) <= 0
    {
      assert r[k] in multiset(t) + multiset{x};
      if r[k] != x {
        assert r[k] in t;
      }
    }
  }

  lemma {:induction false} InserirPorCep(x: Entrega, t: seq<Entrega>)
    requires ComCep(t) && Truthy(x.cep) && PorCep(t)
    ensures ComCep(Inserir(x, t)) && PorCep(Inserir(x, t))
  {
    ComCepMultiset(Inserir(x, t), t + [x]);
    if t != [] {
      var n := |t|;
      var u := t[n - 1];
      if Ordem(u, x) <= 0 {
        forall k | 0 <= k < n
          ensures Comparar(t[k].cep.value, x.cep.value) <= 0
        {
          if k < n - 1 {
            CompararTransitivo(t[k].cep.value, u.cep.value, x.cep.value);
          }
        }
        AcrescentarMaior(t, x);
      } else {
        var init := t[..n - 1];
        assert ComCep(init) && PorCep(init);
        InserirPorCep(x, init);
        CompararOposto(u.cep.value, x.cep.value);
        forall k | 0 <= k < n - 1
          ensures Comparar(init[k].cep.value, u.cep.value) <= 0
        {
          assert init[k] == t[k];
        }
        InserirLimitado(x, init, u);
        AcrescentarMaior(Inserir(x, init), u);
      }
    }
  }

  /** When every delivery has a CEP, the suggestion is in CEP order. */
  lemma {:induction false} OrdenarPorCep(s: seq<Entrega>)
    requires ComCep(s)
    ensures ComCep(Ordenar(s)) && PorCep(Ordenar(s))
  {
    if s != [] {
      var init := s[..|s| - 1];
      assert ComCep(init);
      OrdenarPorCep(init);
      InserirPorCep(s[|s| - 1], Ordenar(init));
    }
  }

  /** The inner `JOIN clientes`: the delivery names a client that exists. */
  predicate ComCliente(e: Entrega, clientes: set<Id>)
  {
    e.cliente.Some? && e.cliente.value in clientes
  }

  /**
   * The deliveries `JOIN clientes … WHERE e.id IN (...) AND e.empresa_id = ?`, in table order:
   * a delivery without an existing client is not fetched.
   */
  function Buscadas(entregas: seq<Entrega>, clientes: set<Id>, ids: seq<Id>, empresa: Id): (r: seq<Entrega>)
    ensures forall k :: 0 <= k < |r| ==> r[k] in entregas && r[k].id in ids && r[k].empresa == empresa && ComCliente(r[k], clientes)
    ensures forall k :: (0 <= k < |entregas| && entregas[k].id in ids && entregas[k].empresa == empresa
                         && ComCliente(entregas[k], clientes)) ==> entregas[k] in r
  {
    if entregas == [] then []
    else
      var e := entregas[|entregas| - 1];
      var r := Buscadas(entregas[..|entregas| - 1], clientes, ids, empresa);
      assert forall k :: 0 <= k < |entregas| - 1 ==> entregas[k] == entregas[..|entregas| - 1][k];
      if e.id in ids && e.empresa == empresa && ComCliente(e, clientes) then r + [e] else r
  }

  /** A suggested stop: the delivery and its 1-based position. */
  datatype Sugestao = Sugestao(entrega: Entrega, ordem: nat)

  function Numeradas(s: seq<Entrega>): (r: seq<Sugestao>)
    ensures |r| == |s|
    ensures forall k :: 0 <= k < |s| ==> r[k] == Sugestao(s[k], k + 1)
  {
    if s == [] then [] else Numeradas(s[..|s| - 1]) + [Sugestao(s[|s| - 1], |s|)]
  }

  function EntregasDe(r: seq<Sugestao>): (s: seq<Entrega>)
    ensures |s| == |r| && forall k :: 0 <= k < |r| ==> s[k] == r[k].entrega
  {
    if r == [] then [] else EntregasDe(r[..|r| - 1]) + [r[|r| - 1].entrega]
  }

  /**
   * GET /rotas/otimizar: 400 without ids; otherwise the fetched deliveries, each once,
   * numbered 1..n, and in CEP order when all have a CEP.
   */
  method Otimizar(entregas: seq<Entrega>, clientes: set<Id>, ids: seq<Id>, empresa: Id) returns (o: Outcome, r: seq<Sugestao>)
    ensures o == if ids == [] then BadRequest else Ok
    ensures o == Ok ==> var s := Buscadas(entregas, clientes, ids, empresa);
      multiset(EntregasDe(r)) == multiset(s)
      && (forall k :: 0 <= k < |r| ==> r[k].ordem == k + 1)
      && (ComCep(s) ==> ComCep(EntregasDe(r)) && PorCep(EntregasDe(r)))
  {
    if ids == [] {
      return BadRequest, [];
    }
    var s := Buscadas(entregas, clientes, ids, empresa);
    var ordenadas := Ordenar(s);
    r := Numeradas(ordenadas);
    assert EntregasDe(r) == ordenadas;
    if ComCep(s) {
      OrdenarPorCep(s);
    }
    o := Ok;
  }

  // ---------------------------------------------------------------- invariants

  predicate IdsUnicos(rotas: seq<Rota>)
  {
    forall i, j :: 0 <= i < |rotas| && 0 <= j < |rotas| && i != j ==> rotas[i].id != rotas[j].id
  }

  predicate RotaExiste(rotas: seq<Rota>, id: Id)
  {
    exists j :: 0 <= j < |rotas| && rotas[j].id == id
  }

  /** Every stop belongs to a route. */
  predicate Ligadas(rotas: seq<Rota>, ps: seq<Parada>)
  {
    forall k :: 0 <= k < |ps| ==> RotaExiste(rotas, ps[k].rota)
  }

  /** A route that has been started has a driver, a vehicle and at least one stop. */
  predicate Iniciadas(rotas: seq<Rota>, ps: seq<Parada>)
  {
    forall j :: 0 <= j < |rotas| && rotas[j].status != Planejada ==>
      rotas[j].motorista.Some? && rotas[j].veiculo.Some? && TemParadas(ps, rotas[j].id)
  }

  predicate Consistente(rotas: seq<Rota>, ps: seq<Parada>)
  {
    IdsUnicos(rotas) && Ligadas(rotas, ps) && Iniciadas(rotas, ps)
  }

  lemma {:induction false} ConsistenteAcrescentar(rotas: seq<Rota>, ps: seq<Parada>, nova: Rota)
    requires Consistente(rotas, ps) && nova.status == Planejada
    requires forall k :: 0 <= k < |rotas| ==> rotas[k].id != nova.id
    ensures Consistente(rotas + [nova], ps)
  {
    var n := rotas + [nova];
    assert forall k :: 0 <= k < |rotas| ==> n[k] == rotas[k];
    forall k | 0 <= k < |ps|
      ensures RotaExiste(n, ps[k].rota)
    {
      var j :| 0 <= j < |rotas| && rotas[j].id == ps[k].rota;
      assert n[j].id == ps[k].rota;
    }
  }

  /** Changing one route keeps the tables consistent when the change keeps what a started route needs. */
  lemma {:induction false} ConsistenteSubstituir(rotas: seq<Rota>, ps: seq<Parada>, i: nat, nova: Rota)
    requires Consistente(rotas, ps) && i < |rotas| && nova.id == rotas[i].id
    requires nova.status != Planejada ==> nova.motorista.Some? && nova.veiculo.Some? && TemParadas(ps, nova.id)
    ensures Consistente(rotas[i := nova], ps)
  {
    var n := rotas[i := nova];
    forall k | 0 <= k < |ps|
      ensures RotaExiste(n, ps[k].rota)
    {
      var j :| 0 <= j < |rotas| && rotas[j].id == ps[k].rota;
      assert n[j].id == ps[k].rota;
    }
  }

  lemma {:induction false} ConsistenteNovaParada(rotas: seq<Rota>, ps: seq<Parada>, i: nat, p: Parada)
    requires Consistente(rotas, ps) && i < |rotas| && p.rota == rotas[i].id
    ensures Consistente(rotas, ps + [p])
  {
    var n := ps + [p];
    forall j | 0 <= j < |rotas| && rotas[j].status != Planejada
      ensures TemParadas(n, rotas[j].id)
    {
      var k :| 0 <= k < |ps| && ps[k].rota == rotas[j].id;
      assert n[k].rota == rotas[j].id;
    }
  }

  /** Removing stops of a planned route keeps the tables consistent. */
  lemma {:induction false} ConsistenteSemParadas(rotas: seq<Rota>, ps: seq<Parada>, i: nat, n: seq<Parada>)
    requires Consistente(rotas, ps) && i < |rotas| && rotas[i].status == Planejada
    requires forall k :: 0 <= k < |n| ==> n[k] in ps
    requires forall k :: 0 <= k < |ps| && ps[k].rota != rotas[i].id ==> ps[k] in n
    ensures Consistente(rotas, n)
  {
    forall k | 0 <= k < |n|
      ensures RotaExiste(rotas, n[k].rota)
    {
      var m :| 0 <= m < |ps| && ps[m] == n[k];
    }
    forall j | 0 <= j < |rotas| && rotas[j].status != Planejada
      ensures TemParadas(n, rotas[j].id)
    {
      var k :| 0 <= k < |ps| && ps[k].rota == rotas[j].id;
      assert ps[k] in n;
      var m :| 0 <= m < |n| && n[m] == ps[k];
    }
  }

  /** Reordering keeps every stop on its route. */
  lemma {:induction false} ConsistenteReordenadas(rotas: seq<Rota>, ps: seq<Parada>, rota: Id, itens: seq<Posicao>)
    requires Consistente(rotas, ps)
    ensures Consistente(rotas, Reordenadas(ps, rota, itens))
  {
    var n := Reordenadas(ps, rota, itens);
    ReordenadasPreserva(ps, rota, itens);
    assert forall k :: 0 <= k < |ps| ==> n[k].rota == ps[k].rota;
    forall j | 0 <= j < |rotas| && rotas[j].status != Planejada
      ensures TemParadas(n, rotas[j].id)
    {
      var k :| 0 <= k < |ps| && ps[k].rota == rotas[j].id;
      assert n[k].rota == rotas[j].id;
    }
  }

  /** The routes without the one at `i`: those before it keep their place, those after it move up one. */
  lemma SemIndice(rotas: seq<Rota>, i: nat)
    requires i < |rotas|
    ensures var n := rotas[..i] + rotas[i + 1..];
      |n| == |rotas| - 1
      && (forall j :: 0 <= j < i ==> n[j] == rotas[j])
      && (forall j :: i <= j < |n| ==> n[j] == rotas[j + 1])
  {
  }

  /** Deleting a planned route together with its stops keeps the tables consistent. */
  lemma {:induction false} ConsistenteExcluir(rotas: seq<Rota>, ps: seq<Parada>, i: nat)
    requires Consistente(rotas, ps) && i < |rotas| && rotas[i].status == Planejada
    ensures Consistente(rotas[..i] + rotas[i + 1..], SemRota(ps, rotas[i].id))
  {
    var q := SemRota(ps, rotas[i].id);
    ConsistenteSemParadas(rotas, ps, i, q);
    var n := rotas[..i] + rotas[i + 1..];
    SemIndice(rotas, i);
    forall k | 0 <= k < |q|
      ensures RotaExiste(n, q[k].rota)
    {
      var j :| 0 <= j < |rotas| && rotas[j].id == q[k].rota;
      if j < i {
        assert n[j].id == q[k].rota;
      } else {
        assert n[j - 1].id == q[k].rota;
      }
    }
    forall j | 0 <= j < |n| && n[j].status != Planejada
      ensures n[j].motorista.Some? && n[j].veiculo.Some? && TemParadas(q, n[j].id)
    {
      if j < i {
        assert n[j] == rotas[j];
      } else {
        assert n[j] == rotas[j + 1];
      }
    }
  }

  // ---------------------------------------------------------------- state

  class Roteirizacao {
    var rotas: seq<Rota>
    var paradas: seq<Parada>
    var entregas: seq<Entrega>

    ghost predicate Valid()
      reads this`rotas, this`paradas
    {
      Consistente(rotas, paradas)
    }

    constructor (entregas: seq<Entrega>)
      ensures Valid() && rotas == [] && paradas == [] && this.entregas == entregas
    {
      rotas, paradas, this.entregas := [], [], entregas;
    }

    /** POST /rotas. */
    method Criar(id: Id, empresa: Id, d: NovaRota) returns (o: Outcome)
      requires Valid()
      requires forall k :: 0 <= k < |rotas| ==> rotas[k].id != id
      modifies this`rotas
      ensures Valid()
      ensures o == if ValidNovaRota(d) then Ok else BadRequest
      ensures rotas == if o == Ok then old(rotas) + [RotaDe(id, empresa, d)] else old(rotas)
    {
      if !ValidNovaRota(d) {
        return BadRequest;
      }
      ConsistenteAcrescentar(rotas, paradas, RotaDe(id, empresa, d));
      rotas := rotas + [RotaDe(id, empresa, d)];
      o := Ok;
    }

    /** PUT /rotas/:id: refused for a finished route. */
    method Atualizar(id: Id, empresa: Id, a: Alteracao) returns (o: Outcome)
      requires Valid()
      modifies this`rotas
      ensures Valid()
      ensures var i := Localizar(old(rotas), id, empresa);
        o == (if !ValidAlteracao(a) then BadRequest else if i.None? then NotFound
              else if old(rotas)[i.value].status == Finalizada then BadRequest else Ok)
        && rotas == if o == Ok then old(rotas)[i.value := Alterada(old(rotas)[i.value], a)] else old(rotas)
    {
      if !ValidAlteracao(a) {
        return BadRequest;
      }
      var i := Localizar(rotas, id, empresa);
      if i.None? {
        return NotFound;
      }
      if rotas[i.value].status == Finalizada {
        return BadRequest;
      }
      ConsistenteSubstituir(rotas, paradas, i.value, Alterada(rotas[i.value], a));
      rotas := rotas[i.value := Alterada(rotas[i.value], a)];
      o := Ok;
    }

    /** POST /rotas/:id/entregas: the route must not be finished and the delivery must exist in the company. */
    method AdicionarEntrega(id: Id, empresa: Id, paradaId: Id, entrega: Id, ordem: int) returns (o: Outcome)
      requires Valid()
      modifies this`paradas
      ensures Valid()
      ensures var i := Localizar(rotas, id, empresa);
        o == (if ordem < 1 then BadRequest else if i.None? then NotFound
              else if rotas[i.value].status == Finalizada then BadRequest
              else if !EntregaExiste(entregas, entrega, empresa) then NotFound
              else Ok)
        && paradas == if o == Ok then old(paradas) + [Parada(paradaId, id, entrega, ordem)] else old(paradas)
    {
      if ordem < 1 {
        return BadRequest;
      }
      var i := Localizar(rotas, id, empresa);
      if i.None? {
        return NotFound;
      }
      if rotas[i.value].status == Finalizada {
        return BadRequest;
      }
      if !EntregaExiste(entregas, entrega, empresa) {
        return NotFound;
      }
      ConsistenteNovaParada(rotas, paradas, i.value, Parada(paradaId, id, entrega, ordem));
      paradas := paradas + [Parada(paradaId, id, entrega, ordem)];
      o := Ok;
    }

    /** DELETE /rotas/:id/entregas/:entregaId: only on a planned route; not-found when the stop is not there. */
    method RemoverEntrega(id: Id, empresa: Id, entrega: Id) returns (o: Outcome)
      requires Valid()
      modifies this`paradas
      ensures Valid()
      ensures var i := Localizar(rotas, id, empresa);
        o == (if i.None? then NotFound else if rotas[i.value].status != Planejada then BadRequest
              else if Contagem(old(paradas), id, entrega) == 0 then NotFound else Ok)
        && paradas == if o == Ok then Sem(old(paradas), id, entrega) else old(paradas)
    {
      var i := Localizar(rotas, id, empresa);
      if i.None? {
        return NotFound;
      }
      if rotas[i.value].status != Planejada {
        return BadRequest;
      }
      var restantes := Sem(paradas, id, entrega);
      if |restantes| == |paradas| {
        return NotFound;
      }
      ConsistenteSemParadas(rotas, paradas, i.value, restantes);
      paradas := restantes;
      o := Ok;
    }

    /** PUT /rotas/:id/reordenar: refused for a finished route. */
    method Reordenar(id: Id, empresa: Id, itens: seq<Posicao>) returns (o: Outcome)
      requires Valid()
      modifies this`paradas
      ensures Valid()
      ensures var i := Localizar(rotas, id, empresa);
        o == (if exists k :: 0 <= k < |itens| && itens[k].ordem < 1 then BadRequest else if i.None? then NotFound
              else if rotas[i.value].status == Finalizada then BadRequest else Ok)
        && paradas == if o == Ok then Reordenadas(old(paradas), id, itens) else old(paradas)
    {
      if exists k :: 0 <= k < |itens| && itens[k].ordem < 1 {
        return BadRequest;
      }
      var i := Localizar(rotas, id, empresa);
      if i.None? {
        return NotFound;
      }
      if rotas[i.value].status == Finalizada {
        return BadRequest;
      }
      ConsistenteReordenadas(rotas, paradas, id, itens);
      paradas := ReordenarParadas(paradas, id, itens);
      o := Ok;
    }

    /** POST /rotas/:id/iniciar. */
    method Iniciar(id: Id, empresa: Id) returns (o: Outcome)
      requires Valid()
      modifies this`rotas
      ensures Valid()
      ensures var i := Localizar(old(rotas), id, empresa);
        o == (if i.None? then NotFound
              else if old(rotas)[i.value].status != Planejada then BadRequest
              else if old(rotas)[i.value].motorista.None? || old(rotas)[i.value].veiculo.None? then BadRequest
              else if !TemParadas(paradas, id) then BadRequest else Ok)
        && rotas == if o == Ok then old(rotas)[i.value := old(rotas)[i.value].(status := EmAndamento)] else old(rotas)
    {
      var i := Localizar(rotas, id, empresa);
      if i.None? {
        return NotFound;
      }
      var r := rotas[i.value];
      if r.status != Planejada {
        return BadRequest;
      }
      if r.motorista.None? || r.veiculo.None? {
        return BadRequest;
      }
      if !TemParadas(paradas, id) {
        return BadRequest;
      }
      ConsistenteSubstituir(rotas, paradas, i.value, r.(status := EmAndamento));
      rotas := rotas[i.value := r.(status := EmAndamento)];
      o := Ok;
    }

    /** POST /rotas/:id/finalizar: only from EM_ANDAMENTO. */
    method Finalizar(id: Id, empresa: Id, kmFinal: Option<real>, observacoes: Option<string>) returns (o: Outcome)
      requires Valid()
      modifies this`rotas
      ensures Valid()
      ensures var i := Localizar(old(rotas), id, empresa);
        o == (if i.None? then NotFound else if old(rotas)[i.value].status != EmAndamento then BadRequest else Ok)
        && rotas == if o == Ok then old(rotas)[i.value := Encerrada(old(rotas)[i.value], kmFinal, observacoes)] else old(rotas)
    {
      var i := Localizar(rotas, id, empresa);
      if i.None? {
        return NotFound;
      }
      if rotas[i.value].status != EmAndamento {
        return BadRequest;
      }
      ConsistenteSubstituir(rotas, paradas, i.value, Encerrada(rotas[i.value], kmFinal, observacoes));
      rotas := rotas[i.value := Encerrada(rotas[i.value], kmFinal, observacoes)];
      o := Ok;
    }

    /** DELETE /rotas/:id: only a planned route; its stops go first. */
    method Excluir(id: Id, empresa: Id) returns (o: Outcome)
      requires Valid()
      modifies this`rotas, this`paradas
      ensures Valid()
      ensures var i := Localizar(old(rotas), id, empresa);
        o == (if i.None? then NotFound else if old(rotas)[i.value].status != Planejada then BadRequest else Ok)
        && rotas == (if o == Ok then old(rotas)[..i.value] + old(rotas)[i.value + 1..] else old(rotas))
        && paradas == if o == Ok then SemRota(old(paradas), id) else old(paradas)
    {
      var i := Localizar(rotas, id, empresa);
      if i.None? {
        return NotFound;
      }
      if rotas[i.value].status != Planejada {
        return BadRequest;
      }
      ConsistenteExcluir(rotas, paradas, i.value);
      paradas := SemRota(paradas, id);
      rotas := rotas[..i.value] + rotas[i.value + 1..];
      o := Ok;
    }
  }
}
