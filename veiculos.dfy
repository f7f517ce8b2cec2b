/**
 * Fleet vehicles (veiculos), their maintenance and fuelling records, and the
 * vehicle–driver links closed when a vehicle is inactivated.
 *
 * A plate (placa) is stored upper-cased and is unique within a company. The
 * odometer (km_atual) is moved by maintenance and fuelling records only upwards;
 * a vehicle with deliveries still under way cannot be inactivated.
 */
module Veiculos {
  import opened Outcome
  import opened Letras

  datatype TipoVeiculo = Proprio | Terceiro | Agregado | Locado

  datatype Categoria = Carro | Moto | Van | Caminhao | Carreta

  datatype Veiculo = Veiculo(id: Id, empresa: Id, placa: string, marca: Option<string>, modelo: Option<string>,
                             anoFabricacao: Option<int>, tipo: TipoVeiculo, categoria: Categoria,
                             capacidadeKg: Option<real>, km: int, transportadora: Option<Id>,
                             observacoes: Option<string>, ativo: bool)

  // ---------------------------------------------------------------- creation

  /** The body of POST /veiculos, with the schema's defaults not yet applied. */
  datatype NovoVeiculo = NovoVeiculo(placa: string, marca: Option<string>, modelo: Option<string>,
                                     anoFabricacao: Option<int>, tipo: Option<TipoVeiculo>,
                                     categoria: Option<Categoria>, capacidadeKg: Option<real>, km: Option<int>,
                                     transportadora: Option<Id>, observacoes: Option<string>, ativo: Option<bool>)

  predicate ValidPlaca(s: string) { 7 <= |s| <= 8 }

  /** `n || null` on a number: zero is stored as null. */
  function NumeroOuNulo(n: Option<int>): (r: Option<int>)
    ensures r.Some? <==> n.Some? && n.value != 0
    ensures r.Some? ==> r == n
  {
    if n.Some? && n.value != 0 then n else None
  }

  function RealOuNulo(x: Option<real>): (r: Option<real>)
    ensures r.Some? <==> x.Some? && x.value != 0.0
    ensures r.Some? ==> r == x
  {
    if x.Some? && x.value != 0.0 then x else None
  }

  /** The stored row: plate upper-cased, PROPRIO / CAMINHAO / active by default, odometer 0 when absent. */
  function VeiculoDe(id: Id, empresa: Id, d: NovoVeiculo): (v: Veiculo)
    ensures v.id == id && v.empresa == empresa
    ensures v.placa == Maiusculas(d.placa) && Maiusculas(v.placa) == v.placa
    ensures v.tipo == d.tipo.GetOr(Proprio) && v.categoria == d.categoria.GetOr(Caminhao)
    ensures v.km == d.km.GetOr(0) && v.ativo == (d.ativo != Some(false))
    ensures (v.marca.Some? <==> Truthy(d.marca)) && (v.marca.Some? ==> v.marca == d.marca)
    ensures (v.modelo.Some? <==> Truthy(d.modelo)) && (v.modelo.Some? ==> v.modelo == d.modelo)
    ensures v.anoFabricacao.Some? <==> d.anoFabricacao.Some? && d.anoFabricacao.value != 0
    ensures v.anoFabricacao.Some? ==> v.anoFabricacao == d.anoFabricacao
    ensures v.capacidadeKg.Some? <==> d.capacidadeKg.Some? && d.capacidadeKg.value != 0.0
    ensures v.capacidadeKg.Some? ==> v.capacidadeKg == d.capacidadeKg
    ensures (v.transportadora.Some? <==> Truthy(d.transportadora))
            && (v.transportadora.Some? ==> v.transportadora == d.transportadora)
    ensures (v.observacoes.Some? <==> Truthy(d.observacoes))
            && (v.observacoes.Some? ==> v.observacoes == d.observacoes)
  {
    MaiusculasIdempotente(d.placa);
    Veiculo(id, empresa, Maiusculas(d.placa), OrNull(d.marca), OrNull(d.modelo), NumeroOuNulo(d.anoFabricacao),
            d.tipo.GetOr(Proprio), d.categoria.GetOr(Caminhao), RealOuNulo(d.capacidadeKg), d.km.GetOr(0),
            OrNull(d.transportadora), OrNull(d.observacoes), d.ativo.GetOr(true))
  }

  /**
   * `SELECT id FROM veiculos WHERE empresa_id = ? AND placa = ? [AND id != ?]` with the
   * upper-cased plate: an exact comparison against what is stored.
   */
  predicate PlacaEmUso(vs: seq<Veiculo>, empresa: Id, placa: string, exceto: Option<Id>)
  {
    exists k :: 0 <= k < |vs| && vs[k].empresa == empresa && vs[k].placa == Maiusculas(placa)
                && (exceto.None? || vs[k].id != exceto.value)
  }

  // ---------------------------------------------------------------- invariant

  predicate IdsUnicos(vs: seq<Veiculo>)
  {
    forall i, j :: 0 <= i < |vs| && 0 <= j < |vs| && vs[i].id == vs[j].id ==> i == j
  }

  /** Every stored plate is already upper case. */
  predicate Normalizadas(vs: seq<Veiculo>)
  {
    forall k :: 0 <= k < |vs| ==> Maiusculas(vs[k].placa) == vs[k].placa
  }

  /** No two vehicles of a company share a plate. */
  predicate PlacasUnicas(vs: seq<Veiculo>)
  {
    forall i, j :: 0 <= i < |vs| && 0 <= j < |vs| && vs[i].empresa == vs[j].empresa && vs[i].placa == vs[j].placa
      ==> i == j
  }

  predicate Frota(vs: seq<Veiculo>)
  {
    IdsUnicos(vs) && Normalizadas(vs) && PlacasUnicas(vs)
  }

  /**
   * Because stored plates are upper case, the exact comparison of the handler is a
   * comparison up to case: a plate differing only in case from a stored one is refused.
   */
  lemma {:induction false} PlacaEmUsoSemCaixa(vs: seq<Veiculo>, empresa: Id, placa: string, k: nat)
    requires Normalizadas(vs) && k < |vs| && vs[k].empresa == empresa
    ensures Maiusculas(vs[k].placa) == Maiusculas(placa) ==> PlacaEmUso(vs, empresa, placa, None)
  {
  }

  /** In a valid fleet no two vehicles of a company have plates equal up to case. */
  lemma {:induction false} PlacasUnicasSemCaixa(vs: seq<Veiculo>, i: nat, j: nat)
    requires Frota(vs) && i < |vs| && j < |vs| && vs[i].empresa == vs[j].empresa
    requires Maiusculas(vs[i].placa) == Maiusculas(vs[j].placa)
    ensures i == j
  {
    assert vs[i].placa == Maiusculas(vs[i].placa);
    assert vs[j].placa == Maiusculas(vs[j].placa);
  }

  lemma {:induction false} FrotaAcrescentar(vs: seq<Veiculo>, v: Veiculo)
    requires Frota(vs)
    requires forall k :: 0 <= k < |vs| ==> vs[k].id != v.id
    requires Maiusculas(v.placa) == v.placa && !PlacaEmUso(vs, v.empresa, v.placa, None)
    ensures Frota(vs + [v])
  {
    assert forall k :: 0 <= k < |vs| ==> !(vs[k].empresa == v.empresa && vs[k].placa == v.placa);
  }

  // ---------------------------------------------------------------- partial update

  /** The partial body of PUT /veiculos/:id: no defaults, every field optional. */
  datatype Alteracao = Alteracao(placa: Option<string>, marca: Option<string>, modelo: Option<string>,
                                 anoFabricacao: Option<int>, tipo: Option<TipoVeiculo>,
                                 categoria: Option<Categoria>, capacidadeKg: Option<real>, km: Option<int>,
                                 transportadora: Option<Id>, observacoes: Option<string>, ativo: Option<bool>)

  predicate ValidAlteracao(a: Alteracao)
  {
    a.placa.Some? ==> ValidPlaca(a.placa.value)
  }

  function Coalesce<T>(novo: Option<T>, atual: Option<T>): (r: Option<T>)
    ensures novo.Some? ==> r == novo
    ensures novo.None? ==> r == atual
  {
    if novo.Some? then novo else atual
  }

  /** The COALESCE update: supplied fields replace the stored ones, a new plate upper-cased. */
  function Alterado(v: Veiculo, a: Alteracao): (r: Veiculo)
    ensures r.id == v.id && r.empresa == v.empresa
    ensures r.placa == if a.placa.Some? then Maiusculas(a.placa.value) else v.placa
    ensures r.marca == (if a.marca.Some? then a.marca else v.marca)
    ensures r.modelo == (if a.modelo.Some? then a.modelo else v.modelo)
    ensures r.anoFabricacao == (if a.anoFabricacao.Some? then a.anoFabricacao else v.anoFabricacao)
    ensures r.capacidadeKg == (if a.capacidadeKg.Some? then a.capacidadeKg else v.capacidadeKg)
    ensures r.transportadora == (if a.transportadora.Some? then a.transportadora else v.transportadora)
    ensures r.observacoes == (if a.observacoes.Some? then a.observacoes else v.observacoes)
    ensures r.tipo == a.tipo.GetOr(v.tipo) && r.categoria == a.categoria.GetOr(v.categoria)
    ensures r.km == a.km.GetOr(v.km) && r.ativo == a.ativo.GetOr(v.ativo)
    ensures a == Alteracao(None, None, None, None, None, None, None, None, None, None, None) ==> r == v
  {
    Veiculo(v.id, v.empresa, if a.placa.Some? then Maiusculas(a.placa.value) else v.placa,
            Coalesce(a.marca, v.marca), Coalesce(a.modelo, v.modelo), Coalesce(a.anoFabricacao, v.anoFabricacao),
            a.tipo.GetOr(v.tipo), a.categoria.GetOr(v.categoria), Coalesce(a.capacidadeKg, v.capacidadeKg),
            a.km.GetOr(v.km), Coalesce(a.transportadora, v.transportadora), Coalesce(a.observacoes, v.observacoes),
            a.ativo.GetOr(v.ativo))
  }

  /** Applying the same partial update twice is applying it once. */
  lemma {:induction false} AlteradoIdempotente(v: Veiculo, a: Alteracao)
    ensures Alterado(Alterado(v, a), a) == Alterado(v, a)
  {
    if a.placa.Some? {
      MaiusculasIdempotente(a.placa.value);
    }
  }

  function Localizar(vs: seq<Veiculo>, id: Id, empresa: Id): (r: Option<nat>)
    ensures r.Some? ==> r.value < |vs| && vs[r.value].id == id && vs[r.value].empresa == empresa
    ensures r.None? <==> !VeiculoExiste(vs, id, empresa)
  {
    if vs == [] then None
    else match Localizar(vs[..|vs| - 1], id, empresa)
      case Some(i) => Some(i)
      case None => if vs[|vs| - 1].id == id && vs[|vs| - 1].empresa == empresa then Some(|vs| - 1) else None
  }

  predicate VeiculoExiste(vs: seq<Veiculo>, id: Id, empresa: Id)
  {
    exists k :: 0 <= k < |vs| && vs[k].id == id && vs[k].empresa == empresa
  }

  lemma {:induction false} FrotaSubstituir(vs: seq<Veiculo>, i: nat, v: Veiculo)
    requires Frota(vs) && i < |vs| && v.id == vs[i].id && v.empresa == vs[i].empresa
    requires Maiusculas(v.placa) == v.placa && !PlacaEmUso(vs, v.empresa, v.placa, Some(v.id))
    ensures Frota(vs[i := v])
  {
    assert forall k :: 0 <= k < |vs| && k != i ==> !(vs[k].empresa == v.empresa && vs[k].placa == v.placa);
  }

  /** A partial update without a plate cannot break the plate invariant. */
  lemma {:induction false} AlteracaoSemPlaca(vs: seq<Veiculo>, i: nat, a: Alteracao)
    requires Frota(vs) && i < |vs| && a.placa.None?
    ensures !PlacaEmUso(vs, vs[i].empresa, Alterado(vs[i], a).placa, Some(vs[i].id))
  {
    assert forall k :: 0 <= k < |vs| && k != i ==> !(vs[k].empresa == vs[i].empresa && vs[k].placa == vs[i].placa);
  }

  // ---------------------------------------------------------------- odometer

  /** `UPDATE veiculos SET km_atual = ? WHERE id = ? AND km_atual < ?` on one row. */
  function Subido(v: Veiculo, km: int): (r: Veiculo)
    ensures r.km >= v.km && r.km >= km
    ensures r.km == v.km || r.km == km
    ensures r == v.(km := r.km)
  {
    if v.km < km then v.(km := km) else v
  }

  /** The odometer reading after a record is the larger of the two, whichever order readings arrive in. */
  lemma {:induction false} SubidoComuta(v: Veiculo, a: int, b: int)
    ensures Subido(Subido(v, a), b) == Subido(Subido(v, b), a)
    ensures Subido(Subido(v, a), b).km == Max(v.km, Max(a, b))
  {
  }

  /** A reading no larger than the current one changes nothing. */
  lemma {:induction false} SubidoAbaixo(v: Veiculo, km: int)
    ensures km <= v.km <==> Subido(v, km) == v
  {
  }

  /** The same UPDATE over the table: the WHERE clause names the id only, not the company. */
  function KmSubido(vs: seq<Veiculo>, id: Id, km: int): (r: seq<Veiculo>)
    ensures |r| == |vs|
    ensures forall k :: 0 <= k < |vs| ==> r[k] == if vs[k].id == id then Subido(vs[k], km) else vs[k]
  {
    seq(|vs|, k requires 0 <= k < |vs| => if vs[k].id == id then Subido(vs[k], km) else vs[k])
  }

  /** A record never lowers any odometer. */
  lemma {:induction false} KmSubidoMonotono(vs: seq<Veiculo>, id: Id, km: int)
    ensures forall k :: 0 <= k < |vs| ==> KmSubido(vs, id, km)[k].km >= vs[k].km
  {
  }

  lemma {:induction false} FrotaKmSubido(vs: seq<Veiculo>, id: Id, km: int)
    requires Frota(vs)
    ensures Frota(KmSubido(vs, id, km))
  {
  }

  /** The two kinds of record: maintenance and fuelling. */
  datatype TipoManutencao = Preventiva | Corretiva | Revisao | TrocaOleo | Pneus | Outros

  datatype Manutencao = Manutencao(id: Id, veiculo: Id, tipo: TipoManutencao, descricao: string, data: string,
                                   km: Option<int>, valor: Option<real>, proximaKm: Option<int>)

  datatype NovaManutencao = NovaManutencao(tipo: TipoManutencao, descricao: string, data: string, km: Option<int>,
                                           valor: Option<real>, proximaKm: Option<int>)

  /** The stored maintenance row: a zero km, value or next km stored as null. */
  function ManutencaoDe(id: Id, veiculo: Id, d: NovaManutencao): (m: Manutencao)
    ensures m.id == id && m.veiculo == veiculo && m.tipo == d.tipo && m.descricao == d.descricao
    ensures m.km.Some? <==> d.km.Some? && d.km.value != 0
  {
    Manutencao(id, veiculo, d.tipo, d.descricao, d.data, NumeroOuNulo(d.km), RealOuNulo(d.valor),
               NumeroOuNulo(d.proximaKm))
  }

  /** The odometer update after a maintenance record: only when a non-zero km was given. */
  function KmAposManutencao(vs: seq<Veiculo>, id: Id, km: Option<int>): (r: seq<Veiculo>)
    ensures km.None? || km == Some(0) ==> r == vs
    ensures km.Some? && km.value != 0 ==> r == KmSubido(vs, id, km.value)
  {
    if km.Some? && km.value != 0 then KmSubido(vs, id, km.value) else vs
  }

  datatype Combustivel = Gasolina | Etanol | Diesel | Gnv

  datatype Abastecimento = Abastecimento(id: Id, veiculo: Id, data: string, km: int, combustivel: Combustivel,
                                         litros: real, valorLitro: real, valorTotal: real, posto: Option<string>,
                                         motorista: Option<Id>)

  datatype NovoAbastecimento = NovoAbastecimento(data: string, km: int, combustivel: Combustivel, litros: real,
                                                 valorLitro: real, valorTotal: real, posto: Option<string>,
                                                 motorista: Option<Id>)

  /** Litres, price per litre and total are all positive. */
  predicate ValidAbastecimento(d: NovoAbastecimento)
  {
    d.litros > 0.0 && d.valorLitro > 0.0 && d.valorTotal > 0.0
  }

  function AbastecimentoDe(id: Id, veiculo: Id, d: NovoAbastecimento): (a: Abastecimento)
    requires ValidAbastecimento(d)
    ensures a.id == id && a.veiculo == veiculo && a.km == d.km && a.litros > 0.0 && a.valorTotal > 0.0
    ensures a.posto.Some? <==> Truthy(d.posto)
  {
    Abastecimento(id, veiculo, d.data, d.km, d.combustivel, d.litros, d.valorLitro, d.valorTotal, OrNull(d.posto),
                  OrNull(d.motorista))
  }

  // ---------------------------------------------------------------- inactivation

  datatype StatusEntrega = Pendente | EmSeparacao | EmTransito | Entregue | OutroStatus(nome: string)

  /** The delivery columns the inactivation guard reads. */
  datatype EntregaVeiculo = EntregaVeiculo(veiculo: Option<Id>, status: StatusEntrega)

  predicate EmAndamento(s: StatusEntrega) { s.Pendente? || s.EmSeparacao? || s.EmTransito? }

  /** A delivery of the vehicle is PENDENTE, EM_SEPARACAO or EM_TRANSITO. */
  predicate EntregasPendentes(es: seq<EntregaVeiculo>, veiculo: Id)
  {
    exists k :: 0 <= k < |es| && es[k].veiculo == Some(veiculo) && EmAndamento(es[k].status)
  }

  /** A row of `veiculos_motoristas`. */
  datatype Vinculo = Vinculo(veiculo: Id, motorista: Id, ativo: bool, fim: Option<string>)

  /** `UPDATE veiculos SET ativo = 0 WHERE id = ?`. */
  function Inativados(vs: seq<Veiculo>, id: Id): (r: seq<Veiculo>)
    ensures |r| == |vs|
    ensures forall k :: 0 <= k < |vs| ==> r[k] == if vs[k].id == id then vs[k].(ativo := false) else vs[k]
  {
    seq(|vs|, k requires 0 <= k < |vs| => if vs[k].id == id then vs[k].(ativo := false) else vs[k])
  }

  /** `UPDATE veiculos_motoristas SET ativo = 0, data_fim = DATE('now') WHERE veiculo_id = ? AND ativo = 1`. */
  function Desvinculados(ls: seq<Vinculo>, veiculo: Id, hoje: string): (r: seq<Vinculo>)
    ensures |r| == |ls|
    ensures forall k :: 0 <= k < |ls| ==> r[k] == if ls[k].veiculo == veiculo && ls[k].ativo
                                             then ls[k].(ativo := false, fim := Some(hoje)) else ls[k]
  {
    seq(|ls|, k requires 0 <= k < |ls| =>
      if ls[k].veiculo == veiculo && ls[k].ativo then ls[k].(ativo := false, fim := Some(hoje)) else ls[k])
  }

  /** After inactivation the vehicle has no active driver, and every link it had active ends today. */
  lemma {:induction false} DesvinculadosSemMotorista(ls: seq<Vinculo>, veiculo: Id, hoje: string)
    ensures forall k :: 0 <= k < |ls| && ls[k].veiculo == veiculo ==> !Desvinculados(ls, veiculo, hoje)[k].ativo
    ensures forall k :: 0 <= k < |ls| && ls[k].veiculo == veiculo && ls[k].ativo ==>
                          Desvinculados(ls, veiculo, hoje)[k].fim == Some(hoje)
    ensures forall k :: 0 <= k < |ls| && ls[k].veiculo == veiculo && !ls[k].ativo ==>
                          Desvinculados(ls, veiculo, hoje)[k] == ls[k]
  {
  }

  /** Closing a vehicle's links twice closes them once: the second run finds none active. */
  lemma {:induction false} DesvinculadosIdempotente(ls: seq<Vinculo>, veiculo: Id, hoje: string, amanha: string)
    ensures Desvinculados(Desvinculados(ls, veiculo, hoje), veiculo, amanha) == Desvinculados(ls, veiculo, hoje)
  {
  }

  lemma {:induction false} FrotaInativados(vs: seq<Veiculo>, id: Id)
    requires Frota(vs)
    ensures Frota(Inativados(vs, id))
  {
  }

  /** The handler's checks before inactivating, in order. */
  function VereditoInativar(vs: seq<Veiculo>, es: seq<EntregaVeiculo>, id: Id, empresa: Id): (o: Outcome)
    ensures o == Ok <==> VeiculoExiste(vs, id, empresa) && !EntregasPendentes(es, id)
    ensures o != Ok ==> o == NotFound || o == BadRequest
  {
    if !VeiculoExiste(vs, id, empresa) then NotFound
    else if EntregasPendentes(es, id) then BadRequest
    else Ok
  }

  // ---------------------------------------------------------------- handlers

  class Cadastro {
    var veiculos: seq<Veiculo>
    var manutencoes: seq<Manutencao>
    var abastecimentos: seq<Abastecimento>
    var vinculos: seq<Vinculo>
    /** `entregas.veiculo_id` and `status`, read by the inactivation guard. */
    var entregas: seq<EntregaVeiculo>

    ghost predicate Valid()
      reads this`veiculos
    {
      Frota(veiculos)
    }

    constructor (vinculos: seq<Vinculo>, entregas: seq<EntregaVeiculo>)
      ensures Valid() && veiculos == [] && manutencoes == [] && abastecimentos == []
      ensures this.vinculos == vinculos && this.entregas == entregas
    {
      veiculos, manutencoes, abastecimentos := [], [], [];
      this.vinculos, this.entregas := vinculos, entregas;
    }

    /** POST /veiculos: an invalid body or a plate already stored in the company is a 400. */
    method Criar(id: Id, empresa: Id, d: NovoVeiculo) returns (o: Outcome)
      requires Valid()
      requires forall k :: 0 <= k < |veiculos| ==> veiculos[k].id != id
      modifies this`veiculos
      ensures Valid()
      ensures o == if !ValidPlaca(d.placa) || PlacaEmUso(old(veiculos), empresa, d.placa, None) then BadRequest else Ok
      ensures veiculos == if o == Ok then old(veiculos) + [VeiculoDe(id, empresa, d)] else old(veiculos)
    {
      if !ValidPlaca(d.placa) {
        return BadRequest;
      }
      if PlacaEmUso(veiculos, empresa, d.placa, None) {
        return BadRequest;
      }
      var v := VeiculoDe(id, empresa, d);
      MaiusculasIdempotente(d.placa);
      FrotaAcrescentar(veiculos, v);
      veiculos := veiculos + [v];
      o := Ok;
    }

    /** PUT /veiculos/:id: not-found first, then validation, then the plate check excluding the vehicle itself. */
    method Atualizar(id: Id, empresa: Id, a: Alteracao) returns (o: Outcome)
      requires Valid()
      modifies this`veiculos
      ensures Valid()
      ensures var i := Localizar(old(veiculos), id, empresa);
        o == (if i.None? then NotFound else if !ValidAlteracao(a) then BadRequest
              else if a.placa.Some? && PlacaEmUso(old(veiculos), empresa, a.placa.value, Some(id)) then BadRequest
              else Ok)
        && veiculos == if o == Ok then old(veiculos)[i.value := Alterado(old(veiculos)[i.value], a)] else old(veiculos)
    {
      var i := Localizar(veiculos, id, empresa);
      if i.None? {
        return NotFound;
      }
      if !ValidAlteracao(a) {
        return BadRequest;
      }
      if a.placa.Some? && PlacaEmUso(veiculos, empresa, a.placa.value, Some(id)) {
        return BadRequest;
      }
      var v := Alterado(veiculos[i.value], a);
      if a.placa.Some? {
        MaiusculasIdempotente(a.placa.value);
      } else {
        AlteracaoSemPlaca(veiculos, i.value, a);
      }
      FrotaSubstituir(veiculos, i.value, v);
      veiculos := veiculos[i.value := v];
      o := Ok;
    }

    /** POST /veiculos/:id/manutencao: stores the record, then raises the odometer when a non-zero km was given. */
    method RegistrarManutencao(id: Id, empresa: Id, mid: Id, d: NovaManutencao) returns (o: Outcome)
      requires Valid()
      modifies this`veiculos, this`manutencoes
      ensures Valid()
      ensures o == if VeiculoExiste(old(veiculos), id, empresa) then Ok else NotFound
      ensures manutencoes == if o == Ok then old(manutencoes) + [ManutencaoDe(mid, id, d)] else old(manutencoes)
      ensures veiculos == if o == Ok then KmAposManutencao(old(veiculos), id, d.km) else old(veiculos)
    {
      var i := Localizar(veiculos, id, empresa);
      if i.None? {
        return NotFound;
      }
      manutencoes := manutencoes + [ManutencaoDe(mid, id, d)];
      if d.km.Some? && d.km.value != 0 {
        FrotaKmSubido(veiculos, id, d.km.value);
      }
      veiculos := KmAposManutencao(veiculos, id, d.km);
      o := Ok;
    }

    /** POST /veiculos/:id/abastecimento: stores the record, then raises the odometer to its km. */
    method RegistrarAbastecimento(id: Id, empresa: Id, aid: Id, d: NovoAbastecimento) returns (o: Outcome)
      requires Valid()
      modifies this`veiculos, this`abastecimentos
      ensures Valid()
      ensures o == if !VeiculoExiste(old(veiculos), id, empresa) then NotFound
                   else if !ValidAbastecimento(d) then BadRequest else Ok
      ensures abastecimentos == if o == Ok then old(abastecimentos) + [AbastecimentoDe(aid, id, d)]
                                else old(abastecimentos)
      ensures veiculos == if o == Ok then KmSubido(old(veiculos), id, d.km) else old(veiculos)
    {
      var i := Localizar(veiculos, id, empresa);
      if i.None? {
        return NotFound;
      }
      if !ValidAbastecimento(d) {
        return BadRequest;
      }
      abastecimentos := abastecimentos + [AbastecimentoDe(aid, id, d)];
      FrotaKmSubido(veiculos, id, d.km);
      veiculos := KmSubido(veiculos, id, d.km);
      o := Ok;
    }

    /** DELETE /veiculos/:id: refused while a delivery is under way; otherwise inactivates and ends driver links. */
    method Inativar(id: Id, empresa: Id, hoje: string) returns (o: Outcome)
      requires Valid()
      modifies this`veiculos, this`vinculos
      ensures Valid()
      ensures o == VereditoInativar(old(veiculos), entregas, id, empresa)
      ensures veiculos == if o == Ok then Inativados(old(veiculos), id) else old(veiculos)
      ensures vinculos == if o == Ok then Desvinculados(old(vinculos), id, hoje) else old(vinculos)
    {
      var i := Localizar(veiculos, id, empresa);
      if i.None? {
        return NotFound;
      }
      if EntregasPendentes(entregas, id) {
        return BadRequest;
      }
      FrotaInativados(veiculos, id);
      veiculos := Inativados(veiculos, id);
      vinculos := Desvinculados(vinculos, id, hoje);
      o := Ok;
    }
  }
}
