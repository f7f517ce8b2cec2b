/**
 * Human resources (rh): employees with their registration numbers (matrículas),
 * job titles (cargos), departments, vacation requests (férias) and the time clock
 * (ponto) with its monthly summary.
 */
module Rh {
  import opened Outcome
  import opened Numbering

  datatype Contrato = Clt | Pj | Estagio | Temporario | Autonomo

  datatype TipoDemissao = Pedido | SemJustaCausa | ComJustaCausa | Acordo

  datatype Demissao = Demissao(data: string, motivo: string, tipo: TipoDemissao)

  datatype Funcionario = Funcionario(id: Id, empresa: Id, matricula: string, nome: string, cpf: string,
                                     uf: Option<string>, cargo: Option<Id>, departamento: Option<Id>, salario: real,
                                     contrato: Contrato, cargaHoraria: int, ativo: bool, demissao: Option<Demissao>)

  // ---------------------------------------------------------------- matrículas

  /** `'MAT' + String(count + 1).padStart(5, '0')`. */
  function Matricula(count: nat): string
  {
    CounterNumero("MAT", count, 5)
  }

  /** The number of employees of a company, as `COUNT(*) … WHERE empresa_id = ?`. */
  function NaEmpresa(fs: seq<Funcionario>, empresa: Id): (n: nat)
    ensures n <= |fs|
  {
    if fs == [] then 0
    else NaEmpresa(fs[..|fs| - 1], empresa) + (if fs[|fs| - 1].empresa == empresa then 1 else 0)
  }

  /** Each employee's matrícula numbers the employees of its company registered before it. */
  predicate Numeradas(fs: seq<Funcionario>)
  {
    forall k :: 0 <= k < |fs| ==> fs[k].matricula == Matricula(NaEmpresa(fs[..k], fs[k].empresa))
  }

  /** A longer prefix counts at least as many employees; one more row of the company counts one more. */
  lemma {:induction false} NaEmpresaCresce(fs: seq<Funcionario>, i: nat, j: nat)
    requires i < j <= |fs|
    ensures NaEmpresa(fs[..j], fs[i].empresa) >= NaEmpresa(fs[..i], fs[i].empresa) + 1
  {
    var e := fs[i].empresa;
    assert fs[..j][..j - 1] == fs[..j - 1];
    if j == i + 1 {
      assert fs[..j][j - 1] == fs[i];
    } else {
      NaEmpresaCresce(fs, i, j - 1);
    }
  }

  /** Within a company no two employees share a matrícula. */
  lemma {:induction false} MatriculasUnicas(fs: seq<Funcionario>, i: nat, j: nat)
    requires Numeradas(fs) && i < |fs| && j < |fs| && i != j && fs[i].empresa == fs[j].empresa
    ensures fs[i].matricula != fs[j].matricula
  {
    var e := fs[i].empresa;
    if i < j {
      NaEmpresaCresce(fs, i, j);
      CounterNumeroInjective("MAT", NaEmpresa(fs[..i], e), NaEmpresa(fs[..j], e), 5);
    } else {
      NaEmpresaCresce(fs, j, i);
      CounterNumeroInjective("MAT", NaEmpresa(fs[..j], e), NaEmpresa(fs[..i], e), 5);
    }
  }

  /** Rows that keep their company keep every prefix count. */
  lemma {:induction false} NaEmpresaMesmas(fs: seq<Funcionario>, n: seq<Funcionario>, e: Id)
    requires |n| == |fs| && forall k :: 0 <= k < |fs| ==> n[k].empresa == fs[k].empresa
    ensures NaEmpresa(n, e) == NaEmpresa(fs, e)
  {
    if fs != [] {
      NaEmpresaMesmas(fs[..|fs| - 1], n[..|n| - 1], e);
    }
  }

  /** An update that keeps companies and matrículas keeps the numbering. */
  lemma {:induction false} NumeradasMesmas(fs: seq<Funcionario>, n: seq<Funcionario>)
    requires Numeradas(fs) && |n| == |fs|
    requires forall k :: 0 <= k < |fs| ==> n[k].empresa == fs[k].empresa && n[k].matricula == fs[k].matricula
    ensures Numeradas(n)
  {
    forall k | 0 <= k < |n|
      ensures n[k].matricula == Matricula(NaEmpresa(n[..k], n[k].empresa))
    {
      NaEmpresaMesmas(fs[..k], n[..k], n[k].empresa);
    }
  }

  // ---------------------------------------------------------------- employees

  /** The body of POST /funcionarios (the optional contact and bank fields are not modelled). */
  datatype NovoFuncionario = NovoFuncionario(nome: string, cpf: string, uf: Option<string>, cargo: Option<Id>,
                                             departamento: Option<Id>, salario: real, contrato: Contrato,
                                             cargaHoraria: Option<int>)

  predicate ValidNome(s: string) { 1 <= |s| <= 200 }

  predicate ValidCpf(s: string) { |s| == 11 }

  predicate ValidUf(s: string) { |s| == 2 }

  predicate ValidCarga(n: int) { 1 <= n <= 44 }

  predicate ValidNovoFuncionario(d: NovoFuncionario)
  {
    ValidNome(d.nome) && ValidCpf(d.cpf) && (d.uf.Some? ==> ValidUf(d.uf.value)) && d.salario >= 0.0
    && (d.cargaHoraria.Some? ==> ValidCarga(d.cargaHoraria.value))
  }

  /** The stored row: active, 44 weekly hours unless said otherwise, the next matrícula of the company. */
  function FuncionarioDe(id: Id, empresa: Id, d: NovoFuncionario, fs: seq<Funcionario>): (f: Funcionario)
    ensures f.id == id && f.empresa == empresa && f.nome == d.nome && f.cpf == d.cpf && f.ativo
    ensures f.matricula == Matricula(NaEmpresa(fs, empresa)) && f.cargaHoraria == d.cargaHoraria.GetOr(44)
    ensures f.demissao.None?
  {
    Funcionario(id, empresa, Matricula(NaEmpresa(fs, empresa)), d.nome, d.cpf, OrNull(d.uf), OrNull(d.cargo),
                OrNull(d.departamento), d.salario, d.contrato, d.cargaHoraria.GetOr(44), true, None)
  }

  predicate CpfEmUso(fs: seq<Funcionario>, empresa: Id, cpf: string)
  {
    exists k :: 0 <= k < |fs| && fs[k].cpf == cpf && fs[k].empresa == empresa
  }

  /** The new employee's matrícula is not held by anyone else in the company. */
  lemma {:induction false} MatriculaNova(fs: seq<Funcionario>, id: Id, empresa: Id, d: NovoFuncionario)
    requires Numeradas(fs)
    ensures Numeradas(fs + [FuncionarioDe(id, empresa, d, fs)])
    ensures forall k :: 0 <= k < |fs| && fs[k].empresa == empresa ==>
              fs[k].matricula != FuncionarioDe(id, empresa, d, fs).matricula
  {
    var f := FuncionarioDe(id, empresa, d, fs);
    var n := fs + [f];
    assert n[..|fs|] == fs;
    forall k | 0 <= k < |fs|
      ensures n[k].matricula == Matricula(NaEmpresa(n[..k], n[k].empresa))
    {
      assert n[..k] == fs[..k];
    }
    forall k | 0 <= k < |fs| && fs[k].empresa == empresa
      ensures fs[k].matricula != f.matricula
    {
      MatriculasUnicas(n, k, |fs|);
    }
  }

  /** The partial body of PUT /funcionarios/:id: only the supplied fields are written. */
  datatype Alteracao = Alteracao(nome: Option<string>, cpf: Option<string>, uf: Option<string>, cargo: Option<Id>,
                                 departamento: Option<Id>, salario: Option<real>, contrato: Option<Contrato>,
                                 cargaHoraria: Option<int>)

  predicate ValidAlteracao(a: Alteracao)
  {
    (a.nome.Some? ==> ValidNome(a.nome.value)) && (a.cpf.Some? ==> ValidCpf(a.cpf.value))
    && (a.uf.Some? ==> ValidUf(a.uf.value)) && (a.salario.Some? ==> a.salario.value >= 0.0)
    && (a.cargaHoraria.Some? ==> ValidCarga(a.cargaHoraria.value))
  }

  function Alterado(f: Funcionario, a: Alteracao): (r: Funcionario)
    ensures r.id == f.id && r.empresa == f.empresa && r.matricula == f.matricula && r.ativo == f.ativo
    ensures r.demissao == f.demissao
    ensures r.nome == a.nome.GetOr(f.nome) && r.cpf == a.cpf.GetOr(f.cpf) && r.salario == a.salario.GetOr(f.salario)
    ensures r.cargaHoraria == a.cargaHoraria.GetOr(f.cargaHoraria) && r.contrato == a.contrato.GetOr(f.contrato)
    ensures (a.uf.Some? ==> r.uf == a.uf) && (a.uf.None? ==> r.uf == f.uf)
    ensures (a.cargo.Some? ==> r.cargo == a.cargo) && (a.cargo.None? ==> r.cargo == f.cargo)
    ensures (a.departamento.Some? ==> r.departamento == a.departamento)
            && (a.departamento.None? ==> r.departamento == f.departamento)
    ensures a == Alteracao(None, None, None, None, None, None, None, None) ==> r == f
  {
    f.(nome := a.nome.GetOr(f.nome), cpf := a.cpf.GetOr(f.cpf), uf := if a.uf.Some? then a.uf else f.uf,
       cargo := if a.cargo.Some? then a.cargo else f.cargo,
       departamento := if a.departamento.Some? then a.departamento else f.departamento,
       salario := a.salario.GetOr(f.salario), contrato := a.contrato.GetOr(f.contrato),
       cargaHoraria := a.cargaHoraria.GetOr(f.cargaHoraria))
  }

  /** `UPDATE funcionarios SET … WHERE id = ? AND empresa_id = ?` with the supplied fields. */
  function Alterados(fs: seq<Funcionario>, id: Id, empresa: Id, a: Alteracao): (r: seq<Funcionario>)
    ensures |r| == |fs|
    ensures forall k :: 0 <= k < |fs| ==> r[k] == if fs[k].id == id && fs[k].empresa == empresa then Alterado(fs[k], a) else fs[k]
  {
    seq(|fs|, k requires 0 <= k < |fs| => if fs[k].id == id && fs[k].empresa == empresa then Alterado(fs[k], a) else fs[k])
  }

  /** POST /funcionarios/:id/demitir: the employee becomes inactive with the dismissal recorded. */
  function Demitido(f: Funcionario, d: Demissao): (r: Funcionario)
    ensures !r.ativo && r.demissao == Some(d)
    ensures r.id == f.id && r.empresa == f.empresa && r.matricula == f.matricula && r.cpf == f.cpf
  {
    f.(ativo := false, demissao := Some(d))
  }

  predicate ValidDemissao(d: Demissao) { |d.motivo| >= 1 }

  function Demitidos(fs: seq<Funcionario>, id: Id, empresa: Id, d: Demissao): (r: seq<Funcionario>)
    ensures |r| == |fs|
    ensures forall k :: 0 <= k < |fs| ==> r[k] == if fs[k].id == id && fs[k].empresa == empresa then Demitido(fs[k], d) else fs[k]
  {
    seq(|fs|, k requires 0 <= k < |fs| => if fs[k].id == id && fs[k].empresa == empresa then Demitido(fs[k], d) else fs[k])
  }

  predicate CpfsUnicos(fs: seq<Funcionario>)
  {
    forall i, j :: 0 <= i < |fs| && 0 <= j < |fs| && fs[i].empresa == fs[j].empresa && fs[i].cpf == fs[j].cpf ==> i == j
  }

  /** Only registration checks the CPF: an update can give an employee a colleague's CPF. */
  lemma {:induction false} AlteracaoRepeteCpf()
    ensures var f1 := Funcionario("a", "e", Matricula(0), "Ana", "11111111111", None, None, None, 0.0, Clt, 44, true, None);
      var f2 := Funcionario("b", "e", Matricula(1), "Bia", "22222222222", None, None, None, 0.0, Clt, 44, true, None);
      var a := Alteracao(None, Some("11111111111"), None, None, None, None, None, None);
      ValidAlteracao(a) && CpfsUnicos([f1, f2]) && !CpfsUnicos(Alterados([f1, f2], "b", "e", a))
  {
    var f1 := Funcionario("a", "e", Matricula(0), "Ana", "11111111111", None, None, None, 0.0, Clt, 44, true, None);
    var f2 := Funcionario("b", "e", Matricula(1), "Bia", "22222222222", None, None, None, 0.0, Clt, 44, true, None);
    var a := Alteracao(None, Some("11111111111"), None, None, None, None, None, None);
    var n := Alterados([f1, f2], "b", "e", a);
    assert f1.cpf != f2.cpf;
    assert n[0] == f1 && n[1].cpf == f1.cpf;
  }

  lemma {:induction false} NumeradasAlterados(fs: seq<Funcionario>, id: Id, empresa: Id, a: Alteracao)
    requires Numeradas(fs)
    ensures Numeradas(Alterados(fs, id, empresa, a))
  {
    NumeradasMesmas(fs, Alterados(fs, id, empresa, a));
  }

  lemma {:induction false} NumeradasDemitidos(fs: seq<Funcionario>, id: Id, empresa: Id, d: Demissao)
    requires Numeradas(fs)
    ensures Numeradas(Demitidos(fs, id, empresa, d))
  {
    NumeradasMesmas(fs, Demitidos(fs, id, empresa, d));
  }

  // ---------------------------------------------------------------- cargos and departments

  datatype Nivel = Junior | Pleno | Senior | Gerente | Diretor

  datatype Cargo = Cargo(id: Id, empresa: Id, nome: string, descricao: Option<string>, salarioBase: Option<real>,
                         nivel: Option<Nivel>)

  datatype NovoCargo = NovoCargo(nome: string, descricao: Option<string>, salarioBase: Option<real>, nivel: Option<Nivel>)

  predicate ValidNovoCargo(d: NovoCargo)
  {
    1 <= |d.nome| <= 100 && (d.salarioBase.Some? ==> d.salarioBase.value >= 0.0)
  }

  /** `salario_base || null`: a zero base salary is stored as null. */
  function CargoDe(id: Id, empresa: Id, d: NovoCargo): (c: Cargo)
    ensures c.salarioBase.Some? <==> d.salarioBase.Some? && d.salarioBase.value != 0.0
    ensures c.id == id && c.empresa == empresa && c.nome == d.nome && c.nivel == d.nivel
  {
    Cargo(id, empresa, d.nome, OrNull(d.descricao),
          if d.salarioBase.Some? && d.salarioBase.value != 0.0 then d.salarioBase else None, d.nivel)
  }

  /** Some active employee, of any company, holds the cargo. */
  predicate CargoOcupado(fs: seq<Funcionario>, cargo: Id)
  {
    exists k :: 0 <= k < |fs| && fs[k].cargo == Some(cargo) && fs[k].ativo
  }

  /** `DELETE FROM cargos WHERE id = ? AND empresa_id = ?`. */
  function SemCargo(cs: seq<Cargo>, id: Id, empresa: Id): (r: seq<Cargo>)
    ensures |r| <= |cs|
    ensures forall k :: 0 <= k < |r| ==> r[k] in cs && !(r[k].id == id && r[k].empresa == empresa)
    ensures forall k :: 0 <= k < |cs| && !(cs[k].id == id && cs[k].empresa == empresa) ==> cs[k] in r
  {
    if cs == [] then []
    else if cs[|cs| - 1].id == id && cs[|cs| - 1].empresa == empresa then SemCargo(cs[..|cs| - 1], id, empresa)
    else SemCargo(cs[..|cs| - 1], id, empresa) + [cs[|cs| - 1]]
  }

  /** Dismissing the only active holder of a cargo frees it. */
  lemma {:induction false} DemissaoLiberaCargo(fs: seq<Funcionario>, id: Id, empresa: Id, cargo: Id, d: Demissao)
    requires forall k :: 0 <= k < |fs| && fs[k].cargo == Some(cargo) && fs[k].ativo ==> fs[k].id == id && fs[k].empresa == empresa
    ensures !CargoOcupado(Demitidos(fs, id, empresa, d), cargo)
  {
    var n := Demitidos(fs, id, empresa, d);
    forall k | 0 <= k < |n|
      ensures !(n[k].cargo == Some(cargo) && n[k].ativo)
    {
      if fs[k].id == id && fs[k].empresa == empresa {
        assert !n[k].ativo;
      } else {
        assert n[k] == fs[k];
      }
    }
  }

  datatype Departamento = Departamento(id: Id, empresa: Id, nome: string, descricao: Option<string>,
                                       gestor: Option<Id>, centroCusto: Option<string>)

  datatype NovoDepartamento = NovoDepartamento(nome: string, descricao: Option<string>, gestor: Option<Id>,
                                               centroCusto: Option<string>)

  predicate ValidNovoDepartamento(d: NovoDepartamento) { 1 <= |d.nome| <= 100 }

  function DepartamentoDe(id: Id, empresa: Id, d: NovoDepartamento): (r: Departamento)
    ensures r.id == id && r.empresa == empresa && r.nome == d.nome
    ensures r.gestor.Some? <==> Truthy(d.gestor)
  {
    Departamento(id, empresa, d.nome, OrNull(d.descricao), OrNull(d.gestor), OrNull(d.centroCusto))
  }

  // ---------------------------------------------------------------- vacations

  datatype StatusFerias = Solicitada | Aprovada

  datatype Ferias = Ferias(id: Id, empresa: Id, funcionario: Id, inicio: string, fim: string, dias: int,
                           abono: bool, diasAbono: int, observacoes: Option<string>, status: StatusFerias,
                           aprovadoPor: Option<Id>)

  datatype NovasFerias = NovasFerias(funcionario: Id, inicio: string, fim: string, dias: int, abono: Option<bool>,
                                     diasAbono: Option<int>, observacoes: Option<string>)

  predicate ValidNovasFerias(d: NovasFerias)
  {
    1 <= d.dias <= 30 && (d.diasAbono.Some? ==> 0 <= d.diasAbono.value <= 10)
  }

  /** A new request is SOLICITADA; no abono unless asked, `dias_abono || 0`. */
  function FeriasDe(id: Id, empresa: Id, d: NovasFerias): (r: Ferias)
    requires ValidNovasFerias(d)
    ensures r.status == Solicitada && r.aprovadoPor.None?
    ensures 1 <= r.dias <= 30 && 0 <= r.diasAbono <= 10 && r.abono == (d.abono == Some(true))
    ensures r.id == id && r.empresa == empresa && r.funcionario == d.funcionario
  {
    Ferias(id, empresa, d.funcionario, d.inicio, d.fim, d.dias, d.abono.GetOr(false), d.diasAbono.GetOr(0),
           OrNull(d.observacoes), Solicitada, None)
  }

  /** POST /ferias/:id/aprovar: every matching row becomes APROVADA, whatever its status. */
  function Aprovadas(fs: seq<Ferias>, id: Id, empresa: Id, usuario: Id): (r: seq<Ferias>)
    ensures |r| == |fs|
    ensures forall k :: 0 <= k < |fs| ==>
              r[k] == if fs[k].id == id && fs[k].empresa == empresa
                      then fs[k].(status := Aprovada, aprovadoPor := Some(usuario)) else fs[k]
  {
    seq(|fs|, k requires 0 <= k < |fs| => if fs[k].id == id && fs[k].empresa == empresa
                                          then fs[k].(status := Aprovada, aprovadoPor := Some(usuario)) else fs[k])
  }

  /** Vacation bounds hold for every stored request. */
  predicate FeriasValidas(fs: seq<Ferias>)
  {
    forall k :: 0 <= k < |fs| ==> 1 <= fs[k].dias <= 30 && 0 <= fs[k].diasAbono <= 10
  }

  lemma {:induction false} FeriasValidasAprovadas(fs: seq<Ferias>, id: Id, empresa: Id, usuario: Id)
    requires FeriasValidas(fs)
    ensures FeriasValidas(Aprovadas(fs, id, empresa, usuario))
  {
    var r := Aprovadas(fs, id, empresa, usuario);
    assert forall k :: 0 <= k < |r| ==> r[k].dias == fs[k].dias && r[k].diasAbono == fs[k].diasAbono;
  }

  // ---------------------------------------------------------------- time clock

  /** A clock reading `HH:MM:SS`. */
  datatype Hora = Hora(h: nat, m: nat, s: nat)

  predicate ValidHora(t: Hora) { t.h < 24 && t.m < 60 && t.s < 60 }

  /** `h * 60 + m`, seconds dropped, as the summary reads a time. */
  function Minutos(t: Hora): int { t.h * 60 + t.m }

  datatype Batida = Entrada | SaidaAlmoco | RetornoAlmoco | Saida

  datatype Ponto = Ponto(id: Id, empresa: Id, funcionario: Id, data: string, entrada: Option<Hora>,
                         saidaAlmoco: Option<Hora>, retornoAlmoco: Option<Hora>, saida: Option<Hora>)

  /** The record of an employee for a day, found without regard to company. */
  function DoDia(ps: seq<Ponto>, funcionario: Id, data: string): (r: Option<nat>)
    ensures r.Some? ==> r.value < |ps| && ps[r.value].funcionario == funcionario && ps[r.value].data == data
    ensures r.None? <==> forall k :: 0 <= k < |ps| ==> !(ps[k].funcionario == funcionario && ps[k].data == data)
  {
    if ps == [] then None
    else match DoDia(ps[..|ps| - 1], funcionario, data)
      case Some(i) => Some(i)
      case None => if ps[|ps| - 1].funcionario == funcionario && ps[|ps| - 1].data == data then Some(|ps| - 1) else None
  }

  /** The day's record opened by the first ENTRADA. */
  function Aberto(id: Id, empresa: Id, funcionario: Id, data: string, agora: Hora): (p: Ponto)
    ensures p.entrada == Some(agora) && p.saidaAlmoco.None? && p.retornoAlmoco.None? && p.saida.None?
  {
    Ponto(id, empresa, funcionario, data, Some(agora), None, None, None)
  }

  /** A punch on an existing record writes its own field only; a repeated ENTRADA writes nothing. */
  function Batido(p: Ponto, tipo: Batida, agora: Hora): (r: Ponto)
    ensures r.id == p.id && r.funcionario == p.funcionario && r.data == p.data && r.entrada == p.entrada
    ensures r.saidaAlmoco == if tipo == SaidaAlmoco then Some(agora) else p.saidaAlmoco
    ensures r.retornoAlmoco == if tipo == RetornoAlmoco then Some(agora) else p.retornoAlmoco
    ensures r.saida == if tipo == Saida then Some(agora) else p.saida
    ensures tipo == Entrada ==> r == p
  {
    match tipo
    case Entrada => p
    case SaidaAlmoco => p.(saidaAlmoco := Some(agora))
    case RetornoAlmoco => p.(retornoAlmoco := Some(agora))
    case Saida => p.(saida := Some(agora))
  }

  /** Record ids are unique and an employee has at most one record per day. */
  predicate PontosUnicos(ps: seq<Ponto>)
  {
    (forall i, j :: 0 <= i < |ps| && 0 <= j < |ps| && ps[i].id == ps[j].id ==> i == j)
    && (forall i, j :: 0 <= i < |ps| && 0 <= j < |ps| && ps[i].funcionario == ps[j].funcionario && ps[i].data == ps[j].data
          ==> i == j)
  }

  lemma {:induction false} PontosUnicosAberto(ps: seq<Ponto>, id: Id, empresa: Id, funcionario: Id, data: string, agora: Hora)
    requires PontosUnicos(ps) && DoDia(ps, funcionario, data).None?
    requires forall k :: 0 <= k < |ps| ==> ps[k].id != id
    ensures PontosUnicos(ps + [Aberto(id, empresa, funcionario, data, agora)])
  {
    var n := ps + [Aberto(id, empresa, funcionario, data, agora)];
    assert forall k :: 0 <= k < |ps| ==> n[k] == ps[k];
  }

  lemma {:induction false} PontosUnicosBatido(ps: seq<Ponto>, i: nat, tipo: Batida, agora: Hora)
    requires PontosUnicos(ps) && i < |ps|
    ensures PontosUnicos(ps[i := Batido(ps[i], tipo, agora)])
  {
    var n := ps[i := Batido(ps[i], tipo, agora)];
    assert forall k :: 0 <= k < |ps| ==> n[k].id == ps[k].id && n[k].funcionario == ps[k].funcionario && n[k].data == ps[k].data;
  }

  /** Minutes a record counts: only with entrada and saída; lunch subtracted when both lunch punches exist. */
  function Trabalhado(p: Ponto): int
  {
    if p.entrada.Some? && p.saida.Some? then
      (Minutos(p.saida.value) - Minutos(p.entrada.value))
      - (if p.saidaAlmoco.Some? && p.retornoAlmoco.Some?
         then Minutos(p.retornoAlmoco.value) - Minutos(p.saidaAlmoco.value) else 0)
    else 0
  }

  function TotalMinutos(regs: seq<Ponto>): int
  {
    if regs == [] then 0 else TotalMinutos(regs[..|regs| - 1]) + Trabalhado(regs[|regs| - 1])
  }

  /** A day punched in order counts the time between entrada and saída less the lunch break. */
  lemma {:induction false} DiaCompleto(id: Id, empresa: Id, funcionario: Id, data: string, e: Hora, sa: Hora, ra: Hora, s: Hora)
    ensures var p := Batido(Batido(Batido(Aberto(id, empresa, funcionario, data, e), SaidaAlmoco, sa), RetornoAlmoco, ra),
                            Saida, s);
      Trabalhado(p) == (Minutos(s) - Minutos(e)) - (Minutos(ra) - Minutos(sa))
  {
  }

  /** A day without saída counts nothing. */
  lemma {:induction false} SemSaidaNadaConta(regs: seq<Ponto>)
    requires forall k :: 0 <= k < |regs| ==> regs[k].saida.None?
    ensures TotalMinutos(regs) == 0
  {
    if regs != [] {
      SemSaidaNadaConta(regs[..|regs| - 1]);
    }
  }

  /** Minutes are summed over the records; splitting the month splits the total. */
  lemma {:induction false} TotalMinutosConcat(a: seq<Ponto>, b: seq<Ponto>)
    ensures TotalMinutos(a + b) == TotalMinutos(a) + TotalMinutos(b)
  {
    if b != [] {
      assert (a + b)[..|a + b| - 1] == a + b[..|b| - 1];
      TotalMinutosConcat(a, b[..|b| - 1]);
    } else {
      assert a + b == a;
    }
  }

  // ---------------------------------------------------------------- monthly summary

  /** `total % 60` in JavaScript: the remainder takes the dividend's sign. */
  function RestoJs(a: int, b: nat): (r: int)
    requires b > 0
    ensures a >= 0 ==> r == a % b
  {
    if a >= 0 then a % b else -((-a) % b)
  }

  datatype Partes = Partes(horas: int, minutos: int)

  /** The summary as written: `Math.floor(total / 60)` hours and `total % 60` minutes. */
  function PartesEscritas(total: int): (r: Partes)
    ensures total >= 0 ==> r.horas * 60 + r.minutos == total && 0 <= r.minutos < 60
  {
    Partes(total / 60, RestoJs(total, 60))
  }

  /** A negative total (a lunch return punched after the saída) breaks hours·60 + minutes = total. */
  lemma {:induction false} PartesEscritasNegativas()
    ensures PartesEscritas(-90) == Partes(-2, -30)
    ensures PartesEscritas(-90).horas * 60 + PartesEscritas(-90).minutos != -90
  {
    assert -90 / 60 == -2;
  }

  /** The summary as intended: whole hours rounded down and the minutes left over. */
  function PartesDe(total: int): (r: Partes)
    ensures r.horas * 60 + r.minutos == total && 0 <= r.minutos < 60
    ensures total >= 0 ==> r == PartesEscritas(total)
  {
    Partes(total / 60, total % 60)
  }

  datatype Resumo = Resumo(dias: nat, horas: int, minutos: int, total: int)

  /** GET /ponto/resumo/:funcionarioId over the month's records, in date order. */
  method ResumoMensal(regs: seq<Ponto>) returns (r: Resumo)
    ensures r.total == TotalMinutos(regs) && r.dias == |regs|
    ensures Partes(r.horas, r.minutos) == PartesDe(r.total)
  {
    var total := 0;
    var k := 0;
    while k < |regs|
      invariant 0 <= k <= |regs|
      invariant total == TotalMinutos(regs[..k])
    {
      assert regs[..k + 1][..k] == regs[..k];
      total := total + Trabalhado(regs[k]);
      k := k + 1;
    }
    assert regs[..k] == regs;
    var p := PartesDe(total);
    r := Resumo(|regs|, p.horas, p.minutos, total);
  }

  // ---------------------------------------------------------------- state

  class RecursosHumanos {
    var funcionarios: seq<Funcionario>
    var cargos: seq<Cargo>
    var departamentos: seq<Departamento>
    var ferias: seq<Ferias>
    var pontos: seq<Ponto>

    ghost predicate Valid()
      reads this`funcionarios, this`ferias, this`pontos
    {
      Numeradas(funcionarios) && FeriasValidas(ferias) && PontosUnicos(pontos)
    }

    constructor ()
      ensures Valid() && funcionarios == [] && cargos == [] && departamentos == [] && ferias == [] && pontos == []
    {
      funcionarios, cargos, departamentos, ferias, pontos := [], [], [], [], [];
    }

    /** POST /funcionarios: a CPF already registered in the company is a 409. */
    method Admitir(id: Id, empresa: Id, d: NovoFuncionario) returns (o: Outcome, matricula: string)
      requires Valid()
      modifies this`funcionarios
      ensures Valid()
      ensures o == if !ValidNovoFuncionario(d) then BadRequest
                   else if CpfEmUso(old(funcionarios), empresa, d.cpf) then Conflict else Ok
      ensures o == Ok ==> matricula == Matricula(NaEmpresa(old(funcionarios), empresa))
      ensures funcionarios == if o == Ok then old(funcionarios) + [FuncionarioDe(id, empresa, d, old(funcionarios))]
                              else old(funcionarios)
    {
      matricula := "";
      if !ValidNovoFuncionario(d) {
        return BadRequest, matricula;
      }
      if CpfEmUso(funcionarios, empresa, d.cpf) {
        return Conflict, matricula;
      }
      var f := FuncionarioDe(id, empresa, d, funcionarios);
      MatriculaNova(funcionarios, id, empresa, d);
      funcionarios := funcionarios + [f];
      o, matricula := Ok, f.matricula;
    }

    /** PUT /funcionarios/:id: no existence check; an unknown id changes nothing. */
    method Atualizar(id: Id, empresa: Id, a: Alteracao) returns (o: Outcome)
      requires Valid()
      modifies this`funcionarios
      ensures Valid()
      ensures o == if ValidAlteracao(a) then Ok else BadRequest
      ensures funcionarios == if o == Ok then Alterados(old(funcionarios), id, empresa, a)
                              else old(funcionarios)
    {
      if !ValidAlteracao(a) {
        return BadRequest;
      }
      NumeradasAlterados(funcionarios, id, empresa, a);
      funcionarios := Alterados(funcionarios, id, empresa, a);
      o := Ok;
    }

    /** POST /funcionarios/:id/demitir. */
    method Demitir(id: Id, empresa: Id, d: Demissao) returns (o: Outcome)
      requires Valid()
      modifies this`funcionarios
      ensures Valid()
      ensures o == if ValidDemissao(d) then Ok else BadRequest
      ensures funcionarios == if o == Ok then Demitidos(old(funcionarios), id, empresa, d)
                              else old(funcionarios)
    {
      if !ValidDemissao(d) {
        return BadRequest;
      }
      NumeradasDemitidos(funcionarios, id, empresa, d);
      funcionarios := Demitidos(funcionarios, id, empresa, d);
      o := Ok;
    }

    /** POST /cargos. */
    method CriarCargo(id: Id, empresa: Id, d: NovoCargo) returns (o: Outcome)
      modifies this`cargos
      ensures o == if ValidNovoCargo(d) then Ok else BadRequest
      ensures cargos == if o == Ok then old(cargos) + [CargoDe(id, empresa, d)] else old(cargos)
    {
      if !ValidNovoCargo(d) {
        return BadRequest;
      }
      cargos := cargos + [CargoDe(id, empresa, d)];
      o := Ok;
    }

    /** DELETE /cargos/:id: refused while an active employee holds it. */
    method ExcluirCargo(id: Id, empresa: Id) returns (o: Outcome)
      modifies this`cargos
      ensures o == if CargoOcupado(funcionarios, id) then BadRequest else Ok
      ensures cargos == if o == Ok then SemCargo(old(cargos), id, empresa) else old(cargos)
    {
      if CargoOcupado(funcionarios, id) {
        return BadRequest;
      }
      cargos := SemCargo(cargos, id, empresa);
      o := Ok;
    }

    /** POST /departamentos. */
    method CriarDepartamento(id: Id, empresa: Id, d: NovoDepartamento) returns (o: Outcome)
      modifies this`departamentos
      ensures o == if ValidNovoDepartamento(d) then Ok else BadRequest
      ensures departamentos == if o == Ok then old(departamentos) + [DepartamentoDe(id, empresa, d)] else old(departamentos)
    {
      if !ValidNovoDepartamento(d) {
        return BadRequest;
      }
      departamentos := departamentos + [DepartamentoDe(id, empresa, d)];
      o := Ok;
    }

    /** POST /ferias. */
    method SolicitarFerias(id: Id, empresa: Id, d: NovasFerias) returns (o: Outcome)
      requires Valid()
      modifies this`ferias
      ensures Valid()
      ensures o == if ValidNovasFerias(d) then Ok else BadRequest
      ensures ferias == if o == Ok then old(ferias) + [FeriasDe(id, empresa, d)] else old(ferias)
    {
      if !ValidNovasFerias(d) {
        return BadRequest;
      }
      var n := ferias + [FeriasDe(id, empresa, d)];
      assert forall k :: 0 <= k < |ferias| ==> n[k] == ferias[k];
      ferias := n;
      o := Ok;
    }

    /** POST /ferias/:id/aprovar. */
    method AprovarFerias(id: Id, empresa: Id, usuario: Id)
      requires Valid()
      modifies this`ferias
      ensures Valid()
      ensures ferias == Aprovadas(old(ferias), id, empresa, usuario)
    {
      FeriasValidasAprovadas(ferias, id, empresa, usuario);
      ferias := Aprovadas(ferias, id, empresa, usuario);
    }

    /** POST /ponto/registrar, with `hoje` and `agora` read from the clock. */
    method Registrar(id: Id, empresa: Id, funcionario: Id, tipo: Batida, hoje: string, agora: Hora) returns (o: Outcome)
      requires Valid() && ValidHora(agora)
      requires forall k :: 0 <= k < |pontos| ==> pontos[k].id != id
      modifies this`pontos
      ensures Valid()
      ensures var i := DoDia(old(pontos), funcionario, hoje);
        o == (if i.None? && tipo != Entrada then BadRequest else Ok)
        && pontos == (if i.None? && tipo == Entrada then old(pontos) + [Aberto(id, empresa, funcionario, hoje, agora)]
                      else if i.None? then old(pontos)
                      else old(pontos)[i.value := Batido(old(pontos)[i.value], tipo, agora)])
    {
      var i := DoDia(pontos, funcionario, hoje);
      if i.None? && tipo == Entrada {
        PontosUnicosAberto(pontos, id, empresa, funcionario, hoje, agora);
        pontos := pontos + [Aberto(id, empresa, funcionario, hoje, agora)];
        return Ok;
      }
      if i.None? {
        return BadRequest;
      }
      PontosUnicosBatido(pontos, i.value, tipo, agora);
      pontos := pontos[i.value := Batido(pontos[i.value], tipo, agora)];
      o := Ok;
    }
  }
}
