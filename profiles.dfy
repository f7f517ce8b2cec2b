/**
 * Access profiles (`perfis`), their granted permissions (`perfis_permissoes`) and the
 * permission matrix: the `/profiles` routes.
 *
 * A company's profiles have distinct names and at most one of them is the default
 * (`padrao`); every write below keeps both facts.
 */
module Profiles {
  import opened Outcome
  import opened Letras
  import Agrupamento

  datatype Perfil = Perfil(
    id: Id, empresa: Id, nome: string, descricao: Option<string>,
    nivel: real, padrao: bool, ativo: bool)

  /** A row of `perfis_permissoes`. */
  datatype Concessao = Concessao(perfil: Id, permissao: Id)

  /** A row of `usuarios_perfis`. */
  datatype Vinculo = Vinculo(usuario: Id, perfil: Id)

  /** A row of the permission catalogue `permissoes`. */
  datatype Permissao = Permissao(id: Id, modulo: string, acao: string, descricao: Option<string>)

  // ---------------------------------------------------------------- input validation

  predicate ValidNome(nome: string) { |nome| >= 2 }

  predicate ValidNivel(nivel: real) { 1.0 <= nivel <= 10.0 }

  /** The create body; absent `nivel` and `padrao` take the defaults 5 and false. */
  datatype NovoPerfil = NovoPerfil(
    nome: string, descricao: Option<string>, nivel: Option<real>,
    padrao: Option<bool>, permissoes: Option<seq<Id>>)

  predicate ValidNovoPerfil(d: NovoPerfil)
  {
    ValidNome(d.nome) && (d.nivel.Some? ==> ValidNivel(d.nivel.value))
  }

  /** The update body: only the fields present are written. */
  datatype Alteracao = Alteracao(
    nome: Option<string>, descricao: Option<string>, nivel: Option<real>,
    padrao: Option<bool>, ativo: Option<bool>)

  predicate ValidAlteracao(a: Alteracao)
  {
    (a.nome.Some? ==> ValidNome(a.nome.value)) && (a.nivel.Some? ==> ValidNivel(a.nivel.value))
  }

  // ---------------------------------------------------------------- the catalogue invariant

  /** Two distinct rows of one table: different ids, and within a company different names and not both default. */
  predicate Compativeis(p: Perfil, q: Perfil)
  {
    p.id != q.id && (p.empresa == q.empresa ==> p.nome != q.nome && !(p.padrao && q.padrao))
  }

  predicate Catalogo(ps: seq<Perfil>)
  {
    forall i, j :: 0 <= i < j < |ps| ==> Compativeis(ps[i], ps[j])
  }

  /** Any two rows of a valid table are compatible, whichever comes first. */
  lemma {:induction false} CatalogoPar(ps: seq<Perfil>, i: nat, j: nat)
    requires Catalogo(ps) && i < |ps| && j < |ps| && i != j
    ensures Compativeis(ps[i], ps[j])
  {
    if j < i {
      assert Compativeis(ps[j], ps[i]);
    }
  }

  // ---------------------------------------------------------------- lookups

  /** `SELECT … FROM perfis WHERE id = ? AND empresa_id = ?`. */
  function Localizar(ps: seq<Perfil>, id: Id, empresa: Id): (r: Option<nat>)
    ensures r.Some? ==> r.value < |ps| && ps[r.value].id == id && ps[r.value].empresa == empresa
    ensures r.None? <==> forall k :: 0 <= k < |ps| ==> !(ps[k].id == id && ps[k].empresa == empresa)
  {
    if ps == [] then None
    else if ps[|ps| - 1].id == id && ps[|ps| - 1].empresa == empresa then Some(|ps| - 1)
    else Localizar(ps[..|ps| - 1], id, empresa)
  }

  /** `SELECT id FROM perfis WHERE nome = ? AND empresa_id = ? [AND id != ?]`. */
  predicate NomeEmUso(ps: seq<Perfil>, empresa: Id, nome: string, exceto: Option<Id>)
  {
    exists k :: 0 <= k < |ps| && ps[k].empresa == empresa && ps[k].nome == nome
                && (exceto.None? || ps[k].id != exceto.value)
  }

  // ---------------------------------------------------------------- the default profile

  /** `UPDATE perfis SET padrao = 0 WHERE empresa_id = ?`. */
  function SemPadrao(ps: seq<Perfil>, empresa: Id): (r: seq<Perfil>)
    ensures |r| == |ps|
    ensures forall k :: 0 <= k < |ps| ==> r[k].(padrao := ps[k].padrao) == ps[k]
    ensures forall k :: 0 <= k < |ps| ==> (r[k].padrao <==> ps[k].padrao && ps[k].empresa != empresa)
  {
    seq(|ps|, k requires 0 <= k < |ps| => if ps[k].empresa == empresa then ps[k].(padrao := false) else ps[k])
  }

  lemma {:induction false} SemPadraoCatalogo(ps: seq<Perfil>, empresa: Id)
    requires Catalogo(ps)
    ensures Catalogo(SemPadrao(ps, empresa))
  {
    var r := SemPadrao(ps, empresa);
    assert forall i, j :: 0 <= i < j < |ps| ==> Compativeis(ps[i], ps[j]) ==> Compativeis(r[i], r[j]);
  }

  // ---------------------------------------------------------------- create

  /** The inserted row; `descricao || null`, and the column default `ativo = 1`. */
  function PerfilDe(id: Id, empresa: Id, d: NovoPerfil): (p: Perfil)
    ensures p.id == id && p.empresa == empresa && p.nome == d.nome && p.ativo
    ensures ValidNovoPerfil(d) ==> ValidNome(p.nome) && ValidNivel(p.nivel)
    ensures p.padrao <==> d.padrao == Some(true)
  {
    Perfil(id, empresa, d.nome, OrNull(d.descricao), d.nivel.GetOr(5.0), d.padrao.GetOr(false), true)
  }

  /** The table after a create: company defaults cleared first when the new row is the default. */
  function Criado(ps: seq<Perfil>, id: Id, empresa: Id, d: NovoPerfil): (r: seq<Perfil>)
    ensures |r| == |ps| + 1 && r[|ps|] == PerfilDe(id, empresa, d)
    ensures r[|ps|].padrao ==> forall k :: 0 <= k < |ps| && ps[k].empresa == empresa ==> !r[k].padrao
    ensures forall k :: 0 <= k < |ps| ==> r[k].(padrao := ps[k].padrao) == ps[k]
  {
    (if d.padrao == Some(true) then SemPadrao(ps, empresa) else ps) + [PerfilDe(id, empresa, d)]
  }

  /** A create whose name is free in the company and whose id is fresh keeps the invariant. */
  lemma {:induction false} CatalogoCriado(ps: seq<Perfil>, id: Id, empresa: Id, d: NovoPerfil)
    requires Catalogo(ps)
    requires forall k :: 0 <= k < |ps| ==> ps[k].id != id
    requires !NomeEmUso(ps, empresa, d.nome, None)
    ensures Catalogo(Criado(ps, id, empresa, d))
  {
    var base := if d.padrao == Some(true) then SemPadrao(ps, empresa) else ps;
    SemPadraoCatalogo(ps, empresa);
    var p := PerfilDe(id, empresa, d);
    assert forall k :: 0 <= k < |ps| ==> !(ps[k].empresa == empresa && ps[k].nome == d.nome);
    assert forall k :: 0 <= k < |base| ==> Compativeis(base[k], p);
  }

  // ---------------------------------------------------------------- update

  /** The row with the supplied fields written (`descricao || null`). */
  function Alterado(p: Perfil, a: Alteracao): (q: Perfil)
    ensures q.id == p.id && q.empresa == p.empresa
    ensures a.nome.None? ==> q.nome == p.nome
    ensures a.descricao.None? ==> q.descricao == p.descricao
    ensures a.nivel.None? ==> q.nivel == p.nivel
    ensures a.padrao.None? ==> q.padrao == p.padrao
    ensures a.ativo.None? ==> q.ativo == p.ativo
  {
    Perfil(
      p.id, p.empresa, a.nome.GetOr(p.nome),
      if a.descricao.Some? then OrNull(a.descricao) else p.descricao,
      a.nivel.GetOr(p.nivel), a.padrao.GetOr(p.padrao), a.ativo.GetOr(p.ativo))
  }

  /** An update with no field leaves the row as it is. */
  lemma {:induction false} AlteradoVazio(p: Perfil)
    ensures Alterado(p, Alteracao(None, None, None, None, None)) == p
  {
  }

  /** Sending the same update twice is sending it once. */
  lemma {:induction false} AlteradoIdempotente(p: Perfil, a: Alteracao)
    ensures Alterado(Alterado(p, a), a) == Alterado(p, a)
  {
  }

  /** The table after an update of row `i`: company defaults cleared first when `padrao: true` is sent. */
  function Atualizado(ps: seq<Perfil>, i: nat, a: Alteracao): (r: seq<Perfil>)
    requires i < |ps|
    ensures |r| == |ps| && r[i] == Alterado(ps[i], a)
    ensures a.padrao == Some(true) ==> forall k :: 0 <= k < |ps| && k != i && ps[k].empresa == ps[i].empresa ==> !r[k].padrao
    ensures forall k :: 0 <= k < |ps| && k != i ==> r[k].(padrao := ps[k].padrao) == ps[k]
  {
    var base := if a.padrao == Some(true) then SemPadrao(ps, ps[i].empresa) else ps;
    assert Alterado(base[i], a) == Alterado(ps[i], a);
    base[i := Alterado(ps[i], a)]
  }

  /** An update whose new name is free among the company's other profiles keeps the invariant. */
  lemma {:induction false} CatalogoAtualizado(ps: seq<Perfil>, i: nat, a: Alteracao)
    requires Catalogo(ps) && i < |ps|
    requires a.nome.Some? ==> !NomeEmUso(ps, ps[i].empresa, a.nome.value, Some(ps[i].id))
    ensures Catalogo(Atualizado(ps, i, a))
  {
    var r := Atualizado(ps, i, a);
    forall k | 0 <= k < |ps| && k != i
      ensures Compativeis(r[k], r[i]) && Compativeis(r[i], r[k])
    {
      CatalogoPar(ps, k, i);
      CatalogoPar(ps, i, k);
    }
    forall k, j | 0 <= k < j < |ps| && k != i && j != i
      ensures Compativeis(r[k], r[j])
    {
      assert Compativeis(ps[k], ps[j]);
    }
  }

  // ---------------------------------------------------------------- granted permissions

  /** The permission ids granted to a profile, in row order. */
  function PermissoesDe(cs: seq<Concessao>, perfil: Id): (r: seq<Id>)
    ensures |r| <= |cs|
  {
    if cs == [] then []
    else
      PermissoesDe(cs[..|cs| - 1], perfil)
      + (if cs[|cs| - 1].perfil == perfil then [cs[|cs| - 1].permissao] else [])
  }

  lemma {:induction false} PermissoesDeConcat(a: seq<Concessao>, b: seq<Concessao>, perfil: Id)
    ensures PermissoesDe(a + b, perfil) == PermissoesDe(a, perfil) + PermissoesDe(b, perfil)
  {
    if b != [] {
      assert (a + b)[..|a + b| - 1] == a + b[..|b| - 1];
      PermissoesDeConcat(a, b[..|b| - 1], perfil);
    } else {
      assert a + b == a;
    }
  }

  /** `DELETE FROM perfis_permissoes WHERE perfil_id = ?`. */
  function SemConcessoes(cs: seq<Concessao>, perfil: Id): (r: seq<Concessao>)
    ensures forall c :: c in r <==> c in cs && c.perfil != perfil
    ensures |r| <= |cs|
  {
    if cs == [] then []
    else
      assert cs == cs[..|cs| - 1] + [cs[|cs| - 1]];
      SemConcessoes(cs[..|cs| - 1], perfil)
      + (if cs[|cs| - 1].perfil != perfil then [cs[|cs| - 1]] else [])
  }

  /** The delete removes exactly the profile's grants. */
  lemma {:induction false} PermissoesSemConcessoes(cs: seq<Concessao>, perfil: Id, outro: Id)
    ensures PermissoesDe(SemConcessoes(cs, perfil), outro) == if outro == perfil then [] else PermissoesDe(cs, outro)
  {
    if cs != [] {
      var init, c := cs[..|cs| - 1], cs[|cs| - 1];
      PermissoesSemConcessoes(init, perfil, outro);
      PermissoesDeConcat(SemConcessoes(init, perfil), if c.perfil != perfil then [c] else [], outro);
    }
  }

  /** The rows the insert loop adds for a list of permission ids. */
  function Concessoes(perfil: Id, ids: seq<Id>): (r: seq<Concessao>)
    ensures |r| == |ids|
  {
    seq(|ids|, k requires 0 <= k < |ids| => Concessao(perfil, ids[k]))
  }

  lemma {:induction false} PermissoesConcessoes(perfil: Id, ids: seq<Id>, outro: Id)
    ensures PermissoesDe(Concessoes(perfil, ids), outro) == if outro == perfil then ids else []
  {
    if ids != [] {
      var init := ids[..|ids| - 1];
      assert Concessoes(perfil, ids)[..|ids| - 1] == Concessoes(perfil, init);
      PermissoesConcessoes(perfil, init, outro);
      assert ids == init + [ids[|ids| - 1]];
    }
  }

  lemma {:induction false} ConcessoesAcrescentar(perfil: Id, ids: seq<Id>, k: nat)
    requires k < |ids|
    ensures Concessoes(perfil, ids[..k + 1]) == Concessoes(perfil, ids[..k]) + [Concessao(perfil, ids[k])]
  {
  }

  /** The insert loop: one `perfis_permissoes` row per id of the list, in order. */
  method InserirConcessoes(cs: seq<Concessao>, perfil: Id, ids: seq<Id>) returns (r: seq<Concessao>)
    ensures r == cs + Concessoes(perfil, ids)
    ensures PermissoesDe(r, perfil) == PermissoesDe(cs, perfil) + ids
  {
    r := cs;
    var k := 0;
    while k < |ids|
      invariant k <= |ids|
      invariant r == cs + Concessoes(perfil, ids[..k])
    {
      ConcessoesAcrescentar(perfil, ids, k);
      r := r + [Concessao(perfil, ids[k])];
      k := k + 1;
    }
    assert ids[..k] == ids;
    PermissoesDeConcat(cs, Concessoes(perfil, ids), perfil);
    PermissoesConcessoes(perfil, ids, perfil);
  }

  /**
   * Replacing a profile's permissions: its grants become exactly the list sent, in that
   * order, and every other profile keeps its own.
   */
  lemma {:induction false} Substituicao(cs: seq<Concessao>, perfil: Id, ids: seq<Id>, outro: Id)
    ensures PermissoesDe(SemConcessoes(cs, perfil) + Concessoes(perfil, ids), outro)
         == if outro == perfil then ids else PermissoesDe(cs, outro)
  {
    PermissoesDeConcat(SemConcessoes(cs, perfil), Concessoes(perfil, ids), outro);
    PermissoesSemConcessoes(cs, perfil, outro);
    PermissoesConcessoes(perfil, ids, outro);
  }

  // ---------------------------------------------------------------- delete

  /** `DELETE FROM perfis WHERE id = ?`. */
  function SemPerfil(ps: seq<Perfil>, id: Id): (r: seq<Perfil>)
    ensures forall p :: p in r <==> p in ps && p.id != id
  {
    if ps == [] then []
    else
      assert ps == ps[..|ps| - 1] + [ps[|ps| - 1]];
      SemPerfil(ps[..|ps| - 1], id) + (if ps[|ps| - 1].id != id then [ps[|ps| - 1]] else [])
  }

  lemma {:induction false} CatalogoSemPerfil(ps: seq<Perfil>, id: Id)
    requires Catalogo(ps)
    ensures Catalogo(SemPerfil(ps, id))
  {
    if ps != [] {
      var init, p := ps[..|ps| - 1], ps[|ps| - 1];
      CatalogoSemPerfil(init, id);
      var r := SemPerfil(init, id);
      forall k | 0 <= k < |r|
        ensures Compativeis(r[k], p)
      {
        assert r[k] in init;
        var j :| 0 <= j < |init| && init[j] == r[k];
        assert Compativeis(ps[j], ps[|ps| - 1]);
      }
    }
  }

  /** Delete answers 404 for an unknown profile, 400 for the default one or one with users, else succeeds. */
  function VereditoExcluir(ps: seq<Perfil>, vs: seq<Vinculo>, id: Id, empresa: Id): (o: Outcome)
    ensures o == NotFound <==> Localizar(ps, id, empresa).None?
    ensures o == Ok <==>
      Localizar(ps, id, empresa).Some? && !ps[Localizar(ps, id, empresa).value].padrao
      && forall k :: 0 <= k < |vs| ==> vs[k].perfil != id
    ensures o == NotFound || o == BadRequest || o == Ok
  {
    var i := Localizar(ps, id, empresa);
    if i.None? then NotFound
    else if ps[i.value].padrao then BadRequest
    else if exists k :: 0 <= k < |vs| && vs[k].perfil == id then BadRequest
    else Ok
  }

  // ---------------------------------------------------------------- permission matrix

  datatype Celula = Celula(id: Id, ativo: bool)

  type Matriz = map<string, map<string, Celula>>

  /**
   * `matriz[modulo][acao] = { id, ativo: ativas.has(id) }` over the catalogue in order:
   * a later permission with the same module and action replaces the earlier cell.
   */
  function MatrizDe(ps: seq<Permissao>, ativas: set<Id>): (m: Matriz)
    ensures ps == [] ==> m == map[]
  {
    if ps == [] then map[]
    else
      var p := ps[|ps| - 1];
      var m := MatrizDe(ps[..|ps| - 1], ativas);
      var linha := if p.modulo in m then m[p.modulo] else map[];
      m[p.modulo := linha[p.acao := Celula(p.id, p.id in ativas)]]
  }

  /** Every permission of the catalogue has a cell, and every module of the matrix comes from one. */
  lemma {:induction false} MatrizCobre(ps: seq<Permissao>, ativas: set<Id>)
    ensures var m := MatrizDe(ps, ativas);
      && (forall k :: 0 <= k < |ps| ==> ps[k].modulo in m && ps[k].acao in m[ps[k].modulo])
      && (forall x :: x in m <==> exists k :: 0 <= k < |ps| && ps[k].modulo == x)
  {
    if ps != [] {
      var init := ps[..|ps| - 1];
      MatrizCobre(init, ativas);
      assert forall k :: 0 <= k < |init| ==> init[k] == ps[k];
    }
  }

  /** A cell is active exactly when its permission id is among the profile's. */
  predicate CelulasAtivas(m: Matriz, ativas: set<Id>)
  {
    forall x, a :: x in m && a in m[x] ==> (m[x][a].ativo <==> m[x][a].id in ativas)
  }

  /** Every cell holds the id of a permission with that module and action. */
  predicate CelulasDoCatalogo(m: Matriz, ps: seq<Permissao>)
  {
    forall x, a :: x in m && a in m[x] ==> Origem(ps, x, a, m[x][a].id)
  }

  predicate Origem(ps: seq<Permissao>, modulo: string, acao: string, id: Id)
  {
    exists k :: 0 <= k < |ps| && ps[k].modulo == modulo && ps[k].acao == acao && ps[k].id == id
  }

  lemma {:induction false} MatrizAtiva(ps: seq<Permissao>, ativas: set<Id>)
    ensures CelulasAtivas(MatrizDe(ps, ativas), ativas)
  {
    if ps != [] {
      var init, p := ps[..|ps| - 1], ps[|ps| - 1];
      MatrizAtiva(init, ativas);
      var m0: Matriz, m: Matriz := MatrizDe(init, ativas), MatrizDe(ps, ativas);
      forall x: string, a: string | x in m && a in m[x]
        ensures m[x][a].ativo <==> m[x][a].id in ativas
      {
        if x != p.modulo || a != p.acao {
          assert x in m0 && a in m0[x] && m[x][a] == m0[x][a];
        }
      }
    }
  }

  lemma {:induction false} MatrizOrigem(ps: seq<Permissao>, ativas: set<Id>)
    ensures CelulasDoCatalogo(MatrizDe(ps, ativas), ps)
  {
    if ps != [] {
      var init, p := ps[..|ps| - 1], ps[|ps| - 1];
      MatrizOrigem(init, ativas);
      var m0: Matriz, m: Matriz := MatrizDe(init, ativas), MatrizDe(ps, ativas);
      forall x: string, a: string | x in m && a in m[x]
        ensures Origem(ps, x, a, m[x][a].id)
      {
        if x == p.modulo && a == p.acao {
          assert ps[|ps| - 1].id == m[x][a].id;
        } else {
          assert x in m0 && a in m0[x] && m[x][a] == m0[x][a];
          assert Origem(init, x, a, m0[x][a].id);
          var k :| 0 <= k < |init| && init[k].modulo == x && init[k].acao == a && init[k].id == m0[x][a].id;
          assert ps[k] == init[k];
        }
      }
    }
  }

  /** The cell of a module and action is the last permission in the catalogue that names them. */
  lemma {:induction false} MatrizUltima(ps: seq<Permissao>, ativas: set<Id>, k: nat)
    requires k < |ps|
    requires forall j :: k < j < |ps| ==> !(ps[j].modulo == ps[k].modulo && ps[j].acao == ps[k].acao)
    ensures ps[k].modulo in MatrizDe(ps, ativas) && ps[k].acao in MatrizDe(ps, ativas)[ps[k].modulo]
    ensures MatrizDe(ps, ativas)[ps[k].modulo][ps[k].acao] == Celula(ps[k].id, ps[k].id in ativas)
  {
    if k < |ps| - 1 {
      var init := ps[..|ps| - 1];
      MatrizUltima(init, ativas, k);
    }
  }

  lemma {:induction false} MatrizPasso(ps: seq<Permissao>, ativas: set<Id>, k: nat)
    requires k < |ps|
    ensures MatrizDe(ps[..k + 1], ativas)
         == var m := MatrizDe(ps[..k], ativas);
            var linha := if ps[k].modulo in m then m[ps[k].modulo] else map[];
            m[ps[k].modulo := linha[ps[k].acao := Celula(ps[k].id, ps[k].id in ativas)]]
  {
    assert ps[..k + 1][..k] == ps[..k];
  }

  /**
   * The matrix loop, then `Array.from(acoes).sort()` and `Object.keys(matriz).sort()`:
   * the actions and modules are each listed once, in increasing order.
   */
  method MontarMatriz(ps: seq<Permissao>, ativas: set<Id>) returns (m: Matriz, acoes: seq<string>, modulos: seq<string>)
    ensures m == MatrizDe(ps, ativas)
    ensures Crescente(acoes) && forall a :: a in acoes <==> exists k :: 0 <= k < |ps| && ps[k].acao == a
    ensures Crescente(modulos) && forall x :: x in modulos <==> x in m
  {
    m := map[];
    var vistas: seq<string> := [];
    var chaves: seq<string> := [];
    var k := 0;
    while k < |ps|
      invariant k <= |ps|
      invariant m == MatrizDe(ps[..k], ativas)
      invariant forall a :: a in vistas <==> exists j :: 0 <= j < k && ps[j].acao == a
      invariant forall x :: x in chaves <==> x in m
    {
      var p := ps[k];
      MatrizPasso(ps, ativas, k);
      if p.modulo !in m {
        m := m[p.modulo := map[]];
        chaves := chaves + [p.modulo];
      }
      m := m[p.modulo := m[p.modulo][p.acao := Celula(p.id, p.id in ativas)]];
      if p.acao !in vistas {
        vistas := vistas + [p.acao];
      }
      k := k + 1;
    }
    assert ps[..k] == ps;
    acoes := Ordenados(vistas);
    modulos := Ordenados(chaves);
  }

  // ---------------------------------------------------------------- permission listing

  /** What the listing keeps of a permission. */
  datatype Item = Item(id: Id, acao: string, descricao: Option<string>)

  function Modulo(p: Permissao): string { p.modulo }

  function ItemDe(p: Permissao): Item { Item(p.id, p.acao, p.descricao) }

  // ---------------------------------------------------------------- handlers

  class Cadastro {
    var perfis: seq<Perfil>
    var concessoes: seq<Concessao>
    var vinculos: seq<Vinculo>
    var permissoes: seq<Permissao>

    ghost predicate Valid()
      reads this
    {
      Catalogo(perfis)
    }

    constructor ()
      ensures Valid()
      ensures perfis == [] && concessoes == [] && vinculos == [] && permissoes == []
    {
      perfis := [];
      concessoes := [];
      vinculos := [];
      permissoes := [];
    }

    /** POST /profiles. */
    method Criar(id: Id, empresa: Id, d: NovoPerfil) returns (o: Outcome)
      requires Valid()
      requires forall k :: 0 <= k < |perfis| ==> perfis[k].id != id
      modifies this`perfis, this`concessoes
      ensures Valid()
      ensures o == Ok || o == BadRequest
      ensures o == BadRequest <==> !ValidNovoPerfil(d) || NomeEmUso(old(perfis), empresa, d.nome, None)
      ensures perfis == if o == Ok then Criado(old(perfis), id, empresa, d) else old(perfis)
      ensures concessoes
           == if o == Ok then old(concessoes) + Concessoes(id, d.permissoes.GetOr([])) else old(concessoes)
    {
      if !ValidNovoPerfil(d) || NomeEmUso(perfis, empresa, d.nome, None) {
        return BadRequest;
      }
      CatalogoCriado(perfis, id, empresa, d);
      if d.padrao == Some(true) {
        perfis := SemPadrao(perfis, empresa);
      }
      perfis := perfis + [PerfilDe(id, empresa, d)];
      if d.permissoes.Some? && |d.permissoes.value| > 0 {
        concessoes := InserirConcessoes(concessoes, id, d.permissoes.value);
      } else {
        assert Concessoes(id, d.permissoes.GetOr([])) == [];
      }
      o := Ok;
    }

    /** PUT /profiles/:id. */
    method Atualizar(id: Id, empresa: Id, a: Alteracao) returns (o: Outcome)
      requires Valid()
      modifies this`perfis
      ensures Valid()
      ensures o == Ok || o == NotFound || o == BadRequest
      ensures o == BadRequest <==>
        !ValidAlteracao(a)
        || (Localizar(old(perfis), id, empresa).Some? && a.nome.Some?
            && NomeEmUso(old(perfis), empresa, a.nome.value, Some(id)))
      ensures o == NotFound <==> ValidAlteracao(a) && Localizar(old(perfis), id, empresa).None?
      ensures perfis
           == if o == Ok then Atualizado(old(perfis), Localizar(old(perfis), id, empresa).value, a) else old(perfis)
    {
      if !ValidAlteracao(a) {
        return BadRequest;
      }
      var i := Localizar(perfis, id, empresa);
      if i.None? {
        return NotFound;
      }
      if a.nome.Some? && a.nome.value != "" && NomeEmUso(perfis, empresa, a.nome.value, Some(id)) {
        return BadRequest;
      }
      CatalogoAtualizado(perfis, i.value, a);
      perfis := Atualizado(perfis, i.value, a);
      o := Ok;
    }

    /** PUT /profiles/:id/permissions. */
    method SubstituirPermissoes(id: Id, empresa: Id, ids: seq<Id>) returns (o: Outcome)
      modifies this`concessoes
      ensures o == Ok || o == NotFound
      ensures o == NotFound <==> Localizar(perfis, id, empresa).None?
      ensures concessoes
           == if o == Ok then SemConcessoes(old(concessoes), id) + Concessoes(id, ids) else old(concessoes)
      ensures o == Ok ==> PermissoesDe(concessoes, id) == ids
      ensures forall outro :: outro != id ==> PermissoesDe(concessoes, outro) == PermissoesDe(old(concessoes), outro)
    {
      if Localizar(perfis, id, empresa).None? {
        return NotFound;
      }
      concessoes := InserirConcessoes(SemConcessoes(concessoes, id), id, ids);
      forall outro
        ensures PermissoesDe(concessoes, outro) == if outro == id then ids else PermissoesDe(old(concessoes), outro)
      {
        Substituicao(old(concessoes), id, ids, outro);
      }
      o := Ok;
    }

    /** DELETE /profiles/:id. */
    method Excluir(id: Id, empresa: Id) returns (o: Outcome)
      requires Valid()
      modifies this`perfis, this`concessoes
      ensures Valid()
      ensures o == VereditoExcluir(old(perfis), vinculos, id, empresa)
      ensures perfis == if o == Ok then SemPerfil(old(perfis), id) else old(perfis)
      ensures concessoes == if o == Ok then SemConcessoes(old(concessoes), id) else old(concessoes)
    {
      o := VereditoExcluir(perfis, vinculos, id, empresa);
      if o == Ok {
        concessoes := SemConcessoes(concessoes, id);
        CatalogoSemPerfil(perfis, id);
        perfis := SemPerfil(perfis, id);
      }
    }

    /** GET /profiles/:id/matrix: the cells are active exactly for the permissions granted to the profile. */
    method MatrizDoPerfil(id: Id, empresa: Id) returns (o: Outcome, m: Matriz, acoes: seq<string>, modulos: seq<string>)
      ensures o == Ok || o == NotFound
      ensures o == NotFound <==> Localizar(perfis, id, empresa).None?
      ensures o == Ok ==> m == MatrizDe(permissoes, set p | p in PermissoesDe(concessoes, id))
      ensures o == Ok ==> CelulasAtivas(m, set p | p in PermissoesDe(concessoes, id))
      ensures o == Ok ==> Crescente(acoes) && Crescente(modulos) && forall x :: x in modulos <==> x in m
    {
      if Localizar(perfis, id, empresa).None? {
        return NotFound, map[], [], [];
      }
      var ativas := set p | p in PermissoesDe(concessoes, id);
      m, acoes, modulos := MontarMatriz(permissoes, ativas);
      MatrizAtiva(permissoes, ativas);
      o := Ok;
    }

    /** GET /profiles/permissions: the catalogue grouped by module. */
    method ListarPermissoes() returns (total: nat, modulos: seq<string>, g: map<string, seq<Item>>)
      ensures total == |permissoes|
      ensures forall x :: x in g <==> exists k :: 0 <= k < |permissoes| && permissoes[k].modulo == x
      ensures forall x :: x in g ==> g[x] == Agrupamento.Grupo(permissoes, Modulo, ItemDe, x)
      ensures forall x :: x in modulos <==> x in g
      ensures forall i, j :: 0 <= i < j < |modulos| ==> modulos[i] != modulos[j]
    {
      g, modulos := Agrupamento.Agrupar(permissoes, Modulo, ItemDe);
      total := |permissoes|;
    }
  }
}
