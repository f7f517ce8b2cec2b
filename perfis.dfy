/**
 * The `/perfis` routes: a second profile API over the same `perfis`, `perfis_permissoes`
 * and `usuarios_perfis` tables, with a per-company `codigo`, built-in (`sistema`)
 * profiles that cannot be changed, and a soft delete.
 */
module Perfis {
  import opened Outcome
  import Profiles
  import Agrupamento

  type Concessao = Profiles.Concessao
  type Vinculo = Profiles.Vinculo

  datatype Perfil = Perfil(
    id: Id, empresa: Id, nome: string, codigo: string,
    descricao: Option<string>, sistema: bool, ativo: bool)

  /** A row of `permissoes` as this listing reads it. */
  datatype Permissao = Permissao(
    id: Id, modulo: string, acao: string, codigo: string,
    descricao: Option<string>, ativo: bool)

  // ---------------------------------------------------------------- input validation

  predicate Hex(c: char) { '0' <= c <= '9' || 'a' <= c <= 'f' || 'A' <= c <= 'F' }

  /** `z.string().uuid()`: 8-4-4-4-12 hexadecimal digits separated by hyphens. */
  predicate ValidUuid(s: string)
  {
    |s| == 36
    && forall k :: 0 <= k < 36 ==> if k in {8, 13, 18, 23} then s[k] == '-' else Hex(s[k])
  }

  /** `min(2)` and `/^[a-z_]+$/`. */
  predicate ValidCodigo(codigo: string)
  {
    |codigo| >= 2 && forall k :: 0 <= k < |codigo| ==> 'a' <= codigo[k] <= 'z' || codigo[k] == '_'
  }

  predicate ValidUuids(ids: Option<seq<Id>>)
  {
    ids.Some? ==> forall k :: 0 <= k < |ids.value| ==> ValidUuid(ids.value[k])
  }

  datatype NovoPerfil = NovoPerfil(
    nome: string, codigo: string, descricao: Option<string>, permissoes: Option<seq<Id>>)

  predicate ValidNovoPerfil(d: NovoPerfil)
  {
    |d.nome| >= 3 && ValidCodigo(d.codigo) && ValidUuids(d.permissoes)
  }

  datatype Edicao = Edicao(
    nome: Option<string>, descricao: Option<string>, ativo: Option<bool>, permissoes: Option<seq<Id>>)

  predicate ValidEdicao(e: Edicao)
  {
    (e.nome.Some? ==> |e.nome.value| >= 3) && ValidUuids(e.permissoes)
  }

  // ---------------------------------------------------------------- the table invariant

  /** Distinct rows: different ids and, within one company, different codes. */
  predicate Compativeis(p: Perfil, q: Perfil)
  {
    p.id != q.id && (p.empresa == q.empresa ==> p.codigo != q.codigo)
  }

  predicate Catalogo(ps: seq<Perfil>)
  {
    forall i, j :: 0 <= i < j < |ps| ==> Compativeis(ps[i], ps[j])
  }

  function Localizar(ps: seq<Perfil>, id: Id, empresa: Id): (r: Option<nat>)
    ensures r.Some? ==> r.value < |ps| && ps[r.value].id == id && ps[r.value].empresa == empresa
    ensures r.None? <==> forall k :: 0 <= k < |ps| ==> !(ps[k].id == id && ps[k].empresa == empresa)
  {
    if ps == [] then None
    else if ps[|ps| - 1].id == id && ps[|ps| - 1].empresa == empresa then Some(|ps| - 1)
    else Localizar(ps[..|ps| - 1], id, empresa)
  }

  /** `SELECT id FROM perfis WHERE codigo = ? AND empresa_id = ?`. */
  predicate CodigoEmUso(ps: seq<Perfil>, empresa: Id, codigo: string)
  {
    exists k :: 0 <= k < |ps| && ps[k].empresa == empresa && ps[k].codigo == codigo
  }

  // ---------------------------------------------------------------- create

  /** The inserted row: `sistema = 0`, `ativo = 1`, `descricao || null`. */
  function PerfilDe(id: Id, empresa: Id, d: NovoPerfil): (p: Perfil)
    ensures !p.sistema && p.ativo
    ensures p.id == id && p.empresa == empresa && p.codigo == d.codigo && p.nome == d.nome
    ensures p.descricao.Some? ==> p.descricao.value != ""
  {
    Perfil(id, empresa, d.nome, d.codigo, OrNull(d.descricao), false, true)
  }

  /** A create with a fresh id and a code free in the company keeps codes unique. */
  lemma {:induction false} CatalogoCriado(ps: seq<Perfil>, id: Id, empresa: Id, d: NovoPerfil)
    requires Catalogo(ps)
    requires forall k :: 0 <= k < |ps| ==> ps[k].id != id
    requires !CodigoEmUso(ps, empresa, d.codigo)
    ensures Catalogo(ps + [PerfilDe(id, empresa, d)])
  {
    assert forall k :: 0 <= k < |ps| ==> !(ps[k].empresa == empresa && ps[k].codigo == d.codigo);
  }

  // ---------------------------------------------------------------- edit

  /** The row with the supplied `nome`, `descricao` (stored as sent) and `ativo` written. */
  function Editado(p: Perfil, e: Edicao): (q: Perfil)
    ensures q.id == p.id && q.empresa == p.empresa && q.codigo == p.codigo && q.sistema == p.sistema
    ensures e.nome.None? ==> q.nome == p.nome
    ensures e.descricao.None? ==> q.descricao == p.descricao
    ensures e.ativo.None? ==> q.ativo == p.ativo
  {
    Perfil(
      p.id, p.empresa, e.nome.GetOr(p.nome), p.codigo,
      if e.descricao.Some? then e.descricao else p.descricao,
      p.sistema, e.ativo.GetOr(p.ativo))
  }

  /** An edit with no field leaves the row as it is, and editing twice is editing once. */
  lemma {:induction false} EditadoVazioIdempotente(p: Perfil, e: Edicao)
    ensures Editado(p, Edicao(None, None, None, e.permissoes)) == p
    ensures Editado(Editado(p, e), e) == Editado(p, e)
  {
  }

  /** An edit changes neither ids nor codes, so it keeps codes unique. */
  lemma {:induction false} CatalogoEditado(ps: seq<Perfil>, i: nat, e: Edicao)
    requires Catalogo(ps) && i < |ps|
    ensures Catalogo(ps[i := Editado(ps[i], e)])
  {
    var r := ps[i := Editado(ps[i], e)];
    assert forall k, j :: 0 <= k < j < |ps| ==> Compativeis(ps[k], ps[j]) ==> Compativeis(r[k], r[j]);
  }

  // ---------------------------------------------------------------- soft delete

  /** `UPDATE perfis SET ativo = 0`: the row stays, with only `ativo` cleared. */
  function Desativado(p: Perfil): (q: Perfil)
    ensures !q.ativo && q.(ativo := p.ativo) == p
  {
    p.(ativo := false)
  }

  lemma {:induction false} CatalogoDesativado(ps: seq<Perfil>, i: nat)
    requires Catalogo(ps) && i < |ps|
    ensures Catalogo(ps[i := Desativado(ps[i])])
  {
    var r := ps[i := Desativado(ps[i])];
    assert forall k, j :: 0 <= k < j < |ps| ==> Compativeis(ps[k], ps[j]) ==> Compativeis(r[k], r[j]);
  }

  /** Delete answers 404 for an unknown profile, 400 for a built-in one or one with users, else succeeds. */
  function VereditoExcluir(ps: seq<Perfil>, vs: seq<Vinculo>, id: Id, empresa: Id): (o: Outcome)
    ensures o == NotFound <==> Localizar(ps, id, empresa).None?
    ensures o == Ok <==>
      Localizar(ps, id, empresa).Some? && !ps[Localizar(ps, id, empresa).value].sistema
      && forall k :: 0 <= k < |vs| ==> vs[k].perfil != id
    ensures o == NotFound || o == BadRequest || o == Ok
  {
    var i := Localizar(ps, id, empresa);
    if i.None? then NotFound
    else if ps[i.value].sistema then BadRequest
    else if exists k :: 0 <= k < |vs| && vs[k].perfil == id then BadRequest
    else Ok
  }

  // ---------------------------------------------------------------- permission listing

  /** `WHERE ativo = 1`, in catalogue order. */
  function Ativas(ps: seq<Permissao>): (r: seq<Permissao>)
    ensures forall p :: p in r <==> p in ps && p.ativo
  {
    if ps == [] then []
    else
      assert ps == ps[..|ps| - 1] + [ps[|ps| - 1]];
      Ativas(ps[..|ps| - 1]) + (if ps[|ps| - 1].ativo then [ps[|ps| - 1]] else [])
  }

  function Modulo(p: Permissao): string { p.modulo }

  function Linha(p: Permissao): Permissao { p }

  /** GET /perfis/permissoes/todas: active permissions grouped by module; every listed row is active. */
  method ListarPermissoes(ps: seq<Permissao>) returns (g: map<string, seq<Permissao>>)
    ensures forall x :: x in g <==> exists k :: 0 <= k < |ps| && ps[k].ativo && ps[k].modulo == x
    ensures forall x :: x in g ==> g[x] == Agrupamento.Grupo(Ativas(ps), Modulo, Linha, x)
    ensures forall x, k :: x in g && 0 <= k < |g[x]| ==> g[x][k].ativo && g[x][k].modulo == x
  {
    var ativas := Ativas(ps);
    var chaves;
    g, chaves := Agrupamento.Agrupar(ativas, Modulo, Linha);
    forall x | x in g
      ensures forall k :: 0 <= k < |g[x]| ==> g[x][k].ativo && g[x][k].modulo == x
    {
      GrupoDasAtivas(ativas, x);
    }
    forall x
      ensures x in g <==> exists k :: 0 <= k < |ps| && ps[k].ativo && ps[k].modulo == x
    {
      if k :| 0 <= k < |ps| && ps[k].ativo && ps[k].modulo == x {
        assert ps[k] in ativas;
      }
      if k :| 0 <= k < |ativas| && ativas[k].modulo == x {
        assert ativas[k] in ps;
      }
    }
  }

  /** The rows of a group of active permissions are active and carry its module. */
  lemma {:induction false} GrupoDasAtivas(ps: seq<Permissao>, x: string)
    requires forall k :: 0 <= k < |ps| ==> ps[k].ativo
    ensures forall k :: 0 <= k < |Agrupamento.Grupo(ps, Modulo, Linha, x)| ==>
      Agrupamento.Grupo(ps, Modulo, Linha, x)[k].ativo && Agrupamento.Grupo(ps, Modulo, Linha, x)[k].modulo == x
  {
    if ps != [] {
      GrupoDasAtivas(ps[..|ps| - 1], x);
    }
  }

  // ---------------------------------------------------------------- handlers

  class Cadastro {
    var perfis: seq<Perfil>
    var concessoes: seq<Concessao>
    var vinculos: seq<Vinculo>

    ghost predicate Valid()
      reads this
    {
      Catalogo(perfis)
    }

    constructor ()
      ensures Valid()
      ensures perfis == [] && concessoes == [] && vinculos == []
    {
      perfis := [];
      concessoes := [];
      vinculos := [];
    }

    /** POST /perfis. */
    method Criar(id: Id, empresa: Id, d: NovoPerfil) returns (o: Outcome)
      requires Valid()
      requires forall k :: 0 <= k < |perfis| ==> perfis[k].id != id
      modifies this`perfis, this`concessoes
      ensures Valid()
      ensures o == Ok || o == BadRequest
      ensures o == BadRequest <==> !ValidNovoPerfil(d) || CodigoEmUso(old(perfis), empresa, d.codigo)
      ensures perfis == if o == Ok then old(perfis) + [PerfilDe(id, empresa, d)] else old(perfis)
      ensures concessoes
           == if o == Ok then old(concessoes) + Profiles.Concessoes(id, d.permissoes.GetOr([])) else old(concessoes)
    {
      if !ValidNovoPerfil(d) || CodigoEmUso(perfis, empresa, d.codigo) {
        return BadRequest;
      }
      CatalogoCriado(perfis, id, empresa, d);
      perfis := perfis + [PerfilDe(id, empresa, d)];
      if d.permissoes.Some? && |d.permissoes.value| > 0 {
        concessoes := Profiles.InserirConcessoes(concessoes, id, d.permissoes.value);
      } else {
        assert Profiles.Concessoes(id, d.permissoes.GetOr([])) == [];
      }
      o := Ok;
    }

    /** PUT /perfis/:id: built-in profiles are refused; supplied permissions replace the profile's. */
    method Editar(id: Id, empresa: Id, e: Edicao) returns (o: Outcome)
      requires Valid()
      modifies this`perfis, this`concessoes
      ensures Valid()
      ensures o == Ok || o == NotFound || o == BadRequest
      ensures o == NotFound <==> ValidEdicao(e) && Localizar(old(perfis), id, empresa).None?
      ensures o == BadRequest <==>
        !ValidEdicao(e)
        || (Localizar(old(perfis), id, empresa).Some? && old(perfis)[Localizar(old(perfis), id, empresa).value].sistema)
      ensures |perfis| == |old(perfis)|
      ensures forall k :: 0 <= k < |old(perfis)| && old(perfis)[k].sistema ==> perfis[k] == old(perfis)[k]
      ensures perfis == if o == Ok
        then var i := Localizar(old(perfis), id, empresa).value; old(perfis)[i := Editado(old(perfis)[i], e)]
        else old(perfis)
      ensures concessoes == if o == Ok && e.permissoes.Some?
        then Profiles.SemConcessoes(old(concessoes), id) + Profiles.Concessoes(id, e.permissoes.value)
        else old(concessoes)
      ensures o == Ok && e.permissoes.Some? ==> Profiles.PermissoesDe(concessoes, id) == e.permissoes.value
    {
      if !ValidEdicao(e) {
        return BadRequest;
      }
      var i := Localizar(perfis, id, empresa);
      if i.None? {
        return NotFound;
      }
      if perfis[i.value].sistema {
        return BadRequest;
      }
      CatalogoEditado(perfis, i.value, e);
      perfis := perfis[i.value := Editado(perfis[i.value], e)];
      if e.permissoes.Some? {
        concessoes := Profiles.InserirConcessoes(Profiles.SemConcessoes(concessoes, id), id, e.permissoes.value);
        Profiles.Substituicao(old(concessoes), id, e.permissoes.value, id);
      }
      o := Ok;
    }

    /** DELETE /perfis/:id: a soft delete that keeps the row and its permissions. */
    method Excluir(id: Id, empresa: Id) returns (o: Outcome)
      requires Valid()
      modifies this`perfis
      ensures Valid()
      ensures o == VereditoExcluir(old(perfis), vinculos, id, empresa)
      ensures |perfis| == |old(perfis)|
      ensures forall k :: 0 <= k < |old(perfis)| && old(perfis)[k].sistema ==> perfis[k] == old(perfis)[k]
      ensures perfis == if o == Ok
        then var i := Localizar(old(perfis), id, empresa).value; old(perfis)[i := Desativado(old(perfis)[i])]
        else old(perfis)
    {
      o := VereditoExcluir(perfis, vinculos, id, empresa);
      if o == Ok {
        var i := Localizar(perfis, id, empresa).value;
        CatalogoDesativado(perfis, i);
        perfis := perfis[i := Desativado(perfis[i])];
      }
    }
  }
}
