/**
 * Users of a company (`usuarios`), their profile links (`usuarios_perfis`) and their
 * sessions (`usuarios_sessoes`): the `/users` routes.
 *
 * E-mail addresses are stored lower-cased and are unique across all companies.
 * Password hashing and verification are outside the model: the hash to store and the
 * verdict of checking the current password arrive as parameters.
 */
module Users {
  import opened Outcome
  import opened Letras
  import Tables
  import Profiles
  import Helpers

  type Vinculo = Profiles.Vinculo

  datatype Usuario = Usuario(
    id: Id, empresa: Id, nome: string, email: string, senhaHash: string,
    telefone: Option<string>, cargo: Option<string>, ativo: bool)

  datatype Sessao = Sessao(id: Id, usuario: Id, revogado: bool)

  // ---------------------------------------------------------------- listing

  datatype Pagina = Pagina(limit: int, offset: int, pages: Helpers.Paginas)

  /**
   * `limit = Math.min(limit, 100)`, `offset = (page - 1) * limit` and
   * `pages = Math.ceil(total / limit)`, which is not a finite number without a non-zero limit.
   */
  function Paginacao(page: int, limite: int, total: nat): (r: Pagina)
    ensures r.limit <= 100 && (limite <= 100 ==> r.limit == limite)
    ensures r.offset == Helpers.CalcularOffset(page, r.limit)
    ensures r.limit > 0 ==> r.pages.Finitas? && (r.pages.n - 1) * r.limit < total <= r.pages.n * r.limit
    ensures r.pages.Finitas? <==> r.limit != 0
  {
    var limit := if limite <= 100 then limite else 100;
    Pagina(limit, (page - 1) * limit, Helpers.CalcularTotalPaginas(total, limit))
  }

  /** The default query: page 1 of 20. */
  lemma {:induction false} PaginacaoPadrao(total: nat)
    ensures Paginacao(1, 20, total).offset == 0 && Paginacao(1, 20, total).limit == 20
    ensures Paginacao(1, 20, total).pages == Helpers.Finitas((total + 19) / 20)
  {
    var n := Paginacao(1, 20, total).pages.n;
    var q, m := (total + 19) / 20, (total + 19) % 20;
    assert total + 19 == q * 20 + m && 0 <= m < 20;
    assert (n - 1) * 20 < total <= n * 20;
  }

  // ---------------------------------------------------------------- the table invariant

  /** Every e-mail is stored lower-cased, and no two users share an id or an e-mail. */
  predicate Cadastro(us: seq<Usuario>)
  {
    (forall k :: 0 <= k < |us| ==> Minusculas(us[k].email) == us[k].email)
    && forall i, j :: 0 <= i < j < |us| ==> us[i].id != us[j].id && us[i].email != us[j].email
  }

  function Localizar(us: seq<Usuario>, id: Id, empresa: Id): (r: Option<nat>)
    ensures r.Some? ==> r.value < |us| && us[r.value].id == id && us[r.value].empresa == empresa
    ensures r.None? <==> forall k :: 0 <= k < |us| ==> !(us[k].id == id && us[k].empresa == empresa)
  {
    if us == [] then None
    else if us[|us| - 1].id == id && us[|us| - 1].empresa == empresa then Some(|us| - 1)
    else Localizar(us[..|us| - 1], id, empresa)
  }

  /** `SELECT … FROM usuarios WHERE id = ?`, with no company filter. */
  function LocalizarId(us: seq<Usuario>, id: Id): (r: Option<nat>)
    ensures r.Some? ==> r.value < |us| && us[r.value].id == id
    ensures r.None? <==> forall k :: 0 <= k < |us| ==> us[k].id != id
  {
    if us == [] then None
    else if us[|us| - 1].id == id then Some(|us| - 1)
    else LocalizarId(us[..|us| - 1], id)
  }

  /** `SELECT id FROM usuarios WHERE email = ?`, in any company. */
  predicate EmailEmUso(us: seq<Usuario>, email: string)
  {
    exists k :: 0 <= k < |us| && us[k].email == email
  }

  // ---------------------------------------------------------------- create

  /** The create body; `emailValido` is the verdict of the e-mail format check. */
  datatype NovoUsuario = NovoUsuario(
    nome: string, email: string, emailValido: bool, senha: string,
    telefone: Option<string>, cargo: Option<string>, perfis: seq<Id>)

  predicate ValidNovoUsuario(d: NovoUsuario)
  {
    |d.nome| >= 3 && d.emailValido && |d.senha| >= 8 && |d.perfis| >= 1
  }

  /** The profiles of the list that exist in the company: `SELECT id FROM perfis WHERE id IN (…) AND empresa_id = ?`. */
  function Encontrados(ps: seq<Profiles.Perfil>, empresa: Id, ids: seq<Id>): nat
  {
    Tables.Count(ps, (p: Profiles.Perfil) => p.id in ids && p.empresa == empresa)
  }

  predicate DaEmpresa(ps: seq<Profiles.Perfil>, empresa: Id, id: Id)
  {
    exists k :: 0 <= k < |ps| && ps[k].id == id && ps[k].empresa == empresa
  }

  predicate Distintos(ids: seq<Id>)
  {
    forall i, j :: 0 <= i < j < |ids| ==> ids[i] != ids[j]
  }

  predicate IdsUnicos(ps: seq<Profiles.Perfil>)
  {
    forall i, j :: 0 <= i < j < |ps| ==> ps[i].id != ps[j].id
  }

  function Achados(ps: seq<Profiles.Perfil>, empresa: Id, ids: seq<Id>): set<Id>
  {
    set k | 0 <= k < |ps| && ps[k].id in ids && ps[k].empresa == empresa :: ps[k].id
  }

  lemma {:induction false} EncontradosCardinal(ps: seq<Profiles.Perfil>, empresa: Id, ids: seq<Id>)
    requires IdsUnicos(ps)
    ensures Encontrados(ps, empresa, ids) == |Achados(ps, empresa, ids)|
  {
    if ps != [] {
      var init, p := ps[..|ps| - 1], ps[|ps| - 1];
      EncontradosCardinal(init, empresa, ids);
      assert forall k :: 0 <= k < |init| ==> init[k] == ps[k];
      var a0 := Achados(init, empresa, ids);
      assert p.id !in a0;
      AchadosUltimo(ps, empresa, ids);
    }
  }

  /** The ids found in a table are those found before its last row, plus that row's id when it qualifies. */
  lemma AchadosUltimo(ps: seq<Profiles.Perfil>, empresa: Id, ids: seq<Id>)
    requires ps != []
    ensures var p := ps[|ps| - 1];
      Achados(ps, empresa, ids)
      == Achados(ps[..|ps| - 1], empresa, ids) + (if p.id in ids && p.empresa == empresa then {p.id} else {})
  {
    var init := ps[..|ps| - 1];
    assert forall k :: 0 <= k < |init| ==> init[k] == ps[k];
  }

  lemma {:induction false} CardinalElementos(ids: seq<Id>)
    ensures |set x | x in ids| <= |ids|
    ensures |set x | x in ids| == |ids| <==> Distintos(ids)
  {
    if ids != [] {
      var init, x := ids[..|ids| - 1], ids[|ids| - 1];
      CardinalElementos(init);
      assert ids == init + [x];
      assert (set y | y in ids) == (set y | y in init) + {x};
      if x in init {
        var j :| 0 <= j < |init| && init[j] == x;
        assert ids[j] == ids[|ids| - 1];
      } else {
        assert forall i :: 0 <= i < |init| ==> ids[i] != x;
      }
    }
  }

  lemma {:induction false} SubconjuntoIgual(a: set<Id>, b: set<Id>)
    requires a <= b && |a| == |b|
    ensures a == b
  {
    assert |b - a| == |b| - |a|;
  }

  /**
   * With profile ids unique, the create's check passes exactly when every listed profile
   * belongs to the caller's company and none is listed twice.
   */
  lemma {:induction false} PerfisAceitos(ps: seq<Profiles.Perfil>, empresa: Id, ids: seq<Id>)
    requires IdsUnicos(ps)
    ensures Encontrados(ps, empresa, ids) == |ids|
        <==> Distintos(ids) && forall i :: 0 <= i < |ids| ==> DaEmpresa(ps, empresa, ids[i])
  {
    EncontradosCardinal(ps, empresa, ids);
    CardinalElementos(ids);
    var achados, todos := Achados(ps, empresa, ids), set x | x in ids;
    assert achados <= todos;
    if Encontrados(ps, empresa, ids) == |ids| {
      assert |achados| <= |todos| by {
        assert |todos - achados| == |todos| - |achados|;
      }
      SubconjuntoIgual(achados, todos);
      forall i | 0 <= i < |ids|
        ensures DaEmpresa(ps, empresa, ids[i])
      {
        assert ids[i] in achados;
      }
    }
    if Distintos(ids) && forall i :: 0 <= i < |ids| ==> DaEmpresa(ps, empresa, ids[i]) {
      forall x | x in todos
        ensures x in achados
      {
        var i :| 0 <= i < |ids| && ids[i] == x;
        assert DaEmpresa(ps, empresa, ids[i]);
      }
    }
  }

  /** The inserted row: the e-mail lower-cased, `telefone || null`, `cargo || null`, active. */
  function UsuarioDe(id: Id, empresa: Id, d: NovoUsuario, senhaHash: string): (u: Usuario)
    ensures u.id == id && u.empresa == empresa && u.nome == d.nome && u.senhaHash == senhaHash && u.ativo
    ensures u.email == Minusculas(d.email) && Minusculas(u.email) == u.email
    ensures u.telefone == OrNull(d.telefone) && u.cargo == OrNull(d.cargo)
  {
    MinusculasIdempotente(d.email);
    Usuario(id, empresa, d.nome, Minusculas(d.email), senhaHash, OrNull(d.telefone), OrNull(d.cargo), true)
  }

  lemma {:induction false} CadastroCriado(us: seq<Usuario>, id: Id, empresa: Id, d: NovoUsuario, senhaHash: string)
    requires Cadastro(us)
    requires forall k :: 0 <= k < |us| ==> us[k].id != id
    requires !EmailEmUso(us, Minusculas(d.email))
    ensures Cadastro(us + [UsuarioDe(id, empresa, d, senhaHash)])
  {
    var u := UsuarioDe(id, empresa, d, senhaHash);
    assert forall k :: 0 <= k < |us| ==> us[k].email != u.email;
  }

  /** The rows the link loop inserts. */
  function Vinculos(usuario: Id, perfis: seq<Id>): (r: seq<Vinculo>)
    ensures |r| == |perfis|
  {
    seq(|perfis|, k requires 0 <= k < |perfis| => Profiles.Vinculo(usuario, perfis[k]))
  }

  /** The profile ids linked to a user, in row order. */
  function PerfisDe(vs: seq<Vinculo>, usuario: Id): (r: seq<Id>)
    ensures |r| <= |vs|
  {
    if vs == [] then []
    else PerfisDe(vs[..|vs| - 1], usuario) + (if vs[|vs| - 1].usuario == usuario then [vs[|vs| - 1].perfil] else [])
  }

  lemma {:induction false} PerfisDeConcat(a: seq<Vinculo>, b: seq<Vinculo>, usuario: Id)
    ensures PerfisDe(a + b, usuario) == PerfisDe(a, usuario) + PerfisDe(b, usuario)
  {
    if b != [] {
      assert (a + b)[..|a + b| - 1] == a + b[..|b| - 1];
      PerfisDeConcat(a, b[..|b| - 1], usuario);
    } else {
      assert a + b == a;
    }
  }

  lemma {:induction false} PerfisVinculos(usuario: Id, perfis: seq<Id>, outro: Id)
    ensures PerfisDe(Vinculos(usuario, perfis), outro) == if outro == usuario then perfis else []
  {
    if perfis != [] {
      var init := perfis[..|perfis| - 1];
      assert Vinculos(usuario, perfis)[..|perfis| - 1] == Vinculos(usuario, init);
      PerfisVinculos(usuario, init, outro);
      assert perfis == init + [perfis[|perfis| - 1]];
    }
  }

  /** `DELETE FROM usuarios_perfis WHERE usuario_id = ?`. */
  function SemVinculos(vs: seq<Vinculo>, usuario: Id): (r: seq<Vinculo>)
    ensures forall v :: v in r <==> v in vs && v.usuario != usuario
  {
    if vs == [] then []
    else
      assert vs == vs[..|vs| - 1] + [vs[|vs| - 1]];
      SemVinculos(vs[..|vs| - 1], usuario) + (if vs[|vs| - 1].usuario != usuario then [vs[|vs| - 1]] else [])
  }

  lemma {:induction false} PerfisSemVinculos(vs: seq<Vinculo>, usuario: Id, outro: Id)
    ensures PerfisDe(SemVinculos(vs, usuario), outro) == if outro == usuario then [] else PerfisDe(vs, outro)
  {
    if vs != [] {
      var init, v := vs[..|vs| - 1], vs[|vs| - 1];
      PerfisSemVinculos(init, usuario, outro);
      PerfisDeConcat(SemVinculos(init, usuario), if v.usuario != usuario then [v] else [], outro);
    }
  }

  /** After replacing a user's links, the user has exactly the listed profiles and the others keep theirs. */
  lemma {:induction false} Substituicao(vs: seq<Vinculo>, usuario: Id, perfis: seq<Id>, outro: Id)
    ensures PerfisDe(SemVinculos(vs, usuario) + Vinculos(usuario, perfis), outro)
         == if outro == usuario then perfis else PerfisDe(vs, outro)
  {
    PerfisDeConcat(SemVinculos(vs, usuario), Vinculos(usuario, perfis), outro);
    PerfisSemVinculos(vs, usuario, outro);
    PerfisVinculos(usuario, perfis, outro);
  }

  /** The link insert loop. */
  method InserirVinculos(vs: seq<Vinculo>, usuario: Id, perfis: seq<Id>) returns (r: seq<Vinculo>)
    ensures r == vs + Vinculos(usuario, perfis)
    ensures PerfisDe(r, usuario) == PerfisDe(vs, usuario) + perfis
  {
    r := vs;
    var k := 0;
    while k < |perfis|
      invariant k <= |perfis|
      invariant r == vs + Vinculos(usuario, perfis[..k])
    {
      assert Vinculos(usuario, perfis[..k + 1]) == Vinculos(usuario, perfis[..k]) + [Profiles.Vinculo(usuario, perfis[k])];
      r := r + [Profiles.Vinculo(usuario, perfis[k])];
      k := k + 1;
    }
    assert perfis[..k] == perfis;
    PerfisDeConcat(vs, Vinculos(usuario, perfis), usuario);
    PerfisVinculos(usuario, perfis, usuario);
  }

  // ---------------------------------------------------------------- update

  datatype Alteracao = Alteracao(
    nome: Option<string>, telefone: Option<string>, cargo: Option<string>,
    ativo: Option<bool>, perfis: Option<seq<Id>>)

  predicate ValidAlteracao(a: Alteracao)
  {
    a.nome.Some? ==> |a.nome.value| >= 3
  }

  /** The row with the supplied fields written (`telefone || null`, `cargo || null`). */
  function Alterado(u: Usuario, a: Alteracao): (v: Usuario)
    ensures v.id == u.id && v.empresa == u.empresa && v.email == u.email && v.senhaHash == u.senhaHash
    ensures a.nome.None? ==> v.nome == u.nome
    ensures a.telefone.None? ==> v.telefone == u.telefone
    ensures a.cargo.None? ==> v.cargo == u.cargo
    ensures a.ativo.None? ==> v.ativo == u.ativo
  {
    Usuario(
      u.id, u.empresa, a.nome.GetOr(u.nome), u.email, u.senhaHash,
      if a.telefone.Some? then OrNull(a.telefone) else u.telefone,
      if a.cargo.Some? then OrNull(a.cargo) else u.cargo,
      a.ativo.GetOr(u.ativo))
  }

  lemma {:induction false} AlteradoVazioIdempotente(u: Usuario, a: Alteracao)
    ensures Alterado(u, Alteracao(None, None, None, None, a.perfis)) == u
    ensures Alterado(Alterado(u, a), a) == Alterado(u, a)
  {
  }

  /** Rewriting one row without touching its id or e-mail keeps the invariant. */
  lemma {:induction false} CadastroSubstituido(us: seq<Usuario>, i: nat, v: Usuario)
    requires Cadastro(us) && i < |us|
    requires v.id == us[i].id && v.email == us[i].email
    ensures Cadastro(us[i := v])
  {
    var r := us[i := v];
    assert forall k :: 0 <= k < |us| ==> r[k].id == us[k].id && r[k].email == us[k].email;
  }

  // ---------------------------------------------------------------- sessions

  /** `UPDATE usuarios_sessoes SET revogado = 1 WHERE usuario_id = ?`. */
  function Revogadas(ss: seq<Sessao>, usuario: Id): (r: seq<Sessao>)
    ensures |r| == |ss|
    ensures forall k :: 0 <= k < |ss| ==> r[k].id == ss[k].id && r[k].usuario == ss[k].usuario
    ensures forall k :: 0 <= k < |ss| ==> (r[k].revogado <==> ss[k].revogado || ss[k].usuario == usuario)
  {
    seq(|ss|, k requires 0 <= k < |ss| => if ss[k].usuario == usuario then ss[k].(revogado := true) else ss[k])
  }

  /** After revoking, none of the user's sessions is usable, and revoking again changes nothing. */
  lemma {:induction false} RevogadasEfeito(ss: seq<Sessao>, usuario: Id)
    ensures forall k :: 0 <= k < |ss| && ss[k].usuario == usuario ==> Revogadas(ss, usuario)[k].revogado
    ensures Revogadas(Revogadas(ss, usuario), usuario) == Revogadas(ss, usuario)
  {
  }

  /** Deactivation answers 404 for an unknown user and 400 when the caller targets themselves. */
  function VereditoDesativar(us: seq<Usuario>, id: Id, empresa: Id, solicitante: Id): (o: Outcome)
    ensures o == Ok <==> Localizar(us, id, empresa).Some? && id != solicitante
    ensures o == NotFound <==> Localizar(us, id, empresa).None?
    ensures o == Ok || o == NotFound || o == BadRequest
  {
    if Localizar(us, id, empresa).None? then NotFound
    else if id == solicitante then BadRequest
    else Ok
  }

  // ---------------------------------------------------------------- handlers

  class Contas {
    var usuarios: seq<Usuario>
    var vinculos: seq<Vinculo>
    var sessoes: seq<Sessao>
    var perfis: seq<Profiles.Perfil>

    ghost predicate Valid()
      reads this
    {
      Cadastro(usuarios)
    }

    constructor ()
      ensures Valid()
      ensures usuarios == [] && vinculos == [] && sessoes == [] && perfis == []
    {
      usuarios := [];
      vinculos := [];
      sessoes := [];
      perfis := [];
    }

    /** POST /users. `senhaHash` is the hash of `d.senha`. */
    method Criar(id: Id, empresa: Id, d: NovoUsuario, senhaHash: string) returns (o: Outcome)
      requires Valid()
      requires forall k :: 0 <= k < |usuarios| ==> usuarios[k].id != id
      modifies this`usuarios, this`vinculos
      ensures Valid()
      ensures o == Ok || o == BadRequest
      ensures o == Ok <==>
        ValidNovoUsuario(d) && !EmailEmUso(old(usuarios), Minusculas(d.email))
        && Encontrados(perfis, empresa, d.perfis) == |d.perfis|
      ensures usuarios == if o == Ok then old(usuarios) + [UsuarioDe(id, empresa, d, senhaHash)] else old(usuarios)
      ensures vinculos == if o == Ok then old(vinculos) + Vinculos(id, d.perfis) else old(vinculos)
    {
      if !ValidNovoUsuario(d) {
        return BadRequest;
      }
      if EmailEmUso(usuarios, Minusculas(d.email)) {
        return BadRequest;
      }
      if Encontrados(perfis, empresa, d.perfis) != |d.perfis| {
        return BadRequest;
      }
      CadastroCriado(usuarios, id, empresa, d, senhaHash);
      usuarios := usuarios + [UsuarioDe(id, empresa, d, senhaHash)];
      vinculos := InserirVinculos(vinculos, id, d.perfis);
      o := Ok;
    }

    /** PUT /users/:id: supplied profiles replace all of the user's links (the list is not checked). */
    method Atualizar(id: Id, empresa: Id, a: Alteracao) returns (o: Outcome)
      requires Valid()
      modifies this`usuarios, this`vinculos
      ensures Valid()
      ensures o == Ok || o == NotFound || o == BadRequest
      ensures o == BadRequest <==> !ValidAlteracao(a)
      ensures o == NotFound <==> ValidAlteracao(a) && Localizar(old(usuarios), id, empresa).None?
      ensures usuarios == if o == Ok
        then var i := Localizar(old(usuarios), id, empresa).value; old(usuarios)[i := Alterado(old(usuarios)[i], a)]
        else old(usuarios)
      ensures vinculos == if o == Ok && a.perfis.Some?
        then SemVinculos(old(vinculos), id) + Vinculos(id, a.perfis.value)
        else old(vinculos)
      ensures o == Ok && a.perfis.Some? ==> PerfisDe(vinculos, id) == a.perfis.value
    {
      if !ValidAlteracao(a) {
        return BadRequest;
      }
      var i := Localizar(usuarios, id, empresa);
      if i.None? {
        return NotFound;
      }
      CadastroSubstituido(usuarios, i.value, Alterado(usuarios[i.value], a));
      usuarios := usuarios[i.value := Alterado(usuarios[i.value], a)];
      if a.perfis.Some? {
        vinculos := InserirVinculos(SemVinculos(vinculos, id), id, a.perfis.value);
        Substituicao(old(vinculos), id, a.perfis.value, id);
      }
      o := Ok;
    }

    /** DELETE /users/:id: deactivates the user and revokes all of their sessions. */
    method Desativar(id: Id, empresa: Id, solicitante: Id) returns (o: Outcome)
      requires Valid()
      modifies this`usuarios, this`sessoes
      ensures Valid()
      ensures o == VereditoDesativar(old(usuarios), id, empresa, solicitante)
      ensures usuarios == if o == Ok
        then var i := Localizar(old(usuarios), id, empresa).value; old(usuarios)[i := old(usuarios)[i].(ativo := false)]
        else old(usuarios)
      ensures sessoes == if o == Ok then Revogadas(old(sessoes), id) else old(sessoes)
    {
      o := VereditoDesativar(usuarios, id, empresa, solicitante);
      if o == Ok {
        var i := Localizar(usuarios, id, empresa).value;
        CadastroSubstituido(usuarios, i, usuarios[i].(ativo := false));
        usuarios := usuarios[i := usuarios[i].(ativo := false)];
        sessoes := Revogadas(sessoes, id);
      }
    }

    /** POST /users/:id/reset-password: stores the new hash and revokes all of the user's sessions. */
    method RedefinirSenha(id: Id, empresa: Id, novaSenha: string, senhaHash: string) returns (o: Outcome)
      requires Valid()
      modifies this`usuarios, this`sessoes
      ensures Valid()
      ensures o == Ok || o == NotFound || o == BadRequest
      ensures o == BadRequest <==> |novaSenha| < 8
      ensures o == NotFound <==> |novaSenha| >= 8 && Localizar(old(usuarios), id, empresa).None?
      ensures usuarios == if o == Ok
        then var i := Localizar(old(usuarios), id, empresa).value; old(usuarios)[i := old(usuarios)[i].(senhaHash := senhaHash)]
        else old(usuarios)
      ensures sessoes == if o == Ok then Revogadas(old(sessoes), id) else old(sessoes)
    {
      if |novaSenha| < 8 {
        return BadRequest;
      }
      var i := Localizar(usuarios, id, empresa);
      if i.None? {
        return NotFound;
      }
      CadastroSubstituido(usuarios, i.value, usuarios[i.value].(senhaHash := senhaHash));
      usuarios := usuarios[i.value := usuarios[i.value].(senhaHash := senhaHash)];
      sessoes := Revogadas(sessoes, id);
      o := Ok;
    }

    /**
     * POST /users/me/change-password. `senhaConfere` is whether `senhaAtual` matches the
     * stored hash; the user's sessions are left as they are.
     */
    method TrocarSenha(usuario: Id, senhaAtual: string, senhaNova: string, senhaConfere: bool, senhaHash: string)
      returns (o: Outcome)
      requires Valid()
      modifies this`usuarios
      ensures Valid()
      ensures o == Ok || o == NotFound || o == BadRequest
      ensures o == Ok <==> |senhaAtual| >= 1 && |senhaNova| >= 8 && LocalizarId(old(usuarios), usuario).Some? && senhaConfere
      ensures o == NotFound <==> |senhaAtual| >= 1 && |senhaNova| >= 8 && LocalizarId(old(usuarios), usuario).None?
      ensures usuarios == if o == Ok
        then var i := LocalizarId(old(usuarios), usuario).value; old(usuarios)[i := old(usuarios)[i].(senhaHash := senhaHash)]
        else old(usuarios)
    {
      if |senhaAtual| < 1 || |senhaNova| < 8 {
        return BadRequest;
      }
      var i := LocalizarId(usuarios, usuario);
      if i.None? {
        return NotFound;
      }
      if !senhaConfere {
        return BadRequest;
      }
      CadastroSubstituido(usuarios, i.value, usuarios[i.value].(senhaHash := senhaHash));
      usuarios := usuarios[i.value := usuarios[i.value].(senhaHash := senhaHash)];
      o := Ok;
    }
  }
}
