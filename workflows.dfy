/**
 * Workflow automation: workflows with ordered actions, events that start them,
 * and manual runs that perform the actions one by one.
 *
 * An event creates one PENDENTE execution for every active workflow of the
 * company with that entity and trigger type whose stored condition the event's
 * data satisfies. A manual run performs the workflow's actions in `ordem` and
 * stops at the first action that fails: that action is recorded ERRO, the later
 * ones are never started, and the execution ends ERRO with the failure's message.
 * Only five action types are implemented; CRIAR_TICKET, which the create schema
 * accepts, always fails.
 */
module Workflows {
  import opened Outcome

  // ---------------------------------------------------------------- JSON values and conditions

  /** A value as `JSON.parse` produces it; `Composto` is any object or array. */
  datatype Valor = Nulo | Booleano(b: bool) | Numero(n: real) | Texto(s: string) | Composto

  /**
   * `a === b` between values parsed from two different JSON texts: primitives compare
   * by value, objects and arrays by reference, so two of them are never identical.
   */
  predicate Estrito(a: Valor, b: Valor) { a == b && !a.Composto? }

  type Registro = map<string, Valor>

  /** `Object.entries(condicao)`: the condition's fields in their order. */
  type Condicao = seq<(string, Valor)>

  /** Every field of the condition is present in the data with an identical value. */
  predicate Satisfeita(condicao: Condicao, dados: Registro)
  {
    forall k :: 0 <= k < |condicao| ==> condicao[k].0 in dados && Estrito(dados[condicao[k].0], condicao[k].1)
  }

  /** `verificarCondicao`: false at the first field whose value differs or is missing. */
  method VerificarCondicao(condicao: Condicao, dados: Registro) returns (ok: bool)
    ensures ok <==> Satisfeita(condicao, dados)
    ensures condicao == [] ==> ok
    ensures (exists k :: 0 <= k < |condicao| && condicao[k].1.Composto?) ==> !ok
  {
    var k := 0;
    while k < |condicao|
      invariant 0 <= k <= |condicao|
      invariant forall j :: 0 <= j < k ==> condicao[j].0 in dados && Estrito(dados[condicao[j].0], condicao[j].1)
    {
      var campo := condicao[k].0;
      if !(campo in dados && Estrito(dados[campo], condicao[k].1)) {
        return false;
      }
      k := k + 1;
    }
    return true;
  }

  // ---------------------------------------------------------------- workflows

  datatype Workflow = Workflow(id: Id, empresa: Id, nome: string, descricao: Option<string>, entidade: string,
                               trigger: string, condicao: Option<Condicao>, horario: Option<string>,
                               dias: Option<seq<int>>, ativo: bool, autor: Id)

  datatype Acao = Acao(id: Id, workflow: Id, tipo: string, configuracao: Registro, ordem: int,
                       condicao: Option<Condicao>)

  /** An action as a request body gives it. */
  datatype NovaAcao = NovaAcao(tipo: string, configuracao: Registro, ordem: int, condicao: Option<Condicao>)

  datatype NovoWorkflow = NovoWorkflow(nome: string, descricao: Option<string>, entidade: string, trigger: string,
                                       condicao: Option<Condicao>, horario: Option<string>,
                                       dias: Option<seq<int>>, acoes: seq<NovaAcao>)

  predicate ValidEntidade(e: string)
  {
    e == "PEDIDO" || e == "ORCAMENTO" || e == "CLIENTE" || e == "PRODUTO" || e == "ESTOQUE" || e == "TICKET" || e == "NF"
  }

  predicate ValidTrigger(t: string)
  {
    t == "CRIAR" || t == "ATUALIZAR" || t == "STATUS" || t == "AGENDADO" || t == "MANUAL"
  }

  /** The action types `executarAcao` implements. */
  predicate Suportado(t: string)
  {
    t == "EMAIL" || t == "NOTIFICACAO" || t == "WEBHOOK" || t == "ATUALIZAR_CAMPO" || t == "CRIAR_TAREFA"
  }

  /** The action types the create schema accepts: the implemented ones and CRIAR_TICKET. */
  predicate ValidTipoAcao(t: string) { Suportado(t) || t == "CRIAR_TICKET" }

  /** Every action of the list has a type the executor handles. */
  predicate TodasSuportadas(acoes: seq<Acao>)
  {
    forall k :: 0 <= k < |acoes| ==> Suportado(acoes[k].tipo)
  }

  predicate Digito(c: char) { '0' <= c <= '9' }

  /** `/^\d{2}:\d{2}$/`. */
  predicate ValidHorario(h: string)
  {
    |h| == 5 && Digito(h[0]) && Digito(h[1]) && h[2] == ':' && Digito(h[3]) && Digito(h[4])
  }

  predicate ValidNovoWorkflow(d: NovoWorkflow)
  {
    && 1 <= |d.nome| <= 100 && ValidEntidade(d.entidade) && ValidTrigger(d.trigger)
    && (d.horario.Some? ==> ValidHorario(d.horario.value))
    && (d.dias.Some? ==> forall k :: 0 <= k < |d.dias.value| ==> 0 <= d.dias.value[k] <= 6)
    && (forall k :: 0 <= k < |d.acoes| ==> ValidTipoAcao(d.acoes[k].tipo) && d.acoes[k].ordem >= 1)
  }

  /** The stored workflow: active, its optional texts `|| null`. */
  function WorkflowDe(id: Id, empresa: Id, autor: Id, d: NovoWorkflow): (w: Workflow)
    ensures w.id == id && w.empresa == empresa && w.ativo && w.entidade == d.entidade && w.trigger == d.trigger
    ensures w.condicao == d.condicao
  {
    Workflow(id, empresa, d.nome, OrNull(d.descricao), d.entidade, d.trigger, d.condicao, OrNull(d.horario), d.dias,
             true, autor)
  }

  /** The rows inserted for a list of actions, in the list's order, each with its own id. */
  function AcoesNovas(workflow: Id, novas: seq<NovaAcao>, ids: seq<Id>): (r: seq<Acao>)
    requires |ids| >= |novas|
    ensures |r| == |novas|
    ensures forall k :: 0 <= k < |novas| ==>
      r[k] == Acao(ids[k], workflow, novas[k].tipo, novas[k].configuracao, novas[k].ordem, novas[k].condicao)
  {
    seq(|novas|, k requires 0 <= k < |novas| =>
      Acao(ids[k], workflow, novas[k].tipo, novas[k].configuracao, novas[k].ordem, novas[k].condicao))
  }

  /** `SELECT * FROM workflow_acoes WHERE workflow_id = ?`, in table order. */
  function AcoesDe(linhas: seq<Acao>, workflow: Id): (r: seq<Acao>)
    ensures |r| <= |linhas|
    ensures forall k :: 0 <= k < |r| ==> r[k] in linhas && r[k].workflow == workflow
    ensures forall k :: 0 <= k < |linhas| && linhas[k].workflow == workflow ==> linhas[k] in r
  {
    if linhas == [] then []
    else
      var x := linhas[|linhas| - 1];
      AcoesDe(linhas[..|linhas| - 1], workflow) + (if x.workflow == workflow then [x] else [])
  }

  /** `DELETE FROM workflow_acoes WHERE workflow_id = ?`. */
  function SemAcoesDe(linhas: seq<Acao>, workflow: Id): (r: seq<Acao>)
    ensures |r| <= |linhas|
    ensures forall k :: 0 <= k < |r| ==> r[k] in linhas && r[k].workflow != workflow
    ensures forall k :: 0 <= k < |linhas| && linhas[k].workflow != workflow ==> linhas[k] in r
  {
    if linhas == [] then []
    else
      var x := linhas[|linhas| - 1];
      SemAcoesDe(linhas[..|linhas| - 1], workflow) + (if x.workflow != workflow then [x] else [])
  }

  lemma {:induction false} AcoesDeConcat(a: seq<Acao>, b: seq<Acao>, workflow: Id)
    ensures AcoesDe(a + b, workflow) == AcoesDe(a, workflow) + AcoesDe(b, workflow)
  {
    if b != [] {
      assert (a + b)[..|a + b| - 1] == a + b[..|b| - 1];
      AcoesDeConcat(a, b[..|b| - 1], workflow);
    } else {
      assert a + b == a;
    }
  }

  lemma {:induction false} AcoesDeNenhuma(linhas: seq<Acao>, workflow: Id)
    requires forall k :: 0 <= k < |linhas| ==> linhas[k].workflow != workflow
    ensures AcoesDe(linhas, workflow) == []
  {
    if linhas != [] {
      AcoesDeNenhuma(linhas[..|linhas| - 1], workflow);
    }
  }

  lemma {:induction false} AcoesDeTodas(linhas: seq<Acao>, workflow: Id)
    requires forall k :: 0 <= k < |linhas| ==> linhas[k].workflow == workflow
    ensures AcoesDe(linhas, workflow) == linhas
  {
    if linhas != [] {
      AcoesDeTodas(linhas[..|linhas| - 1], workflow);
    }
  }

  /** Replacing the actions: afterwards the workflow's actions are exactly the new list, in its order. */
  lemma {:induction false} Substituicao(linhas: seq<Acao>, workflow: Id, novas: seq<NovaAcao>, ids: seq<Id>)
    requires |ids| >= |novas|
    ensures AcoesDe(SemAcoesDe(linhas, workflow) + AcoesNovas(workflow, novas, ids), workflow)
            == AcoesNovas(workflow, novas, ids)
  {
    var s := SemAcoesDe(linhas, workflow);
    var n := AcoesNovas(workflow, novas, ids);
    AcoesDeConcat(s, n, workflow);
    AcoesDeNenhuma(s, workflow);
    AcoesDeTodas(n, workflow);
  }

  /** Every other workflow's actions are as they were, whatever company it belongs to. */
  lemma {:induction false} SubstituicaoOutros(linhas: seq<Acao>, workflow: Id, novas: seq<NovaAcao>, ids: seq<Id>, outro: Id)
    requires |ids| >= |novas| && outro != workflow
    ensures AcoesDe(SemAcoesDe(linhas, workflow) + AcoesNovas(workflow, novas, ids), outro) == AcoesDe(linhas, outro)
  {
    var s := SemAcoesDe(linhas, workflow);
    var n := AcoesNovas(workflow, novas, ids);
    AcoesDeConcat(s, n, outro);
    AcoesDeNenhuma(n, outro);
    SemAcoesDeOutro(linhas, workflow, outro);
  }

  lemma {:induction false} SemAcoesDeOutro(linhas: seq<Acao>, workflow: Id, outro: Id)
    requires outro != workflow
    ensures AcoesDe(SemAcoesDe(linhas, workflow), outro) == AcoesDe(linhas, outro)
  {
    if linhas != [] {
      var p := linhas[..|linhas| - 1];
      var x := linhas[|linhas| - 1];
      SemAcoesDeOutro(p, workflow, outro);
      if x.workflow != workflow {
        AcoesDeConcat(SemAcoesDe(p, workflow), [x], outro);
      } else {
        assert SemAcoesDe(linhas, workflow) == SemAcoesDe(p, workflow);
      }
    }
  }

  // ---------------------------------------------------------------- ordering by `ordem`

  predicate PorOrdemCrescente(s: seq<Acao>)
  {
    forall i, j :: 0 <= i < j < |s| ==> s[i].ordem <= s[j].ordem
  }

  /** Insertion after every action with no larger `ordem`: equal `ordem`s keep table order. */
  function Inserir(x: Acao, t: seq<Acao>): (r: seq<Acao>)
    ensures |r| == |t| + 1
  {
    if t == [] then [x]
    else if t[|t| - 1].ordem <= x.ordem then t + [x]
    else Inserir(x, t[..|t| - 1]) + [t[|t| - 1]]
  }

  /** Insertion adds the one action and loses none. */
  lemma {:induction false} InserirPermuta(x: Acao, t: seq<Acao>)
    ensures multiset(Inserir(x, t)) == multiset(t) + multiset{x}
  {
    if t != [] && t[|t| - 1].ordem > x.ordem {
      InserirPermuta(x, t[..|t| - 1]);
      assert t == t[..|t| - 1] + [t[|t| - 1]];
    }
  }

  /** `ORDER BY ordem`. */
  function PorOrdem(s: seq<Acao>): (r: seq<Acao>)
    ensures |r| == |s|
  {
    if s == [] then []
    else Inserir(s[|s| - 1], PorOrdem(s[..|s| - 1]))
  }

  lemma {:induction false} InserirOrdenado(x: Acao, t: seq<Acao>)
    requires PorOrdemCrescente(t)
    ensures PorOrdemCrescente(Inserir(x, t))
  {
    if t != [] && t[|t| - 1].ordem > x.ordem {
      var p := t[..|t| - 1];
      var u := t[|t| - 1];
      InserirOrdenado(x, p);
      InserirPermuta(x, p);
      var q := Inserir(x, p);
      forall k | 0 <= k < |q|
        ensures q[k].ordem <= u.ordem
      {
        assert q[k] in multiset(p) + multiset{x};
        if q[k] != x {
          assert q[k] in p;
        }
      }
      assert Inserir(x, t) == q + [u];
    }
  }

  /** The actions come out in non-decreasing `ordem`, and they are the same actions. */
  lemma {:induction false} PorOrdemOrdena(s: seq<Acao>)
    ensures PorOrdemCrescente(PorOrdem(s)) && multiset(PorOrdem(s)) == multiset(s)
  {
    if s != [] {
      PorOrdemOrdena(s[..|s| - 1]);
      InserirOrdenado(s[|s| - 1], PorOrdem(s[..|s| - 1]));
      InserirPermuta(s[|s| - 1], PorOrdem(s[..|s| - 1]));
      assert s == s[..|s| - 1] + [s[|s| - 1]];
    }
  }

  // ---------------------------------------------------------------- running the actions

  datatype StatusAcao = Sucesso | Erro(mensagem: string)

  /** A row of `workflow_execucoes_acoes`, with its final status. */
  datatype ExecucaoAcao = ExecucaoAcao(id: Id, execucao: Id, acao: Id, status: StatusAcao)

  datatype Notificacao = Notificacao(id: Id, empresa: Id, titulo: Option<Valor>, mensagem: Option<Valor>)

  datatype Tarefa = Tarefa(id: Id, empresa: Id, titulo: Option<Valor>, origem: Id)

  /** `config[campo]`: absent fields are `undefined`. */
  function Campo(r: Registro, campo: string): Option<Valor>
  {
    if campo in r then Some(r[campo]) else None
  }

  /** The `throw` of `executarAcao` for a type it does not handle. */
  function MensagemErro(tipo: string): string
  {
    "Tipo de ação não suportado: " + tipo
  }

  /** What a run has written so far, and the error that stopped it, if any. */
  datatype Rodada = Rodada(registros: seq<ExecucaoAcao>, notificacoes: seq<Notificacao>, tarefas: seq<Tarefa>,
                           erro: Option<string>)

  /**
   * One action: a supported one is SUCESSO (NOTIFICACAO and CRIAR_TAREFA also insert
   * their row); any other is ERRO with the message and sets the run's error.
   */
  function Aplicar(r: Rodada, a: Acao, id: Id, extra: Id, execucao: Id, empresa: Id): Rodada
  {
    if !Suportado(a.tipo) then
      Rodada(r.registros + [ExecucaoAcao(id, execucao, a.id, Erro(MensagemErro(a.tipo)))], r.notificacoes, r.tarefas,
             Some(MensagemErro(a.tipo)))
    else
      Rodada(r.registros + [ExecucaoAcao(id, execucao, a.id, Sucesso)],
             r.notificacoes + (if a.tipo == "NOTIFICACAO"
                               then [Notificacao(extra, empresa, Campo(a.configuracao, "titulo"),
                                                 Campo(a.configuracao, "mensagem"))]
                               else []),
             r.tarefas + (if a.tipo == "CRIAR_TAREFA" then [Tarefa(extra, empresa, Campo(a.configuracao, "titulo"), a.id)]
                          else []),
             None)
  }

  /** The run over a list of actions: each in turn, none after an error. */
  function Rodar(acoes: seq<Acao>, execucao: Id, ids: seq<Id>, extras: seq<Id>, empresa: Id): Rodada
    requires |ids| >= |acoes| && |extras| >= |acoes|
  {
    if acoes == [] then Rodada([], [], [], None)
    else
      var r := Rodar(acoes[..|acoes| - 1], execucao, ids, extras, empresa);
      if r.erro.Some? then r
      else Aplicar(r, acoes[|acoes| - 1], ids[|acoes| - 1], extras[|acoes| - 1], execucao, empresa)
  }

  /** The first action of an unsupported type. */
  function Falha(acoes: seq<Acao>): (r: Option<nat>)
    ensures r.Some? ==> r.value < |acoes| && !Suportado(acoes[r.value].tipo)
                        && forall k :: 0 <= k < r.value ==> Suportado(acoes[k].tipo)
    ensures r.None? <==> TodasSuportadas(acoes)
  {
    if acoes == [] then None
    else match Falha(acoes[..|acoes| - 1])
      case Some(i) => Some(i)
      case None => if Suportado(acoes[|acoes| - 1].tipo) then None else Some(|acoes| - 1)
  }

  /**
   * The run records every action up to and including the first unsupported one and
   * no later one: the earlier ones SUCESSO, that one ERRO with its message, which is
   * also the run's error. With no unsupported action every action is SUCESSO.
   */
  lemma {:induction false} RodarFalha(acoes: seq<Acao>, execucao: Id, ids: seq<Id>, extras: seq<Id>, empresa: Id)
    requires |ids| >= |acoes| && |extras| >= |acoes|
    ensures var r := Rodar(acoes, execucao, ids, extras, empresa);
      var f := Falha(acoes);
      && (r.erro.Some? <==> f.Some?)
      && |r.registros| == (if f.Some? then f.value + 1 else |acoes|)
      && (forall k :: 0 <= k < |r.registros| ==>
            r.registros[k] == ExecucaoAcao(ids[k], execucao, acoes[k].id,
                                           if f == Some(k) then Erro(MensagemErro(acoes[k].tipo)) else Sucesso))
      && (f.Some? ==> r.erro == Some(MensagemErro(acoes[f.value].tipo)))
  {
    if acoes != [] {
      var p := acoes[..|acoes| - 1];
      RodarFalha(p, execucao, ids, extras, empresa);
      var r := Rodar(p, execucao, ids, extras, empresa);
      assert forall k :: 0 <= k < |p| ==> p[k] == acoes[k];
    }
  }

  /** A workflow with a CRIAR_TICKET action always ends ERRO, at that action or an earlier one. */
  lemma {:induction false} CriarTicketFalha(acoes: seq<Acao>, execucao: Id, ids: seq<Id>, extras: seq<Id>, empresa: Id, k: nat)
    requires |ids| >= |acoes| && |extras| >= |acoes|
    requires k < |acoes| && acoes[k].tipo == "CRIAR_TICKET"
    ensures Rodar(acoes, execucao, ids, extras, empresa).erro.Some?
    ensures Falha(acoes).Some? && Falha(acoes).value <= k
  {
    RodarFalha(acoes, execucao, ids, extras, empresa);
  }

  /** Once a prefix has failed, the remaining actions change nothing. */
  lemma {:induction false} RodarParado(acoes: seq<Acao>, k: nat, execucao: Id, ids: seq<Id>, extras: seq<Id>, empresa: Id)
    requires k <= |acoes| && |ids| >= |acoes| && |extras| >= |acoes|
    requires Rodar(acoes[..k], execucao, ids, extras, empresa).erro.Some?
    ensures Rodar(acoes, execucao, ids, extras, empresa) == Rodar(acoes[..k], execucao, ids, extras, empresa)
  {
    if |acoes| > k {
      var p := acoes[..|acoes| - 1];
      assert p[..k] == acoes[..k];
      RodarParado(p, k, execucao, ids, extras, empresa);
    } else {
      assert acoes[..k] == acoes;
    }
  }

  /** The action loop of POST /:id/executar, with `sucesso`, `erro` and `break` as written. */
  method ExecutarAcoes(acoes: seq<Acao>, execucao: Id, ids: seq<Id>, extras: seq<Id>, empresa: Id)
    returns (registros: seq<ExecucaoAcao>, notificacoes: seq<Notificacao>, tarefas: seq<Tarefa>, sucesso: bool,
             erro: Option<string>)
    requires |ids| >= |acoes| && |extras| >= |acoes|
    ensures Rodada(registros, notificacoes, tarefas, erro) == Rodar(acoes, execucao, ids, extras, empresa)
    ensures sucesso <==> erro.None?
    ensures sucesso <==> TodasSuportadas(acoes)
  {
    registros, notificacoes, tarefas, sucesso, erro := [], [], [], true, None;
    var k := 0;
    while k < |acoes|
      invariant 0 <= k <= |acoes|
      invariant Rodada(registros, notificacoes, tarefas, erro) == Rodar(acoes[..k], execucao, ids, extras, empresa)
      invariant sucesso && erro.None?
    {
      var acao := acoes[k];
      assert acoes[..k + 1][..k] == acoes[..k];
      if !Suportado(acao.tipo) {
        sucesso := false;
        erro := Some(MensagemErro(acao.tipo));
        registros := registros + [ExecucaoAcao(ids[k], execucao, acao.id, Erro(MensagemErro(acao.tipo)))];
        RodarParado(acoes, k + 1, execucao, ids, extras, empresa);
        break;
      }
      registros := registros + [ExecucaoAcao(ids[k], execucao, acao.id, Sucesso)];
      if acao.tipo == "NOTIFICACAO" {
        notificacoes := notificacoes + [Notificacao(extras[k], empresa, Campo(acao.configuracao, "titulo"),
                                                    Campo(acao.configuracao, "mensagem"))];
      } else if acao.tipo == "CRIAR_TAREFA" {
        tarefas := tarefas + [Tarefa(extras[k], empresa, Campo(acao.configuracao, "titulo"), acao.id)];
      }
      k := k + 1;
    }
    if sucesso {
      assert acoes[..k] == acoes;
    }
    RodarFalha(acoes, execucao, ids, extras, empresa);
  }

  // ---------------------------------------------------------------- events

  datatype StatusExecucao = Pendente | Executando | Concluida | ComErro

  datatype Execucao = Execucao(id: Id, workflow: Id, trigger: string, dados: Registro, status: StatusExecucao,
                               erro: Option<string>, iniciadoPor: Option<Id>)

  /** The workflow is active, of the company, and listens to this entity and event. */
  predicate Candidato(w: Workflow, empresa: Id, entidade: string, evento: string)
  {
    w.empresa == empresa && w.entidade == entidade && w.trigger == evento && w.ativo
  }

  /** A candidate whose stored condition is absent or satisfied by the event's data. */
  predicate Disparado(w: Workflow, empresa: Id, entidade: string, evento: string, dados: Registro)
  {
    Candidato(w, empresa, entidade, evento) && (w.condicao.None? || Satisfeita(w.condicao.value, dados))
  }

  function NovaPendente(id: Id, w: Workflow, evento: string, dados: Registro): Execucao
  {
    Execucao(id, w.id, evento, dados, Pendente, None, None)
  }

  /** The executions POST /trigger inserts: one per started workflow, in table order. */
  function Disparos(ws: seq<Workflow>, ids: seq<Id>, empresa: Id, entidade: string, evento: string,
                    dados: Registro): (r: seq<Execucao>)
    requires |ids| >= |ws|
    ensures |r| <= |ws|
    ensures forall k :: 0 <= k < |r| ==> r[k].status == Pendente && r[k].trigger == evento && r[k].dados == dados
    ensures forall j :: 0 <= j < |ws| && Disparado(ws[j], empresa, entidade, evento, dados) ==>
                          NovaPendente(ids[j], ws[j], evento, dados) in r
    ensures forall k :: 0 <= k < |r| ==> DisparoDe(ws, ids, empresa, entidade, evento, dados, r[k])
  {
    if ws == [] then []
    else
      var p := Disparos(ws[..|ws| - 1], ids, empresa, entidade, evento, dados);
      var w := ws[|ws| - 1];
      p + (if Disparado(w, empresa, entidade, evento, dados) then [NovaPendente(ids[|ws| - 1], w, evento, dados)] else [])
  }

  /** The execution belongs to a workflow the event starts. */
  predicate DisparoDe(ws: seq<Workflow>, ids: seq<Id>, empresa: Id, entidade: string, evento: string,
                      dados: Registro, e: Execucao)
    requires |ids| >= |ws|
  {
    exists j :: 0 <= j < |ws| && Disparado(ws[j], empresa, entidade, evento, dados) && e == NovaPendente(ids[j], ws[j], evento, dados)
  }

  /** The trigger loop: the condition of every candidate checked, one PENDENTE execution per match. */
  method Selecionar(ws: seq<Workflow>, ids: seq<Id>, empresa: Id, entidade: string, evento: string,
                    dados: Registro) returns (novas: seq<Execucao>)
    requires |ids| >= |ws|
    ensures novas == Disparos(ws, ids, empresa, entidade, evento, dados)
  {
    novas := [];
    var k := 0;
    while k < |ws|
      invariant 0 <= k <= |ws|
      invariant novas == Disparos(ws[..k], ids, empresa, entidade, evento, dados)
    {
      var w := ws[k];
      assert ws[..k + 1][..k] == ws[..k];
      if Candidato(w, empresa, entidade, evento) {
        var ok := true;
        if w.condicao.Some? {
          ok := VerificarCondicao(w.condicao.value, dados);
        }
        if ok {
          novas := novas + [NovaPendente(ids[k], w, evento, dados)];
        }
      }
      k := k + 1;
    }
    assert ws[..k] == ws;
  }

  // ---------------------------------------------------------------- partial update

  /** PUT /:id: a field is written when `nome`/`trigger_condicao` are truthy, the others when present. */
  datatype Alteracao = Alteracao(nome: Option<string>, descricao: Campo<string>, condicao: Option<Condicao>,
                                 horario: Campo<string>, ativo: Campo<bool>)

  /**
   * Truthy `nome` and `trigger_condicao` replace the stored ones; `descricao`,
   * `horario_execucao` and `ativo` are written whenever the body has them, so `null`
   * clears the first two and makes the workflow inactive.
   */
  function Alterado(w: Workflow, a: Alteracao): (r: Workflow)
    ensures r.id == w.id && r.empresa == w.empresa && r.entidade == w.entidade && r.trigger == w.trigger
    ensures r.dias == w.dias && r.autor == w.autor
    ensures r.nome == if Truthy(a.nome) then a.nome.value else w.nome
    ensures Aplicado(a.descricao, w.descricao, r.descricao) && Aplicado(a.horario, w.horario, r.horario)
    ensures r.condicao == if a.condicao.Some? then a.condicao else w.condicao
    ensures a.ativo.Ausente? ==> r.ativo == w.ativo
    ensures a.ativo.Nulo? ==> !r.ativo
    ensures a.ativo.Valor? ==> r.ativo == a.ativo.valor
    ensures a == Alteracao(None, Ausente, None, Ausente, Ausente) ==> r == w
  {
    w.(nome := if Truthy(a.nome) then a.nome.value else w.nome,
       descricao := Escrito(a.descricao, w.descricao),
       condicao := if a.condicao.Some? then a.condicao else w.condicao,
       horario := Escrito(a.horario, w.horario),
       ativo := match a.ativo case Ausente => w.ativo case Nulo => false case Valor(b) => b)
  }

  /** `UPDATE workflows SET … WHERE id = ? AND empresa_id = ?`. */
  function AlteradosW(ws: seq<Workflow>, id: Id, empresa: Id, a: Alteracao): (r: seq<Workflow>)
    ensures |r| == |ws|
    ensures forall k :: 0 <= k < |ws| ==> r[k] == if ws[k].id == id && ws[k].empresa == empresa then Alterado(ws[k], a) else ws[k]
  {
    seq(|ws|, k requires 0 <= k < |ws| => if ws[k].id == id && ws[k].empresa == empresa then Alterado(ws[k], a) else ws[k])
  }

  /** `DELETE FROM workflows WHERE id = ? AND empresa_id = ?`. */
  function SemWorkflow(ws: seq<Workflow>, id: Id, empresa: Id): (r: seq<Workflow>)
    ensures |r| <= |ws|
    ensures forall k :: 0 <= k < |r| ==> r[k] in ws && !(r[k].id == id && r[k].empresa == empresa)
    ensures forall k :: 0 <= k < |ws| && !(ws[k].id == id && ws[k].empresa == empresa) ==> ws[k] in r
  {
    if ws == [] then []
    else SemWorkflow(ws[..|ws| - 1], id, empresa)
         + (if ws[|ws| - 1].id == id && ws[|ws| - 1].empresa == empresa then [] else [ws[|ws| - 1]])
  }

  /** `SELECT * FROM workflows WHERE id = ? AND empresa_id = ? AND ativo = 1`. */
  function Ativo(ws: seq<Workflow>, id: Id, empresa: Id): (r: Option<nat>)
    ensures r.Some? ==> r.value < |ws| && ws[r.value].id == id && ws[r.value].empresa == empresa && ws[r.value].ativo
    ensures r.None? ==> forall k :: 0 <= k < |ws| ==> !(ws[k].id == id && ws[k].empresa == empresa && ws[k].ativo)
  {
    if ws == [] then None
    else match Ativo(ws[..|ws| - 1], id, empresa)
      case Some(i) => Some(i)
      case None =>
        var w := ws[|ws| - 1];
        if w.id == id && w.empresa == empresa && w.ativo then Some(|ws| - 1) else None
  }

  // ---------------------------------------------------------------- handlers

  /** Every execution has finished or is waiting, and carries an error exactly when it ended ERRO. */
  predicate Encerradas(es: seq<Execucao>)
  {
    forall k :: 0 <= k < |es| ==> es[k].status != Executando && (es[k].status == ComErro <==> es[k].erro.Some?)
  }

  lemma {:induction false} EncerradasDisparos(es: seq<Execucao>, ws: seq<Workflow>, ids: seq<Id>, empresa: Id, entidade: string,
                           evento: string, dados: Registro)
    requires Encerradas(es) && |ids| >= |ws|
    ensures Encerradas(es + Disparos(ws, ids, empresa, entidade, evento, dados))
  {
    var d := Disparos(ws, ids, empresa, entidade, evento, dados);
    assert forall k :: 0 <= k < |d| ==> d[k].status == Pendente && d[k].erro.None?;
  }

  lemma {:induction false} EncerradasAcrescentar(es: seq<Execucao>, e: Execucao)
    requires Encerradas(es) && e.status != Executando && (e.status == ComErro <==> e.erro.Some?)
    ensures Encerradas(es + [e])
  {
    var r := es + [e];
    forall k | 0 <= k < |r|
      ensures r[k].status != Executando && (r[k].status == ComErro <==> r[k].erro.Some?)
    {
      if k < |es| {
        assert r[k] == es[k];
      }
    }
  }

  class Automacao {
    var workflows: seq<Workflow>
    var acoes: seq<Acao>
    var execucoes: seq<Execucao>
    var registros: seq<ExecucaoAcao>
    var notificacoes: seq<Notificacao>
    var tarefas: seq<Tarefa>

    ghost predicate Valid()
      reads this`execucoes
    {
      Encerradas(execucoes)
    }

    constructor ()
      ensures Valid() && workflows == [] && acoes == [] && execucoes == []
      ensures registros == [] && notificacoes == [] && tarefas == []
    {
      workflows, acoes, execucoes := [], [], [];
      registros, notificacoes, tarefas := [], [], [];
    }

    /** POST /: the workflow, active, and its actions in the order given. */
    method Criar(id: Id, empresa: Id, autor: Id, d: NovoWorkflow, ids: seq<Id>) returns (o: Outcome)
      requires |ids| >= |d.acoes|
      modifies this`workflows, this`acoes
      ensures o == if ValidNovoWorkflow(d) then Ok else BadRequest
      ensures workflows == if o == Ok then old(workflows) + [WorkflowDe(id, empresa, autor, d)] else old(workflows)
      ensures acoes == if o == Ok then old(acoes) + AcoesNovas(id, d.acoes, ids) else old(acoes)
    {
      if !ValidNovoWorkflow(d) {
        return BadRequest;
      }
      workflows := workflows + [WorkflowDe(id, empresa, autor, d)];
      acoes := acoes + AcoesNovas(id, d.acoes, ids);
      o := Ok;
    }

    /** PUT /:id: no lookup; a workflow of another company is not touched. */
    method Atualizar(id: Id, empresa: Id, a: Alteracao)
      modifies this`workflows
      ensures workflows == AlteradosW(old(workflows), id, empresa, a)
    {
      workflows := AlteradosW(workflows, id, empresa, a);
    }

    /**
     * PUT /:id/acoes: every action of that workflow id goes, then the new list is inserted
     * unvalidated. A body without a list (`body.acoes` undefined or null) makes the `for…of`
     * throw after the delete: the answer is 500 and the workflow is left with no actions.
     */
    method SubstituirAcoes(id: Id, novas: Option<seq<NovaAcao>>, ids: seq<Id>) returns (o: Outcome)
      requires novas.Some? ==> |ids| >= |novas.value|
      modifies this`acoes
      ensures o == if novas.Some? then Ok else ServerError
      ensures novas.None? ==> acoes == SemAcoesDe(old(acoes), id) && AcoesDe(acoes, id) == []
      ensures novas.Some? ==> acoes == SemAcoesDe(old(acoes), id) + AcoesNovas(id, novas.value, ids)
                              && AcoesDe(acoes, id) == AcoesNovas(id, novas.value, ids)
    {
      if novas.None? {
        AcoesDeNenhuma(SemAcoesDe(acoes, id), id);
        acoes := SemAcoesDe(acoes, id);
        return ServerError;
      }
      Substituicao(acoes, id, novas.value, ids);
      acoes := SemAcoesDe(acoes, id) + AcoesNovas(id, novas.value, ids);
      o := Ok;
    }

    /** DELETE /:id: the actions go by workflow id alone, the workflow only within the company. */
    method Excluir(id: Id, empresa: Id)
      modifies this`workflows, this`acoes
      ensures acoes == SemAcoesDe(old(acoes), id)
      ensures workflows == SemWorkflow(old(workflows), id, empresa)
    {
      acoes := SemAcoesDe(acoes, id);
      workflows := SemWorkflow(workflows, id, empresa);
    }

    /** POST /trigger: reports how many executions it created. */
    method Disparar(empresa: Id, entidade: string, evento: string, dados: Registro, ids: seq<Id>) returns (n: nat)
      requires Valid() && |ids| >= |workflows|
      modifies this`execucoes
      ensures Valid()
      ensures execucoes == old(execucoes) + Disparos(workflows, ids, empresa, entidade, evento, dados)
      ensures n == |Disparos(workflows, ids, empresa, entidade, evento, dados)|
    {
      var novas := Selecionar(workflows, ids, empresa, entidade, evento, dados);
      EncerradasDisparos(execucoes, workflows, ids, empresa, entidade, evento, dados);
      execucoes := execucoes + novas;
      n := |novas|;
    }

    /** POST /:id/executar: an active workflow of the company, its actions run in `ordem`. */
    method Executar(id: Id, empresa: Id, usuario: Id, execucao: Id, ids: seq<Id>, extras: seq<Id>,
                    dados: Option<Registro>) returns (o: Outcome, status: StatusExecucao, erro: Option<string>)
      requires Valid() && |ids| >= |acoes| && |extras| >= |acoes|
      modifies this`execucoes, this`registros, this`notificacoes, this`tarefas
      ensures Valid()
      ensures o == if Ativo(old(workflows), id, empresa).Some? then Ok else NotFound
      ensures o == Ok ==> erro == Rodar(PorOrdem(AcoesDe(old(acoes), id)), execucao, ids, extras, empresa).erro
      ensures o == Ok ==> (status == ComErro <==> erro.Some?)
      ensures execucoes == if o == Ok
        then old(execucoes) + [Execucao(execucao, id, "MANUAL", dados.GetOr(map[]), status, erro, Some(usuario))]
        else old(execucoes)
      ensures registros == if o == Ok
        then old(registros) + Rodar(PorOrdem(AcoesDe(old(acoes), id)), execucao, ids, extras, empresa).registros
        else old(registros)
      ensures notificacoes == if o == Ok
        then old(notificacoes) + Rodar(PorOrdem(AcoesDe(old(acoes), id)), execucao, ids, extras, empresa).notificacoes
        else old(notificacoes)
      ensures tarefas == if o == Ok
        then old(tarefas) + Rodar(PorOrdem(AcoesDe(old(acoes), id)), execucao, ids, extras, empresa).tarefas
        else old(tarefas)
      ensures o == Ok ==> (status == Concluida <==> TodasSuportadas(AcoesDe(old(acoes), id)))
    {
      if Ativo(workflows, id, empresa).None? {
        return NotFound, Pendente, None;
      }
      var es, rs, ns, ts;
      es, rs, ns, ts, status, erro := Registrado(execucoes, registros, notificacoes, tarefas, acoes, id, empresa,
                                                 usuario, execucao, ids, extras, dados);
      execucoes := es;
      registros := rs;
      notificacoes := ns;
      tarefas := ts;
      o := Ok;
    }

    /** POST /templates/:templateId/usar: an active workflow with the body's fields or fixed defaults, no actions. */
    method UsarTemplate(id: Id, empresa: Id, autor: Id, templateId: string, nome: Option<string>,
                        descricao: Option<string>, entidade: Option<string>, trigger: Option<string>)
      modifies this`workflows
      ensures workflows == old(workflows) + [Workflow(id, empresa, if Truthy(nome) then nome.value else "Workflow " + templateId,
                                                      OrNull(descricao), if Truthy(entidade) then entidade.value else "PEDIDO",
                                                      if Truthy(trigger) then trigger.value else "CRIAR",
                                                      None, None, None, true, autor)]
    {
      workflows := workflows + [Workflow(id, empresa, if Truthy(nome) then nome.value else "Workflow " + templateId,
                                         OrNull(descricao), if Truthy(entidade) then entidade.value else "PEDIDO",
                                         if Truthy(trigger) then trigger.value else "CRIAR", None, None, None, true, autor)];
    }
  }

  /** The run of one workflow's actions in `ordem` order, and the status its execution ends with. */
  method ExecutarWorkflow(linhas: seq<Acao>, workflow: Id, execucao: Id, ids: seq<Id>, extras: seq<Id>, empresa: Id)
    returns (registros: seq<ExecucaoAcao>, notificacoes: seq<Notificacao>, tarefas: seq<Tarefa>,
             status: StatusExecucao, erro: Option<string>)
    requires |ids| >= |linhas| && |extras| >= |linhas|
    ensures var r := Rodar(PorOrdem(AcoesDe(linhas, workflow)), execucao, ids, extras, empresa);
      registros == r.registros && notificacoes == r.notificacoes && tarefas == r.tarefas && erro == r.erro
    ensures status == ComErro <==> erro.Some?
    ensures status == Concluida <==> erro.None?
    ensures status == Concluida <==> TodasSuportadas(AcoesDe(linhas, workflow))
  {
    var lista := PorOrdem(AcoesDe(linhas, workflow));
    var sucesso;
    registros, notificacoes, tarefas, sucesso, erro := ExecutarAcoes(lista, execucao, ids, extras, empresa);
    status := if sucesso then Concluida else ComErro;
    SuportadasPorOrdem(AcoesDe(linhas, workflow));
  }

  /** The tables after one manual run of a workflow: its execution and everything its actions wrote, appended. */
  method Registrado(execucoes: seq<Execucao>, registros: seq<ExecucaoAcao>, notificacoes: seq<Notificacao>,
                    tarefas: seq<Tarefa>, linhas: seq<Acao>, id: Id, empresa: Id, usuario: Id, execucao: Id,
                    ids: seq<Id>, extras: seq<Id>, dados: Option<Registro>)
    returns (es: seq<Execucao>, rs: seq<ExecucaoAcao>, ns: seq<Notificacao>, ts: seq<Tarefa>,
             status: StatusExecucao, erro: Option<string>)
    requires Encerradas(execucoes) && |ids| >= |linhas| && |extras| >= |linhas|
    ensures Encerradas(es)
    ensures erro == Rodar(PorOrdem(AcoesDe(linhas, id)), execucao, ids, extras, empresa).erro
    ensures status == ComErro <==> erro.Some?
    ensures es == execucoes + [Execucao(execucao, id, "MANUAL", dados.GetOr(map[]), status, erro, Some(usuario))]
    ensures rs == registros + Rodar(PorOrdem(AcoesDe(linhas, id)), execucao, ids, extras, empresa).registros
    ensures ns == notificacoes + Rodar(PorOrdem(AcoesDe(linhas, id)), execucao, ids, extras, empresa).notificacoes
    ensures ts == tarefas + Rodar(PorOrdem(AcoesDe(linhas, id)), execucao, ids, extras, empresa).tarefas
    ensures status == Concluida <==> TodasSuportadas(AcoesDe(linhas, id))
  {
    var regs, notifs, tars;
    regs, notifs, tars, status, erro := ExecutarWorkflow(linhas, id, execucao, ids, extras, empresa);
    var nova := Execucao(execucao, id, "MANUAL", dados.GetOr(map[]), status, erro, Some(usuario));
    EncerradasAcrescentar(execucoes, nova);
    es, rs, ns, ts := execucoes + [nova], registros + regs, notificacoes + notifs, tarefas + tars;
  }

  /** Sorting does not change which actions there are, so it does not change whether all are supported. */
  lemma {:induction false} SuportadasPorOrdem(s: seq<Acao>)
    ensures TodasSuportadas(PorOrdem(s)) <==> TodasSuportadas(s)
  {
    PorOrdemOrdena(s);
    if TodasSuportadas(s) {
      SuportadasMesmoMultiset(PorOrdem(s), s);
    }
    if TodasSuportadas(PorOrdem(s)) {
      SuportadasMesmoMultiset(s, PorOrdem(s));
    }
  }

  /** Two lists with the same actions agree on whether all of them are supported. */
  lemma {:induction false} SuportadasMesmoMultiset(a: seq<Acao>, b: seq<Acao>)
    requires multiset(a) == multiset(b)
    requires TodasSuportadas(b)
    ensures TodasSuportadas(a)
  {
    forall k | 0 <= k < |a|
      ensures Suportado(a[k].tipo)
    {
      assert a[k] in multiset(b);
      var j :| 0 <= j < |b| && b[j] == a[k];
    }
  }
}
