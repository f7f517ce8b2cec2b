/**
 * Support desk: tickets with their history and messages, and the help articles
 * of the knowledge base with their view and feedback counters.
 *
 * A ticket is numbered with the company's largest number plus one, zero-padded
 * to six digits, and starts ABERTO with one CRIACAO history row. Assigning,
 * changing the status and changing the priority each append exactly one history
 * row; none of these three looks the ticket up first, so the row is appended even
 * when no ticket of the company has that id.
 */
module Tickets {
  import opened Outcome
  import opened Numbering

  datatype Status = Aberto | EmAtendimento | AguardandoCliente | AguardandoTerceiro | Resolvido | Fechado

  datatype Canal = Email | Telefone | Whatsapp | Chat | Portal

  /** `prioridade` is free text once stored: the priority endpoint writes whatever it is sent. */
  datatype Ticket = Ticket(id: Id, empresa: Id, numero: string, cliente: Option<Id>, assunto: string,
                           descricao: string, prioridade: string, categoria: Option<string>, canal: Canal,
                           status: Status, atribuido: Option<Id>, ultimaResposta: Option<string>, autor: Id)

  // ---------------------------------------------------------------- status names

  function NomeStatus(s: Status): string
  {
    match s
    case Aberto => "ABERTO"
    case EmAtendimento => "EM_ATENDIMENTO"
    case AguardandoCliente => "AGUARDANDO_CLIENTE"
    case AguardandoTerceiro => "AGUARDANDO_TERCEIRO"
    case Resolvido => "RESOLVIDO"
    case Fechado => "FECHADO"
  }

  /** The status enum of the status endpoint's schema. */
  function StatusDe(s: string): (r: Option<Status>)
    ensures r.Some? ==> NomeStatus(r.value) == s
  {
    if s == "ABERTO" then Some(Aberto)
    else if s == "EM_ATENDIMENTO" then Some(EmAtendimento)
    else if s == "AGUARDANDO_CLIENTE" then Some(AguardandoCliente)
    else if s == "AGUARDANDO_TERCEIRO" then Some(AguardandoTerceiro)
    else if s == "RESOLVIDO" then Some(Resolvido)
    else if s == "FECHADO" then Some(Fechado)
    else None
  }

  /** Every status name is accepted and read back as that status. */
  lemma {:induction false} StatusDeNome(s: Status)
    ensures StatusDe(NomeStatus(s)) == Some(s)
  {
  }

  // ---------------------------------------------------------------- history

  /** The history rows the handlers write, with the text each one stores. */
  datatype Evento = Criacao | Atribuicao | MudancaStatus(de: Option<Status>, para: Status) | MudancaPrioridade(prioridade: string)

  datatype Entrada = Entrada(id: Id, ticket: Id, usuario: Id, evento: Evento)

  /** The `tipo` column. */
  function Tipo(e: Evento): string
  {
    match e
    case Criacao => "CRIACAO"
    case Atribuicao => "ATRIBUICAO"
    case MudancaStatus(_, _) => "STATUS"
    case MudancaPrioridade(_) => "PRIORIDADE"
  }

  /** The `descricao` column; an unknown previous status renders as JavaScript's `undefined`. */
  function Descricao(e: Evento): string
  {
    match e
    case Criacao => "Ticket criado"
    case Atribuicao => "Ticket atribuído"
    case MudancaStatus(de, para) =>
      "Status alterado de " + (if de.Some? then NomeStatus(de.value) else "undefined") + " para " + NomeStatus(para)
    case MudancaPrioridade(p) => "Prioridade alterada para " + p
  }

  /** The `tipo` column tells the four kinds of row apart. */
  lemma {:induction false} TipoDistingue(a: Evento, b: Evento)
    ensures Tipo(a) == Tipo(b) <==> (a.Criacao? && b.Criacao?) || (a.Atribuicao? && b.Atribuicao?)
                                    || (a.MudancaStatus? && b.MudancaStatus?)
                                    || (a.MudancaPrioridade? && b.MudancaPrioridade?)
  {
  }

  /** A ticket's history: `SELECT … FROM tickets_historico WHERE ticket_id = ?`, oldest first. */
  function HistoricoDe(hs: seq<Entrada>, ticket: Id): (r: seq<Entrada>)
    ensures |r| <= |hs|
    ensures forall k :: 0 <= k < |r| ==> r[k] in hs && r[k].ticket == ticket
    ensures forall k :: 0 <= k < |hs| && hs[k].ticket == ticket ==> hs[k] in r
  {
    if hs == [] then []
    else HistoricoDe(hs[..|hs| - 1], ticket) + (if hs[|hs| - 1].ticket == ticket then [hs[|hs| - 1]] else [])
  }

  /** Appending a row extends the history of its ticket by that row and leaves every other ticket's alone. */
  lemma {:induction false} HistoricoAcrescentar(hs: seq<Entrada>, e: Entrada, ticket: Id)
    ensures HistoricoDe(hs + [e], ticket) == HistoricoDe(hs, ticket) + (if e.ticket == ticket then [e] else [])
  {
    assert (hs + [e])[..|hs + [e]| - 1] == hs;
  }

  /** A ticket no row mentions has an empty history. */
  lemma {:induction false} HistoricoVazio(hs: seq<Entrada>, ticket: Id)
    requires forall k :: 0 <= k < |hs| ==> hs[k].ticket != ticket
    ensures HistoricoDe(hs, ticket) == []
  {
    if hs != [] {
      HistoricoVazio(hs[..|hs| - 1], ticket);
    }
  }

  // ---------------------------------------------------------------- creation

  /** The body of POST /tickets, with the schema's defaults not yet applied. */
  datatype NovoTicket = NovoTicket(cliente: Option<Id>, assunto: string, descricao: string,
                                   prioridade: Option<string>, categoria: Option<string>, canal: Option<Canal>)

  predicate ValidPrioridade(p: string) { p == "BAIXA" || p == "MEDIA" || p == "ALTA" || p == "URGENTE" }

  predicate ValidNovoTicket(d: NovoTicket)
  {
    1 <= |d.assunto| <= 200 && 1 <= |d.descricao| && (d.prioridade.Some? ==> ValidPrioridade(d.prioridade.value))
    && (d.categoria.Some? ==> |d.categoria.value| <= 50)
  }

  /** The numbers the company's tickets already have. */
  function NumerosDa(ts: seq<Ticket>, empresa: Id): (r: seq<string>)
    ensures forall k :: 0 <= k < |ts| && ts[k].empresa == empresa ==> ts[k].numero in r
  {
    if ts == [] then []
    else NumerosDa(ts[..|ts| - 1], empresa) + (if ts[|ts| - 1].empresa == empresa then [ts[|ts| - 1].numero] else [])
  }

  /** The stored row: ABERTO, priority MEDIA and channel PORTAL unless given, nobody assigned, no reply yet. */
  function TicketDe(id: Id, empresa: Id, numero: string, autor: Id, d: NovoTicket): (t: Ticket)
    requires ValidNovoTicket(d)
    ensures t.id == id && t.empresa == empresa && t.numero == numero && t.status == Aberto
    ensures ValidPrioridade(t.prioridade) && t.prioridade == d.prioridade.GetOr("MEDIA")
    ensures t.canal == d.canal.GetOr(Portal) && t.atribuido.None? && t.ultimaResposta.None?
  {
    Ticket(id, empresa, numero, OrNull(d.cliente), d.assunto, d.descricao, d.prioridade.GetOr("MEDIA"),
           OrNull(d.categoria), d.canal.GetOr(Portal), Aberto, None, None, autor)
  }

  // ---------------------------------------------------------------- updates

  /**
   * `UPDATE tickets SET atribuido_a = ?, status = 'EM_ATENDIMENTO' WHERE id = ? AND empresa_id = ?`
   * with the body's unvalidated `atribuido_a`: a `null` leaves the ticket unassigned.
   */
  function Atribuidos(ts: seq<Ticket>, id: Id, empresa: Id, a: Option<Id>): (r: seq<Ticket>)
    ensures |r| == |ts|
    ensures forall k :: 0 <= k < |ts| ==>
      r[k] == if ts[k].id == id && ts[k].empresa == empresa then ts[k].(atribuido := a, status := EmAtendimento)
              else ts[k]
  {
    seq(|ts|, k requires 0 <= k < |ts| =>
      if ts[k].id == id && ts[k].empresa == empresa then ts[k].(atribuido := a, status := EmAtendimento)
      else ts[k])
  }

  /** `UPDATE tickets SET status = ? WHERE id = ? AND empresa_id = ?`. */
  function ComStatus(ts: seq<Ticket>, id: Id, empresa: Id, s: Status): (r: seq<Ticket>)
    ensures |r| == |ts|
    ensures forall k :: 0 <= k < |ts| ==>
      r[k] == if ts[k].id == id && ts[k].empresa == empresa then ts[k].(status := s) else ts[k]
  {
    seq(|ts|, k requires 0 <= k < |ts| => if ts[k].id == id && ts[k].empresa == empresa then ts[k].(status := s) else ts[k])
  }

  /** `UPDATE tickets SET prioridade = ? WHERE id = ? AND empresa_id = ?`. */
  function ComPrioridade(ts: seq<Ticket>, id: Id, empresa: Id, p: string): (r: seq<Ticket>)
    ensures |r| == |ts|
    ensures forall k :: 0 <= k < |ts| ==>
      r[k] == if ts[k].id == id && ts[k].empresa == empresa then ts[k].(prioridade := p) else ts[k]
  {
    seq(|ts|, k requires 0 <= k < |ts| =>
      if ts[k].id == id && ts[k].empresa == empresa then ts[k].(prioridade := p) else ts[k])
  }

  /** `UPDATE tickets SET ultima_resposta = CURRENT_TIMESTAMP WHERE id = ?`: the company is not checked. */
  function Respondidos(ts: seq<Ticket>, id: Id, agora: string): (r: seq<Ticket>)
    ensures |r| == |ts|
    ensures forall k :: 0 <= k < |ts| ==> r[k] == if ts[k].id == id then ts[k].(ultimaResposta := Some(agora)) else ts[k]
  {
    seq(|ts|, k requires 0 <= k < |ts| => if ts[k].id == id then ts[k].(ultimaResposta := Some(agora)) else ts[k])
  }

  /** `SELECT status FROM tickets WHERE id = ? AND empresa_id = ?`. */
  function StatusAtual(ts: seq<Ticket>, id: Id, empresa: Id): (r: Option<Status>)
    ensures r.Some? ==> exists k :: 0 <= k < |ts| && ts[k].id == id && ts[k].empresa == empresa && ts[k].status == r.value
    ensures r.None? ==> forall k :: 0 <= k < |ts| ==> !(ts[k].id == id && ts[k].empresa == empresa)
  {
    if ts == [] then None
    else match StatusAtual(ts[..|ts| - 1], id, empresa)
      case Some(s) => Some(s)
      case None => if ts[|ts| - 1].id == id && ts[|ts| - 1].empresa == empresa then Some(ts[|ts| - 1].status) else None
  }

  /** After the status update the ticket has the requested status, whatever it had before. */
  lemma {:induction false} ComStatusEfeito(ts: seq<Ticket>, id: Id, empresa: Id, s: Status)
    ensures StatusAtual(ts, id, empresa).Some? <==> StatusAtual(ComStatus(ts, id, empresa, s), id, empresa).Some?
    ensures StatusAtual(ts, id, empresa).Some? ==> StatusAtual(ComStatus(ts, id, empresa, s), id, empresa) == Some(s)
  {
    var r := ComStatus(ts, id, empresa, s);
    if StatusAtual(r, id, empresa).Some? {
      var k :| 0 <= k < |r| && r[k].id == id && r[k].empresa == empresa && r[k].status == StatusAtual(r, id, empresa).value;
      assert ts[k].id == id && ts[k].empresa == empresa;
    }
  }

  // ---------------------------------------------------------------- invariant

  predicate IdsUnicos(ts: seq<Ticket>)
  {
    forall i, j :: 0 <= i < |ts| && 0 <= j < |ts| && ts[i].id == ts[j].id ==> i == j
  }

  /** No two tickets of a company share a number. */
  predicate NumerosUnicos(ts: seq<Ticket>)
  {
    forall i, j :: 0 <= i < |ts| && 0 <= j < |ts| && ts[i].empresa == ts[j].empresa && ts[i].numero == ts[j].numero
      ==> i == j
  }

  predicate Numerados(ts: seq<Ticket>) { IdsUnicos(ts) && NumerosUnicos(ts) }

  /** Same ids, companies and numbers, row by row: what every update handler leaves alone. */
  predicate MesmasChaves(ts: seq<Ticket>, us: seq<Ticket>)
  {
    && |ts| == |us|
    && forall k :: 0 <= k < |ts| ==>
         us[k].id == ts[k].id && us[k].empresa == ts[k].empresa && us[k].numero == ts[k].numero
  }

  lemma {:induction false} NumeradosMesmasChaves(ts: seq<Ticket>, us: seq<Ticket>)
    requires Numerados(ts) && MesmasChaves(ts, us)
    ensures Numerados(us)
  {
  }

  /** The allocated number is not the number of any ticket of the company. */
  lemma {:induction false} NumeroLivre(ts: seq<Ticket>, empresa: Id)
    ensures forall k :: 0 <= k < |ts| && ts[k].empresa == empresa ==> ts[k].numero != NextNumero(NumerosDa(ts, empresa))
  {
    var ns := NumerosDa(ts, empresa);
    NextNumeroFresh(ns);
    forall k | 0 <= k < |ts| && ts[k].empresa == empresa
      ensures ts[k].numero != NextNumero(ns)
    {
      assert ts[k].numero in ns;
    }
  }

  /** The new ticket's number is one no ticket of the company has, so numbering stays unique. */
  lemma {:induction false} NumeradosAcrescentar(ts: seq<Ticket>, t: Ticket)
    requires Numerados(ts)
    requires forall k :: 0 <= k < |ts| ==> ts[k].id != t.id
    requires forall k :: 0 <= k < |ts| && ts[k].empresa == t.empresa ==> ts[k].numero != t.numero
    ensures Numerados(ts + [t])
  {
  }

  // ---------------------------------------------------------------- knowledge base

  datatype Artigo = Artigo(id: Id, empresa: Id, categoria: Id, titulo: string, visualizacoes: nat, positivos: nat,
                           negativos: nat, ativo: bool)

  function Localizar(arts: seq<Artigo>, id: Id, empresa: Id): (r: Option<nat>)
    ensures r.Some? ==> r.value < |arts| && arts[r.value].id == id && arts[r.value].empresa == empresa
    ensures r.None? ==> forall k :: 0 <= k < |arts| ==> !(arts[k].id == id && arts[k].empresa == empresa)
  {
    if arts == [] then None
    else match Localizar(arts[..|arts| - 1], id, empresa)
      case Some(i) => Some(i)
      case None => if arts[|arts| - 1].id == id && arts[|arts| - 1].empresa == empresa then Some(|arts| - 1) else None
  }

  /** `UPDATE artigos_ajuda SET visualizacoes = visualizacoes + 1 WHERE id = ?`. */
  function Visualizados(arts: seq<Artigo>, id: Id): (r: seq<Artigo>)
    ensures |r| == |arts|
    ensures forall k :: 0 <= k < |arts| ==>
      r[k] == if arts[k].id == id then arts[k].(visualizacoes := arts[k].visualizacoes + 1) else arts[k]
  {
    seq(|arts|, k requires 0 <= k < |arts| =>
      if arts[k].id == id then arts[k].(visualizacoes := arts[k].visualizacoes + 1) else arts[k])
  }

  /** Feedback: `util` truthy counts as positive, anything else as negative. */
  function ComFeedback(arts: seq<Artigo>, id: Id, util: bool): (r: seq<Artigo>)
    ensures |r| == |arts|
    ensures forall k :: 0 <= k < |arts| ==>
      r[k] == if arts[k].id != id then arts[k]
              else if util then arts[k].(positivos := arts[k].positivos + 1)
              else arts[k].(negativos := arts[k].negativos + 1)
  {
    seq(|arts|, k requires 0 <= k < |arts| =>
      if arts[k].id != id then arts[k]
      else if util then arts[k].(positivos := arts[k].positivos + 1)
      else arts[k].(negativos := arts[k].negativos + 1))
  }

  /** Each feedback raises exactly one of the two counters of the article by one, and nothing else. */
  lemma {:induction false} FeedbackExatamenteUm(arts: seq<Artigo>, id: Id, util: bool, k: nat)
    requires k < |arts| && arts[k].id == id
    ensures var r := ComFeedback(arts, id, util)[k];
      r.positivos + r.negativos == arts[k].positivos + arts[k].negativos + 1
      && (util <==> r.positivos == arts[k].positivos + 1)
      && (!util <==> r.negativos == arts[k].negativos + 1)
      && r.visualizacoes == arts[k].visualizacoes
  {
  }

  // ---------------------------------------------------------------- handlers

  datatype Mensagem = Mensagem(id: Id, ticket: Id, usuario: Id, texto: string, interno: bool)

  class Suporte {
    var tickets: seq<Ticket>
    var historico: seq<Entrada>
    var mensagens: seq<Mensagem>
    var artigos: seq<Artigo>

    ghost predicate Valid()
      reads this`tickets
    {
      Numerados(tickets)
    }

    constructor (artigos: seq<Artigo>)
      ensures Valid() && tickets == [] && historico == [] && mensagens == [] && this.artigos == artigos
    {
      tickets, historico, mensagens, this.artigos := [], [], [], artigos;
    }

    /** POST /tickets: numbered, stored ABERTO, with its CRIACAO row as its whole history. */
    method Criar(id: Id, hid: Id, empresa: Id, usuario: Id, d: NovoTicket) returns (o: Outcome, numero: string)
      requires Valid()
      requires forall k :: 0 <= k < |tickets| ==> tickets[k].id != id
      requires forall k :: 0 <= k < |historico| ==> historico[k].ticket != id
      modifies this`tickets, this`historico
      ensures Valid()
      ensures o == if ValidNovoTicket(d) then Ok else BadRequest
      ensures o == Ok ==> numero == NextNumero(NumerosDa(old(tickets), empresa))
      ensures tickets == if o == Ok then old(tickets) + [TicketDe(id, empresa, numero, usuario, d)] else old(tickets)
      ensures historico == if o == Ok then old(historico) + [Entrada(hid, id, usuario, Criacao)] else old(historico)
      ensures o == Ok ==> HistoricoDe(historico, id) == [Entrada(hid, id, usuario, Criacao)]
    {
      if !ValidNovoTicket(d) {
        return BadRequest, "";
      }
      numero := NextNumero(NumerosDa(tickets, empresa));
      var t := TicketDe(id, empresa, numero, usuario, d);
      NumeroLivre(tickets, empresa);
      NumeradosAcrescentar(tickets, t);
      var e := Entrada(hid, id, usuario, Criacao);
      HistoricoVazio(historico, id);
      HistoricoAcrescentar(historico, e, id);
      tickets := tickets + [t];
      historico := historico + [e];
      o := Ok;
    }

    /** POST /tickets/:id/mensagens: stores the message and stamps the reply time of the ticket. */
    method Responder(id: Id, mid: Id, usuario: Id, texto: string, interno: Option<bool>, agora: string)
      returns (o: Outcome)
      requires Valid()
      modifies this`tickets, this`mensagens
      ensures Valid()
      ensures o == if 1 <= |texto| then Ok else BadRequest
      ensures mensagens == if o == Ok then old(mensagens) + [Mensagem(mid, id, usuario, texto, interno.GetOr(false))]
                           else old(mensagens)
      ensures tickets == if o == Ok then Respondidos(old(tickets), id, agora) else old(tickets)
    {
      if |texto| < 1 {
        return BadRequest;
      }
      mensagens := mensagens + [Mensagem(mid, id, usuario, texto, interno.GetOr(false))];
      NumeradosMesmasChaves(tickets, Respondidos(tickets, id, agora));
      tickets := Respondidos(tickets, id, agora);
      o := Ok;
    }

    /** PUT /tickets/:id/atribuir: assigns and moves to EM_ATENDIMENTO; one ATRIBUICAO row. */
    method Atribuir(id: Id, hid: Id, empresa: Id, usuario: Id, a: Option<Id>)
      requires Valid()
      modifies this`tickets, this`historico
      ensures Valid()
      ensures tickets == Atribuidos(old(tickets), id, empresa, a)
      ensures historico == old(historico) + [Entrada(hid, id, usuario, Atribuicao)]
      ensures HistoricoDe(historico, id) == HistoricoDe(old(historico), id) + [Entrada(hid, id, usuario, Atribuicao)]
    {
      NumeradosMesmasChaves(tickets, Atribuidos(tickets, id, empresa, a));
      HistoricoAcrescentar(historico, Entrada(hid, id, usuario, Atribuicao), id);
      tickets := Atribuidos(tickets, id, empresa, a);
      historico := historico + [Entrada(hid, id, usuario, Atribuicao)];
    }

    /** PUT /tickets/:id/status: an unknown status is a 400; otherwise one STATUS row naming old and new. */
    method MudarStatus(id: Id, hid: Id, empresa: Id, usuario: Id, status: string) returns (o: Outcome)
      requires Valid()
      modifies this`tickets, this`historico
      ensures Valid()
      ensures o == if StatusDe(status).Some? then Ok else BadRequest
      ensures tickets == if o == Ok then ComStatus(old(tickets), id, empresa, StatusDe(status).value) else old(tickets)
      ensures historico == if o == Ok
        then old(historico) + [Entrada(hid, id, usuario,
                                       MudancaStatus(StatusAtual(old(tickets), id, empresa), StatusDe(status).value))]
        else old(historico)
    {
      var s := StatusDe(status);
      if s.None? {
        return BadRequest;
      }
      var anterior := StatusAtual(tickets, id, empresa);
      NumeradosMesmasChaves(tickets, ComStatus(tickets, id, empresa, s.value));
      tickets := ComStatus(tickets, id, empresa, s.value);
      historico := historico + [Entrada(hid, id, usuario, MudancaStatus(anterior, s.value))];
      o := Ok;
    }

    /** PUT /tickets/:id/prioridade: the value is not validated; one PRIORIDADE row. */
    method MudarPrioridade(id: Id, hid: Id, empresa: Id, usuario: Id, p: string)
      requires Valid()
      modifies this`tickets, this`historico
      ensures Valid()
      ensures tickets == ComPrioridade(old(tickets), id, empresa, p)
      ensures historico == old(historico) + [Entrada(hid, id, usuario, MudancaPrioridade(p))]
    {
      NumeradosMesmasChaves(tickets, ComPrioridade(tickets, id, empresa, p));
      tickets := ComPrioridade(tickets, id, empresa, p);
      historico := historico + [Entrada(hid, id, usuario, MudancaPrioridade(p))];
    }

    /** GET /artigos/:id: answers with the row as read, then counts the view. */
    method Ver(id: Id, empresa: Id) returns (o: Outcome, a: Option<Artigo>)
      modifies this`artigos
      ensures var i := Localizar(old(artigos), id, empresa);
        (o == if i.Some? then Ok else NotFound)
        && (a == if i.Some? then Some(old(artigos)[i.value]) else None)
        && artigos == if i.Some? then Visualizados(old(artigos), id) else old(artigos)
    {
      var i := Localizar(artigos, id, empresa);
      if i.None? {
        return NotFound, None;
      }
      a := Some(artigos[i.value]);
      artigos := Visualizados(artigos, id);
      o := Ok;
    }

    /** POST /artigos/:id/feedback: no lookup, no company check. */
    method Feedback(id: Id, util: bool)
      modifies this`artigos
      ensures artigos == ComFeedback(old(artigos), id, util)
    {
      artigos := ComFeedback(artigos, id, util);
    }
  }
}
