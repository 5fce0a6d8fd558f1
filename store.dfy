/**
 * The lead rows as objects that the handlers update step by step, in the
 * order of the source: each helper that runs one `UPDATE` is a method, and the
 * chat handler and the status webhook are proved to leave the rows as the
 * pure flow in `LeadFlow` says.
 */
module Store {
  import opened Optional
  import opened Text
  import opened Audits
  import opened LeadFlow
  import Auth

  /** One row of `leads_chatbot`. */
  class Lead {
    const id: int
    var status: Status
    var url: string
    var score: Option<real>
    var name: Option<string>
    var email: Option<string>
    var whatsapp: Option<string>
    var position: Option<string>
    var bait: Option<string>
    var history: seq<Entry>
    var emailSent: Option<bool>

    /** The row's columns other than the id. */
    function Record(): (record: LeadRecord)
      reads this
    {
      LeadRecord(status, url, score, name, email, whatsapp, position, bait, history, emailSent)
    }

    /** `INSERT ... (url_analisada, status, historico_chat)` for a new lead: the
        normalised URL, 'Coletando URL', and the raw message as the only entry. */
    constructor (id: int, url: string, message: string)
      ensures this.id == id && Record() == NewLead(url, message)
    {
      this.id := id;
      status := CollectingUrl;
      this.url := url;
      score := None;
      name := None;
      email := None;
      whatsapp := None;
      position := None;
      bait := None;
      history := [Entry(User, message)];
      emailSent := None;
    }

    /** `update_lead_status` */
    method SetStatus(s: Status)
      modifies this
      ensures Record() == old(Record()).(status := s)
    {
      status := s;
    }

    /** `append_to_chat_history`; a null history is the empty one. */
    method AppendHistory(speaker: Speaker, text: string)
      modifies this
      ensures Record() == WithEntry(old(Record()), speaker, text)
    {
      history := history + [Entry(speaker, text)];
    }

    /** `UPDATE leads_chatbot SET <field> = %s` */
    method SetContact(f: Field, value: string)
      modifies this
      ensures Record() == WithContact(old(Record()), f, value)
    {
      match f
      case Name => name := Some(value);
      case Email => email := Some(value);
      case WhatsApp => whatsapp := Some(value);
      case Position => position := Some(value);
    }

    /** `UPDATE ... SET score_seo = %s, status = 'Coletando Dados'` */
    method SetScore(s: real)
      modifies this
      ensures Record() == old(Record()).(score := Some(s), status := CollectingData)
    {
      score := Some(s);
      status := CollectingData;
    }

    /** `UPDATE ... SET isca = %s, status = 'Isca Entregue'` */
    method StoreBait(report: string)
      modifies this
      ensures Record() == old(Record()).(bait := Some(report), status := BaitDelivered)
    {
      bait := Some(report);
      status := BaitDelivered;
    }

    /** `UPDATE ... SET status = %s, email_enviado = %s` of the status webhook. */
    method AdminUpdate(s: Status, sent: bool)
      modifies this
      ensures Record() == old(Record()).(status := s, emailSent := Some(sent))
    {
      status := s;
      emailSent := Some(sent);
    }

    /** A turn on this lead, after it was found: the user's message is logged,
        the row is read into a local copy, and the state decides the rest. */
    method ChatTurn(message: string, svc: Services) returns (response: Response, sales: Option<LeadRecord>)
      modifies this
      ensures var t := Turn(id, old(Record()), message, svc);
        Record() == t.lead && response == t.response && sales == t.sales
    {
      AppendHistory(User, message);
      var lead := Record();
      if lead.status == CollectingData {
        response, sales := CollectData(lead, message, svc);
      } else if lead.status == BaitDelivered || lead.status == CollectingBudget {
        response, sales := NegotiateBudget(lead, message, svc);
      } else {
        response, sales := Reply(RestartText, Some(id)), None;
      }
    }

    /** The data-collection branch; `lead` is the local copy of the row. */
    method CollectData(lead: LeadRecord, message: string, svc: Services) returns (response: Response, sales: Option<LeadRecord>)
      requires Record() == lead && lead.status == CollectingData
      modifies this
      ensures var t := DataTurn(id, lead, message, svc);
        Record() == t.lead && response == t.response && sales == t.sales
    {
      var local := lead;
      var missing := FirstMissing(local);
      if missing.Some? {
        SetContact(missing.value, message);
        local := WithContact(local, missing.value, message);
      }
      assert local == FillFirstMissing(lead, message);
      var result := GenerateAiResponse(local, message, [], svc.generate);
      if result.AiError? {
        return Failure(result.error), None;
      }
      if result.NextStepBait? {
        SetStatus(GeneratingBait);
        local := local.(status := GeneratingBait);
        response, sales := WriteReport(local, svc);
      } else {
        AppendHistory(Bot, result.text);
        response, sales := Reply(result.text, Some(id)), None;
      }
    }

    /** The report branch, with the status already set to 'Gerando Isca'. */
    method WriteReport(lead: LeadRecord, svc: Services) returns (response: Response, sales: Option<LeadRecord>)
      requires Record() == lead && lead.status == GeneratingBait
      modifies this
      ensures var t := BaitStep(id, lead, svc);
        Record() == t.lead && response == t.response && sales == t.sales
    {
      var audit := svc.pageSpeed(lead.url);
      if audit.AuditErr? {
        return Failure(ReauditFailedText), None;
      }
      var failing := ExtractFailingAudits(audit.report.audits);
      var result := GenerateAiResponse(lead, "N/A", failing, svc.generate);
      if result.AiError? {
        return Failure(result.error), None;
      }
      if result.NextStepBait? {
        return Failure(FatalText), None;
      }
      var text := result.text;
      sales := None;
      if Contains(text, BaitMarker) {
        var parts := Split(text, BaitMarker);
        var report := Strip(parts[0]);
        var chat := if |parts| > 1 then Strip(parts[1]) else DefaultChatText;
        StoreBait(report);
        AppendHistory(Bot, report + "\n\n" + chat);
        response := Reply(report + "\n\n" + chat, Some(id));
      } else {
        AppendHistory(Bot, text);
        response := Reply(text, Some(id));
      }
    }

    /** The budget branch; the status is committed before generation. */
    method NegotiateBudget(lead: LeadRecord, message: string, svc: Services)
      returns (response: Response, sales: Option<LeadRecord>)
      requires Record() == lead && (lead.status == BaitDelivered || lead.status == CollectingBudget)
      modifies this
      ensures var t := BudgetTurn(id, lead, message, svc);
        Record() == t.lead && response == t.response && sales == t.sales
    {
      SetStatus(CollectingBudget);
      var result := GenerateAiResponse(lead, message, [], svc.generate);
      if result.AiError? {
        return Failure(result.error), None;
      }
      if result.NextStepBait? {
        return Failure(FatalText), None;
      }
      var text := result.text;
      if Contains(text, BudgetMarker) {
        var final := Strip(RemoveAll(text, BudgetMarker));
        SetStatus(BudgetCollected);
        AppendHistory(Bot, final);
        // the row is read again for the sales webhook; posting it cannot fail the turn
        sales := if svc.salesWebhook then Some(Record()) else None;
        return Reply(final, Some(id)), sales;
      }
      AppendHistory(Bot, text);
      return Reply(text, Some(id)), None;
    }
  }

  /** The first message of a conversation: a lead is inserted only for a
      URL-like message, then audited once. */
  method StartConversation(id: int, message: string, svc: Services) returns (lead: Lead?, response: Response)
    ensures var first := FirstMessage(id, message, svc);
      response == first.response
      && (lead == null <==> first.created.None?)
      && (lead != null ==> fresh(lead) && lead.id == id && lead.Record() == first.created.value)
  {
    if !IsUrlLike(message) {
      return null, Reply(AskForUrlText, None);
    }
    var url := message;
    if !StartsWith(url, "http://") && !StartsWith(url, "https://") {
      url := "https://" + url;
    }
    assert url == NormalizeUrl(message);
    lead := new Lead(id, url, message);
    var audit := svc.pageSpeed(url);
    if audit.AuditErr? {
      var text := ErrorMessage(audit.error);
      lead.SetStatus(PageSpeedError);
      lead.AppendHistory(Bot, text);
      return lead, Reply(text, Some(id));
    }
    if audit.report.seoScore.Null? {
      return lead, Failure(FatalText);
    }
    var score := if audit.report.seoScore.Absent? then 0.0 else audit.report.seoScore.value * 100.0;
    lead.SetScore(score);
    var greeting := ScoreGreeting(score);
    lead.AppendHistory(Bot, greeting);
    response := Reply(greeting, Some(id));
  }

  /** The rows of a table of lead objects. */
  function Rows(table: map<int, Lead>): (rows: map<int, LeadRecord>)
    reads table.Values
  {
    map k | k in table :: table[k].Record()
  }

  /** Every lead object sits under its own id, so no two ids share one. */
  predicate Keyed(table: map<int, Lead>)
    reads table.Values
  {
    forall k :: k in table ==> table[k].id == k
  }

  /** `/api/chat`: a call without a lead id starts a conversation under
      `nextId`; otherwise the named lead takes a turn, if it exists. */
  method ChatHandler(table: map<int, Lead>, nextId: int, leadId: Option<int>, message: string, svc: Services)
    returns (created: Lead?, response: Response, sales: Option<LeadRecord>)
    requires Keyed(table) && nextId !in table
    modifies if !NoLeadId(leadId) && leadId.value in table then {table[leadId.value]} else {}
    ensures var h := Handle(old(Rows(table)), nextId, leadId, message, svc);
      response == h.response && sales == h.sales
      && (created != null ==>
            fresh(created) && created.id == nextId
            && h.rows == Rows(table)[nextId := created.Record()] && h.nextId == nextId + 1)
      && (created == null ==> h.rows == Rows(table) && h.nextId == nextId)
  {
    if NoLeadId(leadId) {
      created, response := StartConversation(nextId, message, svc);
      sales := None;
      return;
    }
    created := null;
    var id := leadId.value;
    if id !in table {
      return null, Failure(NotFoundText), None;
    }
    var lead := table[id];
    response, sales := lead.ChatTurn(message, svc);
    forall k | k in table
      ensures Rows(table)[k] == old(Rows(table))[id := lead.Record()][k]
    {
      if k != id {
        assert table[k].id != lead.id;
      }
    }
    assert Rows(table) == old(Rows(table))[id := lead.Record()];
  }

  /** What the status webhook answers. */
  datatype WebhookResult = Unauthorized | BadRequest | Updated(leadId: int, newStatus: string)

  /** `/api/update-status-n8n` with the corrected token check: any status text
      may be written, with the e-mail flag (false when the request has none). */
  method StatusWebhook(table: map<int, Lead>, header: Option<string>, secret: string,
                       leadId: Option<int>, newStatus: Option<string>, sent: bool)
    returns (result: WebhookResult)
    modifies if !NoLeadId(leadId) && leadId.value in table then {table[leadId.value]} else {}
    ensures !Auth.IsAuthorized(header, secret) ==> result == Unauthorized
    ensures Auth.IsAuthorized(header, secret) && (NoLeadId(leadId) || newStatus.None? || newStatus.value == "")
            ==> result == BadRequest
    ensures result.Updated? <==>
            Auth.IsAuthorized(header, secret) && !NoLeadId(leadId) && newStatus.Some? && newStatus.value != ""
    ensures result.Updated? ==> result == Updated(leadId.value, newStatus.value)
    ensures !result.Updated? && !NoLeadId(leadId) && leadId.value in table ==>
            table[leadId.value].Record() == old(table[leadId.value].Record())
    ensures result.Updated? && leadId.value in table ==>
            table[leadId.value].Record()
            == old(table[leadId.value].Record()).(status := ParseStatus(newStatus.value), emailSent := Some(sent))
            && StatusName(table[leadId.value].status) == newStatus.value
  {
    if !Auth.IsAuthorized(header, secret) {
      return Unauthorized;
    }
    if NoLeadId(leadId) || newStatus.None? || newStatus.value == "" {
      return BadRequest;
    }
    var id := leadId.value;
    if id in table {
      table[id].AdminUpdate(ParseStatus(newStatus.value), sent);
    }
    result := Updated(id, newStatus.value);
  }
}
