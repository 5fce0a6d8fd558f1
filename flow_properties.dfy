/**
 * What the chat flow promises: per turn (history, contact fields, status,
 * report and budget delivery, the sales post), over the whole table of leads,
 * and over whole conversations.
 */
module FlowProperties {
  import opened Optional
  import opened Text
  import opened Audits
  import opened LeadFlow

  // ---------------------------------------------------------------------
  // One turn
  // ---------------------------------------------------------------------

  /** The history only grows: the user's message is always logged, and at most
      one bot entry follows it, which is the reply; a failed turn and a turn in
      a state the flow does not handle log no bot entry. */
  lemma TurnHistory(id: int, lead: LeadRecord, message: string, svc: Services)
    ensures var t := Turn(id, lead, message, svc);
      var logged := lead.history + [Entry(User, message)];
      (t.response.Failure? || !Handled(lead.status) ==> t.lead.history == logged)
      && (t.response.Reply? && Handled(lead.status) ==>
            t.lead.history == logged + [Entry(Bot, t.response.message)])
      && (t.response.Reply? ==> t.response.leadId == Some(id))
  {
  }

  /** In a state the flow does not handle (among them `GeneratingBait`, left
      behind by a failed report), a turn only logs the message. */
  lemma UnhandledTurnOnlyLogs(id: int, lead: LeadRecord, message: string, svc: Services)
    requires !Handled(lead.status)
    ensures Turn(id, lead, message, svc) == TurnResult(WithEntry(lead, User, message), Reply(RestartText, Some(id)), None)
  {
  }

  /** Only the first missing field changes, only during data collection, and
      it receives the message. */
  lemma TurnContacts(id: int, lead: LeadRecord, message: string, svc: Services, f: Field)
    ensures var t := Turn(id, lead, message, svc);
      if lead.status == CollectingData && FirstMissing(lead) == Some(f) then Contact(t.lead, f) == Some(message)
      else Contact(t.lead, f) == Contact(lead, f)
  {
    TurnKeeps(id, lead, message, svc);
  }

  /** A collected field is never overwritten. */
  lemma PresentFieldKept(id: int, lead: LeadRecord, message: string, svc: Services, f: Field)
    requires Present(lead, f)
    ensures Contact(Turn(id, lead, message, svc).lead, f) == Contact(lead, f)
  {
    TurnContacts(id, lead, message, svc, f);
  }

  /** The URL, the score and the e-mail flag are written outside turns. */
  lemma TurnKeepsAuditData(id: int, lead: LeadRecord, message: string, svc: Services)
    ensures var t := Turn(id, lead, message, svc);
      t.lead.url == lead.url && t.lead.score == lead.score && t.lead.emailSent == lead.emailSent
  {
    TurnKeeps(id, lead, message, svc);
  }

  /** The four contact columns agree. */
  predicate SameContacts(a: LeadRecord, b: LeadRecord) {
    a.name == b.name && a.email == b.email && a.whatsapp == b.whatsapp && a.position == b.position
  }

  /** The contacts, the URL, the score and the e-mail flag agree. */
  predicate Kept(a: LeadRecord, b: LeadRecord) {
    SameContacts(a, b) && a.url == b.url && a.score == b.score && a.emailSent == b.emailSent
  }

  /** Rows with the same contacts are missing the same fields, and filling
      in the same message keeps them alike. */
  lemma SameContactsSameGaps(a: LeadRecord, b: LeadRecord, message: string)
    requires SameContacts(a, b)
    ensures AllPresent(a) <==> AllPresent(b)
    ensures FirstMissing(a) == FirstMissing(b)
    ensures SameContacts(FillFirstMissing(a, message), FillFirstMissing(b, message))
  {
    assert forall f :: Contact(a, f) == Contact(b, f) && (Present(a, f) <==> Present(b, f));
  }

  /** Filling the first missing field changes only that field. */
  lemma FillKeeps(lead: LeadRecord, message: string)
    ensures SameBesidesContacts(FillFirstMissing(lead, message), lead)
    ensures forall f :: Contact(FillFirstMissing(lead, message), f)
                        == if FirstMissing(lead) == Some(f) then Some(message) else Contact(lead, f)
  {
  }

  /** The report step changes none of the kept columns. */
  lemma BaitStepKeeps(id: int, lead: LeadRecord, svc: Services)
    requires lead.status == GeneratingBait
    ensures Kept(BaitStep(id, lead, svc).lead, lead)
  {
    match svc.pageSpeed(lead.url)
    case AuditErr(_) =>
    case AuditOk(report) =>
      var r := GenerateAiResponse(lead, "N/A", FailingAudits(report.audits), svc.generate);
      if r.ResponseText? {
        assert BaitStep(id, lead, svc) == DeliverBait(id, lead, r.text);
      }
  }

  /** A data-collection turn changes, of the kept columns, only the field it
      fills. */
  lemma DataTurnKeeps(id: int, lead: LeadRecord, message: string, svc: Services)
    requires lead.status == CollectingData
    ensures Kept(DataTurn(id, lead, message, svc).lead, FillFirstMissing(lead, message))
  {
    var filled := FillFirstMissing(lead, message);
    FillKeeps(lead, message);
    if AllPresent(filled) {
      BaitStepKeeps(id, filled.(status := GeneratingBait), svc);
    }
  }

  /** A turn changes, of the kept columns, only the field data collection fills. */
  lemma TurnKeeps(id: int, lead: LeadRecord, message: string, svc: Services)
    ensures Kept(Turn(id, lead, message, svc).lead,
                 if lead.status == CollectingData then FillFirstMissing(lead, message) else lead)
  {
    var logged := WithEntry(lead, User, message);
    if lead.status == CollectingData {
      DataTurnKeeps(id, logged, message, svc);
      FillKeeps(logged, message);
      FillKeeps(lead, message);
      SameContactsSameGaps(logged, lead, message);
    }
  }

  /** The status moves a turn can make. */
  predicate AllowedStep(from: Status, to: Status) {
    if from == CollectingData then to == CollectingData || to == GeneratingBait || to == BaitDelivered
    else if from == BaitDelivered || from == CollectingBudget then to == CollectingBudget || to == BudgetCollected
    else to == from
  }

  lemma TurnStatusStep(id: int, lead: LeadRecord, message: string, svc: Services)
    ensures AllowedStep(lead.status, Turn(id, lead, message, svc).lead.status)
  {
  }

  /** Data collection is left exactly when all four fields are present, and
      only then is a report stored. */
  lemma LeavesDataCollectionWhenComplete(id: int, lead: LeadRecord, message: string, svc: Services)
    requires lead.status == CollectingData
    ensures var t := Turn(id, lead, message, svc);
      (t.lead.status != CollectingData <==> AllPresent(t.lead))
      && (t.lead.bait != lead.bait ==> t.lead.status == BaitDelivered)
  {
    var logged := WithEntry(lead, User, message);
    var filled := FillFirstMissing(logged, message);
    var t := Turn(id, lead, message, svc);
    assert t == DataTurn(id, logged, message, svc);
    DataTurnKeeps(id, logged, message, svc);
    SameContactsSameGaps(t.lead, filled, message);
    TurnStoresReportOnlyOnDelivery(id, lead, message, svc);
  }

  /** On any turn, a report is stored only on the move from 'Coletando Dados'
      to 'Isca Entregue'. */
  lemma TurnStoresReportOnlyOnDelivery(id: int, lead: LeadRecord, message: string, svc: Services)
    ensures var t := Turn(id, lead, message, svc);
      t.lead.bait != lead.bait ==> lead.status == CollectingData && t.lead.status == BaitDelivered
  {
    var logged := WithEntry(lead, User, message);
    if lead.status == CollectingData {
      FillKeeps(logged, message);
      var filled := FillFirstMissing(logged, message);
      if AllPresent(filled) {
        BaitStepStoresOnlyOnDelivery(id, filled.(status := GeneratingBait), svc);
      }
    }
  }

  /** The report step stores a report only when it delivers one. */
  lemma BaitStepStoresOnlyOnDelivery(id: int, lead: LeadRecord, svc: Services)
    requires lead.status == GeneratingBait
    ensures var t := BaitStep(id, lead, svc);
      t.lead.bait != lead.bait ==> t.lead.status == BaitDelivered
  {
    match svc.pageSpeed(lead.url)
    case AuditErr(_) =>
    case AuditOk(report) =>
      var r := GenerateAiResponse(lead, "N/A", FailingAudits(report.audits), svc.generate);
      if r.ResponseText? {
        assert BaitStep(id, lead, svc) == DeliverBait(id, lead, r.text);
      }
  }

  /** Once all fields are present the status is committed to `GeneratingBait`
      before the second audit; if that audit fails, the lead stays there. */
  lemma ReportFailureKeepsGeneratingBait(id: int, lead: LeadRecord, message: string, svc: Services)
    requires lead.status == CollectingData
    requires AllPresent(FillFirstMissing(lead, message))
    requires svc.pageSpeed(lead.url).AuditErr?
    ensures var t := Turn(id, lead, message, svc);
      t.lead.status == GeneratingBait && t.response == Failure(ReauditFailedText) && t.lead.bait == lead.bait
  {
    var logged := WithEntry(lead, User, message);
    SameContactsSameGaps(logged, lead, message);
    SameContactsSameGaps(FillFirstMissing(logged, message), FillFirstMissing(lead, message), message);
  }

  /** The report and chat reply are the stripped texts before the first marker
      and between it and the next; the fallback chat text is never used. */
  lemma BaitPartsAround(text: string)
    requires Contains(text, BaitMarker)
    ensures IndexOf(text, BaitMarker).Some?
    ensures var i := IndexOf(text, BaitMarker).value;
      var rest := text[i + |BaitMarker|..];
      BaitParts(text) == (Strip(text[..i]), Strip(Split(rest, BaitMarker)[0]))
  {
    SplitAtFirst(text, BaitMarker);
  }

  /** The stripped first and second pieces of a split (or a marker-free
      fallback for the second) are marker-free. */
  lemma StrippedPiecesFree(s: string, m: string, fallback: string)
    requires m != "" && !Contains(fallback, m)
    ensures var parts := Split(s, m);
      !Contains(Strip(parts[0]), m) && !Contains(if |parts| > 1 then Strip(parts[1]) else fallback, m)
  {
    var parts := Split(s, m);
    SplitPartsFree(s, m);
    StripKeepsOut(parts[0], m);
    if |parts| > 1 {
      StripKeepsOut(parts[1], m);
    }
  }

  /** Neither the report nor the chat reply cut out of a text, nor the two
      joined as the reply, shows the marker. */
  lemma BaitPartsMarkerFree(text: string)
    ensures var (bait, chat) := BaitParts(text);
      !Contains(bait, BaitMarker) && !Contains(bait + "\n\n" + chat, BaitMarker)
  {
    DefaultChatMarkerFree();
    StrippedPiecesFree(text, BaitMarker, DefaultChatText);
    MarkerHasNoNewline();
    var (bait, chat) := BaitParts(text);
    SeparatedStaysFree(bait, "\n\n", chat, BaitMarker);
  }

  lemma DefaultChatMarkerFree()
    ensures !Contains(DefaultChatText, BaitMarker)
  {
    MissingCharExcludes(DefaultChatText, BaitMarker, 0);
  }

  lemma MarkerHasNoNewline()
    ensures forall k :: 0 <= k < |BaitMarker| ==> BaitMarker[k] !in "\n\n"
  {
  }

  /** With the marker the report is stored and the lead moves on, and neither
      the stored report nor the reply shows the marker; without it the text
      is the reply and nothing else changes. */
  lemma DeliverBaitSpec(id: int, lead: LeadRecord, text: string)
    ensures var t := DeliverBait(id, lead, text);
      if Contains(text, BaitMarker) then
        var (bait, chat) := BaitParts(text);
        t.lead == WithEntry(lead.(bait := Some(bait), status := BaitDelivered), Bot, t.response.message)
        && t.response == Reply(bait + "\n\n" + chat, Some(id))
        && !Contains(bait, BaitMarker) && !Contains(t.response.message, BaitMarker)
      else
        t == TurnResult(WithEntry(lead, Bot, text), Reply(text, Some(id)), None)
  {
    BaitPartsMarkerFree(text);
  }

  /** The report step after a successful second audit hands the failing
      audits to the generator and delivers what it writes. */
  lemma BaitStepDelivers(id: int, lead: LeadRecord, svc: Services)
    requires lead.status == GeneratingBait
    requires svc.pageSpeed(lead.url).AuditOk?
    ensures var failing := FailingAudits(svc.pageSpeed(lead.url).report.audits);
      match svc.generate(WriteBait(lead.name, lead.url, lead.score, lead.position, failing))
      case Generated(text) => BaitStep(id, lead, svc) == DeliverBait(id, lead, text)
      case NotConfigured => BaitStep(id, lead, svc) == TurnResult(lead, Failure(NotConfiguredText), None)
      case GenerationFailed => BaitStep(id, lead, svc) == TurnResult(lead, Failure(GenerationFailedText), None)
  {
  }

  /** Budget negotiation: the status is `CollectingBudget` unless the completion
      marker closes it; the closing reply is the text with the markers `replace`
      finds removed, stripped, and the closed row goes to the sales webhook
      when one is configured. */
  lemma BudgetTurnSpec(id: int, lead: LeadRecord, message: string, svc: Services)
    requires lead.status == BaitDelivered || lead.status == CollectingBudget
    ensures var t := Turn(id, lead, message, svc);
      match svc.generate(Upsell(message))
      case Generated(text) =>
        if Contains(text, BudgetMarker) then
          t.lead.status == BudgetCollected
          && t.response == Reply(Strip(RemoveAll(text, BudgetMarker)), Some(id))
          && t.sales == (if svc.salesWebhook then Some(t.lead) else None)
        else
          t.lead.status == CollectingBudget && t.response == Reply(text, Some(id)) && t.sales.None?
      case _ =>
        t.lead.status == CollectingBudget && t.response.Failure? && t.sales.None?
  {
  }

  /** The sales webhook is posted only when a budget is closed, with the row as
      stored after the turn. */
  lemma SalesPostOnClose(id: int, lead: LeadRecord, message: string, svc: Services)
    ensures var t := Turn(id, lead, message, svc);
      (t.sales.Some? <==> svc.salesWebhook && lead.status != BudgetCollected && t.lead.status == BudgetCollected)
      && (t.sales.Some? ==> t.sales.value == t.lead)
  {
  }

  /** Whether a sales webhook is configured changes neither the row nor the
      answer. */
  lemma SalesWebhookInvisible(id: int, lead: LeadRecord, message: string, svc: Services, configured: bool)
    ensures var t, u := Turn(id, lead, message, svc), Turn(id, lead, message, svc.(salesWebhook := configured));
      t.lead == u.lead && t.response == u.response
  {
  }

  /** `replace` removes the markers it finds but can leave one behind: a reply
      with one marker nested inside another still shows a marker. */
  const NestedBudgetMarker := "[" + BudgetMarker + "ORCAMENTO_FINALIZADO]"

  lemma BudgetReplyCanShowMarker()
    ensures Contains(NestedBudgetMarker, BudgetMarker)
    ensures Strip(RemoveAll(NestedBudgetMarker, BudgetMarker)) == BudgetMarker
  {
    var m := BudgetMarker;
    assert m[..1] == "[" && m[1..] == "ORCAMENTO_FINALIZADO]";
    assert OccursAt(NestedBudgetMarker, m, 1);
    assert NestedBudgetMarker[1] != m[1];
    RemoveAllCanRebuildMarker(m);
    StripUnchanged(m);
  }

  // ---------------------------------------------------------------------
  // The table of leads
  // ---------------------------------------------------------------------

  /** A call without a lead id adds a row, under the next id, exactly when the
      message looks like a URL; every existing row is kept. */
  lemma HandleFirstMessage(rows: map<int, LeadRecord>, nextId: int, leadId: Option<int>, message: string,
                           svc: Services)
    requires NoLeadId(leadId) && nextId !in rows
    ensures var r := Handle(rows, nextId, leadId, message, svc);
      (r.nextId == nextId + 1 <==> IsUrlLike(message))
      && (!IsUrlLike(message) ==> r.rows == rows && r.nextId == nextId && r.response == Reply(AskForUrlText, None))
      && (IsUrlLike(message) ==>
            r.rows.Keys == rows.Keys + {nextId}
            && r.rows[nextId] == FirstMessage(nextId, message, svc).created.value)
      && (forall k :: k in rows ==> k in r.rows && r.rows[k] == rows[k])
      && r.sales.None?
  {
    FirstMessageCreatesOnlyForUrls(nextId, message, svc);
  }

  /** An unknown lead id changes nothing and answers "not found". */
  lemma HandleUnknownLead(rows: map<int, LeadRecord>, nextId: int, leadId: Option<int>, message: string,
                          svc: Services)
    requires !NoLeadId(leadId) && leadId.value !in rows && nextId !in rows
    ensures Handle(rows, nextId, leadId, message, svc) == HandleResult(rows, nextId, Failure(NotFoundText), None)
  {
  }

  /** A call touches at most one row: the one it names, or the one it adds. */
  lemma HandleTouchesOneRow(rows: map<int, LeadRecord>, nextId: int, leadId: Option<int>, message: string,
                            svc: Services)
    requires nextId !in rows
    ensures var r := Handle(rows, nextId, leadId, message, svc);
      var touched := if NoLeadId(leadId) then nextId else leadId.value;
      rows.Keys <= r.rows.Keys <= rows.Keys + {touched}
      && (forall k :: k in rows && k != touched ==> r.rows[k] == rows[k])
  {
  }

  /** Ids handed out below `nextId` stay below it, so the next call's new id
      is again unused, as the database sequence guarantees. */
  lemma HandleKeepsNextIdFresh(rows: map<int, LeadRecord>, nextId: int, leadId: Option<int>, message: string,
                               svc: Services)
    requires forall k :: k in rows ==> k < nextId
    ensures var r := Handle(rows, nextId, leadId, message, svc);
      nextId <= r.nextId && (forall k :: k in r.rows ==> k < r.nextId)
  {
  }

  // ---------------------------------------------------------------------
  // Whole conversations
  // ---------------------------------------------------------------------

  /** The row after a sequence of turns on one lead. Each turn has its own
      services: PageSpeed and the generator are called afresh every turn, so
      the same request may be answered differently later. */
  function Conversation(id: int, lead: LeadRecord, messages: seq<string>, svcs: seq<Services>): (last: LeadRecord)
    requires |svcs| == |messages|
    decreases |messages|
  {
    if messages == [] then lead
    else Conversation(id, Turn(id, lead, messages[0], svcs[0]).lead, messages[1..], svcs[1..])
  }

  /** How far along the flow a status is; the states the flow does not act on
      count as stage 0 except where the flow leaves them. */
  function Stage(s: Status): (stage: nat) {
    match s
    case CollectingData => 1
    case GeneratingBait => 2
    case BaitDelivered => 3
    case CollectingBudget => 4
    case BudgetCollected => 5
    case _ => 0
  }

  lemma AllowedStepAdvances(from: Status, to: Status)
    requires AllowedStep(from, to)
    ensures Stage(from) <= Stage(to)
    ensures !Handled(from) ==> to == from
  {
  }

  /** Over any conversation the status never goes back, a state the flow does
      not act on is never left, collected fields keep their values, the URL
      and score stay, a report stored before the conversation is kept once
      data collection is over, and the history only grows, by at least one
      entry per message. */
  lemma {:induction false} ConversationProgress(id: int, lead: LeadRecord, messages: seq<string>,
                                                svcs: seq<Services>)
    requires |svcs| == |messages|
    ensures var last := Conversation(id, lead, messages, svcs);
      Stage(lead.status) <= Stage(last.status)
      && (!Handled(lead.status) ==> last.status == lead.status)
      && (forall f :: Present(lead, f) ==> Contact(last, f) == Contact(lead, f))
      && last.url == lead.url && last.score == lead.score
      && (lead.status != CollectingData ==> last.bait == lead.bait)
      && lead.history <= last.history && |lead.history| + |messages| <= |last.history|
    decreases |messages|
  {
    if messages != [] {
      var svc := svcs[0];
      var next := Turn(id, lead, messages[0], svc).lead;
      TurnStatusStep(id, lead, messages[0], svc);
      TurnStoresReportOnlyOnDelivery(id, lead, messages[0], svc);
      AllowedStepAdvances(lead.status, next.status);
      TurnKeepsAuditData(id, lead, messages[0], svc);
      TurnHistory(id, lead, messages[0], svc);
      forall f | Present(lead, f)
        ensures Present(next, f) && Contact(next, f) == Contact(lead, f)
      {
        PresentFieldKept(id, lead, messages[0], svc, f);
      }
      ConversationProgress(id, next, messages[1..], svcs[1..]);
    }
  }

  /** The user entries a sequence of messages adds. */
  function UserEntries(messages: seq<string>): (entries: seq<Entry>)
    ensures |entries| == |messages|
    ensures forall k :: 0 <= k < |messages| ==> entries[k] == Entry(User, messages[k])
  {
    seq(|messages|, k requires 0 <= k < |messages| => Entry(User, messages[k]))
  }

  /** In a state the flow does not act on, a conversation only logs the
      user's messages; nothing else ever changes. */
  lemma {:induction false} StuckConversation(id: int, lead: LeadRecord, messages: seq<string>,
                                             svcs: seq<Services>)
    requires !Handled(lead.status) && |svcs| == |messages|
    ensures Conversation(id, lead, messages, svcs) == lead.(history := lead.history + UserEntries(messages))
    decreases |messages|
  {
    if messages == [] {
      assert lead.history + UserEntries(messages) == lead.history;
    } else {
      var next := WithEntry(lead, User, messages[0]);
      UnhandledTurnOnlyLogs(id, lead, messages[0], svcs[0]);
      StuckConversation(id, next, messages[1..], svcs[1..]);
      LogAssociates(lead.history, messages);
    }
  }

  lemma LogAssociates(history: seq<Entry>, messages: seq<string>)
    requires messages != []
    ensures history + [Entry(User, messages[0])] + UserEntries(messages[1..]) == history + UserEntries(messages)
  {
    assert UserEntries(messages) == [Entry(User, messages[0])] + UserEntries(messages[1..]);
  }
}
