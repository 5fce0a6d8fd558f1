/**
 * The lead conversation state machine of `/api/chat`, as pure functions over
 * one lead's row. `FirstMessage` is the turn without a lead id, `Turn` a turn
 * on an existing lead, and `Handle` the whole handler over the table of
 * leads. The PageSpeed client, the text generator and the sales webhook are
 * the `Services` a turn is given.
 */
module LeadFlow {
  import opened Optional
  import opened Text
  import opened Audits
  import ScoreText

  // ---------------------------------------------------------------------
  // The lead row
  // ---------------------------------------------------------------------

  /** A spelling of the `status` column. The administrative webhook may write
      any text, so the states the flow knows are completed by `Other`. */
  datatype StatusValue =
    | CollectingUrl
    | PageSpeedError
    | CollectingData
    | GeneratingBait
    | BaitDelivered
    | CollectingBudget
    | BudgetCollected
    | Other(name: string)

  /** The text stored in the `status` column. */
  function StatusName(s: StatusValue): (text: string) {
    match s
    case CollectingUrl => "Coletando URL"
    case PageSpeedError => "Erro PageSpeed"
    case CollectingData => "Coletando Dados"
    case GeneratingBait => "Gerando Isca"
    case BaitDelivered => "Isca Entregue"
    case CollectingBudget => "Coletando Orçamento"
    case BudgetCollected => "Orçamento Coletado"
    case Other(name) => name
  }

  /** `Other` only stands for texts that no known state uses. */
  predicate WellFormedStatus(s: StatusValue) {
    s.Other? ==> s.name !in {
      "Coletando URL", "Erro PageSpeed", "Coletando Dados", "Gerando Isca",
      "Isca Entregue", "Coletando Orçamento", "Orçamento Coletado" }
  }

  /** The status of a row. The source compares the column's text, so a row
      whose text names a known state is in that state: `Other` never spells a
      known state's text. */
  type Status = s: StatusValue | WellFormedStatus(s) witness CollectingUrl

  /** Two statuses are equal exactly when their texts are. */
  lemma StatusNameInjective(s: Status, t: Status)
    ensures s == t <==> StatusName(s) == StatusName(t)
  {
  }

  /** Reading the `status` column. */
  function ParseStatus(name: string): (s: Status)
    ensures StatusName(s) == name
  {
    if name == "Coletando URL" then CollectingUrl
    else if name == "Erro PageSpeed" then PageSpeedError
    else if name == "Coletando Dados" then CollectingData
    else if name == "Gerando Isca" then GeneratingBait
    else if name == "Isca Entregue" then BaitDelivered
    else if name == "Coletando Orçamento" then CollectingBudget
    else if name == "Orçamento Coletado" then BudgetCollected
    else Other(name)
  }

  /** Writing a status and reading it back gives the same status. */
  lemma StatusRoundTrip(s: Status)
    ensures ParseStatus(StatusName(s)) == s
  {
  }

  /** Who wrote a history entry; stored as "user" or "bot". */
  datatype Speaker = User | Bot

  /** One `{role, text}` entry of `historico_chat`. */
  datatype Entry = Entry(speaker: Speaker, text: string)

  /** The contact columns, in the order they are asked for. */
  datatype Field = Name | Email | WhatsApp | Position

  function Rank(f: Field): (rank: nat) {
    match f
    case Name => 0
    case Email => 1
    case WhatsApp => 2
    case Position => 3
  }

  /** One row of `leads_chatbot`, as far as the flow reads or writes it. */
  datatype LeadRecord = LeadRecord(
    status: Status,
    url: string,                // url_analisada
    score: Option<real>,        // score_seo
    name: Option<string>,       // nome
    email: Option<string>,
    whatsapp: Option<string>,
    position: Option<string>,   // cargo
    bait: Option<string>,       // isca
    history: seq<Entry>,        // historico_chat
    emailSent: Option<bool>)    // email_enviado

  function Contact(lead: LeadRecord, f: Field): (value: Option<string>) {
    match f
    case Name => lead.name
    case Email => lead.email
    case WhatsApp => lead.whatsapp
    case Position => lead.position
  }

  /** A contact field counts as collected when it is neither null nor empty. */
  predicate Present(lead: LeadRecord, f: Field) {
    Contact(lead, f).Some? && Contact(lead, f).value != ""
  }

  predicate AllPresent(lead: LeadRecord) {
    forall f :: Present(lead, f)
  }

  /** The first contact field still missing, in the order name, email,
      WhatsApp, position. */
  function FirstMissing(lead: LeadRecord): (r: Option<Field>)
    ensures r.None? <==> AllPresent(lead)
    ensures r.Some? ==> !Present(lead, r.value)
    ensures r.Some? ==> forall g :: Rank(g) < Rank(r.value) ==> Present(lead, g)
  {
    if !Present(lead, Name) then Some(Name)
    else if !Present(lead, Email) then Some(Email)
    else if !Present(lead, WhatsApp) then Some(WhatsApp)
    else if !Present(lead, Position) then Some(Position)
    else None
  }

  /** The columns other than the four contact fields agree. */
  predicate SameBesidesContacts(a: LeadRecord, b: LeadRecord) {
    a.status == b.status && a.url == b.url && a.score == b.score && a.bait == b.bait
    && a.history == b.history && a.emailSent == b.emailSent
  }

  /** `UPDATE leads_chatbot SET <field> = value` on one row. */
  function WithContact(lead: LeadRecord, f: Field, value: string): (r: LeadRecord)
    ensures Contact(r, f) == Some(value)
    ensures forall g :: g != f ==> Contact(r, g) == Contact(lead, g)
    ensures SameBesidesContacts(r, lead)
  {
    match f
    case Name => lead.(name := Some(value))
    case Email => lead.(email := Some(value))
    case WhatsApp => lead.(whatsapp := Some(value))
    case Position => lead.(position := Some(value))
  }

  /** The message is written into the first missing field, if any. */
  function FillFirstMissing(lead: LeadRecord, message: string): (r: LeadRecord) {
    match FirstMissing(lead)
    case None => lead
    case Some(f) => WithContact(lead, f, message)
  }

  /** `append_to_chat_history`: one entry at the end of the history. */
  function WithEntry(lead: LeadRecord, speaker: Speaker, text: string): (r: LeadRecord)
    ensures r.history == lead.history + [Entry(speaker, text)]
    ensures r.(history := lead.history) == lead
  {
    lead.(history := lead.history + [Entry(speaker, text)])
  }

  // ---------------------------------------------------------------------
  // The collaborators of a turn
  // ---------------------------------------------------------------------

  /** What the text generator is asked, by state; the wording of the
      instructions is not modelled, only the data they carry. */
  datatype Prompt =
    | AskFor(missing: Field, userMessage: string, name: Option<string>)
    | WriteBait(name: Option<string>, url: string, score: Option<real>, position: Option<string>,
                failing: seq<FailedAudit>)
    | Upsell(userMessage: string)

  /** The outcome of one call to the generator: the text, no model
      configured, or an exception. */
  datatype Generation = Generated(text: string) | NotConfigured | GenerationFailed

  /** The PageSpeed client, the text generator, and whether a sales webhook
      URL is configured. */
  datatype Services = Services(
    pageSpeed: string -> AuditOutcome,
    generate: Prompt -> Generation,
    salesWebhook: bool)

  /** What `generate_ai_response` returns. */
  datatype AiResult = NextStepBait | ResponseText(text: string) | AiError(error: string)

  // ---------------------------------------------------------------------
  // Fixed texts
  // ---------------------------------------------------------------------

  const AskForUrlText := "Olá! Para começar, preciso que você **cole a URL completa** do seu site (ex: `https://seusite.com.br`) para eu poder analisar."
  const FatalText := "Ocorreu um erro fatal no processamento do chat."
  const NotFoundText := "Lead não encontrado."
  const ReauditFailedText := "Não consegui re-analisar seu site para o relatório final."
  const DefaultChatText := "Relatório enviado. Gostaria de um orçamento?"
  const RestartText := "Estou reiniciando meu fluxo, um momento..."
  const StatusErrorText := "Houve um erro no meu status. Pode recomeçar, por favor?"
  const NotConfiguredText := "IA não configurada."
  const GenerationFailedText := "Desculpe, tive um problema ao processar sua solicitação."
  const BaitMarker := "[RELATORIO_ENVIADO]"
  const BudgetMarker := "[ORCAMENTO_FINALIZADO]"
  const ScorePrefix := "🚀 Análise rápida concluída! Seu score de SEO mobile é **"
  const ScoreClosing := "**. Detectei algumas falhas que podemos corrigir.\n\nPara começar, qual o seu nome?"

  /** The greeting that reports the first audit's score. */
  function ScoreGreeting(score: real): (greeting: string) {
    ScorePrefix + ShownScore(score) + ScoreClosing
  }

  /** The score as the greeting shows it, `{score:.0f}/100`. */
  function ShownScore(score: real): (shown: string) {
    ScoreText.Fixed0(score) + "/100"
  }

  /** The greeting shows the score as `{score:.0f}/100`. */
  lemma ScoreGreetingShowsScore(score: real)
    ensures Contains(ScoreGreeting(score), ScoreText.Fixed0(score) + "/100")
  {
    ThreeSlices(ScorePrefix, ShownScore(score), ScoreClosing);
    assert OccursAt(ScoreGreeting(score), ShownScore(score), |ScorePrefix|);
  }

  // ---------------------------------------------------------------------
  // The first message
  // ---------------------------------------------------------------------

  /** A first message is taken for a URL when it has a dot and more than
      four characters. */
  predicate IsUrlLike(message: string) {
    '.' in message && |message| > 4
  }

  /** `https://` is put in front unless the text already starts with
      `http://` or `https://`. */
  function NormalizeUrl(url: string): (r: string)
    ensures StartsWith(r, "http://") || StartsWith(r, "https://")
    ensures r == url <==> (StartsWith(url, "http://") || StartsWith(url, "https://"))
    ensures r != url ==> r == "https://" + url
  {
    if !StartsWith(url, "http://") && !StartsWith(url, "https://") then "https://" + url else url
  }

  /** Normalising twice changes nothing. */
  lemma NormalizeUrlIdempotent(url: string)
    ensures NormalizeUrl(NormalizeUrl(url)) == NormalizeUrl(url)
  {
  }

  /** The row inserted for a new lead. */
  function NewLead(url: string, message: string): (r: LeadRecord) {
    LeadRecord(CollectingUrl, url, None, None, None, None, None, None, [Entry(User, message)], None)
  }

  /** What a call can answer: a message with the lead id, or an error. */
  datatype Response = Reply(message: string, leadId: Option<int>) | Failure(error: string)

  /** The lead created by a first message, if any, and the answer. */
  datatype FirstResult = FirstResult(created: Option<LeadRecord>, response: Response)

  /** The turn without a lead id; `id` is the id the store assigns. */
  function FirstMessage(id: int, message: string, svc: Services): (r: FirstResult) {
    if !IsUrlLike(message) then FirstResult(None, Reply(AskForUrlText, None))
    else
      var url := NormalizeUrl(message);
      var inserted := NewLead(url, message);
      match svc.pageSpeed(url)
      case AuditErr(error) =>
        var text := ErrorMessage(error);
        FirstResult(Some(WithEntry(inserted.(status := PageSpeedError), Bot, text)), Reply(text, Some(id)))
      case AuditOk(report) =>
        if report.seoScore.Null? then
          // `None * 100` raises; the row is already committed
          FirstResult(Some(inserted), Failure(FatalText))
        else
          var score := SeoScore100(report.seoScore);
          var greeting := ScoreGreeting(score);
          FirstResult(Some(WithEntry(inserted.(score := Some(score), status := CollectingData), Bot, greeting)),
                      Reply(greeting, Some(id)))
  }

  /** `categories.seo.score * 100`, with a missing score read as 0. */
  function SeoScore100(field: ScoreField): (score: real)
    requires !field.Null?
  {
    match field
    case Absent => 0.0
    case Number(v) => v * 100.0
  }

  /** A lead is created exactly when the first message looks like a URL; its
      URL is the normalised message and its history starts with the raw
      message. */
  lemma FirstMessageCreatesOnlyForUrls(id: int, message: string, svc: Services)
    ensures var r := FirstMessage(id, message, svc);
      (r.created.Some? <==> IsUrlLike(message))
      && (r.created.None? ==> r.response == Reply(AskForUrlText, None))
      && (r.created.Some? ==>
            r.created.value.url == NormalizeUrl(message)
            && |r.created.value.history| >= 1
            && r.created.value.history[0] == Entry(User, message)
            && (forall f :: Contact(r.created.value, f).None?)
            && r.created.value.bait.None?)
  {
  }

  /** After the first audit: an error moves the lead to the error state with
      the error as the one bot entry; a score moves it to data collection
      with the score times 100 and the greeting; a null score leaves the
      inserted row and answers with the fatal error. */
  lemma FirstMessageAfterAudit(id: int, message: string, svc: Services)
    requires IsUrlLike(message)
    ensures var r := FirstMessage(id, message, svc);
      var lead := r.created.value;
      var user := Entry(User, message);
      match svc.pageSpeed(NormalizeUrl(message))
      case AuditErr(error) =>
        lead.status == PageSpeedError && lead.score.None?
        && lead.history == [user, Entry(Bot, ErrorMessage(error))]
        && r.response == Reply(ErrorMessage(error), Some(id))
      case AuditOk(report) =>
        if report.seoScore.Null? then
          lead == NewLead(NormalizeUrl(message), message) && r.response == Failure(FatalText)
        else
          lead.status == CollectingData
          && lead.score == Some(if report.seoScore.Absent? then 0.0 else report.seoScore.value * 100.0)
          && lead.history == [user, Entry(Bot, ScoreGreeting(lead.score.value))]
          && r.response == Reply(ScoreGreeting(lead.score.value), Some(id))
  {
  }

  // ---------------------------------------------------------------------
  // The text generator's role
  // ---------------------------------------------------------------------

  /** A generated text is passed on unchanged; a missing model and an
      exception each give their own non-empty error text. */
  function FromGeneration(g: Generation): (r: AiResult)
    ensures !r.NextStepBait?
    ensures g.Generated? ==> r == ResponseText(g.text)
    ensures !g.Generated? ==> r.AiError? && r.error != ""
    ensures g.NotConfigured? ==> r.error == NotConfiguredText
    ensures g.GenerationFailed? ==> r.error == GenerationFailedText
  {
    match g
    case Generated(text) => ResponseText(text)
    case NotConfigured => AiError(NotConfiguredText)
    case GenerationFailed => AiError(GenerationFailedText)
  }

  /** `generate_ai_response`: the prompt is chosen by status; in data
      collection with nothing missing it asks for the report instead of
      calling the generator. */
  function GenerateAiResponse(lead: LeadRecord, userMessage: string, failing: seq<FailedAudit>,
                              generate: Prompt -> Generation): (r: AiResult)
    ensures r.NextStepBait? <==> lead.status == CollectingData && AllPresent(lead)
    ensures lead.status == CollectingData && FirstMissing(lead).Some? ==>
              r == FromGeneration(generate(AskFor(FirstMissing(lead).value, userMessage, lead.name)))
    ensures lead.status == GeneratingBait ==>
              r == FromGeneration(generate(WriteBait(lead.name, lead.url, lead.score, lead.position, failing)))
    ensures lead.status == BaitDelivered || lead.status == CollectingBudget ==>
              r == FromGeneration(generate(Upsell(userMessage)))
    ensures !Handled(lead.status) && lead.status != GeneratingBait ==> r == ResponseText(StatusErrorText)
  {
    if lead.status == CollectingData then
      match FirstMissing(lead)
      case None => NextStepBait
      case Some(f) => FromGeneration(generate(AskFor(f, userMessage, lead.name)))
    else if lead.status == GeneratingBait then
      FromGeneration(generate(WriteBait(lead.name, lead.url, lead.score, lead.position, failing)))
    else if lead.status == BaitDelivered || lead.status == CollectingBudget then
      FromGeneration(generate(Upsell(userMessage)))
    else
      ResponseText(StatusErrorText)
  }

  // ---------------------------------------------------------------------
  // A turn on an existing lead
  // ---------------------------------------------------------------------

  /** The new row, the answer, and the row posted to the sales webhook. */
  datatype TurnResult = TurnResult(lead: LeadRecord, response: Response, sales: Option<LeadRecord>)

  /** The states a turn acts on; in every other state it only logs the message. */
  predicate Handled(s: Status) {
    s == CollectingData || s == BaitDelivered || s == CollectingBudget
  }

  /** A turn on the row `lead` of lead `id`. */
  function Turn(id: int, lead: LeadRecord, message: string, svc: Services): (t: TurnResult) {
    var logged := WithEntry(lead, User, message);
    if logged.status == CollectingData then DataTurn(id, logged, message, svc)
    else if logged.status == BaitDelivered || logged.status == CollectingBudget then BudgetTurn(id, logged, message, svc)
    else TurnResult(logged, Reply(RestartText, Some(id)), None)
  }

  /** Data collection: fill the first missing field, then ask for the next
      one, or generate the report once nothing is missing. */
  function DataTurn(id: int, lead: LeadRecord, message: string, svc: Services): (t: TurnResult)
    requires lead.status == CollectingData
  {
    var filled := FillFirstMissing(lead, message);
    match GenerateAiResponse(filled, message, [], svc.generate)
    case AiError(error) => TurnResult(filled, Failure(error), None)
    case ResponseText(text) => TurnResult(WithEntry(filled, Bot, text), Reply(text, Some(id)), None)
    case NextStepBait => BaitStep(id, filled.(status := GeneratingBait), svc)
  }

  /** Report generation; the status is already committed to `GeneratingBait`. */
  function BaitStep(id: int, lead: LeadRecord, svc: Services): (t: TurnResult)
    requires lead.status == GeneratingBait
  {
    match svc.pageSpeed(lead.url)
    case AuditErr(_) => TurnResult(lead, Failure(ReauditFailedText), None)
    case AuditOk(report) =>
      match GenerateAiResponse(lead, "N/A", FailingAudits(report.audits), svc.generate)
      case AiError(error) => TurnResult(lead, Failure(error), None)
      case ResponseText(text) => DeliverBait(id, lead, text)
      // reading `response_text` of a next-step result would raise
      case NextStepBait => TurnResult(lead, Failure(FatalText), None)
  }

  /** The report and the chat reply cut out of a generated text. */
  function BaitParts(text: string): (parts: (string, string)) {
    var parts := Split(text, BaitMarker);
    (Strip(parts[0]), if |parts| > 1 then Strip(parts[1]) else DefaultChatText)
  }

  /** With the marker the report is stored and the lead moves on; without it
      the whole text is the reply and nothing else changes. */
  function DeliverBait(id: int, lead: LeadRecord, text: string): (t: TurnResult) {
    if Contains(text, BaitMarker) then
      var (bait, chat) := BaitParts(text);
      var reply := bait + "\n\n" + chat;
      TurnResult(WithEntry(lead.(bait := Some(bait), status := BaitDelivered), Bot, reply), Reply(reply, Some(id)), None)
    else
      TurnResult(WithEntry(lead, Bot, text), Reply(text, Some(id)), None)
  }

  /** Budget negotiation: the status is committed to `CollectingBudget` first;
      the completion marker closes the negotiation. */
  function BudgetTurn(id: int, lead: LeadRecord, message: string, svc: Services): (t: TurnResult)
    requires lead.status == BaitDelivered || lead.status == CollectingBudget
  {
    var committed := lead.(status := CollectingBudget);
    match GenerateAiResponse(lead, message, [], svc.generate)
    case AiError(error) => TurnResult(committed, Failure(error), None)
    case NextStepBait => TurnResult(committed, Failure(FatalText), None)
    case ResponseText(text) =>
      if Contains(text, BudgetMarker) then
        var final := Strip(RemoveAll(text, BudgetMarker));
        var closed := WithEntry(committed.(status := BudgetCollected), Bot, final);
        TurnResult(closed, Reply(final, Some(id)), if svc.salesWebhook then Some(closed) else None)
      else
        TurnResult(WithEntry(committed, Bot, text), Reply(text, Some(id)), None)
  }

  // ---------------------------------------------------------------------
  // The handler over all leads
  // ---------------------------------------------------------------------

  /** The table after the call, the next id, the answer, the sales post. */
  datatype HandleResult = HandleResult(
    rows: map<int, LeadRecord>, nextId: int, response: Response, sales: Option<LeadRecord>)

  /** A missing lead id, or the falsy id 0, starts a new lead. */
  predicate NoLeadId(leadId: Option<int>) {
    leadId.None? || leadId.value == 0
  }

  /** `/api/chat` over the table `rows`; new leads get the id `nextId`, which
      the database sequence hands out unused. */
  function Handle(rows: map<int, LeadRecord>, nextId: int, leadId: Option<int>, message: string,
                  svc: Services): (h: HandleResult)
    requires nextId !in rows
  {
    if NoLeadId(leadId) then
      var first := FirstMessage(nextId, message, svc);
      match first.created
      case None => HandleResult(rows, nextId, first.response, None)
      case Some(lead) => HandleResult(rows[nextId := lead], nextId + 1, first.response, None)
    else if leadId.value !in rows then
      // the history append touches no row, and the lookup fails
      HandleResult(rows, nextId, Failure(NotFoundText), None)
    else
      var id := leadId.value;
      var t := Turn(id, rows[id], message, svc);
      HandleResult(rows[id := t.lead], nextId, t.response, t.sales)
  }
}
