# Lead chatbot conversation flow, in Dafny

This project models the chat back end of an SEO lead-generation bot (`app.py`).
Each call to `/api/chat` takes a visitor's message and moves one lead row through
the states 'Coletando URL', 'Erro PageSpeed', 'Coletando Dados', 'Gerando Isca',
'Isca Entregue', 'Coletando Orçamento' and 'Orçamento Coletado'. A turn can:

- audit the lead's site with PageSpeed;
- collect the lead's name, e-mail, WhatsApp and position, one field per turn;
- generate a report (the "isca") once the contact data is complete;
- negotiate a budget.

The administrative webhook `/api/update-status-n8n` can overwrite the status with
any text, so a status can also be `Other(name)`. The source compares the column's
text, so `Status` is a subset type in which `Other` never spells a known state's
text: a row whose text is 'Coletando Dados' is in `CollectingData`. Access to the
webhook is guarded by a bearer token.

The modules are:

- `Optional`: the nullable columns.
- `Text`: Python's `in`, `str.split(sep)`, `str.replace(sep, "")` and `str.strip()`
  on `seq<char>`. `strip` uses Python's whitespace set.
- `Audits`: the PageSpeed outcome, the client's error messages, and
  `extract_failing_audits`. The filter is written as a loop (`ExtractFailingAudits`)
  and proved equal to the recursive `FailingAudits`.
- `ScoreText`: `f"{score:.0f}"` on exact reals: round half to even, in decimal.
- `LeadFlow`: the flow as pure functions of one row.
  - `FirstMessage` is a call without a lead id.
  - `Turn` is a turn on an existing lead.
  - `Handle` is the handler over the whole table.
  - The PageSpeed client, the text generator (Gemini) and whether a sales webhook is
    configured are passed in as `Services`.
- `FlowProperties`: what the flow promises, for one turn, for the table, and for
  whole conversations (`Conversation`).
- `Auth`: the bearer-token check as written and as corrected.
- `Store`: the rows as `Lead` objects.
  - Each `UPDATE` helper is a method.
  - `ChatHandler`, `StartConversation` and `Lead.ChatTurn` call those methods in the
    source's order. Like the source, they keep a local copy of the row (lines 338,
    359 and 369).
  - Each is proved to leave the rows as `Handle`, `FirstMessage` and `Turn` say.
  - `StatusWebhook` is the administrative update.

Behaviour of the source worth noting:

- A contact field counts as missing when it is null or the empty string
  (app.py:349-352). So an empty message is stored and the same field is asked for
  again. A field is kept once it is non-empty, not once it is non-null, as long
  as calls on the lead do not overlap (see "## Left out").
- In a state the flow does not handle, the user's message is logged (app.py:336),
  the answer is the fixed restart text, and nothing else in the row changes
  (app.py:437-439). This includes 'Gerando Isca' after a failed report, so such a
  lead stays there.
- The report reply never shows the report marker (`BaitPartsMarkerFree`). The
  budget reply can still show the budget marker, because `replace` removes only the
  occurrences it finds (`BudgetReplyCanShowMarker`).
- The fallback chat text "Relatório enviado. Gostaria de um orçamento?" is never
  used. Whenever the marker is present the split has a second piece
  (`BaitPartsAround`).
- The search bar (app.py:561-562) normalises URLs the same way as the chat
  (`NormalizeUrl`).

## Model

| member | source | states |
|---|---|---|
| `Text.IndexOfIsFirst` | app.py:383 | the marker is absent exactly when no index is found; otherwise the index is its first occurrence |
| `Text.JoinSplit` | app.py:384 | joining the pieces of `split(m)` with `m` gives back the text |
| `Text.SplitPartsFree` | app.py:384 | no piece of `split(m)` contains `m`, and there is more than one piece exactly when the text contains `m` |
| `Text.SplitAtFirst` | app.py:384-386 | with the marker present, the first piece is the text before its first occurrence and the second is the first piece of the rest |
| `Text.RemoveAllIsConcatOfSplit` | app.py:415 | `replace(m, "")` is the concatenation of the pieces of `split(m)` |
| `Text.RemoveAllLength` | app.py:415 | `replace(m, "")` removes `len(m)` characters per occurrence found |
| `Text.RemoveAllWithoutMarker` | app.py:415 | `replace(m, "")` leaves a text without `m` unchanged |
| `Text.RemoveAllCanRebuildMarker` | app.py:415 | removing a marker nested inside another leaves the marker |
| `Text.StripIsTrimmedMiddle` | app.py:385 | `strip()` is the slice between leading and trailing runs of whitespace, and it starts and ends with non-whitespace |
| `Text.StripIdempotent` | app.py:385 | stripping twice is stripping once |
| `Text.StripKeepsOut` | app.py:385-386 | stripping cannot create a marker |
| `Text.SeparatedStaysFree` | app.py:393 | two marker-free texts joined by a separator whose characters are not in the marker are marker-free |
| `Audits.ErrorMessage` | app.py:136-141 | the PageSpeed client's error message starts with "Erro: ", is never empty and carries the API's details |
| `Audits.ExtractFailingAudits` | app.py:143-156 | the loop that appends each failing audit returns `FailingAudits` of the audits |
| `Audits.FailingAuditsSelect` | app.py:148-154 | the result holds exactly the failing audits (scored, non-null score below 0.9), projected to title, description and score, in report order, and is never longer than the input |
| `Audits.FailingAuditsBelowThreshold` | app.py:149 | every audit handed to the report scored below 0.9 |
| `ScoreText.RoundHalfEven` | app.py:327 | the result is within 0.5 of the score, and a tie goes to the even integer |
| `ScoreText.RoundHalfEvenUnique` | app.py:327 | those two properties single out the rounding |
| `ScoreText.Decimal` | app.py:327 | the digits are decimal and have no leading zero |
| `ScoreText.DecimalRoundTrip` | app.py:327 | reading the digits back gives the number |
| `ScoreText.Fixed0OfNonNegative` | app.py:327 | for a non-negative score `{score:.0f}` is the decimal of its rounding |
| `LeadFlow.ParseStatus` | app.py:342 | reading a status column gives a status whose text is the column; its type keeps `Other` to unknown texts |
| `LeadFlow.StatusNameInjective` | app.py:342-346 | two statuses are equal exactly when their column texts are, so comparing constructors is comparing the texts as the source does |
| `LeadFlow.StatusRoundTrip` | app.py:313 | writing a status and reading it back gives the same status |
| `LeadFlow.FirstMissing` | app.py:348-352 | nothing is missing exactly when all four fields are non-empty; otherwise the field named is missing and every earlier one is present |
| `LeadFlow.WithContact` | app.py:354-359 | the field written holds the message and no other column changes |
| `LeadFlow.WithEntry` | app.py:94-109 | an append adds exactly one entry at the end and changes nothing else |
| `LeadFlow.NormalizeUrl` | app.py:295-296 | the URL gets a scheme; it is unchanged exactly when it already starts with `http://` or `https://`, and otherwise it gains `https://` |
| `LeadFlow.NormalizeUrlIdempotent` | app.py:295-296 | normalising twice changes nothing |
| `LeadFlow.ScoreGreetingShowsScore` | app.py:327 | the greeting shows the score as `{score:.0f}/100` |
| `LeadFlow.FirstMessageCreatesOnlyForUrls` | app.py:283-306 | a lead is created exactly for a URL-like message (a dot and more than four characters). Otherwise the answer asks for the URL without a lead id. The new row holds the normalised URL, no contacts, no report, and a history that starts with the raw message |
| `LeadFlow.FirstMessageAfterAudit` | app.py:308-329 | an audit error gives 'Erro PageSpeed' with the error as the one bot entry and the reply. A score gives 'Coletando Dados' with score × 100 (0 if absent) and the greeting. A null score leaves the inserted row and answers with the fatal error |
| `LeadFlow.FromGeneration` | app.py:233-260 | a generated text is passed on unchanged; no model configured gives "IA não configurada." and an exception the apology text, both non-empty errors; never the report step |
| `LeadFlow.GenerateAiResponse` | app.py:161-231 | the report step is asked for exactly in 'Coletando Dados' with all four fields present. Otherwise 'Coletando Dados' asks for the first missing field with the user's message and the name, 'Gerando Isca' sends the lead's data and the failing audits, 'Isca Entregue' and 'Coletando Orçamento' send the upsell with the message, and any other status answers the status-error text without calling the generator |
| `FlowProperties.TurnHistory` | app.py:336-439 | a turn appends the user's message, then at most one bot entry, which is the reply. A failed turn or an unhandled state adds no bot entry. Replies carry the lead id |
| `FlowProperties.UnhandledTurnOnlyLogs` | app.py:437-439 | in an unhandled state a turn only logs the message and answers with the restart text |
| `FlowProperties.TurnContacts` | app.py:346-359 | a turn writes the message into the first missing field in 'Coletando Dados' and changes no other contact field |
| `FlowProperties.PresentFieldKept` | app.py:348-359 | a non-empty contact field is never overwritten |
| `FlowProperties.TurnKeepsAuditData` | app.py:336-439 | a turn changes neither the URL nor the score nor the e-mail flag |
| `FlowProperties.TurnKeeps` | app.py:346-402 | of the contacts, URL, score and e-mail flag, a turn changes only what filling the first missing field changes |
| `FlowProperties.TurnStatusStep` | app.py:346-439 | a turn moves the status only from 'Coletando Dados' to 'Gerando Isca' or 'Isca Entregue', and from 'Isca Entregue' or 'Coletando Orçamento' to 'Coletando Orçamento' or 'Orçamento Coletado' |
| `FlowProperties.LeavesDataCollectionWhenComplete` | app.py:359-369 | 'Coletando Dados' is left exactly when all four fields are present, and a report is stored only on that move |
| `FlowProperties.TurnStoresReportOnlyOnDelivery` | app.py:336-439 | on any turn the stored report changes only when the lead was in 'Coletando Dados' and moves to 'Isca Entregue' |
| `FlowProperties.BaitStepStoresOnlyOnDelivery` | app.py:371-397 | the report step changes the stored report only when it moves the lead to 'Isca Entregue' |
| `FlowProperties.ReportFailureKeepsGeneratingBait` | app.py:366-373 | once all fields are present the status is committed to 'Gerando Isca', and a failed re-audit leaves it there |
| `FlowProperties.BaitPartsAround` | app.py:383-386 | the report is the stripped text before the first marker; the chat reply is the stripped text between it and the next marker or the end |
| `FlowProperties.BaitPartsMarkerFree` | app.py:384-393 | neither the stored report nor the reply `isca + "\n\n" + chat` contains the marker |
| `FlowProperties.DeliverBaitSpec` | app.py:383-397 | with the marker the report is stored, the status becomes 'Isca Entregue' and the reply is report, blank line, chat. Without it the text is the reply and nothing else changes |
| `FlowProperties.BaitStepDelivers` | app.py:371-381 | after a successful re-audit the generator receives the failing audits, and its text is delivered or its error returned |
| `FlowProperties.BudgetTurnSpec` | app.py:405-435 | the status is 'Coletando Orçamento' even when generation fails. With the budget marker the status becomes 'Orçamento Coletado' and the reply is the text with the occurrences `replace` finds removed, stripped |
| `FlowProperties.SalesPostOnClose` | app.py:414-430 | the sales webhook receives the row, as stored after the turn, exactly when a budget is closed and a webhook is configured |
| `FlowProperties.SalesWebhookInvisible` | app.py:419-432 | whether a sales webhook is configured changes neither the row nor the reply |
| `FlowProperties.BudgetReplyCanShowMarker` | app.py:415 | a generated text with one budget marker nested in another yields a reply that is the marker itself |
| `FlowProperties.HandleFirstMessage` | app.py:283-290 | with an unused next id, a call without a lead id adds a row under that id exactly when the message looks like a URL, keeps every existing row, and otherwise changes nothing |
| `FlowProperties.HandleUnknownLead` | app.py:336-340 | an unknown lead id changes nothing and answers "Lead não encontrado." |
| `FlowProperties.HandleTouchesOneRow` | app.py:265-449 | a call deletes no row and changes at most the row it names or the row it adds |
| `FlowProperties.HandleKeepsNextIdFresh` | app.py:299-306 | when every id is below the next id, that stays so after the call, so the id a later call inserts under is again unused |
| `FlowProperties.AllowedStepAdvances` | app.py:346-439 | the allowed moves never go back along the flow and never leave an unhandled state |
| `FlowProperties.ConversationProgress` | app.py:336-439 | over any sequence of non-overlapping turns, each with its own PageSpeed and generator answers, the status never goes back and an unhandled state is never left. Non-empty fields, the URL and the score keep their values, and a stored report is kept once the lead is past 'Coletando Dados'. The history keeps its prefix and grows by at least one entry per message |
| `FlowProperties.StuckConversation` | app.py:437-439 | in an unhandled state a conversation only appends the user's messages, whatever the services answer |
| `LeadFlow.IsUrlLike` | app.py:285 | a first message is taken for a URL when it has a dot and more than four characters (see `FirstMessageCreatesOnlyForUrls`) |
| `LeadFlow.SeoScore100` | app.py:317 | the score times 100, with a missing score read as 0 (see `FirstMessageAfterAudit`) |
| `LeadFlow.FillFirstMissing` | app.py:348-359 | the message goes into the first missing field only (see `FillKeeps`, `TurnContacts`) |
| `LeadFlow.FirstMessage` | app.py:283-329 | the call without a lead id (see `FirstMessageCreatesOnlyForUrls`, `FirstMessageAfterAudit`) |
| `LeadFlow.Turn` | app.py:334-439 | a turn on an existing lead (see `TurnHistory`, `TurnContacts`, `TurnStatusStep`, `TurnStoresReportOnlyOnDelivery`, `UnhandledTurnOnlyLogs`) |
| `LeadFlow.DataTurn` | app.py:346-402 | the data-collection branch (see `DataTurnKeeps`, `LeavesDataCollectionWhenComplete`) |
| `LeadFlow.BaitStep` | app.py:371-381 | the report branch (see `BaitStepDelivers`, `BaitStepKeeps`, `ReportFailureKeepsGeneratingBait`) |
| `LeadFlow.DeliverBait` | app.py:383-397 | the delivery of a generated report (see `DeliverBaitSpec`) |
| `LeadFlow.BaitParts` | app.py:384-386 | the report and chat parts cut at the marker (see `BaitPartsAround`, `BaitPartsMarkerFree`) |
| `LeadFlow.BudgetTurn` | app.py:405-435 | the budget branch (see `BudgetTurnSpec`, `SalesPostOnClose`) |
| `LeadFlow.Handle` | app.py:265-449 | the handler over the table, given an unused id for a new lead (see `HandleFirstMessage`, `HandleUnknownLead`, `HandleTouchesOneRow`, `HandleKeepsNextIdFresh`) |
| `FlowProperties.FillKeeps` | app.py:348-359 | filling changes only the first missing field, which receives the message |
| `FlowProperties.BaitStepKeeps` | app.py:371-397 | the report step changes no contact field, URL, score or e-mail flag |
| `FlowProperties.DataTurnKeeps` | app.py:346-402 | a data-collection turn changes, of those columns, only the field it fills |
| `Audits.FailingAudits` | app.py:143-156 | the failing audits, projected (see `FailingAuditsSelect`) |
| `Text.Split` | app.py:384 | `str.split(m)` (see `JoinSplit`, `SplitPartsFree`, `SplitAtFirst`) |
| `Text.RemoveAll` | app.py:415 | `str.replace(m, "")` (see `RemoveAllIsConcatOfSplit`, `RemoveAllLength`) |
| `Text.Strip` | app.py:385 | `str.strip()` (see `StripIsTrimmedMiddle`, `StripIdempotent`) |
| `Auth.BearerTokenAsWritten` | app.py:509 | the token as the handler takes it (see `BearerTokenAsWrittenRaises`) |
| `Auth.IsAuthorized` | app.py:511 | the corrected acceptance test (see `EmptySecretAuthorizesNobody`, `MalformedHeaderRefused`, `BearerSecretAccepted`) |
| `ScoreText.Fixed0` | app.py:327 | `f"{score:.0f}"` (see `Fixed0OfNonNegative`) |
| `Auth.BearerTokenAsWrittenRaises` | app.py:509 | taking the token raises exactly for a header that mentions `Bearer` but has no space |
| `Auth.BareBearerRaises` | app.py:509 | the header `Bearer` makes the token extraction raise |
| `Auth.BearerToken` | app.py:509 | a token is found only in a header that mentions `Bearer` and has a space |
| `Auth.BearerTokenAgrees` | app.py:509 | wherever the original extraction does not raise, the corrected one gives the same token |
| `Auth.EmptySecretAuthorizesNobody` | app.py:511-513 | an empty token is refused, so an empty secret authorises nobody |
| `Auth.MalformedHeaderRefused` | app.py:508-513 | a missing header, or one without `Bearer` or without a space, is refused |
| `Auth.BearerSecretAccepted` | app.py:508-513 | `Bearer <secret>` is accepted for every non-empty secret without spaces |
| `Store.Lead.constructor` | app.py:299-306 | the inserted row has the normalised URL, 'Coletando URL' and the raw message as its only entry |
| `Store.Lead.SetStatus` | app.py:79-92 | only the status changes |
| `Store.Lead.AppendHistory` | app.py:94-115 | one entry is added at the end of the history, and nothing else changes |
| `Store.Lead.SetContact` | app.py:354-359 | only the named contact field changes |
| `Store.Lead.SetScore` | app.py:317-324 | the score and the status 'Coletando Dados' are written together |
| `Store.Lead.StoreBait` | app.py:387-391 | the report and the status 'Isca Entregue' are written together |
| `Store.Lead.AdminUpdate` | app.py:526-535 | the status and the e-mail flag are written together |
| `Store.Lead.ChatTurn` | app.py:336-439 | the step-by-step turn leaves the row, the reply and the sales post that `Turn` gives |
| `Store.Lead.CollectData` | app.py:346-402 | the data-collection branch, on the local copy of the row, agrees with `DataTurn` |
| `Store.Lead.WriteReport` | app.py:371-397 | the report branch agrees with `BaitStep` |
| `Store.Lead.NegotiateBudget` | app.py:405-435 | the budget branch agrees with `BudgetTurn` |
| `Store.StartConversation` | app.py:283-329 | the first message creates a fresh lead exactly when `FirstMessage` does, with the same row and reply |
| `Store.ChatHandler` | app.py:265-449 | given an id absent from the table for a new lead, the handler over lead objects answers as `Handle` does and leaves the rows that `Handle` gives, touching at most the named lead |
| `Store.StatusWebhook` | app.py:502-537 | unauthorised requests are refused and requests without a lead id or status are rejected. A refused or rejected request leaves the row as it was. Otherwise any status text is written with the e-mail flag and reads back as that text |

## Left out

- HTTP: Flask routing, `jsonify`, CORS and status codes. A reply is a `Response` value, and an error carries only its message.
- The database: connections, SQL text, commit and rollback. A row is a `Lead` object or a `LeadRecord` value. Failed connections are left out, along with the helpers that swallow database errors. Rows are never deleted.
- `Handle` and `ChatHandler` take the next id as a parameter and require it to be unused. The real id comes from the database sequence, which never reuses an id; `HandleKeepsNextIdFresh` shows the parameter can follow the same rule.
- The PageSpeed HTTP call. Its outcome is an input: a report, an HTTP failure with the API's details, or any other failure.
- The Gemini client, model set-up and prompt wording.
  - `Prompt` carries only the data each prompt embeds: the missing field, the lead's name, URL, score, position, the failing audits, and the user's message.
  - `/api/test-gemini` is not part of this model.
- The sales webhook POST. Only its payload, the row as stored after the turn, is modelled. Its failure is swallowed in the source, so it cannot change the reply.
- Floating point. Scores are exact reals, so `score * 100` has no rounding error.
- Request shapes the handlers do not check are not modelled: a missing or null
  `message`, a `lead_id` that is not an integer, an `email_enviado` that is not a
  boolean, and a request body that is not JSON. A message is always a string here,
  a lead id an integer, and the e-mail flag a boolean.
- Concurrency. Each `/api/chat` call is modelled as one atomic step on its lead. The source takes no lock and commits each `UPDATE` on its own, and a call can wait on PageSpeed and the generator in between, so two calls on the same lead can interleave. The per-turn and per-conversation lemmas (`PresentFieldKept`, `TurnStatusStep`, `TurnStoresReportOnlyOnDelivery`, `ConversationProgress` and the others) hold only for calls that do not overlap. Overlapping calls can write a contact field twice, write 'Coletando Orçamento' back over 'Orçamento Coletado', or deliver and store a report twice.
- Configuration and logging. The webhook secret is a parameter; its default value is not modelled.
- `Store.StatusWebhook` uses the corrected token check (`Auth.IsAuthorized`). The check as written raises on some headers; see Findings.

## Findings

| source | as written | input that shows it | evidently intended | confidence | as-written member | corrected member |
|---|---|---|---|---|---|---|
| app.py:509 | `auth_header.split(' ')[1]` is taken whenever the header contains `Bearer`, without checking for a second word | `Authorization: Bearer` (no space) raises `IndexError`, so the request fails with a server error | such a request is refused with 401 like any other bad token | high; not executed | `Auth.BareBearerRaises` | `Auth.MalformedHeaderRefused` |
