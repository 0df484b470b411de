# Patient schedule page: a Dafny model

This project models the client-side logic of the patient's "my appointments"
page of a clinic-management web application (`pacienteGerenciaHorarios.js`).
The page reads the logged-in patient from local storage, asks the backend for
that patient's appointments, shows them as cards, and lets the patient cancel
an appointment or hand it off to a separate reschedule page. A reschedule is
refused when the session starts less than 12 hours from now.

Modules:

- `JsValues` (`js_values.dfy`) holds the JavaScript values the page handles:
  `undefined`, `null`, booleans, integers, strings, arrays, objects and Date
  objects. It defines truthiness, property access with optional chaining,
  `a || b`, and `FirstTruthy`, the reference meaning of an `||` chain.
  `Platform` holds the two browser services the page calls but does not
  define: `new Date(text)` and `toLocaleDateString('pt-BR', …)`.
- `Strings` (`strings.dfy`) models `split` with a one-character separator and
  its inverse `join`.
- `DateFormat` (`date_format.dfy`) models `formatarDataBrasileira`.
- `Appointments` (`appointments.dfy`) models the content of
  `exibirAgendamentos`. This covers the date, phone and email alias chains,
  the fee rule, one `Card` per appointment, and the empty-state panel.
  The Reschedule button carries only the primary `data` field and
  `horarioInicio`, not the resolved date alias or the displayed `horario`;
  `SampleCard` shows the start time as undefined for an appointment that
  has only `horario`.
- `SchedulePage` (`schedule_page.dfy`) models the page state: local storage,
  the location, the greeting, the list container and the requests sent.
  `AfterLoad`, `AfterCancel` and `AfterReschedule` give the state after each
  flow. The class `Page` runs the flows step by step (`Load`,
  `ShowAppointments`, `Cancel`, `Reschedule`). Each method is proved to end
  in the state its function describes.

Where the specification of the page and the code disagree, the model
follows the code:

- The specification says the string "not-a-date" formats as "Data inválida".
  In the code, when the platform parser rejects it, the fallback splits it on
  '-' into three pieces and shows "date/a/not" (`DashedWordsReassembled`).
- The specification says a session exactly 12 hours ahead is blocked. The code
  compares with a strict `<`, so that session is allowed (`CutoffBoundary`).
- The specification says the date chain takes the first non-null alias. The
  code takes the first truthy one, so an empty string is skipped too
  (`RawDateIsFirstTruthyAlias`).

## Model

| member | source | states |
|---|---|---|
| `JsValues.Truthy` | Codigo/back-end/demo/src/main/resources/static/js/pacienteGerenciaHorarios.js:53 | JavaScript truthiness: undefined, null, false, 0 and "" are falsy, everything else is truthy; used by every guard and `or` chain |
| `JsValues.Get` | Codigo/back-end/demo/src/main/resources/static/js/pacienteGerenciaHorarios.js:65-84 | property access with optional chaining: undefined on null, undefined and primitives without the key; `length` of strings and arrays |
| `JsValues.Or` | Codigo/back-end/demo/src/main/resources/static/js/pacienteGerenciaHorarios.js:65-84 | `a or b` in JavaScript: `a` when truthy, else `b`; characterised by `OrExtendsChain` and `FiveWayOr` |
| `JsValues.FirstTruthy` | Codigo/back-end/demo/src/main/resources/static/js/pacienteGerenciaHorarios.js:65-84 | the value of a JavaScript `or` chain is one of its operands; it is truthy iff some operand is; when none is, it is the last operand |
| `JsValues.FirstTruthyPicks` | Codigo/back-end/demo/src/main/resources/static/js/pacienteGerenciaHorarios.js:65-84 | a JavaScript `or` chain yields the operand at the first truthy position |
| `JsValues.OrExtendsChain` | Codigo/back-end/demo/src/main/resources/static/js/pacienteGerenciaHorarios.js:65-84 | the left-grouped `a or b` applied to a chain equals the chain extended by `b` |
| `Strings.Split` | Codigo/back-end/demo/src/main/resources/static/js/pacienteGerenciaHorarios.js:157-159 | `split` always yields at least one piece, and no piece contains the separator |
| `Strings.JoinSplit` | Codigo/back-end/demo/src/main/resources/static/js/pacienteGerenciaHorarios.js:157-159 | joining the pieces of a split gives back the original text |
| `Strings.SplitJoin` | Codigo/back-end/demo/src/main/resources/static/js/pacienteGerenciaHorarios.js:157-159 | splitting the join of separator-free pieces gives back those pieces |
| `Strings.SplitFirstPiece` | Codigo/back-end/demo/src/main/resources/static/js/pacienteGerenciaHorarios.js:157 | the first piece of `a + b` is `a` followed by the first piece of `b`, when `a` has no separator |
| `Strings.SplitAtSeparator` | Codigo/back-end/demo/src/main/resources/static/js/pacienteGerenciaHorarios.js:159 | a text is split at its first separator into the piece before it and the pieces of the rest |
| `DateFormat.FormatBrazilianDate` | Codigo/back-end/demo/src/main/resources/static/js/pacienteGerenciaHorarios.js:143-168 | `formatarDataBrasileira`: the display text of `Classify`; characterised by `FormatNonStrings`, `FormatReassembles`, `FormatIgnoresTime` and the example lemmas |
| `DateFormat.Fallback` | Codigo/back-end/demo/src/main/resources/static/js/pacienteGerenciaHorarios.js:157-164 | the fallback for a rejected string: text before the first 'T', split on '-', read as year, month, day; characterised by `FallbackReassembles`, `FallbackSound` and `FallbackIgnoresTime` |
| `DateFormat.Text` | Codigo/back-end/demo/src/main/resources/static/js/pacienteGerenciaHorarios.js:144-167 | the text of each outcome: 'Data indisponível', 'Data inválida', the platform's pt-BR date, or `day/month/year` |
| `DateFormat.Classify` | Codigo/back-end/demo/src/main/resources/static/js/pacienteGerenciaHorarios.js:143-168 | the result is "unavailable" iff the input is null or undefined. It is localized exactly for a valid Date or a string the platform parses, at that instant. It is reassembled only from a string the platform rejects |
| `DateFormat.FormatNonStrings` | Codigo/back-end/demo/src/main/resources/static/js/pacienteGerenciaHorarios.js:144-167 | null or undefined gives 'Data indisponível'; a valid Date gives its locale text; an invalid Date or any other non-string gives 'Data inválida' |
| `DateFormat.FallbackReassembles` | Codigo/back-end/demo/src/main/resources/static/js/pacienteGerenciaHorarios.js:157-163 | a rejected string year-month-day, followed by nothing, a 'T' part or extra '-' pieces, is reassembled as day, month, year |
| `DateFormat.FormatReassembles` | Codigo/back-end/demo/src/main/resources/static/js/pacienteGerenciaHorarios.js:151-163 | the formatter shows such a string as `day/month/year` |
| `DateFormat.FallbackSound` | Codigo/back-end/demo/src/main/resources/static/js/pacienteGerenciaHorarios.js:157-163 | a reassembled result comes from a string that starts with `year-month-day`, each piece free of '-' and 'T' |
| `DateFormat.FallbackIgnoresTime` | Codigo/back-end/demo/src/main/resources/static/js/pacienteGerenciaHorarios.js:157 | the fallback gives the same result for a date with or without a `T…` time part |
| `DateFormat.FormatIgnoresTime` | Codigo/back-end/demo/src/main/resources/static/js/pacienteGerenciaHorarios.js:151-164 | when the platform rejects both forms, the shown date does not depend on the time of day |
| `DateFormat.OutOfRangeDatePassesThrough` | Codigo/back-end/demo/src/main/resources/static/js/pacienteGerenciaHorarios.js:157-163 | with no range check, a rejected "2024-13-45" is shown as "45/13/2024" |
| `DateFormat.DashedWordsReassembled` | Codigo/back-end/demo/src/main/resources/static/js/pacienteGerenciaHorarios.js:157-163 | a rejected "not-a-date" is shown as "date/a/not" |
| `DateFormat.ExtraPiecesIgnored` | Codigo/back-end/demo/src/main/resources/static/js/pacienteGerenciaHorarios.js:159-162 | pieces after the third are dropped: a rejected "2024-03-15-09" is shown as "15/03/2024" |
| `DateFormat.EmptyDatePartInvalid` | Codigo/back-end/demo/src/main/resources/static/js/pacienteGerenciaHorarios.js:157-167 | an empty text before 'T', as in a rejected "T10:00", gives 'Data inválida' |
| `Appointments.RawDate` | Codigo/back-end/demo/src/main/resources/static/js/pacienteGerenciaHorarios.js:65-69 | the date alias chain as the source groups it; characterised by `RawDateIsFirstTruthyAlias` |
| `Appointments.Phone` | Codigo/back-end/demo/src/main/resources/static/js/pacienteGerenciaHorarios.js:74-78 | the phone chain; characterised by `ContactIsFirstTruthySource` |
| `Appointments.Email` | Codigo/back-end/demo/src/main/resources/static/js/pacienteGerenciaHorarios.js:80-84 | the email chain; characterised by `ContactIsFirstTruthySource` |
| `Appointments.Fee` | Codigo/back-end/demo/src/main/resources/static/js/pacienteGerenciaHorarios.js:111-113 | the fee ternary; characterised by `FeeHidesOnlyNullish` |
| `Appointments.CardOf` | Codigo/back-end/demo/src/main/resources/static/js/pacienteGerenciaHorarios.js:65-127 | the card of one appointment: formatted date, badge, time, patient, contact, observations, fee and button data; characterised by `SampleCard` and `SecondaryAliasFormatsLikePrimary` |
| `Appointments.Render` | Codigo/back-end/demo/src/main/resources/static/js/pacienteGerenciaHorarios.js:53-130 | `exibirAgendamentos`: the empty-state panel, the card list, or a thrown TypeError; characterised by `RenderShape` and `Cards`, and implemented by `Page.ShowAppointments` |
| `Appointments.FiveWayOr` | Codigo/back-end/demo/src/main/resources/static/js/pacienteGerenciaHorarios.js:65-84 | the five-operand left-grouped `or` chain is the first truthy operand of the list |
| `Appointments.RawDateIsFirstTruthyAlias` | Codigo/back-end/demo/src/main/resources/static/js/pacienteGerenciaHorarios.js:65-71 | the display date comes from the first truthy of `data`, `dataSessao`, `horarioData`, `startDate`, `date`; falsy aliases are skipped |
| `Appointments.ContactIsFirstTruthySource` | Codigo/back-end/demo/src/main/resources/static/js/pacienteGerenciaHorarios.js:74-84 | phone and email come from the first truthy source in their fixed order. Since the chains end in '—', neither is ever falsy or empty |
| `Appointments.FeeHidesOnlyNullish` | Codigo/back-end/demo/src/main/resources/static/js/pacienteGerenciaHorarios.js:111-113 | the fee shows '—' for null or undefined and the raw value otherwise, so 0 is shown, unlike in an `or` chain |
| `Appointments.Cards` | Codigo/back-end/demo/src/main/resources/static/js/pacienteGerenciaHorarios.js:63-130 | the map yields exactly one card per appointment, in input order |
| `Appointments.RenderShape` | Codigo/back-end/demo/src/main/resources/static/js/pacienteGerenciaHorarios.js:53-130 | a missing or empty list renders only the empty-state panel linking to agendarHorario.html. An array of non-null appointments renders one card each, in order. A null element throws |
| `Appointments.SecondaryAliasFormatsLikePrimary` | Codigo/back-end/demo/src/main/resources/static/js/pacienteGerenciaHorarios.js:65-71 | an appointment with only `dataSessao` shows the same date as one with that value under `data` |
| `Appointments.SampleCard` | Codigo/back-end/demo/src/main/resources/static/js/pacienteGerenciaHorarios.js:90-127 | the card of {agendamentoID 1, data "2024-03-15", horario "14:00", valorSessao 150} shows that date formatted, "14:00", fee 150 and cancel id 1. It shows "15/03/2024" when the platform rejects the date |
| `SchedulePage.Session` | Codigo/back-end/demo/src/main/resources/static/js/pacienteGerenciaHorarios.js:3 | the stored session as `JSON.parse` of the `usuarioLogado` item: null when the key is absent |
| `SchedulePage.IsOk` | Codigo/back-end/demo/src/main/resources/static/js/pacienteGerenciaHorarios.js:34 | `response.ok`: a status from 200 to 299 |
| `SchedulePage.ResponseView` | Codigo/back-end/demo/src/main/resources/static/js/pacienteGerenciaHorarios.js:34-47 | the list after the GET is answered: the rendering, the load error, or the connection error; characterised by `LoadRendersOnlyOkResponses` |
| `SchedulePage.LoadOutcomeOf` | Codigo/back-end/demo/src/main/resources/static/js/pacienteGerenciaHorarios.js:3-47 | the loader's guards in order: no session, no patient id, or fetched; characterised by the `Load…` lemmas |
| `SchedulePage.AfterLoad` | Codigo/back-end/demo/src/main/resources/static/js/pacienteGerenciaHorarios.js:1-48 | the page state after `carregarSessoesAgendadas`; characterised by `LoadWithoutSession`, `LoadWithoutPatientId`, `LoadAsksForOwnAppointments` and `LoadKeepsStorage` |
| `SchedulePage.AfterCancel` | Codigo/back-end/demo/src/main/resources/static/js/pacienteGerenciaHorarios.js:170-197 | the page state after `cancelarAgendamento`; characterised by `CancelDeclined` and `CancelSendsThenReloads` |
| `SchedulePage.CutoffBlocks` | Codigo/back-end/demo/src/main/resources/static/js/pacienteGerenciaHorarios.js:203-207 | the cutoff test `sessao < limite` on the parsed instant; characterised by `CutoffBoundary`, `UnparseableNeverBlocked` and `CutoffMonotone` |
| `SchedulePage.Draft` | Codigo/back-end/demo/src/main/resources/static/js/pacienteGerenciaHorarios.js:212-217 | the reschedule draft object with exactly the four argument fields |
| `SchedulePage.AfterReschedule` | Codigo/back-end/demo/src/main/resources/static/js/pacienteGerenciaHorarios.js:199-220 | the page state after `reagendarSessao`; characterised by `RescheduleRefusedIsNoop` and `RescheduleHandsOff` |
| `SchedulePage.Page.ShowAppointments` | Codigo/back-end/demo/src/main/resources/static/js/pacienteGerenciaHorarios.js:50-130 | the list becomes the rendered view, or is left alone and `thrown` is set exactly when rendering throws |
| `SchedulePage.Page.Load` | Codigo/back-end/demo/src/main/resources/static/js/pacienteGerenciaHorarios.js:1-48 | the loader ends in the state `AfterLoad` gives |
| `SchedulePage.Page.Cancel` | Codigo/back-end/demo/src/main/resources/static/js/pacienteGerenciaHorarios.js:170-197 | the cancel flow ends in the state `AfterCancel` gives |
| `SchedulePage.Page.Reschedule` | Codigo/back-end/demo/src/main/resources/static/js/pacienteGerenciaHorarios.js:199-220 | the reschedule flow ends in the state `AfterReschedule` gives |
| `SchedulePage.LoadWithoutSession` | Codigo/back-end/demo/src/main/resources/static/js/pacienteGerenciaHorarios.js:3-9 | without a stored session the page goes to login.html, sends no request and changes nothing else |
| `SchedulePage.LoadWithoutPatientId` | Codigo/back-end/demo/src/main/resources/static/js/pacienteGerenciaHorarios.js:11-23 | a session without `usucodigo` puts the missing-id error in the list and sends no request |
| `SchedulePage.LoadAsksForOwnAppointments` | Codigo/back-end/demo/src/main/resources/static/js/pacienteGerenciaHorarios.js:25-42 | with a patient id, exactly one GET for that id is sent, and a non-ok status shows the load error |
| `SchedulePage.LoadRendersOnlyOkResponses` | Codigo/back-end/demo/src/main/resources/static/js/pacienteGerenciaHorarios.js:34-47 | cards or the empty panel appear iff the response is ok, its body parsed and rendering did not throw. They are then the rendering of that body; otherwise an error text appears |
| `SchedulePage.LoadKeepsStorage` | Codigo/back-end/demo/src/main/resources/static/js/pacienteGerenciaHorarios.js:1-48 | loading never writes to local storage |
| `SchedulePage.CancelDeclined` | Codigo/back-end/demo/src/main/resources/static/js/pacienteGerenciaHorarios.js:171-173 | a declined confirmation sends nothing and changes nothing |
| `SchedulePage.CancelSendsThenReloads` | Codigo/back-end/demo/src/main/resources/static/js/pacienteGerenciaHorarios.js:175-192 | a confirmed cancel sends DELETE with the stored patient id. Success adds exactly one reload GET and shows the reloaded list; failure adds nothing more |
| `SchedulePage.CutoffBoundary` | Codigo/back-end/demo/src/main/resources/static/js/pacienteGerenciaHorarios.js:203-207 | a session exactly now + 43,200,000 ms is allowed and one millisecond earlier is blocked |
| `SchedulePage.UnparseableNeverBlocked` | Codigo/back-end/demo/src/main/resources/static/js/pacienteGerenciaHorarios.js:203-207 | an unparseable session instant (NaN) is never blocked |
| `SchedulePage.CutoffMonotone` | Codigo/back-end/demo/src/main/resources/static/js/pacienteGerenciaHorarios.js:204-207 | a reschedule blocked now stays blocked at any later time |
| `SchedulePage.RescheduleRefusedIsNoop` | Codigo/back-end/demo/src/main/resources/static/js/pacienteGerenciaHorarios.js:200-210 | a declined or blocked reschedule writes no storage and does not navigate |
| `SchedulePage.RescheduleHandsOff` | Codigo/back-end/demo/src/main/resources/static/js/pacienteGerenciaHorarios.js:212-219 | an allowed reschedule overwrites 'reagendamento' with exactly `{agendamentoID, data, horario, paciente}` and goes to reagendarHorario.html. Every other key, the list and the requests stay as they were |

## Left out

- Network I/O: `fetch`, async/await, and parsing the response body are left out. The model takes the answer to each request (status, and the parsed body or a parse failure) as an input, and records the requests the page sends.
- Storage encoding: local storage maps each key to the JSON value it decodes to. `JSON.stringify` and `JSON.parse` are left out, so a malformed stored session, which would make `JSON.parse` throw, is not modelled.
- `alert`, `confirm` and `console`: confirmations are boolean inputs, and alerts and console output are not recorded.
- The clock: `new Date()` is a parameter `now` in milliseconds.
- Date parsing and locale formatting are left uninterpreted, as the `Platform` parameter. The model does not say which strings `new Date` accepts, and does not cover the Date range limit.
- Numbers are integers. Fractional numbers and NaN in the JSON payload are not modelled.
- HTML: the markup of the cards, the greeting text around the name, and `textContent`/`innerHTML` are modelled as the `View` and `Card` values they show.
- The Reschedule button listeners (lines 132-140) are left out. These include turning the dataset values into strings (a missing `data` becomes "undefined"). `Reschedule` takes its four arguments as strings.
- The Cancel button's `onclick` code text (line 119) is left out. The id is spliced into that code, so a string id such as "abc" becomes an identifier and throws a ReferenceError, and "12" arrives as the number 12. `Cancel` takes the id value it is called with; only numeric, null, undefined and boolean ids reach it unchanged.
- The `DOMContentLoaded` handler (lines 222-250) is left out. It repeats the loader's session guard, sets the greeting and calls the loader.
- The logout button wiring is left out. It only removes five storage keys and navigates to login.html.
- The text of cancel errors, shown only in an alert, is left out.
- CorsConfiguration.java is static framework configuration and is not part of this model.
