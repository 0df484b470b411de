/**
 * `exibirAgendamentos`: what the appointment list shows. An appointment is
 * whatever JSON value the backend sent for it; its fields are read through
 * fixed alias chains. The HTML is abstracted into one `Card` per appointment.
 */
module Appointments {
  import opened Wrappers
  import opened JsValues
  import opened DateFormat

  const Placeholder := Str("—")
  const ScheduledBadge := "AGENDADA"
  const NewAppointmentPage := "agendarHorario.html"
  const DefaultPatient := Str("Paciente")

  /** The data a Reschedule button carries: id, primary date, start time, patient. */
  datatype RescheduleButton = RescheduleButton(id: JsValue, date: JsValue, start: JsValue, patient: JsValue)

  /** One rendered appointment. Values are what the template interpolates. */
  datatype Card = Card(
    date: string,             // formatted display date
    status: string,           // the static status badge
    time: JsValue,
    patient: JsValue,
    phone: JsValue,
    email: JsValue,
    notes: Option<JsValue>,   // the observations block, present only when truthy
    fee: JsValue,             // shown after "R$ "
    cancelId: JsValue,        // the value spliced into the Cancel button's onclick code
    reschedule: RescheduleButton)

  /** The content of the appointment list container. */
  datatype View =
    | Initial                  // whatever the page was served with
    | NoSessions(link: string) // the empty-state panel and its link
    | SessionCards(cards: seq<Card>)
    | ErrorText(message: string)

  /** The date aliases, in the order the source tries them. */
  function DateAliases(a: JsValue): seq<JsValue> {
    [Get(a, "data"), Get(a, "dataSessao"), Get(a, "horarioData"), Get(a, "startDate"), Get(a, "date")]
  }

  /** `a.data || a.dataSessao || a.horarioData || a.startDate || a.date` */
  function RawDate(a: JsValue): JsValue {
    Or(Or(Or(Or(Get(a, "data"), Get(a, "dataSessao")), Get(a, "horarioData")), Get(a, "startDate")), Get(a, "date"))
  }

  /** Where the phone number may be found, most specific first. */
  function PhoneSources(a: JsValue, session: JsValue): seq<JsValue> {
    [Get(a, "telefone"), Get(Get(a, "paciente"), "telefone"), Get(Get(a, "usuario"), "telefone"),
     Get(session, "telefone"), Placeholder]
  }

  function Phone(a: JsValue, session: JsValue): JsValue {
    Or(Or(Or(Or(Get(a, "telefone"), Get(Get(a, "paciente"), "telefone")), Get(Get(a, "usuario"), "telefone")),
          Get(session, "telefone")), Placeholder)
  }

  /** Where the email address may be found, most specific first. */
  function EmailSources(a: JsValue, session: JsValue): seq<JsValue> {
    [Get(a, "email"), Get(Get(a, "paciente"), "usuemail"), Get(Get(a, "usuario"), "usuemail"),
     Get(session, "usuemail"), Placeholder]
  }

  function Email(a: JsValue, session: JsValue): JsValue {
    Or(Or(Or(Or(Get(a, "email"), Get(Get(a, "paciente"), "usuemail")), Get(Get(a, "usuario"), "usuemail")),
          Get(session, "usuemail")), Placeholder)
  }

  /** The fee line: the raw value unless it is null or undefined. */
  function Fee(v: JsValue): JsValue {
    if v != Null && v != Undefined then v else Placeholder
  }

  /** A five-operand `||` chain, written as the source groups it, is the
    * first truthy operand. */
  lemma {:induction false} FiveWayOr(vs: seq<JsValue>)
    requires |vs| == 5
    ensures Or(Or(Or(Or(vs[0], vs[1]), vs[2]), vs[3]), vs[4]) == FirstTruthy(vs)
  {
    OrExtendsChain(vs[..1], vs[1]);
    assert vs[..1] + [vs[1]] == vs[..2];
    OrExtendsChain(vs[..2], vs[2]);
    assert vs[..2] + [vs[2]] == vs[..3];
    OrExtendsChain(vs[..3], vs[3]);
    assert vs[..3] + [vs[3]] == vs[..4];
    OrExtendsChain(vs[..4], vs[4]);
    assert vs[..4] + [vs[4]] == vs;
  }

  /** The display date comes from the first truthy alias; empty or falsy
    * aliases are skipped. */
  lemma RawDateIsFirstTruthyAlias(a: JsValue)
    ensures RawDate(a) == FirstTruthy(DateAliases(a))
    ensures forall k :: (0 <= k < 5 && Truthy(DateAliases(a)[k]) &&
      (forall j :: 0 <= j < k ==> !Truthy(DateAliases(a)[j]))) ==> RawDate(a) == DateAliases(a)[k]
  {
    FiveWayOr(DateAliases(a));
    forall k | 0 <= k < 5 && Truthy(DateAliases(a)[k]) && (forall j :: 0 <= j < k ==> !Truthy(DateAliases(a)[j]))
      ensures RawDate(a) == DateAliases(a)[k]
    {
      FirstTruthyPicks(DateAliases(a), k);
    }
  }

  /** Phone and email come from their first truthy source; since the chains
    * end in the placeholder, neither is ever empty or falsy. */
  lemma ContactIsFirstTruthySource(a: JsValue, session: JsValue)
    ensures Phone(a, session) == FirstTruthy(PhoneSources(a, session))
    ensures Email(a, session) == FirstTruthy(EmailSources(a, session))
    ensures Truthy(Phone(a, session)) && Truthy(Email(a, session))
    ensures Phone(a, session) != Str("") && Email(a, session) != Str("")
  {
    FiveWayOr(PhoneSources(a, session));
    FiveWayOr(EmailSources(a, session));
  }

  /** Unlike the `||` chains, the fee hides only null and undefined: a fee
    * of 0 (or "", or false) is shown as it is. */
  lemma FeeHidesOnlyNullish(v: JsValue)
    ensures Nullish(v) ==> Fee(v) == Placeholder
    ensures !Nullish(v) ==> Fee(v) == v
    ensures Fee(Num(0)) == Num(0) && Or(Num(0), Placeholder) == Placeholder
  {
  }

  /** The card of one appointment (the body of the `map` callback). */
  function CardOf(p: Platform, a: JsValue, session: JsValue): Card {
    Card(
      FormatBrazilianDate(p, RawDate(a)),
      ScheduledBadge,
      Or(Get(a, "horario"), Placeholder),
      Or(Or(Get(a, "paciente"), Get(a, "pacienteNome")), Placeholder),
      Phone(a, session),
      Email(a, session),
      if Truthy(Get(a, "observacoes")) then Some(Get(a, "observacoes")) else None,
      Fee(Get(a, "valorSessao")),
      Get(a, "agendamentoID"),
      RescheduleButton(Get(a, "agendamentoID"), Get(a, "data"), Get(a, "horarioInicio"),
                       Or(Get(a, "paciente"), DefaultPatient)))
  }

  /** `agendamentos.map(…)`: one card per appointment, in input order. */
  function Cards(p: Platform, items: seq<JsValue>, session: JsValue): (cards: seq<Card>)
    ensures |cards| == |items|
    ensures forall i :: 0 <= i < |items| ==> cards[i] == CardOf(p, items[i], session)
  {
    if items == [] then [] else [CardOf(p, items[0], session)] + Cards(p, items[1..], session)
  }

  predicate NoNullish(items: seq<JsValue>) {
    forall i :: 0 <= i < |items| ==> !Nullish(items[i])
  }

  /** What `exibirAgendamentos(agendamentos, usuarioLogado)` puts in the
    * list, or `None` when it throws a TypeError: the payload is truthy with
    * a nonzero length but is not an array (`map` is missing), or one of its
    * elements is null or undefined (reading a field of it fails). */
  function Render(p: Platform, payload: JsValue, session: JsValue): Option<View> {
    if !Truthy(payload) || Get(payload, "length") == Num(0) then Some(NoSessions(NewAppointmentPage))
    else if !payload.Arr? || !NoNullish(payload.items) then None
    else Some(SessionCards(Cards(p, payload.items, session)))
  }

  /** A missing or empty list shows only the empty-state panel; a list of
    * appointments shows exactly one card each, in the same order, unsorted. */
  lemma RenderShape(p: Platform, payload: JsValue, session: JsValue)
    ensures Nullish(payload) || payload == Arr([]) ==> Render(p, payload, session) == Some(NoSessions(NewAppointmentPage))
    ensures payload.Arr? && payload.items != [] && NoNullish(payload.items) ==>
      Render(p, payload, session).Some? && Render(p, payload, session).value.SessionCards? &&
      var cards := Render(p, payload, session).value.cards;
      |cards| == |payload.items| &&
      forall i :: 0 <= i < |cards| ==> cards[i] == CardOf(p, payload.items[i], session)
    ensures payload.Arr? && !NoNullish(payload.items) ==> Render(p, payload, session).None?
  {
  }

  /** An appointment that has only `dataSessao` shows the same date as one
    * that has the same value under `data`. */
  lemma SecondaryAliasFormatsLikePrimary(p: Platform, v: JsValue, session: JsValue)
    ensures CardOf(p, Obj(map["dataSessao" := v]), session).date == CardOf(p, Obj(map["data" := v]), session).date
  {
  }

  /** The sample appointment: id 1, date "2024-03-15", time "14:00", fee 150. */
  lemma SampleCard(p: Platform, session: JsValue, date: string)
    requires date == "2024-03-15"
    ensures var a := Obj(map["agendamentoID" := Num(1), "data" := Str(date),
                             "horario" := Str("14:00"), "valorSessao" := Num(150)]);
      var card := CardOf(p, a, session);
      card.date == FormatBrazilianDate(p, Str(date)) && card.status == ScheduledBadge &&
      card.time == Str("14:00") && card.fee == Num(150) && card.cancelId == Num(1) &&
      card.notes == None && card.reschedule == RescheduleButton(Num(1), Str(date), Undefined, DefaultPatient) &&
      (p.parse(date).None? ==> card.date == "15/03/2024")
  {
    if p.parse(date).None? {
      assert date == "2024" + "-" + "03" + "-" + "15" + "";
      FormatReassembles(p, "2024", "03", "15", "");
    }
  }
}
