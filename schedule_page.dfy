/**
 * The patient schedule page: loading the list (`carregarSessoesAgendadas`),
 * showing it (`exibirAgendamentos`), cancelling (`cancelarAgendamento`) and
 * handing a reschedule off to its own page (`reagendarSessao`).
 *
 * The browser state these touch is a `PageState`: local storage (keys to
 * the JSON values stored under them), the location the page navigated to,
 * the greeting, the list container and the requests sent to the backend.
 * Each flow is specified by a function from the old state to the new one;
 * the class `Page` performs the flows step by step and is proved against
 * those functions.
 */
module SchedulePage {
  import opened Wrappers
  import opened JsValues
  import opened Appointments

  const SessionKey := "usuarioLogado"
  const RescheduleKey := "reagendamento"
  const LoginPage := "login.html"
  const ReschedulePage := "reagendarHorario.html"
  const DefaultUserName := Str("Usuário")
  const MissingIdMessage := "Erro: ID do usuário não encontrado"
  const LoadErrorMessage := "Erro ao carregar agendamentos. Tente novamente."
  const ConnectionErrorMessage := "Erro de conexão com o servidor"

  /** A reschedule must be at least 12 hours ahead, in milliseconds. */
  const CutoffMs := 12 * 60 * 60 * 1000

  /** What `fetch` resolves to: a network failure (the promise rejects) or a
    * status with the body, `None` when `response.json()` rejects. */
  datatype Response = NetworkFailure | Http(status: int, body: Option<JsValue>)

  /** `response.ok` */
  predicate IsOk(status: int) {
    200 <= status <= 299
  }

  /** Requests the page sends: GET /agendamentos/usuario/{patientId} and
    * DELETE /agendamentos/{id} with header `usuCodigo: patientId`. */
  datatype Request =
    | ListAppointments(patientId: JsValue)
    | DeleteAppointment(id: JsValue, patientId: JsValue)

  datatype PageState = PageState(
    storage: map<string, JsValue>,
    location: Option<string>,    // `None` while the page has not navigated away
    greeting: Option<JsValue>,   // the name after "Olá, "
    view: View,                  // the appointment list container
    requests: seq<Request>)

  /** `JSON.parse(localStorage.getItem('usuarioLogado'))`: null when absent. */
  function Session(storage: map<string, JsValue>): JsValue {
    if SessionKey in storage then storage[SessionKey] else Null
  }

  /** How a load ends. */
  datatype LoadOutcome =
    | NotLoggedIn
    | NoPatientId(name: JsValue)
    | Fetched(name: JsValue, patientId: JsValue, view: View)

  /** What the list shows once the GET has been answered. */
  function ResponseView(p: Platform, session: JsValue, resp: Response): View {
    match resp
    case NetworkFailure => ErrorText(ConnectionErrorMessage)
    case Http(status, body) =>
      if !IsOk(status) then ErrorText(LoadErrorMessage)
      else if body.None? then ErrorText(ConnectionErrorMessage)
      else
        var shown := Render(p, body.value, session);
        if shown.None? then ErrorText(ConnectionErrorMessage) else shown.value
  }

  /** The guards of `carregarSessoesAgendadas`, in order. */
  function LoadOutcomeOf(p: Platform, session: JsValue, resp: Response): LoadOutcome {
    if !Truthy(session) then NotLoggedIn
    else
      var name := Or(Get(session, "usunome"), DefaultUserName);
      var patientId := Get(session, "usucodigo");
      if !Truthy(patientId) then NoPatientId(name)
      else Fetched(name, patientId, ResponseView(p, session, resp))
  }

  /** The state after `carregarSessoesAgendadas()` with `resp` as the answer to its GET. */
  function AfterLoad(s: PageState, p: Platform, resp: Response): PageState {
    match LoadOutcomeOf(p, Session(s.storage), resp)
    case NotLoggedIn => s.(location := Some(LoginPage))
    case NoPatientId(name) => s.(greeting := Some(name), view := ErrorText(MissingIdMessage))
    case Fetched(name, patientId, v) =>
      s.(greeting := Some(name), view := v, requests := s.requests + [ListAppointments(patientId)])
  }

  /** The state after `cancelarAgendamento(id)`: `confirmed` is the user's
    * answer, `reply` the answer to the DELETE, `reload` the answer to the
    * GET of the reload a success triggers. Reading the patient id of a
    * null session throws before the DELETE is sent; the error is only
    * reported to the user. */
  function AfterCancel(s: PageState, p: Platform, id: JsValue, confirmed: bool, reply: Response, reload: Response): PageState {
    var session := Session(s.storage);
    if !confirmed || Nullish(session) then s
    else
      var sent := s.(requests := s.requests + [DeleteAppointment(id, Get(session, "usucodigo"))]);
      if reply.Http? && IsOk(reply.status) then AfterLoad(sent, p, reload) else sent
  }

  /** `sessao < limite`: the session instant `date + 'T' + time` is strictly
    * before now plus 12 hours. An unparseable instant is NaN, and every
    * comparison with NaN is false. */
  predicate CutoffBlocks(p: Platform, date: string, time: string, now: int) {
    match p.parse(date + "T" + time)
    case None => false
    case Some(t) => t < now + CutoffMs
  }

  /** The reschedule draft stored under `reagendamento`. */
  function Draft(id: string, date: string, time: string, patient: string): JsValue {
    Obj(map["agendamentoID" := Str(id), "data" := Str(date), "horario" := Str(time), "paciente" := Str(patient)])
  }

  /** The state after `reagendarSessao(id, date, time, patient)` at clock `now`. */
  function AfterReschedule(s: PageState, p: Platform, confirmed: bool, now: int,
                           id: string, date: string, time: string, patient: string): PageState {
    if !confirmed || CutoffBlocks(p, date, time, now) then s
    else s.(storage := s.storage[RescheduleKey := Draft(id, date, time, patient)], location := Some(ReschedulePage))
  }

  class Page {
    var storage: map<string, JsValue>
    var location: Option<string>
    var greeting: Option<JsValue>
    var view: View
    var requests: seq<Request>

    function State(): PageState
      reads this
    {
      PageState(storage, location, greeting, view, requests)
    }

    /** A freshly opened page over the given local storage. */
    constructor (initialStorage: map<string, JsValue>)
      ensures State() == PageState(initialStorage, None, None, Initial, [])
    {
      storage := initialStorage;
      location := None;
      greeting := None;
      view := Initial;
      requests := [];
    }

    /** `exibirAgendamentos(payload, session)`; `thrown` when it throws,
      * in which case the list is left as it was. */
    method ShowAppointments(p: Platform, payload: JsValue, session: JsValue) returns (thrown: bool)
      modifies this
      ensures thrown == Render(p, payload, session).None?
      ensures State() == if thrown then old(State()) else old(State()).(view := Render(p, payload, session).value)
    {
      if !Truthy(payload) || Get(payload, "length") == Num(0) {
        view := NoSessions(NewAppointmentPage);
        return false;
      }
      if !payload.Arr? {
        return true;
      }
      var items := payload.items;
      var cards: seq<Card> := [];
      var i := 0;
      while i < |items|
        invariant 0 <= i <= |items|
        invariant NoNullish(items[..i])
        invariant |cards| == i
        invariant forall j :: 0 <= j < i ==> cards[j] == CardOf(p, items[j], session)
      {
        if Nullish(items[i]) {
          return true;
        }
        cards := cards + [CardOf(p, items[i], session)];
        i := i + 1;
      }
      assert items[..i] == items;
      assert cards == Cards(p, items, session);
      view := SessionCards(cards);
      return false;
    }

    /** `carregarSessoesAgendadas()`, with `resp` the answer to its GET. */
    method Load(p: Platform, resp: Response)
      modifies this
      ensures State() == AfterLoad(old(State()), p, resp)
    {
      var session := Session(storage);
      if !Truthy(session) {
        location := Some(LoginPage);
        return;
      }
      var patientId := Get(session, "usucodigo");
      greeting := Some(Or(Get(session, "usunome"), DefaultUserName));
      if !Truthy(patientId) {
        view := ErrorText(MissingIdMessage);
        return;
      }
      requests := requests + [ListAppointments(patientId)];
      match resp {
        case NetworkFailure =>
          view := ErrorText(ConnectionErrorMessage);
        case Http(status, body) =>
          if !IsOk(status) {
            view := ErrorText(LoadErrorMessage);
          } else if body.None? {
            view := ErrorText(ConnectionErrorMessage);
          } else {
            var thrown := ShowAppointments(p, body.value, session);
            if thrown {
              view := ErrorText(ConnectionErrorMessage);
            }
          }
      }
    }

    /** `cancelarAgendamento(id)` */
    method Cancel(p: Platform, id: JsValue, confirmed: bool, reply: Response, reload: Response)
      modifies this
      ensures State() == AfterCancel(old(State()), p, id, confirmed, reply, reload)
    {
      if !confirmed {
        return;
      }
      var session := Session(storage);
      if Nullish(session) {
        return;
      }
      requests := requests + [DeleteAppointment(id, Get(session, "usucodigo"))];
      if reply.Http? && IsOk(reply.status) {
        Load(p, reload);
      }
    }

    /** `reagendarSessao(id, date, time, patient)` at clock `now`. */
    method Reschedule(p: Platform, confirmed: bool, now: int, id: string, date: string, time: string, patient: string)
      modifies this
      ensures State() == AfterReschedule(old(State()), p, confirmed, now, id, date, time, patient)
    {
      if !confirmed {
        return;
      }
      var session := p.parse(date + "T" + time);
      var limit := now + CutoffMs;
      if session.Some? && session.value < limit {
        return;
      }
      storage := storage[RescheduleKey := Draft(id, date, time, patient)];
      location := Some(ReschedulePage);
    }
  }

  // Properties of the flows

  /** Without a stored session the load redirects to the login page and
    * sends nothing; nothing else changes. */
  lemma LoadWithoutSession(s: PageState, p: Platform, resp: Response)
    requires !Truthy(Session(s.storage))
    ensures AfterLoad(s, p, resp) == s.(location := Some(LoginPage))
  {
  }

  /** A session without a patient id shows the inline error and sends nothing. */
  lemma LoadWithoutPatientId(s: PageState, p: Platform, resp: Response)
    requires Truthy(Session(s.storage)) && !Truthy(Get(Session(s.storage), "usucodigo"))
    ensures var t := AfterLoad(s, p, resp);
      t.view == ErrorText(MissingIdMessage) && t.requests == s.requests &&
      t.location == s.location && t.storage == s.storage
  {
  }

  /** With a patient id, exactly one GET for that patient is sent; a
    * non-ok status shows the load error. */
  lemma LoadAsksForOwnAppointments(s: PageState, p: Platform, resp: Response)
    requires Truthy(Session(s.storage)) && Truthy(Get(Session(s.storage), "usucodigo"))
    ensures var t := AfterLoad(s, p, resp);
      t.requests == s.requests + [ListAppointments(Get(Session(s.storage), "usucodigo"))] &&
      t.location == s.location && t.storage == s.storage &&
      (resp.Http? && !IsOk(resp.status) ==> t.view == ErrorText(LoadErrorMessage))
  {
  }

  /** Appointments or the empty-state panel are shown exactly when the
    * response is ok, its body parsed and rendering it did not throw, and
    * then as rendered from that body; every other answer shows an error. */
  lemma LoadRendersOnlyOkResponses(p: Platform, session: JsValue, resp: Response)
    ensures var v := ResponseView(p, session, resp);
      (v.SessionCards? || v.NoSessions?) <==>
        resp.Http? && IsOk(resp.status) && resp.body.Some? && Render(p, resp.body.value, session).Some?
    ensures var v := ResponseView(p, session, resp);
      v.SessionCards? || v.NoSessions? ==> Render(p, resp.body.value, session) == Some(v)
    ensures var v := ResponseView(p, session, resp);
      !(v.SessionCards? || v.NoSessions?) ==> v.ErrorText?
  {
  }

  /** The load never writes to local storage. */
  lemma LoadKeepsStorage(s: PageState, p: Platform, resp: Response)
    ensures AfterLoad(s, p, resp).storage == s.storage
  {
  }

  /** Declining the confirmation sends nothing and changes nothing. */
  lemma CancelDeclined(s: PageState, p: Platform, id: JsValue, reply: Response, reload: Response)
    ensures AfterCancel(s, p, id, false, reply, reload) == s
  {
  }

  /** A confirmed cancel sends the DELETE with the stored patient id; a
    * success is followed by exactly one reload GET, a failure by nothing. */
  lemma CancelSendsThenReloads(s: PageState, p: Platform, id: JsValue, reply: Response, reload: Response)
    requires Truthy(Session(s.storage)) && Truthy(Get(Session(s.storage), "usucodigo"))
    ensures var patientId := Get(Session(s.storage), "usucodigo");
      var t := AfterCancel(s, p, id, true, reply, reload);
      (reply.Http? && IsOk(reply.status) ==>
        t.requests == s.requests + [DeleteAppointment(id, patientId), ListAppointments(patientId)] &&
        t.view == ResponseView(p, Session(s.storage), reload)) &&
      (!(reply.Http? && IsOk(reply.status)) ==>
        t == s.(requests := s.requests + [DeleteAppointment(id, patientId)]))
  {
  }

  /** A session exactly 12 hours ahead is allowed; one millisecond earlier is blocked. */
  lemma CutoffBoundary(p: Platform, date: string, time: string, now: int)
    ensures p.parse(date + "T" + time) == Some(now + 43200000) ==> !CutoffBlocks(p, date, time, now)
    ensures p.parse(date + "T" + time) == Some(now + 43199999) ==> CutoffBlocks(p, date, time, now)
  {
  }

  /** An unparseable session instant is never blocked. */
  lemma UnparseableNeverBlocked(p: Platform, date: string, time: string, now: int)
    requires p.parse(date + "T" + time).None?
    ensures !CutoffBlocks(p, date, time, now)
  {
  }

  /** As the clock advances a blocked reschedule stays blocked. */
  lemma CutoffMonotone(p: Platform, date: string, time: string, now: int, later: int)
    requires now <= later && CutoffBlocks(p, date, time, now)
    ensures CutoffBlocks(p, date, time, later)
  {
  }

  /** A declined or blocked reschedule changes nothing: no storage write and
    * no navigation. */
  lemma RescheduleRefusedIsNoop(s: PageState, p: Platform, confirmed: bool, now: int,
                                id: string, date: string, time: string, patient: string)
    requires !confirmed || CutoffBlocks(p, date, time, now)
    ensures AfterReschedule(s, p, confirmed, now, id, date, time, patient) == s
  {
  }

  /** An allowed reschedule overwrites the draft with exactly its four
    * arguments, navigates to the reschedule page, and leaves every other
    * storage key, the list and the requests alone. */
  lemma RescheduleHandsOff(s: PageState, p: Platform, now: int,
                           id: string, date: string, time: string, patient: string)
    requires !CutoffBlocks(p, date, time, now)
    ensures var t := AfterReschedule(s, p, true, now, id, date, time, patient);
      t.storage[RescheduleKey] == Draft(id, date, time, patient) &&
      t.storage[RescheduleKey].fields.Keys == {"agendamentoID", "data", "horario", "paciente"} &&
      t.storage.Keys == s.storage.Keys + {RescheduleKey} &&
      (forall k :: k in s.storage && k != RescheduleKey ==> t.storage[k] == s.storage[k]) &&
      t.location == Some(ReschedulePage) && t.view == s.view && t.requests == s.requests
  {
  }
}
