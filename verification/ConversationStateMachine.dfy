/** The bot: one pure transition per message, and what its contexts and commands hold. */
module ConversationStateMachine {
  import opened Wrappers
  import opened Text

  datatype State =
    | MAIN_MENU
    | BOOKING_SERVICE | BOOKING_PROFESSIONAL | BOOKING_DATE | BOOKING_TIME | BOOKING_CUSTOMER_DATA | BOOKING_CONFIRMATION
    | RESCHEDULE_SELECT_APPOINTMENT | RESCHEDULE_DATE | RESCHEDULE_TIME
    | CANCEL_SELECT_APPOINTMENT | CANCEL_CONFIRMATION
    | HUMAN_HANDOFF

  datatype Field = ServiceId | ProfessionalId | Date | Time | CustomerData | AppointmentId

  type Context = map<Field, string>

  datatype Input = TextInput(text: string) | Interactive(selectionId: string)

  datatype Reply =
    | MainMenu
    | ChooseService | ChooseProfessional | ChooseDate | ChooseTime | ProvideCustomer | ConfirmOrModify
    | ConfirmModifyOrMenu | BookingExpired | BookingReceived
    | ChooseAppointmentToMove | ChooseNewDate | ChooseNewTime | MoveReceived
    | ChooseAppointmentToCancel | ConfirmToCancel | ConfirmOrMenu | CancelReceived
    | AdvisorWillJoin

  datatype Command =
    | CreateBooking(serviceId: string, professionalId: string, date: string, time: string, customerData: string)
    | RescheduleBooking(appointmentId: string, newDate: string, newTime: string)
    | CancelBooking(cancelledId: string)

  datatype Transition = Transition(state: State, context: Context, replies: seq<Reply>, command: Option<Command>)

  function InputValue(input: Input): (r: string) {
    match input
    case TextInput(text) => Trim(text)
    case Interactive(selectionId) => Trim(selectionId)
  }

  predicate IsSeparator(c: char) { IsSpace(c) || c == '.' || c == '-' }

  /** Lower-cased, each run of separators becoming one underscore. */
  function Keyword(s: string, afterSeparator: bool): (r: string) {
    if |s| == 0 then ""
    else if IsSeparator(s[0]) then (if afterSeparator then "" else "_") + Keyword(s[1..], true)
    else [Folded(s[0])] + Keyword(s[1..], false)
  }

  function CommandKey(input: Input): (r: string) {
    Keyword(InputValue(input), false)
  }

  function Advance(state: State, context: Context, field: Field, value: string, prompt: Reply): (r: Transition) {
    Transition(state, context[field := value], [prompt], None)
  }

  function Enter(state: State, prompt: Reply): (r: Transition) {
    Transition(state, map[], [prompt], None)
  }

  function FromMainMenu(input: Input): (r: Transition) {
    var key := CommandKey(input);
    if key in ["book", "booking", "book_appointment", "1"] then Enter(BOOKING_SERVICE, ChooseService)
    else if key in ["reschedule", "reschedule_appointment", "2"] then Enter(RESCHEDULE_SELECT_APPOINTMENT, ChooseAppointmentToMove)
    else if key in ["cancel", "cancel_appointment", "3"] then Enter(CANCEL_SELECT_APPOINTMENT, ChooseAppointmentToCancel)
    else if key in ["human", "handoff", "advisor", "4"] then Enter(HUMAN_HANDOFF, AdvisorWillJoin)
    else Enter(MAIN_MENU, MainMenu)
  }

  /** A missing field and an empty one are alike. */
  predicate Has(context: Context, field: Field) {
    field in context && context[field] != ""
  }

  predicate ConfirmsBooking(key: string) { key in ["confirm", "yes", "book_now"] }
  predicate ConfirmsCancel(key: string) { key in ["confirm", "yes", "cancel_now"] }
  predicate LeavesCancel(key: string) { key in ["no", "back", "menu"] }

  function BookingConfirmation(input: Input, context: Context): (r: Transition) {
    var key := CommandKey(input);
    if key in ["modify", "change", "back"] then Enter(BOOKING_SERVICE, ChooseService)
    else if key in ["menu", "stop", "abort"] then Enter(MAIN_MENU, MainMenu)
    else if !ConfirmsBooking(key) then Transition(BOOKING_CONFIRMATION, context, [ConfirmModifyOrMenu], None)
    else if !Has(context, ServiceId) || !Has(context, ProfessionalId) || !Has(context, Date) || !Has(context, Time) ||
            !Has(context, CustomerData)
    then Enter(BOOKING_SERVICE, BookingExpired)
    else Transition(MAIN_MENU, map[], [BookingReceived],
                    Some(CreateBooking(context[ServiceId], context[ProfessionalId], context[Date], context[Time],
                                       context[CustomerData])))
  }

  function CancelConfirmation(input: Input, context: Context): (r: Transition) {
    var key := CommandKey(input);
    if LeavesCancel(key) then Enter(MAIN_MENU, MainMenu)
    else if !ConfirmsCancel(key) then Transition(CANCEL_CONFIRMATION, context, [ConfirmOrMenu], None)
    else if !Has(context, AppointmentId) then Enter(CANCEL_SELECT_APPOINTMENT, ChooseAppointmentToCancel)
    else Transition(MAIN_MENU, map[], [CancelReceived], Some(CancelBooking(context[AppointmentId])))
  }

  function TransitionConversation(state: State, context: Context, input: Input): (r: Transition) {
    var value := InputValue(input);
    if CommandKey(input) == "main_menu" then Enter(MAIN_MENU, MainMenu)
    else match state
      case MAIN_MENU => FromMainMenu(input)
      case BOOKING_SERVICE => Advance(BOOKING_PROFESSIONAL, context, ServiceId, value, ChooseProfessional)
      case BOOKING_PROFESSIONAL => Advance(BOOKING_DATE, context, ProfessionalId, value, ChooseDate)
      case BOOKING_DATE => Advance(BOOKING_TIME, context, Date, value, ChooseTime)
      case BOOKING_TIME => Advance(BOOKING_CUSTOMER_DATA, context, Time, value, ProvideCustomer)
      case BOOKING_CUSTOMER_DATA => Advance(BOOKING_CONFIRMATION, context, CustomerData, value, ConfirmOrModify)
      case BOOKING_CONFIRMATION => BookingConfirmation(input, context)
      case RESCHEDULE_SELECT_APPOINTMENT => Advance(RESCHEDULE_DATE, context, AppointmentId, value, ChooseNewDate)
      case RESCHEDULE_DATE => Advance(RESCHEDULE_TIME, context, Date, value, ChooseNewTime)
      case RESCHEDULE_TIME =>
        if !Has(context, AppointmentId) || !Has(context, Date) then Enter(RESCHEDULE_SELECT_APPOINTMENT, ChooseAppointmentToMove)
        else Transition(MAIN_MENU, map[], [MoveReceived], Some(RescheduleBooking(context[AppointmentId], context[Date], value)))
      case CANCEL_SELECT_APPOINTMENT => Advance(CANCEL_CONFIRMATION, context, AppointmentId, value, ConfirmToCancel)
      case CANCEL_CONFIRMATION => CancelConfirmation(input, context)
      case HUMAN_HANDOFF => Transition(state, context, [], None)
  }

  // ----- what the customer's words do -----

  /** In any state but a handoff the menu keyword leads to the menu; at the menu each choice opens its own flow, afresh. */
  lemma MenuChoices(state: State, context: Context, input: Input)
    ensures var t, key := TransitionConversation(state, context, input), CommandKey(input);
            && (key == "main_menu" ==> t == Transition(MAIN_MENU, map[], [MainMenu], None))
            && (state.MAIN_MENU? && key != "main_menu" ==>
                  t == if key == "book" || key == "booking" || key == "book_appointment" || key == "1" then
                         Transition(BOOKING_SERVICE, map[], [ChooseService], None)
                       else if key == "reschedule" || key == "reschedule_appointment" || key == "2" then
                         Transition(RESCHEDULE_SELECT_APPOINTMENT, map[], [ChooseAppointmentToMove], None)
                       else if key == "cancel" || key == "cancel_appointment" || key == "3" then
                         Transition(CANCEL_SELECT_APPOINTMENT, map[], [ChooseAppointmentToCancel], None)
                       else if key == "human" || key == "handoff" || key == "advisor" || key == "4" then
                         Transition(HUMAN_HANDOFF, map[], [AdvisorWillJoin], None)
                       else
                         Transition(MAIN_MENU, map[], [MainMenu], None))
  {
    hide CommandKey, InputValue;
  }

  /** At the two confirmations: confirm, go back, leave, or be asked again with everything kept. */
  lemma ConfirmationChoices(state: State, context: Context, input: Input)
    requires WellFormed(state, context) && CommandKey(input) != "main_menu"
    ensures var t, key := TransitionConversation(state, context, input), CommandKey(input);
            && (state.BOOKING_CONFIRMATION? ==>
                  && context.Keys == {ServiceId, ProfessionalId, Date, Time, CustomerData}
                  && t == if key == "confirm" || key == "yes" || key == "book_now" then
                            Transition(MAIN_MENU, map[], [BookingReceived],
                                       Some(CreateBooking(context[ServiceId], context[ProfessionalId], context[Date], context[Time],
                                                          context[CustomerData])))
                          else if key == "modify" || key == "change" || key == "back" then
                            Transition(BOOKING_SERVICE, map[], [ChooseService], None)
                          else if key == "menu" || key == "stop" || key == "abort" then
                            Transition(MAIN_MENU, map[], [MainMenu], None)
                          else
                            Transition(BOOKING_CONFIRMATION, context, [ConfirmModifyOrMenu], None))
            && (state.CANCEL_CONFIRMATION? ==>
                  && context.Keys == {AppointmentId}
                  && t == if key == "confirm" || key == "yes" || key == "cancel_now" then
                            Transition(MAIN_MENU, map[], [CancelReceived], Some(CancelBooking(context[AppointmentId])))
                          else if key == "no" || key == "back" || key == "menu" then
                            Transition(MAIN_MENU, map[], [MainMenu], None)
                          else
                            Transition(CANCEL_CONFIRMATION, context, [ConfirmOrMenu], None))
  {
    hide CommandKey, InputValue;
  }

  /** The menu choices that open the flow of a state; the menu itself and a handoff need none. */
  predicate OpensFlow(choice: string, state: State) {
    match state
    case MAIN_MENU => true
    case HUMAN_HANDOFF => true
    case RESCHEDULE_SELECT_APPOINTMENT => choice == "reschedule" || choice == "reschedule_appointment" || choice == "2"
    case RESCHEDULE_DATE => choice == "reschedule" || choice == "reschedule_appointment" || choice == "2"
    case RESCHEDULE_TIME => choice == "reschedule" || choice == "reschedule_appointment" || choice == "2"
    case CANCEL_SELECT_APPOINTMENT => choice == "cancel" || choice == "cancel_appointment" || choice == "3"
    case CANCEL_CONFIRMATION => choice == "cancel" || choice == "cancel_appointment" || choice == "3"
    case _ => choice == "book" || choice == "booking" || choice == "book_appointment" || choice == "1"
  }

  /** A flow is entered from the menu by one of its choices, and left only for the menu or a handoff. */
  lemma FlowsComeFromTheMenu(state: State, context: Context, input: Input, choice: string)
    requires WellFormed(state, context) && !state.HUMAN_HANDOFF?
    requires if state.MAIN_MENU? then choice == CommandKey(input) else OpensFlow(choice, state)
    ensures OpensFlow(choice, TransitionConversation(state, context, input).state)
  {
    hide CommandKey, InputValue;
    MenuChoices(state, context, input);
    if CommandKey(input) != "main_menu" && !state.MAIN_MENU? {
      ConfirmationChoices(state, context, input);
      AnswersAreCollected(state, context, input);
      hide TransitionConversation, WellFormed;
    }
  }

  /** Every other answer is collected as it was given and followed by the one question that is asked next. */
  lemma AnswersAreCollected(state: State, context: Context, input: Input)
    requires WellFormed(state, context) && CommandKey(input) != "main_menu"
    ensures var t, answer := TransitionConversation(state, context, input), InputValue(input);
            match state
            case BOOKING_SERVICE => t == Transition(BOOKING_PROFESSIONAL, map[ServiceId := answer], [ChooseProfessional], None)
            case BOOKING_PROFESSIONAL => t == Transition(BOOKING_DATE, context[ProfessionalId := answer], [ChooseDate], None)
            case BOOKING_DATE => t == Transition(BOOKING_TIME, context[Date := answer], [ChooseTime], None)
            case BOOKING_TIME => t == Transition(BOOKING_CUSTOMER_DATA, context[Time := answer], [ProvideCustomer], None)
            case BOOKING_CUSTOMER_DATA => t == Transition(BOOKING_CONFIRMATION, context[CustomerData := answer], [ConfirmOrModify], None)
            case RESCHEDULE_SELECT_APPOINTMENT => t == Transition(RESCHEDULE_DATE, map[AppointmentId := answer], [ChooseNewDate], None)
            case RESCHEDULE_DATE => t == Transition(RESCHEDULE_TIME, context[Date := answer], [ChooseNewTime], None)
            case RESCHEDULE_TIME =>
              && context.Keys == {AppointmentId, Date}
              && t == Transition(MAIN_MENU, map[], [MoveReceived],
                                 Some(RescheduleBooking(context[AppointmentId], context[Date], answer)))
            case CANCEL_SELECT_APPOINTMENT => t == Transition(CANCEL_CONFIRMATION, map[AppointmentId := answer], [ConfirmToCancel], None)
            case HUMAN_HANDOFF => t == Transition(HUMAN_HANDOFF, context, [], None)
            case _ => true
  {
    hide CommandKey, InputValue, FromMainMenu, BookingConfirmation, CancelConfirmation;
    match state
    case RESCHEDULE_TIME => assert context.Keys == {AppointmentId, Date};
    case _ =>
  }

  predicate IsWord(s: string) {
    forall c :: c in s ==> !IsSpace(c) && c != '.' && c != '-'
  }

  /** Letters count whatever their case. */
  lemma {:induction false} WordsAreLowered(word: string, rest: string)
    requires IsWord(word) && |word| > 0
    ensures Keyword(word + rest, false) == Keyword(word + rest, true) == Keyword(word, false) + Keyword(rest, false)
    ensures |Keyword(word, false)| == |word| && forall i :: 0 <= i < |word| ==> Keyword(word, false)[i] == Folded(word[i])
  {
    assert (word + rest)[1..] == word[1..] + rest;
    assert word[0] in word && forall c :: c in word[1..] ==> c in word;
    if |word| > 1 {
      WordsAreLowered(word[1..], rest);
    } else {
      assert word[1..] + rest == rest;
      assert Keyword(word[1..], false) == "";
    }
  }

  /** However many spaces, dots and dashes part two words, they count as one underscore. */
  lemma {:induction false} SeparatorsAreOneUnderscore(parting: string, rest: string, inside: bool)
    requires |parting| > 0 && forall c :: c in parting ==> IsSpace(c) || c == '.' || c == '-'
    requires |rest| > 0 && !IsSpace(rest[0]) && rest[0] != '.' && rest[0] != '-'
    ensures Keyword(parting + rest, inside) == (if inside then "" else "_") + Keyword(rest, false)
  {
    assert (parting + rest)[1..] == parting[1..] + rest;
    assert parting[0] in parting && forall c :: c in parting[1..] ==> c in parting;
    if |parting| > 1 {
      SeparatorsAreOneUnderscore(parting[1..], rest, true);
    } else {
      assert parting[1..] + rest == rest;
      assert Keyword(rest, true) == Keyword(rest, false);
    }
  }

  // ----- what the context holds -----

  /** The fields collected on the way to a state; a handoff keeps whatever was collected. */
  function KeysOf(state: State): (r: set<Field>) {
    match state
    case BOOKING_PROFESSIONAL => {ServiceId}
    case BOOKING_DATE => {ServiceId, ProfessionalId}
    case BOOKING_TIME => {ServiceId, ProfessionalId, Date}
    case BOOKING_CUSTOMER_DATA => {ServiceId, ProfessionalId, Date, Time}
    case BOOKING_CONFIRMATION => {ServiceId, ProfessionalId, Date, Time, CustomerData}
    case RESCHEDULE_DATE => {AppointmentId}
    case RESCHEDULE_TIME => {AppointmentId, Date}
    case CANCEL_CONFIRMATION => {AppointmentId}
    case _ => {}
  }

  /** The state in which the bot asked for a field that is collected in `state`. */
  function AskedIn(state: State, field: Field): (r: State) {
    match field
    case ServiceId => BOOKING_SERVICE
    case ProfessionalId => BOOKING_PROFESSIONAL
    case Date => if state.RESCHEDULE_TIME? then RESCHEDULE_DATE else BOOKING_DATE
    case Time => BOOKING_TIME
    case CustomerData => BOOKING_CUSTOMER_DATA
    case AppointmentId => if state.CANCEL_CONFIRMATION? then CANCEL_SELECT_APPOINTMENT else RESCHEDULE_SELECT_APPOINTMENT
  }

  ghost predicate WellFormed(state: State, context: Context) {
    !state.HUMAN_HANDOFF? ==> context.Keys == KeysOf(state) && forall f :: f in context ==> context[f] != ""
  }

  /** Channels hand over only messages that say something. */
  predicate Normalized(input: Input) { InputValue(input) != "" }

  lemma AdvanceKeepsWellFormed(state: State, context: Context, next: State, field: Field, value: string)
    requires WellFormed(state, context) && !state.HUMAN_HANDOFF? && value != "" && KeysOf(next) == KeysOf(state) + {field}
    ensures WellFormed(next, context[field := value])
  {
    assert context[field := value].Keys == context.Keys + {field};
  }

  /** Each state has one fixed set of collected fields, none of them empty. */
  lemma TransitionsKeepContextsWellFormed(state: State, context: Context, input: Input)
    requires WellFormed(state, context) && Normalized(input)
    ensures WellFormed(TransitionConversation(state, context, input).state, TransitionConversation(state, context, input).context)
  {
    hide FromMainMenu, BookingConfirmation, CancelConfirmation, InputValue, CommandKey;
    var value := InputValue(input);
    match state
    case MAIN_MENU => MenuEntersEmpty(input);
    case BOOKING_SERVICE => AdvanceKeepsWellFormed(state, context, BOOKING_PROFESSIONAL, ServiceId, value);
    case BOOKING_PROFESSIONAL => AdvanceKeepsWellFormed(state, context, BOOKING_DATE, ProfessionalId, value);
    case BOOKING_DATE => AdvanceKeepsWellFormed(state, context, BOOKING_TIME, Date, value);
    case BOOKING_TIME => AdvanceKeepsWellFormed(state, context, BOOKING_CUSTOMER_DATA, Time, value);
    case BOOKING_CUSTOMER_DATA => AdvanceKeepsWellFormed(state, context, BOOKING_CONFIRMATION, CustomerData, value);
    case RESCHEDULE_SELECT_APPOINTMENT => AdvanceKeepsWellFormed(state, context, RESCHEDULE_DATE, AppointmentId, value);
    case RESCHEDULE_DATE => AdvanceKeepsWellFormed(state, context, RESCHEDULE_TIME, Date, value);
    case CANCEL_SELECT_APPOINTMENT => AdvanceKeepsWellFormed(state, context, CANCEL_CONFIRMATION, AppointmentId, value);
    case BOOKING_CONFIRMATION => ConfirmationStaysOrEnters(input, context);
    case CANCEL_CONFIRMATION => CancellingStaysOrEnters(input, context);
    case RESCHEDULE_TIME =>
    case HUMAN_HANDOFF =>
  }

  lemma MenuEntersEmpty(input: Input)
    ensures FromMainMenu(input).context == map[] && KeysOf(FromMainMenu(input).state) == {}
  {
    hide CommandKey, InputValue;
  }

  lemma ConfirmationStaysOrEnters(input: Input, context: Context)
    ensures var t := BookingConfirmation(input, context);
            if t.state.BOOKING_CONFIRMATION? then t.context == context else t.context == map[] && KeysOf(t.state) == {}
  {
    hide CommandKey, InputValue, Has, ConfirmsBooking;
  }

  lemma CancellingStaysOrEnters(input: Input, context: Context)
    ensures var t := CancelConfirmation(input, context);
            if t.state.CANCEL_CONFIRMATION? then t.context == context else t.context == map[] && KeysOf(t.state) == {}
  {
    hide CommandKey, InputValue, Has, ConfirmsCancel, LeavesCancel;
  }

  /** A collected field survives a transition unless the state just answered asks for it; entering a flow starts it afresh. */
  lemma CollectedFieldsComeFromAnswers(state: State, context: Context, input: Input, field: Field)
    requires WellFormed(state, context) && !state.HUMAN_HANDOFF?
    requires var t := TransitionConversation(state, context, input); !t.state.HUMAN_HANDOFF? && field in KeysOf(t.state)
    ensures var t := TransitionConversation(state, context, input);
            && field in t.context
            && (if AskedIn(t.state, field) == state then t.context[field] == InputValue(input)
                else field in KeysOf(state) && field in context && AskedIn(state, field) == AskedIn(t.state, field) &&
                     t.context[field] == context[field])
  {
    hide CommandKey, InputValue;
    match state
    case MAIN_MENU => MenuEntersEmpty(input);
    case BOOKING_CONFIRMATION => ConfirmationStaysOrEnters(input, context);
    case CANCEL_CONFIRMATION => CancellingStaysOrEnters(input, context);
    case _ => hide BookingConfirmation, CancelConfirmation, FromMainMenu;
  }

  /** With the collected fields in place the missing-field fallbacks are dead: exactly a confirmation, or a new time, gives a command. */
  lemma CommandsAreGivenExactlyWhenConfirmed(state: State, context: Context, input: Input)
    requires WellFormed(state, context)
    ensures var t, key := TransitionConversation(state, context, input), CommandKey(input);
            && (t.command.Some? <==>
                  key != "main_menu" &&
                  ((state.BOOKING_CONFIRMATION? && ConfirmsBooking(key)) || state.RESCHEDULE_TIME? ||
                   (state.CANCEL_CONFIRMATION? && ConfirmsCancel(key))))
            && BookingExpired !in t.replies
            && (t.command.Some? ==> t.state.MAIN_MENU? && t.context == map[])
  {
    hide CommandKey, InputValue;
    match state
    case BOOKING_CONFIRMATION => ConfirmedBookingIsComplete(input, context);
    case CANCEL_CONFIRMATION => ConfirmedCancelIsComplete(input, context);
    case RESCHEDULE_TIME =>
      hide BookingConfirmation, CancelConfirmation, FromMainMenu;
      assert context.Keys == {AppointmentId, Date};
    case MAIN_MENU => MenuGivesNoCommand(input);
    case _ => hide BookingConfirmation, CancelConfirmation, FromMainMenu;
  }

  lemma ConfirmedBookingIsComplete(input: Input, context: Context)
    requires WellFormed(BOOKING_CONFIRMATION, context)
    ensures var t, key := BookingConfirmation(input, context), CommandKey(input);
            && (t.command.Some? <==> ConfirmsBooking(key))
            && BookingExpired !in t.replies
            && (t.command.Some? ==> t.state.MAIN_MENU? && t.context == map[])
  {
    hide CommandKey, InputValue;
    assert context.Keys == {ServiceId, ProfessionalId, Date, Time, CustomerData};
    var key := CommandKey(input);
    assert forall other :: other in ["modify", "change", "back", "menu", "stop", "abort"] ==> !ConfirmsBooking(other);
  }

  lemma ConfirmedCancelIsComplete(input: Input, context: Context)
    requires WellFormed(CANCEL_CONFIRMATION, context)
    ensures var t, key := CancelConfirmation(input, context), CommandKey(input);
            && (t.command.Some? <==> ConfirmsCancel(key))
            && BookingExpired !in t.replies
            && (t.command.Some? ==> t.state.MAIN_MENU? && t.context == map[])
  {
    hide CommandKey, InputValue;
    assert context.Keys == {AppointmentId};
    assert forall other :: LeavesCancel(other) ==> !ConfirmsCancel(other);
  }

  /** The command repeats the collected fields, and the new time is the message itself. */
  lemma CommandsRepeatTheContext(state: State, context: Context, input: Input)
    requires WellFormed(state, context) && TransitionConversation(state, context, input).command.Some?
    ensures match TransitionConversation(state, context, input).command.value
            case CreateBooking(s, p, d, t, c) =>
              state.BOOKING_CONFIRMATION? &&
              context == map[ServiceId := s, ProfessionalId := p, Date := d, Time := t, CustomerData := c]
            case RescheduleBooking(a, d, t) =>
              state.RESCHEDULE_TIME? && context == map[AppointmentId := a, Date := d] && t == InputValue(input)
            case CancelBooking(a) => state.CANCEL_CONFIRMATION? && context == map[AppointmentId := a]
  {
    hide InputValue, FromMainMenu;
    match state
    case BOOKING_CONFIRMATION => BookingRepeatsTheContext(context, input);
    case CANCEL_CONFIRMATION =>
      hide BookingConfirmation;
      assert context.Keys == {AppointmentId};
    case RESCHEDULE_TIME =>
      hide BookingConfirmation, CancelConfirmation;
      assert context.Keys == {AppointmentId, Date};
    case _ => MenuGivesNoCommand(input);
  }

  lemma MenuGivesNoCommand(input: Input)
    ensures FromMainMenu(input).command.None? && BookingExpired !in FromMainMenu(input).replies
  {
    hide CommandKey, InputValue;
  }

  lemma BookingRepeatsTheContext(context: Context, input: Input)
    requires WellFormed(BOOKING_CONFIRMATION, context) && BookingConfirmation(input, context).command.Some?
    ensures match BookingConfirmation(input, context).command.value
            case CreateBooking(s, p, d, t, c) =>
              context == map[ServiceId := s, ProfessionalId := p, Date := d, Time := t, CustomerData := c]
            case _ => false
  {
    hide CommandKey;
    assert context.Keys == {ServiceId, ProfessionalId, Date, Time, CustomerData};
  }

  /** A transition to another context is a transition to another state, and nothing leaves a handoff but the menu keyword. */
  lemma ContextChangesOnlyWithState(state: State, context: Context, input: Input)
    requires WellFormed(state, context)
    ensures var t := TransitionConversation(state, context, input);
            t.state == state ==> t.context == context
    ensures state.HUMAN_HANDOFF? && CommandKey(input) != "main_menu" ==>
              TransitionConversation(state, context, input) == Transition(state, context, [], None)
  {
    assert state.MAIN_MENU? ==> context == map[];
  }
}
