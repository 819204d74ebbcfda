/**
 * The conversation state machine of bot.py as pure functions of the session
 * store: one function per handler, giving the new store, the messages sent
 * and the exception raised, if any. The handlers of the Bot class are proved
 * to compute exactly these.
 */
module Flow {
  import opened Wrappers
  import opened PyStr
  import opened Quiz
  import opened Lead
  import opened Store

  /** What a handler sends back; wording and markup are left abstract. */
  datatype Effect =
    | Pitch(button: Button)                            // photo, caption and one inline button
    | AskQuestion(text: string, buttons: seq<Button>)  // a question with one button per option
    | AnswerSaved(answer: string)
    | FormIntro
    | AskName
    | AskSurname
    | AskPhone                                          // with the one-shot contact-sharing keyboard
    | AskEmail                                          // and removes the custom keyboard
    | AskValidEmail
    | UserDataMissing
    | PostLead(request: Request)                        // the single POST to the intake endpoint
    | Report(outcome: Outcome)
    | AckCallback                                       // `callback.answer()`

  /** The Python exceptions a handler can raise; the dispatcher logs them and nothing else happens. */
  datatype Fault = ValueError | IndexError | ChatKeyError(chat: int) | FieldKeyError(field: string)

  /** The store after a handler, what it sent, and the exception that ended it early, if any. */
  datatype Turn = Turn(sessions: map<int, Session>, effects: seq<Effect>, fault: Option<Fault>)

  const PITCH_CAPTION := "Оставить заявку"

  /** `cmd_start`: the pitch, with a button whose data starts the quiz. */
  function OnStart(m: map<int, Session>): Turn {
    Turn(m, [Pitch(Button(PITCH_CAPTION, START_QUIZ))], None)
  }

  /** The message that offers question `q` (Python indexing). */
  function QuestionEffect(q: int): Effect
    requires -|QUESTIONS| <= q < |QUESTIONS|
  {
    AskQuestion(PyIndex(QUESTIONS, q).value.text, Keyboard(q))
  }

  /** `start_quiz_handler`. */
  function OnStartQuiz(m: map<int, Session>, chat: int): Turn {
    Turn(m[chat := NEW_SESSION], [QuestionEffect(0), AckCallback], None)
  }

  /**
   * `quiz_answer_handler`: decode the data, look the option up, append it to
   * the chat's answers, then offer the next question or start the form.
   * Raises before any change when the data is malformed, an index is out of
   * range or the chat has no session.
   */
  function OnAnswer(m: map<int, Session>, chat: int, data: string): Turn {
    match DecodeAnswer(data)
    case None => Turn(m, [], Some(ValueError))
    case Some((q, i)) =>
      match Answer(q, i)
      case None => Turn(m, [], Some(IndexError))
      case Some(answer) =>
        if chat !in m then Turn(m, [], Some(ChatKeyError(chat)))
        else SaveAnswer(m, chat, q, answer)
  }

  /** The answer handler once the option is found: append it, then the next question or the form. */
  function SaveAnswer(m: map<int, Session>, chat: int, q: int, answer: string): Turn
    requires chat in m && -|QUESTIONS| <= q < |QUESTIONS|
  {
    var s := m[chat].(quiz := m[chat].quiz + [answer]);
    if q + 1 < |QUESTIONS| then
      Turn(m[chat := s], [AnswerSaved(answer), QuestionEffect(q + 1), AckCallback], None)
    else
      Turn(m[chat := s.(step := Some(Name))], [AnswerSaved(answer), FormIntro, AskName, AckCallback], None)
  }

  /** The callback routing: `start_quiz` exactly, or data starting with `quiz_a`; anything else is not handled. */
  function OnCallback(m: map<int, Session>, chat: int, data: string): Turn {
    if data == START_QUIZ then OnStartQuiz(m, chat)
    else if StartsWith(data, ANSWER_PREFIX) then OnAnswer(m, chat, data)
    else Turn(m, [], None)
  }

  /** The payload `send_to_api` builds; reading a missing field raises KeyError, `name` first. */
  function Assemble(s: Session): Result<Payload, string> {
    if s.name.None? then Failure("name")
    else if s.surname.None? then Failure("surname")
    else if s.phone.None? then Failure("phone")
    else if s.email.None? then Failure("email")
    else Success(MakePayload(s.name.value, s.surname.value, s.phone.value, s.email.value))
  }

  /**
   * `send_to_api`: post the lead once, report the outcome and remove the
   * chat's session whatever the outcome; `reply` is what the endpoint or the
   * transport came back with.
   */
  function Submit(m: map<int, Session>, chat: int, reply: PostResult): Turn {
    if chat !in m then Turn(m, [UserDataMissing], None)
    else
      match Assemble(m[chat])
      case Failure(field) => Turn(m, [], Some(FieldKeyError(field)))
      case Success(payload) =>
        Turn(m - {chat}, [PostLead(RequestFor(payload)), Report(Classify(reply))], None)
  }

  /** `process_text`: ignored without a step, otherwise one form step on the stripped text. */
  function OnText(m: map<int, Session>, chat: int, text: string, reply: PostResult): Turn {
    if chat !in m || m[chat].step.None? then Turn(m, [], None)
    else
      var s := m[chat];
      var t := Strip(text);
      match s.step.value
      case Name => Turn(m[chat := s.(name := Some(t), step := Some(Surname))], [AskSurname], None)
      case Surname => Turn(m[chat := s.(surname := Some(t), step := Some(Phone))], [AskPhone], None)
      case Phone => Turn(m[chat := s.(phone := Some(t), step := Some(Email))], [AskEmail], None)
      case Email =>
        if IsValidEmail(t) then Submit(m[chat := s.(email := Some(t))], chat, reply)
        else Turn(m, [AskValidEmail], None)
  }

  /** `process_contact`: the shared number becomes the phone and the email is asked for next. */
  function OnContact(m: map<int, Session>, chat: int, phone: string): Turn {
    if chat !in m then Turn(m, [], Some(ChatKeyError(chat)))
    else Turn(m[chat := m[chat].(phone := Some(phone), step := Some(Email))], [AskEmail], None)
  }

  /**
   * An inbound update: a button press, a text message, or a shared contact.
   * `StartCommand(chat)` is shorthand for the text message `/start` from that
   * chat, which `OnEvent` routes to the same handler. A text message carries
   * what the endpoint would answer if it completed the form.
   */
  datatype Event =
    | StartCommand(chat: int)
    | Press(chat: int, data: string)
    | TextMessage(chat: int, text: string, reply: PostResult)
    | ContactMessage(chat: int, phone: string)

  const START_COMMAND := "/start"

  /**
   * The `Command("start")` filter on a text: its first word is `/start`,
   * alone or followed by `@` and a bot name.
   */
  predicate IsStartCommand(text: string) {
    var word := FirstWord(text);
    word == START_COMMAND || StartsWith(word, START_COMMAND + "@")
  }

  /**
   * The dispatcher: the `/start` handler is registered before the text
   * handler, so a typed start command reaches `cmd_start` at any step.
   */
  function OnEvent(m: map<int, Session>, e: Event): Turn {
    match e
    case StartCommand(_) => OnStart(m)
    case Press(chat, data) => OnCallback(m, chat, data)
    case TextMessage(chat, text, reply) =>
      if IsStartCommand(text) then OnStart(m) else OnText(m, chat, text, reply)
    case ContactMessage(chat, phone) => OnContact(m, chat, phone)
  }

  /** The store after a sequence of events handled one at a time, everything sent, and the exceptions logged. */
  datatype Trace = Trace(sessions: map<int, Session>, effects: seq<Effect>, faults: seq<Fault>)

  function Run(m: map<int, Session>, events: seq<Event>): Trace
    decreases |events|
  {
    if events == [] then Trace(m, [], [])
    else
      var t := OnEvent(m, events[0]);
      var rest := Run(t.sessions, events[1..]);
      Trace(rest.sessions, t.effects + rest.effects,
            (if t.fault.Some? then [t.fault.value] else []) + rest.faults)
  }

  // ---------------------------------------------------------------------------
  // Single handlers

  /** Starting the quiz overwrites the chat's record with `{quiz: []}` and offers question 0; other chats keep theirs. */
  lemma StartQuizResets(m: map<int, Session>, chat: int)
    ensures OnStartQuiz(m, chat).sessions.Keys == m.Keys + {chat}
    ensures OnStartQuiz(m, chat).sessions[chat] == Session([], None, None, None, None, None)
    ensures forall c :: c in m && c != chat ==> OnStartQuiz(m, chat).sessions[c] == m[c]
    ensures OnStartQuiz(m, chat).effects == [AskQuestion(QUESTIONS[0].text, Keyboard(0)), AckCallback]
    ensures OnStartQuiz(m, chat).fault == None
  {
  }

  /** The pitch has one button, and pressing it starts the quiz, whatever the store; no record changes. */
  lemma PitchStartsQuiz(m: map<int, Session>, chat: int)
    ensures OnStart(m).sessions == m && OnStart(m).fault == None
    ensures |OnStart(m).effects| == 1 && OnStart(m).effects[0].Pitch?
    ensures OnCallback(m, chat, OnStart(m).effects[0].button.data) == OnStartQuiz(m, chat)
  {
  }

  /** A typed start command is answered with the pitch at any step, and changes no record. */
  lemma TypedStartCommand(m: map<int, Session>, chat: int, text: string, reply: PostResult)
    requires IsStartCommand(text)
    ensures OnEvent(m, TextMessage(chat, text, reply)) == OnStart(m)
    ensures OnEvent(m, TextMessage(chat, text, reply)).sessions == m
  {
  }

  /**
   * The command alone or addressed to a bot by name, followed by the end of
   * the text or by white space and an argument, is a start command.
   */
  lemma StartCommandForms(bot: string, rest: string)
    requires forall k :: 0 <= k < |bot| ==> !IsSpace(bot[k])
    requires rest == [] || IsSpace(rest[0])
    ensures IsStartCommand(START_COMMAND + rest)
    ensures IsStartCommand(START_COMMAND + "@" + bot + rest)
  {
    var plain := START_COMMAND + rest;
    assert plain[0] == '/';
    TakeWordOfWord(START_COMMAND, rest);
    var word := START_COMMAND + "@" + bot;
    var addressed := word + rest;
    assert addressed[0] == '/';
    forall k | 0 <= k < |word|
      ensures !IsSpace(word[k])
    {
      if k >= |START_COMMAND| + 1 {
        assert word[k] == bot[k - |START_COMMAND| - 1];
      }
    }
    TakeWordOfWord(word, rest);
    assert word[..|START_COMMAND + "@"|] == START_COMMAND + "@";
  }

  /** A text whose first character past the leading white space is not `/`, a typed name for one, is no start command. */
  lemma NoSlashNoStartCommand(text: string)
    requires TrimStart(text) == [] || TrimStart(text)[0] != '/'
    ensures !IsStartCommand(text)
  {
    var word := FirstWord(text);
    TakeWordSpec(TrimStart(text));
    if word != [] {
      assert word[0] == TrimStart(text)[0];
    }
    assert START_COMMAND[0] == '/';
  }

  /** The data of an answer button reaches the answer handler. */
  lemma AnswerRouted(m: map<int, Session>, chat: int, q: int, i: int)
    requires 0 <= q < |QUESTIONS| && 0 <= i < |QUESTIONS[q].options|
    ensures OnCallback(m, chat, AnswerData(q, i)) == OnAnswer(m, chat, AnswerData(q, i))
  {
    AnswerDataRoundTrip(q, i);
  }

  /**
   * Answering question `q`, not the last, with option `i` appends exactly
   * that option to the chat's answers, whatever they held before, and offers
   * question q+1. Nothing else changes.
   */
  lemma AnswerNext(m: map<int, Session>, chat: int, q: int, i: int)
    requires chat in m
    requires 0 <= q < |QUESTIONS| - 1 && 0 <= i < |QUESTIONS[q].options|
    ensures var a := QUESTIONS[q].options[i];
      OnAnswer(m, chat, AnswerData(q, i)) ==
        Turn(m[chat := m[chat].(quiz := m[chat].quiz + [a])],
             [AnswerSaved(a), AskQuestion(QUESTIONS[q + 1].text, Keyboard(q + 1)), AckCallback], None)
  {
    AnswerDataRoundTrip(q, i);
  }

  /** Answering the last question appends the option and moves the chat to the name step of the form. */
  lemma AnswerLast(m: map<int, Session>, chat: int, i: int)
    requires chat in m
    requires 0 <= i < |QUESTIONS[|QUESTIONS| - 1].options|
    ensures var q := |QUESTIONS| - 1; var a := QUESTIONS[q].options[i];
      OnAnswer(m, chat, AnswerData(q, i)) ==
        Turn(m[chat := m[chat].(quiz := m[chat].quiz + [a], step := Some(Name))],
             [AnswerSaved(a), FormIntro, AskName, AckCallback], None)
  {
    AnswerDataRoundTrip(|QUESTIONS| - 1, i);
  }

  /** The answer handler raises, and changes nothing, on malformed data, an index out of range or a missing session. */
  lemma AnswerFaults(m: map<int, Session>, chat: int, data: string)
    ensures DecodeAnswer(data) == None ==> OnAnswer(m, chat, data) == Turn(m, [], Some(ValueError))
    ensures forall q, i :: DecodeAnswer(data) == Some((q, i)) && Answer(q, i) == None ==>
      OnAnswer(m, chat, data) == Turn(m, [], Some(IndexError))
    ensures DecodeAnswer(data).Some? && chat !in m ==>
      OnAnswer(m, chat, data).sessions == m && OnAnswer(m, chat, data).effects == []
  {
  }

  /** A text for a chat without a session, or without a step, changes nothing and gets no reply. */
  lemma TextWithoutStepIgnored(m: map<int, Session>, chat: int, text: string, reply: PostResult)
    requires chat !in m || m[chat].step == None
    ensures OnText(m, chat, text, reply) == Turn(m, [], None)
  {
  }

  /** At the name step the stripped text becomes the name and the surname is asked for. */
  lemma NameStep(m: map<int, Session>, chat: int, text: string, reply: PostResult)
    requires chat in m && m[chat].step == Some(Name)
    ensures OnText(m, chat, text, reply) ==
      Turn(m[chat := m[chat].(name := Some(Strip(text)), step := Some(Surname))], [AskSurname], None)
  {
  }

  /** At the surname step the stripped text becomes the surname and the phone is asked for. */
  lemma SurnameStep(m: map<int, Session>, chat: int, text: string, reply: PostResult)
    requires chat in m && m[chat].step == Some(Surname)
    ensures OnText(m, chat, text, reply) ==
      Turn(m[chat := m[chat].(surname := Some(Strip(text)), step := Some(Phone))], [AskPhone], None)
  {
  }

  /** At the phone step the stripped text becomes the phone and the email is asked for. */
  lemma PhoneStep(m: map<int, Session>, chat: int, text: string, reply: PostResult)
    requires chat in m && m[chat].step == Some(Phone)
    ensures OnText(m, chat, text, reply) ==
      Turn(m[chat := m[chat].(phone := Some(Strip(text)), step := Some(Email))], [AskEmail], None)
  {
  }

  /** At the email step a stripped text holding an `@` and a `.` is stored and the lead submitted. */
  lemma EmailAccepted(m: map<int, Session>, chat: int, text: string, reply: PostResult)
    requires chat in m && m[chat].step == Some(Email) && IsValidEmail(Strip(text))
    ensures OnText(m, chat, text, reply) == Submit(m[chat := m[chat].(email := Some(Strip(text)))], chat, reply)
  {
  }

  /** At the email step any other text changes nothing and the user is asked again. */
  lemma EmailRejected(m: map<int, Session>, chat: int, text: string, reply: PostResult)
    requires chat in m && m[chat].step == Some(Email) && !IsValidEmail(Strip(text))
    ensures OnText(m, chat, text, reply) == Turn(m, [AskValidEmail], None)
  {
  }

  /** A shared contact sets the phone and the email step whatever the step was; without a session it raises. */
  lemma ContactSetsPhone(m: map<int, Session>, chat: int, phone: string)
    ensures chat in m ==>
      OnContact(m, chat, phone) == Turn(m[chat := m[chat].(phone := Some(phone), step := Some(Email))], [AskEmail], None)
    ensures chat !in m ==> OnContact(m, chat, phone) == Turn(m, [], Some(ChatKeyError(chat)))
  {
  }

  /**
   * A complete session is posted once with the token pre-image
   * name ++ surname ++ email ++ phone ++ "0.0.0.0", the outcome is reported,
   * and the session is removed whatever the outcome; other chats keep theirs.
   */
  lemma SubmitComplete(m: map<int, Session>, chat: int, reply: PostResult)
    requires chat in m
    requires m[chat].name.Some? && m[chat].surname.Some? && m[chat].phone.Some? && m[chat].email.Some?
    ensures var s := m[chat];
      var p := MakePayload(s.name.value, s.surname.value, s.phone.value, s.email.value);
      && Submit(m, chat, reply).effects == [PostLead(RequestFor(p)), Report(Classify(reply))]
      && RequestFor(p).tokenSource == s.name.value + s.surname.value + s.email.value + s.phone.value + "0.0.0.0"
    ensures Submit(m, chat, reply).fault == None
    ensures Submit(m, chat, reply).sessions.Keys == m.Keys - {chat}
    ensures forall c :: c in m && c != chat ==> Submit(m, chat, reply).sessions[c] == m[c]
  {
  }

  /** A missing field raises KeyError before the POST, and the session is then not removed. */
  lemma SubmitIncomplete(m: map<int, Session>, chat: int, reply: PostResult)
    requires chat in m
    requires m[chat].name.None? || m[chat].surname.None? || m[chat].phone.None? || m[chat].email.None?
    ensures Submit(m, chat, reply).sessions == m && Submit(m, chat, reply).effects == []
    ensures Submit(m, chat, reply).fault == Some(FieldKeyError(
      if m[chat].name.None? then "name" else if m[chat].surname.None? then "surname"
      else if m[chat].phone.None? then "phone" else "email"))
  {
  }

  // ---------------------------------------------------------------------------
  // The store invariant

  lemma AnswerKeepsValid(m: map<int, Session>, chat: int, data: string)
    requires Valid(m)
    ensures Valid(OnAnswer(m, chat, data).sessions)
  {
    match DecodeAnswer(data)
    case None =>
    case Some((q, i)) =>
      match Answer(q, i)
      case None =>
      case Some(answer) =>
        if chat in m {
          AppendKeepsValid(m, chat, answer);
        }
  }

  /** Appending an option of some question to a well-formed session keeps it well formed, with or without a step change. */
  lemma AppendKeepsValid(m: map<int, Session>, chat: int, answer: string)
    requires Valid(m) && chat in m && IsOption(answer)
    ensures var s := m[chat].(quiz := m[chat].quiz + [answer]);
      Valid(m[chat := s]) && Valid(m[chat := s.(step := Some(Name))])
  {
    var s := m[chat].(quiz := m[chat].quiz + [answer]);
    assert WellFormed(s) by {
      assert forall k :: 0 <= k < |m[chat].quiz| ==> s.quiz[k] == m[chat].quiz[k];
      assert s.quiz[|m[chat].quiz|] == answer;
    }
    ValidUpdate(m, chat, s);
    ValidUpdate(m, chat, s.(step := Some(Name)));
  }

  lemma ValidUpdate(m: map<int, Session>, chat: int, s: Session)
    requires Valid(m) && WellFormed(s)
    ensures Valid(m[chat := s])
  {
  }

  lemma SubmitKeepsValid(m: map<int, Session>, chat: int, reply: PostResult)
    requires Valid(m)
    ensures Valid(Submit(m, chat, reply).sessions)
  {
  }

  lemma TextKeepsValid(m: map<int, Session>, chat: int, text: string, reply: PostResult)
    requires Valid(m)
    ensures Valid(OnText(m, chat, text, reply).sessions)
  {
    if chat in m && m[chat].step.Some? {
      var s, t := m[chat], Strip(text);
      match s.step.value
      case Name => ValidUpdate(m, chat, s.(name := Some(t), step := Some(Surname)));
      case Surname => ValidUpdate(m, chat, s.(surname := Some(t), step := Some(Phone)));
      case Phone => ValidUpdate(m, chat, s.(phone := Some(t), step := Some(Email)));
      case Email =>
        ValidUpdate(m, chat, s.(email := Some(t)));
        SubmitKeepsValid(m[chat := s.(email := Some(t))], chat, reply);
    }
  }

  lemma EventKeepsValid(m: map<int, Session>, e: Event)
    requires Valid(m)
    ensures Valid(OnEvent(m, e).sessions)
  {
    match e
    case StartCommand(_) =>
    case Press(chat, data) =>
      if data == START_QUIZ {
        ValidUpdate(m, chat, NEW_SESSION);
      } else if StartsWith(data, ANSWER_PREFIX) {
        AnswerKeepsValid(m, chat, data);
      }
    case TextMessage(chat, text, reply) =>
      if !IsStartCommand(text) {
        TextKeepsValid(m, chat, text, reply);
      }
    case ContactMessage(chat, phone) =>
      if chat in m {
        ValidUpdate(m, chat, m[chat].(phone := Some(phone), step := Some(Email)));
      }
  }

  /** Every store reached from a valid one satisfies the invariant. */
  lemma {:induction false} RunKeepsValid(m: map<int, Session>, events: seq<Event>)
    requires Valid(m)
    ensures Valid(Run(m, events).sessions)
    decreases |events|
  {
    if events != [] {
      EventKeepsValid(m, events[0]);
      RunKeepsValid(OnEvent(m, events[0]).sessions, events[1..]);
    }
  }

}
