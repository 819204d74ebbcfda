/**
 * The handlers of bot.py over the mutable `user_data` dict: one object whose
 * `sessions` field the handlers update in place, statement by statement as
 * the source does. Each handler is proved to leave the store, and to send,
 * exactly what the matching Flow function says, and to keep the store
 * invariant.
 */
module Bot {
  import opened Wrappers
  import opened PyStr
  import opened Quiz
  import opened Lead
  import opened Store
  import opened Flow

  /** Four messages sent one after the other. */
  lemma Sent4<T>(a: T, b: T, c: T, d: T)
    ensures [a] + [b] + [c] + [d] == [a, b, c, d]
  {
  }

  class Bot {
    /** `user_data`: chat id to that chat's record. */
    var sessions: map<int, Session>

    ghost predicate Valid()
      reads this
    {
      Store.Valid(sessions)
    }

    /** At start-up no chat has a record. */
    constructor()
      ensures sessions == map[] && Valid()
    {
      sessions := map[];
    }

    /** `cmd_start`: sends the pitch, one button that starts the quiz for whoever presses it, and touches no record. */
    method CmdStart() returns (effects: seq<Effect>)
      ensures |effects| == 1 && effects[0].Pitch?
      ensures forall m, chat :: OnCallback(m, chat, effects[0].button.data) == OnStartQuiz(m, chat)
      ensures Turn(sessions, effects, None) == OnStart(sessions)
    {
      effects := [Pitch(Button(PITCH_CAPTION, START_QUIZ))];
    }

    /** `start_quiz_handler`: a fresh record for the chat, then question 0. */
    method StartQuiz(chat: int) returns (effects: seq<Effect>)
      requires Valid()
      modifies this
      ensures Turn(sessions, effects, None) == OnStartQuiz(old(sessions), chat)
      ensures Valid()
    {
      ValidUpdate(sessions, chat, NEW_SESSION);
      sessions := sessions[chat := NEW_SESSION];
      var question := QUESTIONS[0];
      effects := [AskQuestion(question.text, Keyboard(0))];
      effects := effects + [AckCallback];
    }

    /**
     * `quiz_answer_handler`: unpack the data, read both indices, look the
     * option up, append it to the chat's answers, then offer the next
     * question or start the form. The first exception ends the handler.
     */
    method QuizAnswer(chat: int, data: string) returns (effects: seq<Effect>, fault: Option<Fault>)
      requires Valid()
      modifies this
      ensures Turn(sessions, effects, fault) == OnAnswer(old(sessions), chat, data)
      ensures Valid()
    {
      AnswerKeepsValid(sessions, chat, data);
      effects, fault := [], None;
      var indices := ReadIndices(data);
      if indices.None? {
        fault := Some(ValueError);
        return;
      }
      var (q, i) := indices.value;
      var answer := Answer(q, i);
      if answer.None? {
        fault := Some(IndexError);
        return;
      }
      if chat !in sessions {
        fault := Some(ChatKeyError(chat));
        return;
      }
      effects := SaveAnswer(chat, q, answer.value);
    }

    /** The rest of `quiz_answer_handler`: append the answer, confirm it, then the next question or the form. */
    method SaveAnswer(chat: int, q: int, answer: string) returns (effects: seq<Effect>)
      requires chat in sessions && -|QUESTIONS| <= q < |QUESTIONS|
      modifies this
      ensures Turn(sessions, effects, None) == Flow.SaveAnswer(old(sessions), chat, q, answer)
    {
      var s := sessions[chat].(quiz := sessions[chat].quiz + [answer]);
      sessions := sessions[chat := s];
      effects := [AnswerSaved(answer)];
      if q + 1 < |QUESTIONS| {
        effects := effects + [QuestionEffect(q + 1)];
        effects := effects + [AckCallback];
      } else {
        effects := effects + [FormIntro];
        var asked := AskForName(chat);
        effects := effects + asked;
        effects := effects + [AckCallback];
        Sent4(AnswerSaved(answer), FormIntro, AskName, AckCallback);
      }
    }

    /**
     * The unpacking at the head of `quiz_answer_handler`: exactly four
     * `_`-separated parts, the third and fourth read by `int()`; None where
     * Python raises ValueError.
     */
    static method ReadIndices(data: string) returns (indices: Option<(int, int)>)
      ensures indices == DecodeAnswer(data)
    {
      var parts := Split(data, '_');
      if |parts| != 4 {
        return None;
      }
      var qIndex := ParseInt(parts[2]);
      if qIndex.None? {
        return None;
      }
      var ansIndex := ParseInt(parts[3]);
      if ansIndex.None? {
        return None;
      }
      return Some((qIndex.value, ansIndex.value));
    }

    /** `ask_name`: the chat moves to the name step. Only reached for a chat that has a record. */
    method AskForName(chat: int) returns (effects: seq<Effect>)
      requires chat in sessions
      modifies this
      ensures sessions == old(sessions)[chat := old(sessions)[chat].(step := Some(Name))]
      ensures effects == [AskName]
    {
      sessions := sessions[chat := sessions[chat].(step := Some(Name))];
      effects := [AskName];
    }

    /** The callback routing: the start button by its exact data, answers by prefix; other data reaches no handler. */
    method Callback(chat: int, data: string) returns (effects: seq<Effect>, fault: Option<Fault>)
      requires Valid()
      modifies this
      ensures Turn(sessions, effects, fault) == OnCallback(old(sessions), chat, data)
      ensures Valid()
    {
      if data == START_QUIZ {
        effects := StartQuiz(chat);
        fault := None;
      } else if StartsWith(data, ANSWER_PREFIX) {
        effects, fault := QuizAnswer(chat, data);
      } else {
        effects, fault := [], None;
      }
    }

    /**
     * `process_text`: nothing without a step; otherwise store the stripped
     * text in the field of the step and ask for the next one, or at the email
     * step submit a plausible address and ask again for any other text.
     */
    method ProcessText(chat: int, text: string, reply: PostResult) returns (effects: seq<Effect>, fault: Option<Fault>)
      requires Valid()
      modifies this
      ensures Turn(sessions, effects, fault) == OnText(old(sessions), chat, text, reply)
      ensures Valid()
    {
      TextKeepsValid(sessions, chat, text, reply);
      effects, fault := [], None;
      var step := if chat in sessions then sessions[chat].step else None;
      if step.None? {
        return;
      }
      var t := Strip(text);
      match step.value
      case Name =>
        sessions := sessions[chat := sessions[chat].(name := Some(t))];
        sessions := sessions[chat := sessions[chat].(step := Some(Surname))];
        effects := [AskSurname];
      case Surname =>
        sessions := sessions[chat := sessions[chat].(surname := Some(t))];
        sessions := sessions[chat := sessions[chat].(step := Some(Phone))];
        effects := [AskPhone];
      case Phone =>
        sessions := sessions[chat := sessions[chat].(phone := Some(t))];
        sessions := sessions[chat := sessions[chat].(step := Some(Email))];
        effects := [AskEmail];
      case Email =>
        if IsValidEmail(t) {
          sessions := sessions[chat := sessions[chat].(email := Some(t))];
          effects, fault := SendToApi(chat, reply);
        } else {
          effects := [AskValidEmail];
        }
    }

    /** `process_contact`: the shared number becomes the phone and the email is asked for next. */
    method ProcessContact(chat: int, phone: string) returns (effects: seq<Effect>, fault: Option<Fault>)
      requires Valid()
      modifies this
      ensures Turn(sessions, effects, fault) == OnContact(old(sessions), chat, phone)
      ensures Valid()
    {
      if chat !in sessions {
        effects, fault := [], Some(ChatKeyError(chat));
        return;
      }
      ValidUpdate(sessions, chat, sessions[chat].(phone := Some(phone), step := Some(Email)));
      sessions := sessions[chat := sessions[chat].(phone := Some(phone))];
      sessions := sessions[chat := sessions[chat].(step := Some(Email))];
      effects, fault := [AskEmail], None;
    }

    /**
     * `send_to_api`: read the four fields, post the lead once, report how the
     * endpoint or the transport answered and drop the chat's record.
     */
    method SendToApi(chat: int, reply: PostResult) returns (effects: seq<Effect>, fault: Option<Fault>)
      requires Valid()
      modifies this
      ensures Turn(sessions, effects, fault) == Submit(old(sessions), chat, reply)
      ensures Valid()
    {
      effects, fault := [], None;
      if chat !in sessions {
        effects := [UserDataMissing];
        return;
      }
      var data := sessions[chat];
      if data.name.None? {
        fault := Some(FieldKeyError("name"));
        return;
      }
      if data.surname.None? {
        fault := Some(FieldKeyError("surname"));
        return;
      }
      if data.phone.None? {
        fault := Some(FieldKeyError("phone"));
        return;
      }
      if data.email.None? {
        fault := Some(FieldKeyError("email"));
        return;
      }
      var payload := MakePayload(data.name.value, data.surname.value, data.phone.value, data.email.value);
      var request := Request(payload, CONTENT_TYPE, TokenSource(payload), USER_AGENT);
      effects := [PostLead(request)];
      effects := effects + [Report(Classify(reply))];
      sessions := sessions - {chat};
    }

    /** One inbound update, routed as the dispatcher's filters route it. */
    method Handle(e: Event) returns (effects: seq<Effect>, fault: Option<Fault>)
      requires Valid()
      modifies this
      ensures Turn(sessions, effects, fault) == OnEvent(old(sessions), e)
      ensures Valid()
    {
      match e
      case StartCommand(_) =>
        effects := CmdStart();
        fault := None;
      case Press(chat, data) =>
        effects, fault := Callback(chat, data);
      case TextMessage(chat, text, reply) =>
        if IsStartCommand(text) {
          effects := CmdStart();
          fault := None;
        } else {
          effects, fault := ProcessText(chat, text, reply);
        }
      case ContactMessage(chat, phone) =>
        effects, fault := ProcessContact(chat, phone);
    }
  }
}
