/**
 * Whole conversations: runs of several events through the handlers, the
 * intended end-to-end flow (pitch, four answers, name, surname, phone, email,
 * submission), and runs the code also allows beyond that flow (re-pressed
 * buttons, a contact shared before the form).
 */
module Scenarios {
  import opened Wrappers
  import opened PyStr
  import opened Quiz
  import opened Lead
  import opened Store
  import opened Flow

  /** A trace extended by one more handled event. */
  function Then(trace: Trace, t: Turn): Trace {
    Trace(t.sessions, trace.effects + t.effects,
          trace.faults + (if t.fault.Some? then [t.fault.value] else []))
  }

  /** Handling one more event at the end of a run. */
  lemma RunSnoc(m: map<int, Session>, events: seq<Event>, e: Event)
    ensures Run(m, events + [e]) == Then(Run(m, events), OnEvent(Run(m, events).sessions, e))
  {
    RunAppend(m, events, [e]);
    RunOne(Run(m, events).sessions, e);
  }

  /** `/start`, the quiz start and one answer to each question: option `i0` of question 0, and so on. */
  function Quizzing(chat: int, i0: int, i1: int, i2: int, i3: int): seq<Event> {
    [ StartCommand(chat),
      Press(chat, START_QUIZ),
      Press(chat, AnswerData(0, i0)),
      Press(chat, AnswerData(1, i1)),
      Press(chat, AnswerData(2, i2)),
      Press(chat, AnswerData(3, i3))]
  }

  /** Each pick names one of the options of its question. */
  predicate Picks(i0: int, i1: int, i2: int, i3: int) {
    && 0 <= i0 < |QUESTIONS[0].options| && 0 <= i1 < |QUESTIONS[1].options|
    && 0 <= i2 < |QUESTIONS[2].options| && 0 <= i3 < |QUESTIONS[3].options|
  }

  /** The answers those picks stand for, in question order. */
  function Picked(i0: int, i1: int, i2: int, i3: int): seq<string>
    requires Picks(i0, i1, i2, i3)
  {
    [QUESTIONS[0].options[i0], QUESTIONS[1].options[i1], QUESTIONS[2].options[i2], QUESTIONS[3].options[i3]]
  }

  /** Pressing the button of option `i` of question `q` in the middle of a run. */
  lemma PressAnswer(m: map<int, Session>, events: seq<Event>, chat: int, q: int, i: int)
    requires chat in Run(m, events).sessions
    requires 0 <= q < |QUESTIONS| && 0 <= i < |QUESTIONS[q].options|
    ensures var before := Run(m, events).sessions;
      var s := before[chat].(quiz := before[chat].quiz + [QUESTIONS[q].options[i]]);
      Run(m, events + [Press(chat, AnswerData(q, i))]).sessions
        == before[chat := if q + 1 < |QUESTIONS| then s else s.(step := Some(Name))]
    ensures Run(m, events + [Press(chat, AnswerData(q, i))]).faults == Run(m, events).faults
  {
    var before := Run(m, events).sessions;
    RunSnoc(m, events, Press(chat, AnswerData(q, i)));
    AnswerRouted(before, chat, q, i);
    if q + 1 < |QUESTIONS| {
      AnswerNext(before, chat, q, i);
    } else {
      AnswerLast(before, chat, i);
    }
  }

  /**
   * In a run that left only this chat's record, with the given answers and
   * no step, answering question `q` appends the answer; the last question
   * moves the chat to the name step. No exception is raised.
   */
  lemma AnswerStep(es: seq<Event>, chat: int, answers: seq<string>, q: int, i: int)
    requires Run(map[], es).sessions == map[chat := Session(answers, None, None, None, None, None)]
    requires Run(map[], es).faults == []
    requires 0 <= q < |QUESTIONS| && 0 <= i < |QUESTIONS[q].options|
    ensures Run(map[], es + [Press(chat, AnswerData(q, i))]).faults == []
    ensures Run(map[], es + [Press(chat, AnswerData(q, i))]).sessions == map[chat := Session(
      answers + [QUESTIONS[q].options[i]], if q + 1 < |QUESTIONS| then None else Some(Name), None, None, None, None)]
  {
    var before := Session(answers, None, None, None, None, None);
    var s := before.(quiz := answers + [QUESTIONS[q].options[i]]);
    PressAnswer(map[], es, chat, q, i);
    UpdateTwice(map[], chat, before, if q + 1 < |QUESTIONS| then s else s.(step := Some(Name)));
  }

  /** The pitch and then the quiz start leave a fresh record for the chat. */
  lemma QuizOpened(chat: int)
    ensures Run(map[], [StartCommand(chat), Press(chat, START_QUIZ)]).faults == []
    ensures Run(map[], [StartCommand(chat), Press(chat, START_QUIZ)]).sessions
            == map[chat := Session([], None, None, None, None, None)]
  {
    var es0 := [StartCommand(chat)];
    assert es0 == [] + [StartCommand(chat)];
    RunSnoc(map[], [], StartCommand(chat));
    assert es0 + [Press(chat, START_QUIZ)] == [StartCommand(chat), Press(chat, START_QUIZ)];
    RunSnoc(map[], es0, Press(chat, START_QUIZ));
  }

  /** After the four answers, whichever options were picked, the session holds them in order and asks for the name. */
  lemma QuizFlow(chat: int, i0: int, i1: int, i2: int, i3: int)
    requires Picks(i0, i1, i2, i3)
    ensures Run(map[], Quizzing(chat, i0, i1, i2, i3)).faults == []
    ensures Run(map[], Quizzing(chat, i0, i1, i2, i3)).sessions
            == map[chat := Session(Picked(i0, i1, i2, i3), Some(Name), None, None, None, None)]
  {
    var a := Picked(i0, i1, i2, i3);
    var es1 := [StartCommand(chat), Press(chat, START_QUIZ)];
    QuizOpened(chat);
    var es2 := es1 + [Press(chat, AnswerData(0, i0))];
    AnswerStep(es1, chat, [], 0, i0);
    var es3 := es2 + [Press(chat, AnswerData(1, i1))];
    AnswerStep(es2, chat, [] + [a[0]], 1, i1);
    var es4 := es3 + [Press(chat, AnswerData(2, i2))];
    AnswerStep(es3, chat, [] + [a[0]] + [a[1]], 2, i2);
    var es5 := es4 + [Press(chat, AnswerData(3, i3))];
    AnswerStep(es4, chat, [] + [a[0]] + [a[1]] + [a[2]], 3, i3);
    Snoc4(StartCommand(chat), Press(chat, START_QUIZ), Press(chat, AnswerData(0, i0)), Press(chat, AnswerData(1, i1)),
          Press(chat, AnswerData(2, i2)), Press(chat, AnswerData(3, i3)));
    FromEmpty4(a[0], a[1], a[2], a[3]);
  }

  /** Four elements appended one at a time to a list of two. */
  lemma Snoc4<T>(x: T, y: T, a: T, b: T, c: T, d: T)
    ensures [x, y] + [a] + [b] + [c] + [d] == [x, y, a, b, c, d]
  {
  }

  /** Four elements appended one at a time to an empty list. */
  lemma FromEmpty4<T>(a: T, b: T, c: T, d: T)
    ensures [] + [a] + [b] + [c] + [d] == [a, b, c, d]
  {
  }

  /** No effect in the list is a posted lead. */
  predicate NothingPosted(effects: seq<Effect>) {
    forall k :: 0 <= k < |effects| ==> !effects[k].PostLead?
  }

  /** Saving an answer sends a confirmation and the next question or the form's first prompt, never a lead. */
  lemma SaveAnswerPostsNothing(m: map<int, Session>, chat: int, q: int, answer: string)
    requires chat in m && -|QUESTIONS| <= q < |QUESTIONS|
    ensures NothingPosted(SaveAnswer(m, chat, q, answer).effects)
  {
  }

  /** The answer handler posts no lead, whatever the data. */
  lemma AnswerPostsNothing(m: map<int, Session>, chat: int, data: string)
    ensures NothingPosted(OnAnswer(m, chat, data).effects)
  {
    match DecodeAnswer(data)
    case None =>
    case Some((q, i)) =>
      match Answer(q, i)
      case None =>
      case Some(answer) =>
        if chat in m {
          SaveAnswerPostsNothing(m, chat, q, answer);
        }
  }

  /** Only a typed text can complete the form, so no other event posts a lead. */
  lemma EventPostsNothing(m: map<int, Session>, e: Event)
    requires !e.TextMessage?
    ensures NothingPosted(OnEvent(m, e).effects)
  {
    match e
    case StartCommand(_) =>
    case Press(chat, data) =>
      if data != START_QUIZ && StartsWith(data, ANSWER_PREFIX) {
        AnswerPostsNothing(m, chat, data);
      }
    case ContactMessage(_, _) =>
  }

  /** A run without a text message posts no lead. */
  lemma {:induction false} RunWithoutTextPostsNothing(m: map<int, Session>, events: seq<Event>)
    requires forall k :: 0 <= k < |events| ==> !events[k].TextMessage?
    ensures NothingPosted(Run(m, events).effects)
    decreases |events|
  {
    if events != [] {
      var t := OnEvent(m, events[0]);
      EventPostsNothing(m, events[0]);
      assert forall k :: 0 <= k < |events[1..]| ==> events[1..][k] == events[k + 1];
      RunWithoutTextPostsNothing(t.sessions, events[1..]);
      var rest := Run(t.sessions, events[1..]).effects;
      assert Run(m, events).effects == t.effects + rest;
      forall k | 0 <= k < |t.effects + rest|
        ensures !(t.effects + rest)[k].PostLead?
      {
        if k >= |t.effects| {
          assert (t.effects + rest)[k] == rest[k - |t.effects|];
        }
      }
    }
  }

  /** The trace of one event alone. */
  function Single(t: Turn): Trace {
    Trace(t.sessions, t.effects, if t.fault.Some? then [t.fault.value] else [])
  }

  /** Two traces one after the other: the second one's store, and both effects and faults in order. */
  function Concat(first: Trace, second: Trace): Trace {
    Trace(second.sessions, first.effects + second.effects, first.faults + second.faults)
  }

  /** One event alone is handled as `OnEvent` handles it. */
  lemma RunOne(m: map<int, Session>, e: Event)
    ensures Run(m, [e]) == Single(OnEvent(m, e))
  {
    assert [e][1..] == [];
  }

  /** A run over two sequences of events is the run over the first one followed by the run over the second. */
  lemma {:induction false} RunAppend(m: map<int, Session>, a: seq<Event>, b: seq<Event>)
    ensures Run(m, a + b) == Concat(Run(m, a), Run(Run(m, a).sessions, b))
    decreases |a|
  {
    if a == [] {
      assert a + b == b;
    } else {
      var t := OnEvent(m, a[0]);
      assert (a + b)[0] == a[0];
      assert (a + b)[1..] == a[1..] + b;
      RunAppend(t.sessions, a[1..], b);
      var first := Run(t.sessions, a[1..]);
      var second := Run(first.sessions, b);
      var faults := if t.fault.Some? then [t.fault.value] else [];
      assert t.effects + (first.effects + second.effects) == (t.effects + first.effects) + second.effects;
      assert faults + (first.faults + second.faults) == (faults + first.faults) + second.faults;
    }
  }

  /** Two lists of two elements one after the other. */
  lemma Append22<T>(a: T, b: T, c: T, d: T)
    ensures [a, b] + [c, d] == [a, b, c, d]
  {
  }

  /** Two lists, of two and of three elements, one after the other. */
  lemma Append23<T>(a: T, b: T, c: T, d: T, e: T)
    ensures [a, b] + [c, d, e] == [a, b, c, d, e]
  {
  }

  /** Removing a key forgets what was last stored under it. */
  lemma RemoveUpdated<K, V>(m: map<K, V>, k: K, v: V)
    ensures m[k := v] - {k} == m - {k}
  {
  }

  /** The last two elements of a list that ends with five known ones. */
  lemma LastTwoOf<T>(xs: seq<T>, a: T, b: T, c: T, d: T, e: T)
    ensures |xs + [a, b, c, d, e]| >= 2
    ensures (xs + [a, b, c, d, e])[|xs + [a, b, c, d, e]| - 2..] == [d, e]
  {
    var ys := xs + [a, b, c, d, e];
    assert ys[|ys| - 2..] == [ys[|ys| - 2], ys[|ys| - 1]];
  }

  /** A second store under the same key replaces the first. */
  lemma UpdateTwice<K, V>(m: map<K, V>, k: K, v: V, w: V)
    ensures m[k := v][k := w] == m[k := w]
  {
  }

  /** Removing the only key leaves nothing. */
  lemma RemoveOnly<K, V>(k: K, v: V)
    ensures map[k := v] - {k} == map[]
  {
  }

  /** Two events, each run alone. */
  lemma RunPair(m: map<int, Session>, e1: Event, e2: Event, t1: Turn, t2: Turn)
    requires OnEvent(m, e1) == t1 && OnEvent(t1.sessions, e2) == t2
    ensures Run(m, [e1, e2]) == Concat(Single(t1), Single(t2))
  {
    assert [e1, e2] == [e1] + [e2];
    RunAppend(m, [e1], [e2]);
    RunOne(m, e1);
    RunOne(t1.sessions, e2);
  }

  /** Typing a name at the name step stores it stripped and asks for the surname. */
  lemma TypedName(m: map<int, Session>, chat: int, name: string, reply: PostResult)
    requires chat in m && m[chat].step == Some(Name) && !IsStartCommand(name)
    ensures OnEvent(m, TextMessage(chat, name, reply))
            == Turn(m[chat := m[chat].(name := Some(Strip(name)), step := Some(Surname))], [AskSurname], None)
  {
    NameStep(m, chat, name, reply);
  }

  /** Typing a surname at the surname step stores it stripped and asks for the phone. */
  lemma TypedSurname(m: map<int, Session>, chat: int, surname: string, reply: PostResult)
    requires chat in m && m[chat].step == Some(Surname) && !IsStartCommand(surname)
    ensures OnEvent(m, TextMessage(chat, surname, reply))
            == Turn(m[chat := m[chat].(surname := Some(Strip(surname)), step := Some(Phone))], [AskPhone], None)
  {
    SurnameStep(m, chat, surname, reply);
  }

  /**
   * Typing a valid email at the email step, with every other field filled
   * in, posts the lead with the stripped email, reports the outcome and
   * removes the session.
   */
  lemma TypedEmailSubmits(m: map<int, Session>, chat: int, email: string, reply: PostResult)
    requires chat in m && m[chat].step == Some(Email)
    requires m[chat].name.Some? && m[chat].surname.Some? && m[chat].phone.Some?
    requires IsValidEmail(Strip(email)) && !IsStartCommand(email)
    ensures var s := m[chat];
      OnEvent(m, TextMessage(chat, email, reply)) == Turn(m - {chat},
        [PostLead(RequestFor(MakePayload(s.name.value, s.surname.value, s.phone.value, Strip(email)))),
         Report(Classify(reply))], None)
  {
    var filled := m[chat := m[chat].(email := Some(Strip(email)))];
    EmailAccepted(m, chat, email, reply);
    SubmitComplete(filled, chat, reply);
    RemoveUpdated(m, chat, filled[chat]);
  }

  /** The name and the surname typed one after the other. */
  lemma NameThenSurname(m: map<int, Session>, chat: int, name: string, surname: string, reply: PostResult)
    requires chat in m && m[chat].step == Some(Name)
    requires !IsStartCommand(name) && !IsStartCommand(surname)
    ensures Run(m, [TextMessage(chat, name, reply), TextMessage(chat, surname, reply)]) == Trace(
      m[chat := m[chat].(name := Some(Strip(name)), surname := Some(Strip(surname)), step := Some(Phone))],
      [AskSurname, AskPhone], [])
  {
    var m1 := m[chat := m[chat].(name := Some(Strip(name)), step := Some(Surname))];
    var m2 := m1[chat := m1[chat].(surname := Some(Strip(surname)), step := Some(Phone))];
    TypedName(m, chat, name, reply);
    TypedSurname(m1, chat, surname, reply);
    RunPair(m, TextMessage(chat, name, reply), TextMessage(chat, surname, reply),
            Turn(m1, [AskSurname], None), Turn(m2, [AskPhone], None));
    UpdateTwice(m, chat, m1[chat], m2[chat]);
  }

  /** A shared contact and then a valid email, once the name and surname are known, submit the lead. */
  lemma ContactThenEmail(m: map<int, Session>, chat: int, phone: string, email: string, reply: PostResult)
    requires chat in m && m[chat].name.Some? && m[chat].surname.Some?
    requires IsValidEmail(Strip(email)) && !IsStartCommand(email)
    ensures var s := m[chat];
      Run(m, [ContactMessage(chat, phone), TextMessage(chat, email, reply)]) == Trace(m - {chat},
        [AskEmail, PostLead(RequestFor(MakePayload(s.name.value, s.surname.value, phone, Strip(email)))),
         Report(Classify(reply))], [])
  {
    var m1 := m[chat := m[chat].(phone := Some(phone), step := Some(Email))];
    var s := m[chat];
    var lead := [PostLead(RequestFor(MakePayload(s.name.value, s.surname.value, phone, Strip(email)))),
                 Report(Classify(reply))];
    ContactSetsPhone(m, chat, phone);
    TypedEmailSubmits(m1, chat, email, reply);
    RunPair(m, ContactMessage(chat, phone), TextMessage(chat, email, reply),
            Turn(m1, [AskEmail], None), Turn(m1 - {chat}, lead, None));
    RemoveUpdated(m, chat, m1[chat]);
  }

  /** The events that fill the form: a typed name and surname, a shared contact and a typed email. */
  function FormEvents(chat: int, name: string, surname: string, phone: string, email: string, reply: PostResult)
    : seq<Event>
  {
    [ TextMessage(chat, name, reply),
      TextMessage(chat, surname, reply),
      ContactMessage(chat, phone),
      TextMessage(chat, email, reply)]
  }

  /**
   * Filling the form, from any store in which the chat waits for its name:
   * the lead is posted with the stripped name, surname and email and the
   * shared phone, the outcome is reported and the chat's session is removed;
   * no exception is raised and no other chat is touched.
   */
  lemma FormFlow(m: map<int, Session>, chat: int,
                 name: string, surname: string, phone: string, email: string, reply: PostResult)
    requires chat in m && m[chat].step == Some(Name)
    requires !IsStartCommand(name) && !IsStartCommand(surname) && !IsStartCommand(email)
    requires IsValidEmail(Strip(email))
    ensures Run(m, FormEvents(chat, name, surname, phone, email, reply)) == Trace(m - {chat},
      [AskSurname, AskPhone, AskEmail,
       PostLead(RequestFor(MakePayload(Strip(name), Strip(surname), phone, Strip(email)))),
       Report(Classify(reply))],
      [])
  {
    var first := [TextMessage(chat, name, reply), TextMessage(chat, surname, reply)];
    var second := [ContactMessage(chat, phone), TextMessage(chat, email, reply)];
    var m2 := m[chat := m[chat].(name := Some(Strip(name)), surname := Some(Strip(surname)), step := Some(Phone))];
    Append22(TextMessage(chat, name, reply), TextMessage(chat, surname, reply),
             ContactMessage(chat, phone), TextMessage(chat, email, reply));
    RunAppend(m, first, second);
    NameThenSurname(m, chat, name, surname, reply);
    ContactThenEmail(m2, chat, phone, email, reply);
    RemoveUpdated(m, chat, m2[chat]);
    Append23(AskSurname, AskPhone, AskEmail,
             PostLead(RequestFor(MakePayload(Strip(name), Strip(surname), phone, Strip(email)))),
             Report(Classify(reply)));
  }

  /** The pitch and the quiz, made of presses only, post no lead. */
  lemma QuizPostsNothing(chat: int, i0: int, i1: int, i2: int, i3: int)
    ensures NothingPosted(Run(map[], Quizzing(chat, i0, i1, i2, i3)).effects)
  {
    RunWithoutTextPostsNothing(map[], Quizzing(chat, i0, i1, i2, i3));
  }

  /** The events of a whole conversation: pitch, quiz, then the form. */
  function Conversation(chat: int, picks: (int, int, int, int),
                        name: string, surname: string, phone: string, email: string, reply: PostResult)
    : seq<Event>
  {
    Quizzing(chat, picks.0, picks.1, picks.2, picks.3) + FormEvents(chat, name, surname, phone, email, reply)
  }

  /** Three effects that are not posted leads, after effects that include none, leave only the last two places for a lead. */
  lemma PostedOnlyLast(xs: seq<Effect>, a: Effect, b: Effect, c: Effect, d: Effect, e: Effect)
    requires NothingPosted(xs) && !a.PostLead? && !b.PostLead? && !c.PostLead?
    ensures var ys := xs + [a, b, c, d, e];
      forall k :: 0 <= k < |ys| - 2 ==> !ys[k].PostLead?
  {
    var ys := xs + [a, b, c, d, e];
    forall k | 0 <= k < |ys| - 2
      ensures !ys[k].PostLead?
    {
      if k < |xs| {
        assert ys[k] == xs[k];
      } else {
        assert ys[k] == [a, b, c][k - |xs|];
      }
    }
  }

  /**
   * The end-to-end conversation, whichever options the quiz was answered
   * with: the form is filled with a typed name and surname, a shared contact
   * and a typed email; the lead is posted with exactly those fields, the
   * typed ones stripped, as the next to last message and at no earlier
   * point; the outcome is reported last; no exception is raised and the
   * session is gone.
   */
  lemma EndToEnd(chat: int, picks: (int, int, int, int),
                 name: string, surname: string, phone: string, email: string, reply: PostResult)
    requires Picks(picks.0, picks.1, picks.2, picks.3)
    requires !IsStartCommand(name) && !IsStartCommand(surname) && !IsStartCommand(email)
    requires IsValidEmail(Strip(email))
    ensures var trace := Run(map[], Conversation(chat, picks, name, surname, phone, email, reply));
      && trace.sessions == map[]
      && trace.faults == []
      && |trace.effects| >= 2
      && trace.effects[|trace.effects| - 2..] == [
           PostLead(RequestFor(MakePayload(Strip(name), Strip(surname), phone, Strip(email)))),
           Report(Classify(reply))]
      && (forall k :: 0 <= k < |trace.effects| - 2 ==> !trace.effects[k].PostLead?)
  {
    var quizzed := Run(map[], Quizzing(chat, picks.0, picks.1, picks.2, picks.3));
    var lead := PostLead(RequestFor(MakePayload(Strip(name), Strip(surname), phone, Strip(email))));
    ConversationTrace(chat, picks, name, surname, phone, email, reply);
    QuizPostsNothing(chat, picks.0, picks.1, picks.2, picks.3);
    LastTwoOf(quizzed.effects, AskSurname, AskPhone, AskEmail, lead, Report(Classify(reply)));
    PostedOnlyLast(quizzed.effects, AskSurname, AskPhone, AskEmail, lead, Report(Classify(reply)));
  }

  /** The whole conversation is the quiz's messages followed by the form's, and ends with no record and no exception. */
  lemma ConversationTrace(chat: int, picks: (int, int, int, int),
                          name: string, surname: string, phone: string, email: string, reply: PostResult)
    requires Picks(picks.0, picks.1, picks.2, picks.3)
    requires !IsStartCommand(name) && !IsStartCommand(surname) && !IsStartCommand(email)
    requires IsValidEmail(Strip(email))
    ensures var quizzed := Run(map[], Quizzing(chat, picks.0, picks.1, picks.2, picks.3));
      Run(map[], Conversation(chat, picks, name, surname, phone, email, reply)) == Trace(map[],
        quizzed.effects + [AskSurname, AskPhone, AskEmail,
          PostLead(RequestFor(MakePayload(Strip(name), Strip(surname), phone, Strip(email)))),
          Report(Classify(reply))],
        [])
  {
    var quiz := Quizzing(chat, picks.0, picks.1, picks.2, picks.3);
    var quizzed := Run(map[], quiz);
    QuizFlow(chat, picks.0, picks.1, picks.2, picks.3);
    RunAppend(map[], quiz, FormEvents(chat, name, surname, phone, email, reply));
    FormFlow(quizzed.sessions, chat, name, surname, phone, email, reply);
    RemoveOnly(chat, quizzed.sessions[chat]);
  }

  /**
   * At the phone step, which the invariant lets a chat reach only with its
   * name and surname stored, a typed phone and then a valid email post the
   * lead with the stored name and surname and the two stripped texts, and
   * remove the session; no exception is raised.
   */
  lemma PhonePathSubmits(m: map<int, Session>, chat: int, phone: string, email: string, reply: PostResult)
    requires Store.Valid(m) && chat in m && m[chat].step == Some(Phone)
    requires !IsStartCommand(phone) && !IsStartCommand(email) && IsValidEmail(Strip(email))
    ensures m[chat].name.Some? && m[chat].surname.Some?
    ensures var s := m[chat];
      Run(m, [TextMessage(chat, phone, reply), TextMessage(chat, email, reply)]) == Trace(m - {chat},
        [AskEmail, PostLead(RequestFor(MakePayload(s.name.value, s.surname.value, Strip(phone), Strip(email)))),
         Report(Classify(reply))], [])
  {
    var s := m[chat];
    var m1 := m[chat := s.(phone := Some(Strip(phone)), step := Some(Email))];
    var lead := [PostLead(RequestFor(MakePayload(s.name.value, s.surname.value, Strip(phone), Strip(email)))),
                 Report(Classify(reply))];
    PhoneStep(m, chat, phone, reply);
    TypedEmailSubmits(m1, chat, email, reply);
    RunPair(m, TextMessage(chat, phone, reply), TextMessage(chat, email, reply),
            Turn(m1, [AskEmail], None), Turn(m1 - {chat}, lead, None));
    RemoveUpdated(m, chat, m1[chat]);
  }

  /** A text from a chat that a run left without a session changes nothing. */
  lemma TextAfterRunIgnored(m: map<int, Session>, events: seq<Event>, chat: int, text: string, reply: PostResult)
    requires chat !in Run(m, events).sessions && !IsStartCommand(text)
    ensures Run(m, events + [TextMessage(chat, text, reply)]) == Run(m, events)
  {
    var before := Run(m, events);
    RunAppend(m, events, [TextMessage(chat, text, reply)]);
    RunOne(before.sessions, TextMessage(chat, text, reply));
    TextWithoutStepIgnored(before.sessions, chat, text, reply);
    assert before.effects + [] == before.effects;
    assert before.faults + [] == before.faults;
  }

  /**
   * A start command typed at any point of any run, mid-form included,
   * sends one more pitch and leaves every record and the faults as they were.
   */
  lemma StartTypedMidRun(m: map<int, Session>, events: seq<Event>, chat: int, text: string, reply: PostResult)
    requires IsStartCommand(text)
    ensures var before, after := Run(m, events), Run(m, events + [TextMessage(chat, text, reply)]);
      && after.sessions == before.sessions
      && after.faults == before.faults
      && after.effects == before.effects + [Pitch(Button(PITCH_CAPTION, START_QUIZ))]
  {
    var before := Run(m, events);
    RunSnoc(m, events, TextMessage(chat, text, reply));
    TypedStartCommand(before.sessions, chat, text, reply);
    assert before.faults + [] == before.faults;
  }

  /** Once the lead is submitted the chat has no session, so a later text is ignored. */
  lemma LaterTextIgnored(chat: int, picks: (int, int, int, int),
                         name: string, surname: string, phone: string, email: string, reply: PostResult,
                         later: string, laterReply: PostResult)
    requires Picks(picks.0, picks.1, picks.2, picks.3)
    requires !IsStartCommand(name) && !IsStartCommand(surname) && !IsStartCommand(email)
    requires IsValidEmail(Strip(email)) && !IsStartCommand(later)
    ensures var es := Conversation(chat, picks, name, surname, phone, email, reply);
      Run(map[], es + [TextMessage(chat, later, laterReply)]) == Run(map[], es)
  {
    var es := Conversation(chat, picks, name, surname, phone, email, reply);
    EndToEnd(chat, picks, name, surname, phone, email, reply);
    TextAfterRunIgnored(map[], es, chat, later, laterReply);
  }

  /** A valid email for a session without a name is stored, then reading the name raises KeyError. */
  lemma TypedEmailWithoutName(m: map<int, Session>, chat: int, email: string, reply: PostResult)
    requires chat in m && m[chat].step == Some(Email) && m[chat].name == None
    requires IsValidEmail(Strip(email)) && !IsStartCommand(email)
    ensures OnEvent(m, TextMessage(chat, email, reply))
            == Turn(m[chat := m[chat].(email := Some(Strip(email)))], [], Some(FieldKeyError("name")))
  {
    EmailAccepted(m, chat, email, reply);
    SubmitIncomplete(m[chat := m[chat].(email := Some(Strip(email)))], chat, reply);
  }

  /**
   * A contact shared before the form, at any point after the quiz started,
   * skips the name and surname steps: the email is then accepted and
   * stored, but reading the missing name raises KeyError before anything is
   * posted, and the session is not removed.
   */
  lemma ContactBeforeForm(m: map<int, Session>, chat: int, phone: string, email: string, reply: PostResult)
    requires chat in m && m[chat].name == None
    requires IsValidEmail(Strip(email)) && !IsStartCommand(email)
    ensures Run(m, [ContactMessage(chat, phone), TextMessage(chat, email, reply)]) == Trace(
      m[chat := m[chat].(phone := Some(phone), step := Some(Email)).(email := Some(Strip(email)))],
      [AskEmail], [FieldKeyError("name")])
  {
    var m1 := m[chat := m[chat].(phone := Some(phone), step := Some(Email))];
    var filled := m1[chat := m1[chat].(email := Some(Strip(email)))];
    ContactSetsPhone(m, chat, phone);
    TypedEmailWithoutName(m1, chat, email, reply);
    RunPair(m, ContactMessage(chat, phone), TextMessage(chat, email, reply),
            Turn(m1, [AskEmail], None), Turn(filled, [], Some(FieldKeyError("name"))));
    UpdateTwice(m, chat, m1[chat], filled[chat]);
  }

  /**
   * A contact shared while the record holds a name but no surname, then a
   * valid email: reading the missing surname raises KeyError before anything
   * is posted, and the session is not removed.
   */
  lemma ContactBeforeSurname(m: map<int, Session>, chat: int, phone: string, email: string, reply: PostResult)
    requires chat in m && m[chat].name.Some? && m[chat].surname == None
    requires IsValidEmail(Strip(email)) && !IsStartCommand(email)
    ensures Run(m, [ContactMessage(chat, phone), TextMessage(chat, email, reply)]) == Trace(
      m[chat := m[chat].(phone := Some(phone), step := Some(Email)).(email := Some(Strip(email)))],
      [AskEmail], [FieldKeyError("surname")])
  {
    var m1 := m[chat := m[chat].(phone := Some(phone), step := Some(Email))];
    var filled := m1[chat := m1[chat].(email := Some(Strip(email)))];
    ContactSetsPhone(m, chat, phone);
    EmailAccepted(m1, chat, email, reply);
    SubmitIncomplete(filled, chat, reply);
    RunPair(m, ContactMessage(chat, phone), TextMessage(chat, email, reply),
            Turn(m1, [AskEmail], None), Turn(filled, [], Some(FieldKeyError("surname"))));
    UpdateTwice(m, chat, m1[chat], filled[chat]);
  }

  /** The same, right after the quiz start in a fresh store. */
  lemma ContactRightAfterStart(chat: int, phone: string, email: string, reply: PostResult)
    requires IsValidEmail(Strip(email)) && !IsStartCommand(email)
    ensures var r := Run(map[], [Press(chat, START_QUIZ), ContactMessage(chat, phone), TextMessage(chat, email, reply)]);
      && r.faults == [FieldKeyError("name")]
      && r.sessions == map[chat := NEW_SESSION.(phone := Some(phone), step := Some(Email)).(email := Some(Strip(email)))]
  {
    var e0, e1, e2 := Press(chat, START_QUIZ), ContactMessage(chat, phone), TextMessage(chat, email, reply);
    assert [e0, e1, e2] == [e0] + [e1, e2];
    RunAppend(map[], [e0], [e1, e2]);
    StartedChat(chat);
    ContactBeforeForm(map[chat := NEW_SESSION], chat, phone, email, reply);
    UpdateTwice(map[], chat, NEW_SESSION, NEW_SESSION.(phone := Some(phone), step := Some(Email)).(email := Some(Strip(email))));
  }

  /** The store after the quiz start alone. */
  lemma StartedChat(chat: int)
    ensures Run(map[], [Press(chat, START_QUIZ)]).sessions == map[chat := NEW_SESSION]
    ensures Run(map[], [Press(chat, START_QUIZ)]).faults == []
  {
    assert [Press(chat, START_QUIZ)] == [] + [Press(chat, START_QUIZ)];
    RunSnoc(map[], [], Press(chat, START_QUIZ));
  }

  /**
   * Nothing stops an answered question's button from being pressed again:
   * each press appends once more, so the answers can outnumber the questions.
   */
  lemma RepressOverflowsQuiz(chat: int, i0: int, i1: int, i2: int, i3: int, again: int)
    requires Picks(i0, i1, i2, i3) && 0 <= again < |QUESTIONS[3].options|
    ensures var events := Quizzing(chat, i0, i1, i2, i3) + [Press(chat, AnswerData(3, again))];
      chat in Run(map[], events).sessions && |Run(map[], events).sessions[chat].quiz| == |QUESTIONS| + 1
  {
    QuizFlow(chat, i0, i1, i2, i3);
    PressAnswer(map[], Quizzing(chat, i0, i1, i2, i3), chat, 3, again);
  }

  /**
   * Pressing the last question's button again sends a chat back from any
   * step, the email step included, to the name step.
   */
  lemma RepressRestartsForm(m: map<int, Session>, chat: int, i: int)
    requires chat in m && m[chat].step == Some(Email)
    requires 0 <= i < |QUESTIONS[3].options|
    ensures OnCallback(m, chat, AnswerData(3, i)).sessions[chat].step == Some(Name)
    ensures OnCallback(m, chat, AnswerData(3, i)).sessions[chat].phone == m[chat].phone
  {
    AnswerRouted(m, chat, 3, i);
    AnswerLast(m, chat, i);
  }
}
