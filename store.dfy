/** The session record that `user_data` holds for each chat. */
module Store {
  import opened Wrappers
  import Quiz

  /** The form field a chat is asked for next. A session without one is still in the quiz. */
  datatype Step = Name | Surname | Phone | Email

  /** One value of `user_data`; a key the dict does not have is `None` here. */
  datatype Session = Session(
    quiz: seq<string>,
    step: Option<Step>,
    name: Option<string>,
    surname: Option<string>,
    phone: Option<string>,
    email: Option<string>)

  /** `{"quiz": []}`: no answers, no step, no form field. */
  const NEW_SESSION := Session([], None, None, None, None, None)

  /**
   * What every session the handlers build satisfies: each answer is an option
   * of the quiz, and a step is only reached with the fields before it filled
   * (the email step needs a phone, but not a name: see the contact handler).
   */
  ghost predicate WellFormed(s: Session) {
    && (forall k :: 0 <= k < |s.quiz| ==> Quiz.IsOption(s.quiz[k]))
    && (s.step == Some(Surname) ==> s.name.Some?)
    && (s.step == Some(Phone) ==> s.name.Some? && s.surname.Some?)
    && (s.step == Some(Email) ==> s.phone.Some?)
  }

  /** The invariant of the whole store. */
  ghost predicate Valid(m: map<int, Session>) {
    forall chat :: chat in m ==> WellFormed(m[chat])
  }
}
