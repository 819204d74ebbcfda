/**
 * The fixed quiz of bot.py and the callback data of its buttons: the four
 * questions, Python's list indexing, the `quiz_a_<q>_<o>` encoding and the
 * handler's decoding of it.
 */
module Quiz {
  import opened Wrappers
  import opened PyStr

  datatype Question = Question(text: string, options: seq<string>)

  /** An inline keyboard button: the caption shown and the callback data it sends back. */
  datatype Button = Button(caption: string, data: string)

  /** `quiz_questions`. */
  const QUESTIONS: seq<Question> := [
    Question("Какой суммы в месяц Вам было бы достаточно для исполнения своих желаний?",
             ["1000 $", "5 000 $", "10 000 $", "Больше 10 000 $"]),
    Question("С какой целью Вы хотите увеличить достаток?",
             ["Выплачу кредит/ипотеку", "Помогу родным", "Инвестирую", "Куплю авто/квартиру"]),
    Question("Акции каких компаний Вас интересуют?",
             ["Международных", "Узбекских", "Смешанных"]),
    Question("Откуда Вы узнали о проекте GPT-invest?",
             ["Наружная реклама", "Интернет реклама", "Рекомендации знакомых"])
  ]

  /** The callback data of the pitch button, routed to the quiz start. */
  const START_QUIZ := "start_quiz"

  /** Callback data with this prefix is routed to the answer handler. */
  const ANSWER_PREFIX := "quiz_a"

  lemma QuizShape()
    ensures |QUESTIONS| == 4
    ensures |QUESTIONS[0].options| == 4 && |QUESTIONS[1].options| == 4
    ensures |QUESTIONS[2].options| == 3 && |QUESTIONS[3].options| == 3
  {
  }

  /**
   * Python's `xs[i]`: a negative index counts from the end; None where Python
   * raises IndexError. Within range this is indexing modulo the length.
   */
  function PyIndex<T>(xs: seq<T>, i: int): (r: Option<T>)
    ensures r.Some? <==> -|xs| <= i < |xs|
    ensures r.Some? ==> r.value == xs[i % |xs|]
  {
    if 0 <= i < |xs| then Some(xs[i])
    else if -|xs| <= i < 0 then Some(xs[|xs| + i])
    else None
  }

  /** `quiz_questions[q][1][i]`: the option text, or None where either index raises. */
  function Answer(q: int, i: int): (r: Option<string>)
    ensures r.Some? ==> -|QUESTIONS| <= q < |QUESTIONS|
    ensures r.Some? ==> IsOption(r.value)
  {
    match PyIndex(QUESTIONS, q)
    case None => None
    case Some(question) =>
      var r := PyIndex(question.options, i);
      assert r.Some? ==> r.value in QUESTIONS[q % |QUESTIONS|].options;
      r
  }

  /** `a` is one of the options of one of the questions. */
  ghost predicate IsOption(a: string) {
    exists q :: 0 <= q < |QUESTIONS| && a in QUESTIONS[q].options
  }

  /** What the buttons of question `q` send: `f"quiz_a_{q}_{i}"`. */
  function AnswerData(q: int, i: int): string {
    "quiz_a_" + IntToString(q) + "_" + IntToString(i)
  }

  /**
   * The answer handler's reading of callback data: exactly four `_`-separated
   * parts, the last two read by `int()`; None where Python raises ValueError.
   * The first two parts are not looked at.
   */
  function DecodeAnswer(data: string): Option<(int, int)> {
    var parts := Split(data, '_');
    if |parts| != 4 then None
    else
      match ParseInt(parts[2])
      case None => None
      case Some(q) =>
        match ParseInt(parts[3])
        case None => None
        case Some(i) => Some((q, i))
  }

  /** The inline keyboard for question `q`: one button per option, in order. */
  function Keyboard(q: int): seq<Button>
    requires -|QUESTIONS| <= q < |QUESTIONS|
  {
    var options := PyIndex(QUESTIONS, q).value.options;
    seq(|options|, i requires 0 <= i < |options| => Button(options[i], AnswerData(q, i)))
  }

  /**
   * The data of answer buttons round-trips: it splits into four parts, the
   * last two parse back to `(q, i)`, and it is routed to the answer handler.
   */
  lemma AnswerDataRoundTrip(q: int, i: int)
    ensures Split(AnswerData(q, i), '_') == ["quiz", "a", IntToString(q), IntToString(i)]
    ensures DecodeAnswer(AnswerData(q, i)) == Some((q, i))
    ensures StartsWith(AnswerData(q, i), ANSWER_PREFIX) && AnswerData(q, i) != START_QUIZ
  {
    var a, b := IntToString(q), IntToString(i);
    var parts := ["quiz", "a", a, b];
    JoinAnswerParts(a, b);
    NoUnderscore(q);
    NoUnderscore(i);
    SplitJoin(parts, '_');
    ParseIntToString(q);
    ParseIntToString(i);
    AnswerDataPrefix(a, b);
  }

  lemma JoinAnswerParts(a: string, b: string)
    ensures Join(["quiz", "a", a, b], '_') == "quiz_a_" + a + "_" + b
  {
    var parts := ["quiz", "a", a, b];
    assert parts[1..][1..][1..] == [b];
    assert parts[1..][1..] == [a, b];
    assert parts[1..] == ["a", a, b];
    calc {
      Join(parts, '_');
      "quiz" + "_" + Join(["a", a, b], '_');
      "quiz" + "_" + ("a" + "_" + Join([a, b], '_'));
      "quiz" + "_" + ("a" + "_" + (a + "_" + b));
      { assert "quiz" + "_" + ("a" + "_" + (a + "_" + b)) == "quiz_a_" + a + "_" + b; }
      "quiz_a_" + a + "_" + b;
    }
  }

  lemma NoUnderscore(n: int)
    ensures '_' !in IntToString(n)
  {
    var s := IntToString(n);
    assert forall k :: 0 <= k < |s| ==> s[k] != '_';
  }

  lemma AnswerDataPrefix(a: string, b: string)
    ensures StartsWith("quiz_a_" + a + "_" + b, ANSWER_PREFIX)
    ensures "quiz_a_" + a + "_" + b != START_QUIZ
  {
    var d := "quiz_a_" + a + "_" + b;
    assert d[..|ANSWER_PREFIX|] == ANSWER_PREFIX;
    assert d[0] != START_QUIZ[0];
  }

  /** Every button of question `q` shows option `k` and decodes to `(q, k)`. */
  lemma KeyboardDecodes(q: int)
    requires -|QUESTIONS| <= q < |QUESTIONS|
    ensures |Keyboard(q)| == |QUESTIONS[q % |QUESTIONS|].options|
    ensures forall k :: 0 <= k < |Keyboard(q)| ==>
      Keyboard(q)[k].caption == QUESTIONS[q % |QUESTIONS|].options[k]
      && DecodeAnswer(Keyboard(q)[k].data) == Some((q, k))
  {
    forall k | 0 <= k < |Keyboard(q)|
      ensures DecodeAnswer(Keyboard(q)[k].data) == Some((q, k))
    {
      AnswerDataRoundTrip(q, k);
    }
  }

  /** For indices in range the answer is the option itself. */
  lemma AnswerInRange(q: int, i: int)
    requires 0 <= q < |QUESTIONS| && 0 <= i < |QUESTIONS[q].options|
    ensures Answer(q, i) == Some(QUESTIONS[q].options[i])
  {
  }

  /** Negative indices are accepted as Python accepts them: question `q - 4` is question `q`. */
  lemma AnswerNegativeIndex(q: int, i: int)
    requires 0 <= q < |QUESTIONS| && 0 <= i < |QUESTIONS[q].options|
    ensures Answer(q - |QUESTIONS|, i) == Answer(q, i)
    ensures Answer(q, i - |QUESTIONS[q].options|) == Answer(q, i)
  {
  }

  /** Indices outside Python's accepted range raise IndexError. */
  lemma AnswerOutOfRange(q: int, i: int)
    requires q < -|QUESTIONS| || q >= |QUESTIONS|
    ensures Answer(q, i) == None
  {
  }
}
