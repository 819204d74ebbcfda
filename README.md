# Lead-capture bot: the per-chat conversation state machine

`bot.py` is a Telegram bot that runs a four-question quiz and then a lead form.

- The quiz offers one inline button per option.
- The form collects name, surname, phone (typed, or shared as a contact) and email.
- The bot then posts the lead once to an intake endpoint and tells the user the outcome.

All conversation state lives in one global dict, `user_data`. It maps a chat id to that chat's record: a `quiz` list plus optional `step`, `name`, `surname`, `phone` and `email` entries. Every handler except `cmd_start` reads and updates that dict in place; `cmd_start` never touches it.

This project models that state machine in Dafny and proves properties of it.

- `wrappers.dfy`, module `Wrappers`: `Option` and `Result`.
- `pystr.dfy`, module `PyStr`: the Python string operations the handlers rely on, with their edge cases.
  - `str.strip()` uses Python's white-space set.
  - `str.split('_')` keeps empty pieces.
  - `int()` accepts surrounding white space and a sign.
  - `str()` of an integer.
- `quiz.dfy`, module `Quiz`:
  - the four questions with their exact texts and options;
  - Python list indexing, including negative indices;
  - the `quiz_a_<q>_<i>` callback data and its decoding.
- `lead.dfy`, module `Lead`:
  - the payload with its fixed fields and the request headers;
  - the string whose SHA-256 digest is the `x-service-token`;
  - how the endpoint's answer becomes the message the user gets.
- `store.dfy`, module `Store`: the record of one chat, and the invariant every record satisfies.
- `flow.dfy`, module `Flow`: one pure function per handler. Each gives the new store, the messages sent (abstract effects), and the exception raised, if any. Lemmas about each handler, and the invariant preserved, sit beside them.
- `bot.dfy`, module `Bot`: class `Bot`, whose `sessions` field is `user_data`, with one method per handler. Each method updates the field step by step, as the source does. It is proved to end in exactly the state, effects and exception that the `Flow` function gives, and to keep the invariant.
- `scenarios.dfy`, module `Scenarios`: whole conversations as runs of several events.
  - The intended end-to-end flow.
  - Later messages being ignored.
  - Runs the code also allows beyond the intended conversation: re-pressed buttons, a contact shared before the form, `/start` typed mid-form.

How some source behaviour is represented:

- **Exceptions.** A Python exception escaping a handler is a `Fault`. The dispatcher logs it and carries on, so the store stays as it was when the exception was raised. For example, at the email step the address is stored before `send_to_api` fails on a missing `name`.
- **The HTTP POST.** The post is one effect, `PostLead`. What came back (a status, or a transport error) is an input to the text handler.
- **The token.** The request carries the token's pre-image rather than its digest.

### Behaviour beyond the intended conversation

The intended conversation is: pitch, quiz start, one answer per question, then name, surname, phone and email, then one submission. The code allows more, and the model follows the code in each case.

- Nothing in the code stops an old button from being pressed again, so a chat is not limited to four answers, and its step does not only move forward.
  - Every press appends another answer (`Scenarios.RepressOverflowsQuiz`).
  - Pressing the last question's button again moves a chat at any step back to the name step (`Scenarios.RepressRestartsForm`).
- Malformed callback data gets no reply. Unpacking, `int()` or indexing raises, and the exception is only logged. The model keeps those as faults with the store unchanged. Negative indices are accepted, as Python accepts them (`Quiz.AnswerNegativeIndex`).
- The contact handler does not look at the step. A contact shared at any time after the quiz started moves the chat to the email step, and a valid email is then stored and submitted. What follows depends on what the record holds at that point, not on the step it was at. A re-pressed last button moves a chat back to the name step with its fields still stored.
  - With no name stored, `send_to_api` raises `KeyError('name')` before anything is posted, and the record is not removed (`Scenarios.ContactBeforeForm`, `Scenarios.ContactRightAfterStart`).
  - With a name but no surname stored, the same happens with `KeyError('surname')` (`Scenarios.ContactBeforeSurname`).
  - With both stored, the lead is posted with the shared phone (`Scenarios.ContactThenEmail`).
- The `/start` handler (bot.py:37) is registered before the text handler (bot.py:96). A typed `/start`, with or without an argument, is therefore answered with the pitch at every step, and the record is left as it was (`Flow.TypedStartCommand`, and within any run `Scenarios.StartTypedMidRun`). It is never stored as a name, surname, phone or email.

## Model

| member | source | states |
|---|---|---|
| Quiz.QuizShape | bot.py:29-34 | there are four questions, with 4, 4, 3 and 3 options |
| Quiz.PyIndex | bot.py:72 | Python indexing succeeds exactly for -len <= i < len, and then gives the element at i modulo the length |
| Quiz.Answer | bot.py:72 | an answer found by the double lookup is an option of one of the questions, and the question index was in Python's range |
| Quiz.AnswerData | bot.py:59 | the callback data `quiz_a_{q}_{i}` of an answer button; specified by `Quiz.AnswerDataRoundTrip` |
| Quiz.Keyboard | bot.py:57-60 | one button per option of question q, showing the option, with that option's callback data; specified by `Quiz.KeyboardDecodes` |
| Quiz.DecodeAnswer | bot.py:68-70 | the unpacking and the two `int()` calls; specified by `Quiz.AnswerDataRoundTrip` and `Quiz.KeyboardDecodes` |
| Quiz.AnswerDataRoundTrip | bot.py:68-70 | the data `quiz_a_{q}_{i}` splits on `_` into exactly `quiz`, `a`, str(q), str(i); it decodes back to (q, i); it is routed to the answer handler and not to the quiz start |
| Quiz.KeyboardDecodes | bot.py:79-81 | button k of question q shows option k of that question, and its data decodes to (q, k) |
| Quiz.AnswerInRange | bot.py:72 | for in-range indices the answer is `quiz_questions[q][1][i]` |
| Quiz.AnswerNegativeIndex | bot.py:72 | question q-4 and option i-len(options) pick the same option as q and i |
| Quiz.AnswerOutOfRange | bot.py:72 | a question index outside -4..3 raises IndexError whatever the option index |
| PyStr.Strip | bot.py:105 | `str.strip()`; specified by `PyStr.StripSpec`, `PyStr.StripUnchanged` and `PyStr.StripIdempotent` |
| PyStr.ParseInt | bot.py:69-70 | `int()` of a string; specified by `PyStr.ParseIntUnsigned`, `PyStr.ParseIntNegated` and `PyStr.ParseIntToString` |
| PyStr.TrimStartSpec | bot.py:105 | the left strip keeps a suffix, drops only white space, and keeps no leading white space |
| PyStr.TrimEndSpec | bot.py:105 | the right strip keeps a prefix, drops only white space, and keeps no trailing white space |
| PyStr.StripSpec | bot.py:105 | `strip()` gives a contiguous slice of the text with no white space at either end, and everything cut off on either side is white space |
| PyStr.StripUnchanged | bot.py:105 | a text with no white space at either end is its own strip |
| PyStr.StripIdempotent | bot.py:105 | stripping twice is stripping once |
| PyStr.TakeWordSpec | bot.py:37 | the first word is the longest prefix free of white space |
| PyStr.TakeWordOfWord | bot.py:37 | a word free of white space, followed by white space or nothing, is the first word |
| PyStr.Split | bot.py:68 | `split` gives at least one piece, no piece holds the separator, and joining the pieces with the separator gives the text back |
| PyStr.SplitJoin | bot.py:68 | splitting a join of separator-free pieces gives those pieces back |
| PyStr.IntToString | bot.py:81 | `str(n)` is non-empty, starts with `-` exactly when n is negative, and is otherwise made of digits |
| PyStr.ParseIntToString | bot.py:69-70 | `int(str(n)) == n` for every integer |
| PyStr.ParseIntUnsigned | bot.py:69-70 | `int()` of a string of digits is its decimal value |
| PyStr.ParseIntNegated | bot.py:69-70 | `int()` of a minus sign followed by digits is the negated value |
| PyStr.DigitsValueOfNat | bot.py:69-70 | the decimal digits of a natural number read back as that number |
| Lead.MakePayload | bot.py:148-159 | the payload: the four collected fields and the fixed ones; specified by `Lead.RequestLayout` |
| Lead.RequestFor | bot.py:161-168 | the request: payload, content type, token pre-image and user agent; specified by `Lead.RequestLayout` |
| Lead.IsValidEmail | bot.py:126 | the email check; specified by `Lead.EmailExamples`, `Flow.EmailAccepted` and `Flow.EmailRejected` |
| Lead.TokenSource | bot.py:161 | the token pre-image; specified by `Lead.RequestLayout`, `Lead.TokenSourceSeparatesFields` and `Lead.TokenSourceAmbiguous` |
| Lead.Classify | bot.py:170-179 | the endpoint's answer as the user's outcome; specified by `Lead.ClassifyCases` |
| Lead.ClassifyCases | bot.py:174-179 | status 200 or 201 is success, any other status is an error carrying that status, and a transport failure is a send failure, each in both directions |
| Lead.RequestLayout | bot.py:148-167 | the token pre-image is name ++ surname ++ email ++ phone ++ "0.0.0.0"; the ip is "0.0.0.0" and the user agent "GPT-investBot/1.0" |
| Lead.TokenSourceSeparatesFields | bot.py:161 | with the other fields fixed, a different value in any one field gives a different pre-image |
| Lead.TokenSourceAmbiguous | bot.py:161 | because nothing separates the fields, two different payloads can share one pre-image, and so one token |
| Lead.EmailExamples | bot.py:126 | the email check accepts a text containing both `@` and `.`, and rejects one missing either |
| Flow.OnStart | bot.py:37-49 | `cmd_start`; specified by `Flow.PitchStartsQuiz`, and `Bot.Bot.CmdStart` is proved equal to it |
| Flow.QuestionEffect | bot.py:57-61 | question q offered with its keyboard; specified by `Quiz.KeyboardDecodes` and `Quiz.AnswerDataRoundTrip` through `Quiz.Keyboard` |
| Flow.OnStartQuiz | bot.py:52-62 | `start_quiz_handler`; specified by `Flow.StartQuizResets`, and `Bot.Bot.StartQuiz` is proved equal to it |
| Flow.OnAnswer | bot.py:65-88 | `quiz_answer_handler`; specified by `Flow.AnswerNext`, `Flow.AnswerLast` and `Flow.AnswerFaults`, and `Bot.Bot.QuizAnswer` is proved equal to it |
| Flow.SaveAnswer | bot.py:73-93 | the append and what follows it; specified through `Flow.AnswerNext` and `Flow.AnswerLast`, and `Bot.Bot.SaveAnswer` is proved equal to it |
| Flow.OnCallback | bot.py:52-66 | the two callback filters in registration order; specified by `Flow.AnswerRouted` and `Flow.PitchStartsQuiz` |
| Flow.OnText | bot.py:96-130 | `process_text`; specified by `Flow.TextWithoutStepIgnored`, the four step lemmas and `Flow.EmailRejected`, and `Bot.Bot.ProcessText` is proved equal to it |
| Flow.OnContact | bot.py:132-137 | `process_contact`; specified by `Flow.ContactSetsPhone` |
| Flow.Assemble | bot.py:148-159 | the four unguarded field reads in payload order; specified by `Flow.SubmitIncomplete` and `Flow.SubmitComplete` |
| Flow.Submit | bot.py:140-181 | `send_to_api`; specified by `Flow.SubmitComplete` and `Flow.SubmitIncomplete` |
| Flow.IsStartCommand | bot.py:37 | the `Command("start")` filter on a text; specified by `Flow.StartCommandForms` and `Flow.NoSlashNoStartCommand` |
| Flow.OnEvent | bot.py:37-137 | the dispatcher; specified by `Flow.TypedStartCommand` and `Flow.EventKeepsValid`, and `Bot.Bot.Handle` is proved equal to it |
| Flow.Run | bot.py:28 | updates handled one at a time against the one shared store; specified by `Flow.RunKeepsValid`, `Scenarios.RunSnoc` and `Scenarios.RunAppend` |
| Flow.PitchStartsQuiz | bot.py:37-62 | the pitch is one message with one button, pressing it runs the quiz start for any chat and store, and no record changes |
| Flow.TypedStartCommand | bot.py:37-49 | a typed start command is answered with the pitch at any step, and no record changes |
| Flow.StartCommandForms | bot.py:37 | `/start` alone, or `/start@name`, followed by the end of the text or white space and an argument, is a start command |
| Flow.NoSlashNoStartCommand | bot.py:37 | a text whose first character after leading white space is not `/` is not a start command, and so reaches the text handler |
| Flow.StartQuizResets | bot.py:52-62 | the quiz start sets the chat's record to exactly `{quiz: []}`, overwriting any earlier one; other chats keep theirs; question 0 is offered, then the callback is acknowledged |
| Flow.AnswerRouted | bot.py:65-66 | the data of an answer button reaches the answer handler |
| Flow.AnswerNext | bot.py:65-83 | answering question q < 3 with option i appends exactly that option to the chat's answers; nothing else in the store changes; the answer is confirmed, question q+1 is offered with its buttons, and the callback is acknowledged |
| Flow.AnswerLast | bot.py:65-94 | answering the last question appends the option and moves the chat to the name step; the form intro and the name prompt are sent |
| Flow.AnswerFaults | bot.py:68-73 | malformed data raises ValueError and an out-of-range index raises IndexError, both with the store unchanged and nothing sent; a chat without a record changes nothing |
| Flow.TextWithoutStepIgnored | bot.py:96-102 | a text from a chat without a record, or without a step, changes nothing and gets no reply |
| Flow.NameStep | bot.py:104-107 | at the name step the stripped text becomes the name and the step becomes surname; nothing else changes; the surname is asked for |
| Flow.SurnameStep | bot.py:109-117 | at the surname step the stripped text becomes the surname and the step becomes phone; nothing else changes |
| Flow.PhoneStep | bot.py:119-122 | at the phone step the stripped text becomes the phone and the step becomes email; nothing else changes |
| Flow.EmailAccepted | bot.py:124-128 | at the email step a stripped text holding both `@` and `.` is stored as the email, and the lead is submitted from that store |
| Flow.EmailRejected | bot.py:124-130 | any other text at the email step changes nothing and re-prompts |
| Flow.ContactSetsPhone | bot.py:132-137 | a contact sets the phone and the email step whatever the step was; without a record it raises KeyError and changes nothing |
| Flow.SubmitComplete | bot.py:140-181 | a complete record is posted once, with the fixed fields and the token pre-image; the outcome is reported; the record is removed whatever the outcome; other chats keep theirs |
| Flow.SubmitIncomplete | bot.py:148-152 | a missing field raises KeyError, naming the first missing one in the order name, surname, phone, email; nothing is posted and the record stays |
| Flow.AnswerKeepsValid | bot.py:65-88 | the answer handler keeps every record well formed |
| Flow.AppendKeepsValid | bot.py:73-93 | appending an option, with or without the move to the name step, keeps the store well formed |
| Flow.TextKeepsValid | bot.py:96-130 | the text handler keeps every record well formed |
| Flow.SubmitKeepsValid | bot.py:140-181 | submission keeps every record well formed |
| Flow.EventKeepsValid | bot.py:52-137 | every handler keeps every record well formed |
| Flow.RunKeepsValid | bot.py:28 | every store reached from a well-formed one by any sequence of updates is well formed |
| Bot.Bot.constructor | bot.py:28 | the store starts empty |
| Bot.Bot.CmdStart | bot.py:37-49 | `/start` sends exactly one message, the pitch; pressing its button starts the quiz for any chat in any store; no record changes |
| Bot.Bot.StartQuiz | bot.py:52-62 | the quiz start leaves exactly the store, and sends exactly the messages, of `Flow.OnStartQuiz`, and keeps the invariant |
| Bot.Bot.QuizAnswer | bot.py:65-88 | the answer handler ends in exactly the store, messages and exception of `Flow.OnAnswer`, and keeps the invariant |
| Bot.Bot.SaveAnswer | bot.py:73-88 | once the option is found, the append and the next question or the form start are those of `Flow.SaveAnswer` |
| Bot.Bot.AskForName | bot.py:91-94 | `ask_name` sets only the chat's step, to name, and asks for the name |
| Bot.Bot.Callback | bot.py:52-66 | callback routing: `start_quiz` exactly, or data starting with `quiz_a`; other data reaches no handler |
| Bot.Bot.ProcessText | bot.py:96-130 | the text handler ends in exactly the store, messages and exception of `Flow.OnText`, and keeps the invariant |
| Bot.Bot.ProcessContact | bot.py:132-137 | the contact handler ends in exactly the store, messages and exception of `Flow.OnContact`, and keeps the invariant |
| Bot.Bot.SendToApi | bot.py:140-181 | `send_to_api` ends in exactly the store, messages and exception of `Flow.Submit`, and keeps the invariant |
| Bot.Bot.Handle | bot.py:37-137 | one update, routed by the dispatcher's filters (a typed start command to `cmd_start`, before the text handler), is handled as `Flow.OnEvent` handles it |
| Scenarios.RunSnoc | bot.py:28 | handling one more event extends the trace by that event's turn |
| Scenarios.RunAppend | bot.py:28 | a run over two sequences of events is the first run followed by the second, from the store the first left |
| Scenarios.PressAnswer | bot.py:65-93 | pressing an answer button mid-run appends that option, and adds no fault |
| Scenarios.QuizOpened | bot.py:37-55 | `/start` then the quiz start leave the chat with a fresh record and no fault |
| Scenarios.AnswerStep | bot.py:65-93 | in a run that left only this chat's record, answering question q with option i appends that option; the last question moves the chat to the name step; no fault |
| Scenarios.QuizFlow | bot.py:37-94 | `/start`, the quiz start and any in-range answer to each question leave the chat's four chosen options in question order at the name step, with no fault |
| Scenarios.SaveAnswerPostsNothing | bot.py:73-88 | saving an answer never posts a lead |
| Scenarios.AnswerPostsNothing | bot.py:65-88 | the answer handler never posts a lead, whatever the data |
| Scenarios.EventPostsNothing | bot.py:37-137 | no update other than a text message posts a lead |
| Scenarios.RunWithoutTextPostsNothing | bot.py:37-137 | a run of updates without a text message posts no lead |
| Scenarios.QuizPostsNothing | bot.py:37-94 | the pitch and the quiz post no lead |
| Scenarios.TypedName | bot.py:104-107 | a typed name, not a start command, at the name step is stored stripped, and the surname is asked for |
| Scenarios.TypedSurname | bot.py:109-117 | a typed surname, not a start command, at the surname step is stored stripped, and the phone is asked for |
| Scenarios.TypedEmailSubmits | bot.py:124-181 | a typed valid email for a record with every other field posts the lead with the stripped email, reports the outcome and removes the record |
| Scenarios.NameThenSurname | bot.py:104-117 | a name and then a surname leave both stored and the chat at the phone step |
| Scenarios.ContactThenEmail | bot.py:124-181 | a shared contact and then a valid email, once the name and surname are known, submit the lead and remove the record |
| Scenarios.FormFlow | bot.py:96-181 | filling the form from the name step posts the lead with the stripped name, surname and email and the shared phone; the outcome is reported; the record is removed; no exception is raised and no other chat is touched |
| Scenarios.ConversationTrace | bot.py:37-181 | the whole conversation sends the quiz's messages, then the three form prompts, the POST and the outcome, and ends with an empty store and no exception |
| Scenarios.EndToEnd | bot.py:37-181 | for any in-range quiz answers, the whole conversation ends with an empty store and no exception; the next to last message is the POST of exactly the collected fields, no earlier message is a POST, and the outcome comes last |
| Scenarios.PhonePathSubmits | bot.py:119-181 | at the phone step, which a well-formed record reaches only with its name and surname stored, a typed phone and then a valid email post the lead with the stored name and surname and the stripped phone and email, and remove the record, with no exception |
| Scenarios.StartTypedMidRun | bot.py:37-49 | a start command typed at any point of any run, mid-form included, adds one pitch and changes no record and no fault |
| Scenarios.TextAfterRunIgnored | bot.py:96-102 | a text from a chat that a run left without a record changes nothing |
| Scenarios.LaterTextIgnored | bot.py:96-102 | after a completed conversation, a further text changes nothing |
| Scenarios.TypedEmailWithoutName | bot.py:124-152 | a valid email for a record without a name is stored, and then KeyError('name') is raised before anything is posted |
| Scenarios.ContactBeforeForm | bot.py:132-152 | a contact shared before the form, then a valid email, raises KeyError('name'); the phone and email stay stored and the record is not removed |
| Scenarios.ContactBeforeSurname | bot.py:132-152 | a contact shared while the record has a name but no surname, then a valid email, raises KeyError('surname'); the phone and email stay stored and the record is not removed |
| Scenarios.ContactRightAfterStart | bot.py:52-152 | the same, right after the quiz start in a fresh store |
| Scenarios.StartedChat | bot.py:52-55 | the quiz start alone leaves the chat with a fresh record and no fault |
| Scenarios.RepressOverflowsQuiz | bot.py:65-73 | pressing the last question's button a second time appends a fifth answer |
| Scenarios.RepressRestartsForm | bot.py:77-93 | pressing the last question's button again sends a chat at the email step back to the name step, keeping its phone |

## Left out

- The aiogram dispatcher, polling and `main` (bot.py:8-26, 184-189) are platform plumbing. The routing decisions of the filters at bot.py:37, 52, 65, 96 and 132 are modelled by `Flow.OnCallback` and `Flow.OnEvent`. A photo whose caption is a `/start` command reaches `cmd_start` as a typed one does; the model has it as the `StartCommand` event. A photo whose caption is not a `/start` command reaches no handler, since the text filter (bot.py:96) asks for a text. Neither does an update with neither a text nor a caption that is not a callback or a contact (a sticker). Neither kind is an event of the model.
- `Flow.IsStartCommand` accepts `/start@` followed by any name. aiogram's command filter also compares that name, ignoring case, with the bot's own username, so `/start@otherbot` would reach the text handler instead. The bot's username is configuration the model does not have.
- Every outbound message is assumed to be delivered. In the source a failed send raises. After the answer confirmation (bot.py:75) such a failure would end the handler after the append at bot.py:73, before the name step at bot.py:93. A failed success message (bot.py:175) would be caught at bot.py:178 and reported as a send failure. `Flow.AnswerLast`, `Flow.SubmitComplete` and every scenario built on them rely on this assumption.
- Message wording, HTML formatting, the photo, and the keyboard markup objects are left out. Each message is an abstract effect tag. Question texts, option captions and button data are kept exactly.
- `load_dotenv` and the environment variables, including `API_URL`, are configuration I/O.
- The aiohttp POST and the JSON encoding of the payload are network I/O. The post is one `PostLead` effect, and what came back is an input (`PostResult`).
- The SHA-256 digest is a library call. The model stops at the digest's pre-image, `Request.tokenSource`.
- Async interleaving between updates is left out: each handler runs as one atomic step.
- `PyStr.ParseInt`: Python's `int()` also accepts non-ASCII decimal digits and `_` between digits. The model accepts only ASCII digits, which is all the bot's own buttons ever send.
- `PyStr.IsSpace` covers the white space of `str.isspace()` up to U+3000. No other characters are involved.
- `Bot.Bot.AskForName` requires the chat to have a record. Its only caller has just updated that record.
- `send_to_api`'s `if not data` test is modelled as "no record": a record always holds `quiz`, so it is never empty.
