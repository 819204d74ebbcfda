/**
 * The lead that `send_to_api` posts: the JSON payload with its fixed fields,
 * the headers, the string whose SHA-256 digest becomes the `x-service-token`
 * header, and how the endpoint's answer is reported.
 */
module Lead {

  const AFFILIATE := "dmitriy"
  const COUNTRY := "ru"
  const LANDING := "ru"
  const LANGUAGE := "ru"
  /** The placeholder network origin sent with every lead. */
  const IP := "0.0.0.0"
  const URL := "gpt-invest-bot"
  const CONTENT_TYPE := "application/json"
  const USER_AGENT := "GPT-investBot/1.0"

  datatype Payload = Payload(
    name: string, surname: string, phone: string, email: string,
    affiliate: string, country: string, landing: string, language: string,
    ip: string, url: string)

  /** The payload for the four collected fields. */
  function MakePayload(name: string, surname: string, phone: string, email: string): Payload {
    Payload(name, surname, phone, email, AFFILIATE, COUNTRY, LANDING, LANGUAGE, IP, URL)
  }

  /**
   * The pre-image of the integrity token: name, surname, email, phone and ip
   * concatenated in that order with nothing between them. The digest itself
   * is computed outside the model.
   */
  function TokenSource(p: Payload): string {
    p.name + p.surname + p.email + p.phone + p.ip
  }

  /** The POST request: its JSON body and its three headers, the token given by its pre-image. */
  datatype Request = Request(payload: Payload, contentType: string, tokenSource: string, userAgent: string)

  function RequestFor(p: Payload): Request {
    Request(p, CONTENT_TYPE, TokenSource(p), USER_AGENT)
  }

  /** What the single POST attempt came back with. */
  datatype PostResult = Responded(status: int) | TransportError(reason: string)

  /** What the user is told. */
  datatype Outcome = Accepted | Rejected(status: int) | SendFailed(reason: string)

  function Classify(r: PostResult): Outcome {
    match r
    case Responded(status) => if status == 200 || status == 201 then Accepted else Rejected(status)
    case TransportError(reason) => SendFailed(reason)
  }

  /** The email check of the form: the text contains both an `@` and a `.`. */
  predicate IsValidEmail(s: string) {
    '@' in s && '.' in s
  }

  lemma EmailExamples()
    ensures IsValidEmail("a@b.c")
    ensures !IsValidEmail("abc") && !IsValidEmail("a@b")
  {
    assert "a@b.c"[1] == '@' && "a@b.c"[3] == '.';
  }

  /** 200 and 201 are success, any other status is an error carrying it, a transport failure is a failure. */
  lemma ClassifyCases(r: PostResult)
    ensures Classify(r) == Accepted <==> r == Responded(200) || r == Responded(201)
    ensures forall c: int :: Classify(r) == Rejected(c) <==> r == Responded(c) && c != 200 && c != 201
    ensures forall e: string :: Classify(r) == SendFailed(e) <==> r == TransportError(e)
  {
  }

  /** The request carries the payload, the fixed headers and the token pre-image in its exact order. */
  lemma RequestLayout(name: string, surname: string, phone: string, email: string)
    ensures RequestFor(MakePayload(name, surname, phone, email)).tokenSource
            == name + surname + email + phone + "0.0.0.0"
    ensures RequestFor(MakePayload(name, surname, phone, email)).payload.ip == "0.0.0.0"
    ensures RequestFor(MakePayload(name, surname, phone, email)).userAgent == "GPT-investBot/1.0"
  {
  }

  lemma CancelPrefix(x: string, a: string, b: string)
    requires x + a == x + b
    ensures a == b
  {
    assert a == (x + a)[|x|..];
  }

  lemma CancelSuffix(a: string, b: string, y: string)
    requires a + y == b + y
    ensures a == b
  {
    assert a == (a + y)[..|a|];
  }

  lemma Assoc(a: string, b: string, c: string)
    ensures (a + b) + c == a + (b + c)
  {
  }

  /** With the other fields held fixed, changing any one field changes the token pre-image. */
  lemma TokenSourceSeparatesFields(
    name: string, surname: string, phone: string, email: string, other: string)
    ensures other != name ==>
      TokenSource(MakePayload(other, surname, phone, email)) != TokenSource(MakePayload(name, surname, phone, email))
    ensures other != surname ==>
      TokenSource(MakePayload(name, other, phone, email)) != TokenSource(MakePayload(name, surname, phone, email))
    ensures other != email ==>
      TokenSource(MakePayload(name, surname, phone, other)) != TokenSource(MakePayload(name, surname, phone, email))
    ensures other != phone ==>
      TokenSource(MakePayload(name, surname, other, email)) != TokenSource(MakePayload(name, surname, phone, email))
  {
    forall n | n == name || n == other
      ensures n + surname + email + phone + IP == n + (surname + email + phone + IP)
    {
      Assoc(n, surname, email);
      Assoc(n, surname + email, phone);
      Assoc(n, surname + email + phone, IP);
    }
    if TokenSource(MakePayload(other, surname, phone, email)) == TokenSource(MakePayload(name, surname, phone, email)) {
      CancelSuffix(other, name, surname + email + phone + IP);
    }
    forall s | s == surname || s == other
      ensures name + s + email + phone + IP == (name + s) + (email + phone + IP)
    {
      Assoc(name + s, email, phone);
      Assoc(name + s, email + phone, IP);
    }
    if TokenSource(MakePayload(name, other, phone, email)) == TokenSource(MakePayload(name, surname, phone, email)) {
      CancelSuffix(name + other, name + surname, email + phone + IP);
      CancelPrefix(name, other, surname);
    }
    forall e | e == email || e == other
      ensures name + surname + e + phone + IP == (name + surname + e) + (phone + IP)
    {
      Assoc(name + surname + e, phone, IP);
    }
    if TokenSource(MakePayload(name, surname, phone, other)) == TokenSource(MakePayload(name, surname, phone, email)) {
      CancelSuffix(name + surname + other, name + surname + email, phone + IP);
      CancelPrefix(name + surname, other, email);
    }
    if TokenSource(MakePayload(name, surname, other, email)) == TokenSource(MakePayload(name, surname, phone, email)) {
      CancelSuffix(name + surname + email + other, name + surname + email + phone, IP);
      CancelPrefix(name + surname + email, other, phone);
    }
  }

  /**
   * With no separators, changing two fields at once can leave the pre-image
   * (and so the token) the same: name "ab" with surname "c" and name "a" with
   * surname "bc" give one token.
   */
  lemma TokenSourceAmbiguous(phone: string, email: string)
    ensures MakePayload("ab", "c", phone, email) != MakePayload("a", "bc", phone, email)
    ensures TokenSource(MakePayload("ab", "c", phone, email)) == TokenSource(MakePayload("a", "bc", phone, email))
  {
    assert "ab" + "c" == "a" + "bc";
  }
}
