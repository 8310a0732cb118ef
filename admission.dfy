/** Admission of a start request (`start_installation` in
    installer-backend/app.py): a request is refused while a run is active,
    refused when a required field is absent, and refused with a server error
    when checking the body raises. Only presence is checked, with Python's
    `in`, whatever the body turns out to be. */
module Admission {
  import opened Wrappers
  import opened Engine

  /** What `request.get_json()` gives: a parsed body, or the exception it
      raised (a body that is not JSON, a wrong content type). */
  datatype Request = Parsed(body: Json) | Unreadable(error: string)

  /** The HTTP answer: the run was started, or an error with its status code
      and the text of its `error` field. */
  datatype Response = Accepted | Rejected(code: int, error: string)

  /** The answer, and the line logged with it (only the 500 path logs). */
  datatype Verdict = Verdict(response: Response, logged: Option<string>)

  const Busy: Response := Rejected(400, "Installation already in progress")
  const ServerError: Response := Rejected(500, "Failed to start installation")

  function MissingField(field: string): Response {
    Rejected(400, "Missing required field: " + field)
  }

  /** `needle` occurs in `hay` as a contiguous piece (Python's `in` on two
      strings; the empty string occurs in every string). */
  predicate Occurs(needle: string, hay: string)
    decreases |hay|
  {
    |needle| <= |hay| && (hay[..|needle|] == needle || (hay != [] && Occurs(needle, hay[1..])))
  }

  /** Python's `field in data`: a key of an object, an element of a list, a
      substring of a string; any other value raises a TypeError. */
  function Contains(body: Json, field: string): (r: Result<bool, string>)
    ensures r.Err? <==> body.JScalar?
    ensures body.JObject? ==> r == Ok(field in body.fields)
  {
    match body
    case JObject(m) => Ok(field in m)
    case JArray(items) => Ok(field in items)
    case JString(text) => Ok(Occurs(field, text))
    case JScalar(t) => Err("argument of type '" + t + "' is not iterable")
  }

  /** The field loop of `start_installation`: the first field of `fields`
      absent from the body (`Ok(Some(f))`), none (`Ok(None)`), or the
      exception the first test raised. */
  function FirstMissing(body: Json, fields: seq<string>): (r: Result<Option<string>, string>)
    ensures r.Err? <==> body.JScalar? && fields != []
    ensures r == Ok(None) ==> forall i :: 0 <= i < |fields| ==> Contains(body, fields[i]) == Ok(true)
    ensures r.Ok? && r.value.Some? ==>
              exists i :: 0 <= i < |fields| && fields[i] == r.value.value && Contains(body, fields[i]) == Ok(false)
                          && forall j :: 0 <= j < i ==> Contains(body, fields[j]) == Ok(true)
  {
    if fields == [] then Ok(None)
    else match Contains(body, fields[0])
      case Err(e) => Err(e)
      case Ok(false) => Ok(Some(fields[0]))
      case Ok(true) =>
        var r := FirstMissing(body, fields[1..]);
        if r.Err? then r
        else if r.value.Some? then
          ghost var i :| 0 <= i < |fields| - 1 && fields[1..][i] == r.value.value
                         && Contains(body, fields[1..][i]) == Ok(false)
                         && forall j :: 0 <= j < i ==> Contains(body, fields[1..][j]) == Ok(true);
          assert fields[i + 1] == r.value.value;
          assert forall j :: 0 <= j < i + 1 ==> Contains(body, fields[j]) == Ok(true) by {
            forall j | 0 <= j < i + 1 ensures Contains(body, fields[j]) == Ok(true) {
              if j > 0 { assert fields[j] == fields[1..][j - 1]; }
            }
          }
          r
        else
          assert forall i :: 0 <= i < |fields| ==> Contains(body, fields[i]) == Ok(true) by {
            forall i | 0 <= i < |fields| ensures Contains(body, fields[i]) == Ok(true) {
              if i > 0 { assert fields[i] == fields[1..][i - 1]; }
            }
          }
          r
  }

  /** `start_installation`, up to the start of the run thread. */
  function Admit(active: bool, req: Request): Verdict {
    if active then Verdict(Busy, None)
    else match req
      case Unreadable(e) => Verdict(ServerError, Some("Error starting installation: " + e))
      case Parsed(body) =>
        match FirstMissing(body, RequiredFields)
        case Err(e) => Verdict(ServerError, Some("Error starting installation: " + e))
        case Ok(Some(f)) => Verdict(MissingField(f), None)
        case Ok(None) => Verdict(Accepted, None)
  }

  /** A start while a run is active is refused before the body is looked at,
      and nothing is logged. */
  lemma BusyRefused(req: Request)
    ensures Admit(true, req) == Verdict(Rejected(400, "Installation already in progress"), None)
  {
  }

  /** A started run has the fields it reads: an accepted request was idle,
      parsed, and an object body holds every required field. */
  lemma AcceptedHasFields(active: bool, req: Request)
    requires Admit(active, req).response == Accepted
    ensures !active && req.Parsed? && HasRequiredFields(req.body)
  {
    var r := FirstMissing(req.body, RequiredFields);
    assert r == Ok(None);
    if req.body.JObject? {
      forall f | f in RequiredFields ensures f in req.body.fields {
        var i :| 0 <= i < |RequiredFields| && RequiredFields[i] == f;
        assert Contains(req.body, RequiredFields[i]) == Ok(true);
      }
    }
  }

  /** An object body that lacks a field is refused naming the first missing
      field in the order language, timezone, disk, username, password. */
  lemma FirstMissingNamed(fields: map<string, string>, i: nat)
    requires i < |RequiredFields| && RequiredFields[i] !in fields
    requires forall j :: 0 <= j < i ==> RequiredFields[j] in fields
    ensures Admit(false, Parsed(JObject(fields))) ==
            Verdict(Rejected(400, "Missing required field: " + RequiredFields[i]), None)
  {
    var body := JObject(fields);
    assert Contains(body, RequiredFields[i]) == Ok(false);
    assert forall j :: 0 <= j < i ==> Contains(body, RequiredFields[j]) == Ok(true);
  }

  /** An idle request with an object body holding every field is accepted,
      whatever the values are (empty strings included). */
  lemma CompleteObjectAccepted(fields: map<string, string>)
    requires forall f :: f in RequiredFields ==> f in fields
    ensures Admit(false, Parsed(JObject(fields))).response == Accepted
  {
    var body := JObject(fields);
    assert forall j :: 0 <= j < |RequiredFields| ==> Contains(body, RequiredFields[j]) == Ok(true);
  }

  /** Only presence is checked: a list holding the five names is accepted
      as a body; a production-mode run then fails at its first subscript (a
      development-mode run completes). */
  lemma ListOfNamesAccepted()
    ensures Admit(false, Parsed(JArray(RequiredFields))).response == Accepted
  {
    var body := JArray(RequiredFields);
    assert forall j :: 0 <= j < |RequiredFields| ==> Contains(body, RequiredFields[j]) == Ok(true);
  }

  /** A JSON scalar (a number, `true`, `null`, ...) makes the first `in`
      raise: the request gets the generic server error and the TypeError is
      logged. */
  lemma ScalarBodyFails(typeName: string)
    ensures Admit(false, Parsed(JScalar(typeName))) ==
            Verdict(Rejected(500, "Failed to start installation"),
                    Some("Error starting installation: " + ("argument of type '" + typeName + "' is not iterable")))
  {
  }
}
