// What travels between the seeder and a REST server, and how a reply is
// classified (seeder/rest.go `do`, seeder/diagnostic.go).
module Wire {
  datatype Option<+T> = None | Some(value: T)

  datatype Verb = GET | POST | PUT | PATCH | DELETE

  datatype Request = Request(verb: Verb, host: string, path: string, query: string, body: string)

  // Everything that a call of the injected client can end in.
  datatype Reply =
    | NetworkFailure(message: string)
    | UnreadableBody(status: int)
    | Answer(status: int, body: string)

  // The contents of a `Diagnostic` object once it is returned as an error.
  datatype Diagnosis = Diagnosis(
    status: int, name: string, message: string, request: Request,
    proceedFallback: bool, isFatal: bool)

  datatype Error = Diagnosed(d: Diagnosis) | Plain(message: string)

  // What a verb method hands back to its strategy.
  datatype Sent = Body(text: string) | Failed(error: Error)

  const NETWORK_ERROR_STATUS := 999

  predicate Succeeded(r: Reply) {
    r.Answer? && r.status <= 299
  }

  // The reply lets a strategy try its next request: a readable 3xx or 4xx.
  predicate AllowsFallback(r: Reply) {
    r.Answer? && 300 <= r.status < 500
  }

  // The diagnostic that `do` has built when it returns, field by field.
  function Diagnose(name: string, req: Request, r: Reply): Diagnosis {
    match r
    case NetworkFailure(m) =>
      Diagnosis(NETWORK_ERROR_STATUS, name, "failed to make network call: " + m, req, false, true)
    case UnreadableBody(status) =>
      Diagnosis(status, name, "unable to read the body", req, false, true)
    case Answer(status, body) =>
      Diagnosis(status, name, body, req, status < 500, false)
  }

  function Classify(name: string, req: Request, r: Reply): Sent {
    if Succeeded(r) then Body(r.body) else Failed(Diagnosed(Diagnose(name, req, r)))
  }

  // The two flags that the strategies read. A fallback is never fatal; but a
  // failure may be neither (5xx), so `!isFatal` alone does not allow one.
  lemma FallbackFlags(name: string, req: Request, r: Reply)
    requires !Succeeded(r)
    ensures var d := Diagnose(name, req, r);
            && (d.proceedFallback <==> AllowsFallback(r))
            && (d.proceedFallback ==> !d.isFatal)
            && (d.isFatal <==> !r.Answer?)
            && (!d.proceedFallback && !d.isFatal <==> r.Answer? && r.status >= 500)
  {
    match r
    case NetworkFailure(_) =>
    case UnreadableBody(_) =>
    case Answer(_, _) =>
  }
}
