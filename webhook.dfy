/**
 * The `/webhook` handler: an ordered chain of guarded early returns that maps
 * a request to a status code, a response body and at most one store write.
 * `Dispatch` is the chain as a function; `HandleWebhook` runs it against an
 * event store, with the normalisers doing the insert.
 */
module Webhook {
  import opened PyValue
  import opened Records
  import opened Normalise
  import opened Signature
  import opened Events

  datatype Method = GET | POST | HEAD

  /**
   * What the handler reads of a request. `json` is what `request.json`
   * yields: the decoded body, or the exception it raises on a body that is
   * not JSON.
   */
  datatype Request = Request(
    verb: Method,               // `request.method`
    challenge: Option<string>,  // the `hub.challenge` query parameter
    signature: Option<string>,  // the `X-Hub-Signature-256` header
    event: Option<string>,      // the `X-GitHub-Event` header
    body: seq<Byte>,            // `request.get_data()`
    json: Eval<Json>)

  /** Response bodies: plain text, `{"status": ...}`, `{"error": ...}`, or an exception's message. */
  datatype Body =
    | Plain(text: string)
    | Status(status: string)
    | Error(message: string)
    | Exception(exc: Exc)

  datatype Outcome = Outcome(status: int, body: Body, write: Option<EventRecord>)

  function Reply(status: int, body: Body): Outcome {
    Outcome(status, body, None)
  }

  /**
   * The handler as a decision chain. `secret` is `WEBHOOK_SECRET`, `mac` the
   * keyed hash, `now` the receipt time, and `storeUp` whether the `events`
   * collection handle exists (it is None when the store was unreachable at start).
   */
  function Dispatch(req: Request, secret: Option<string>, mac: Mac, now: string, storeUp: bool): (o: Outcome)
    ensures o.status in {200, 400, 403, 500}
    ensures o.write.Some? ==> o.status == 200 && storeUp
  {
    if req.verb == GET then Reply(200, Plain(req.challenge.GetOr("")))
    else
      var header := req.signature.GetOr("");
      if header == "" then Reply(403, Error("Missing signature"))
      else if secret.GetOr("") == "" then Reply(500, Error("Server misconfigured"))
      else match CompareDigest(header, ExpectedSignature(mac, secret.value, req.body))
        case Raised(e) => Reply(500, Exception(e))
        case Ok(false) => Reply(403, Error("Invalid signature"))
        case Ok(true) => Route(req.event.GetOr(""), req.json, now, storeUp)
  }

  /** Everything after the signature check: the event header, `ping`, and the normalisers. */
  function Route(event: string, json: Eval<Json>, now: string, storeUp: bool): (o: Outcome)
    ensures o.status in {200, 400, 500}
    ensures o.write.Some? ==> o.status == 200 && storeUp
  {
    if event == "" then Reply(400, Error("Missing GitHub event header"))
    else if event == "ping" then Reply(200, Status("pong"))
    else match json
      case Raised(e) => Reply(500, Exception(e))
      case Ok(payload) =>
        if event == "push" then Finish(PushOutcome(payload, now), storeUp)
        else if event == "pull_request" then Finish(PullRequestOutcome(payload, now), storeUp)
        else Reply(200, Status("success"))
  }

  /** A normaliser's result as the handler answers it; inserting into a missing store raises. */
  function Finish(p: Processed, storeUp: bool): (o: Outcome)
    ensures o.write.Some? <==> p.ToInsert? && storeUp
    ensures o.write.Some? ==> o.write.value == p.record
    ensures o.status == 500 <==> p.Escaped? || (p.ToInsert? && !storeUp)
    ensures o.status != 500 ==> o.status == 200 && o.body == Status("success")
  {
    match p
    case ToInsert(r) =>
      if storeUp then Outcome(200, Status("success"), Some(r)) else Reply(500, Exception(AttributeError))
    case Escaped(e) => Reply(500, Exception(e))
    case _ => Reply(200, Status("success"))
  }

  /** The store's documents after an outcome: its record, if any, appended under `oid`. */
  function Written(docs: seq<StoredEvent>, o: Outcome, oid: ObjectId): seq<StoredEvent> {
    if o.write.Some? then docs + [StoredEvent(oid, o.write.value)] else docs
  }

  // ---------------------------------------------------------------------------
  // The handler against a store

  /**
   * `process_push`: builds the record and inserts it; a KeyError is swallowed,
   * any other exception is handed back to the caller.
   */
  method ProcessPush(store: EventStore?, payload: Json, now: string, oid: ObjectId)
    returns (escaped: Option<Exc>)
    modifies store
    ensures var o := Finish(PushOutcome(payload, now), store != null);
      && (escaped.Some? <==> o.status == 500)
      && (escaped.Some? ==> o.body == Exception(escaped.value))
      && (store != null ==> store.docs == Written(old(store.docs), o, oid))
  {
    match PushRecord(payload, now)
    case Ok(record) =>
      if store == null {
        return Some(AttributeError);
      }
      store.Insert(record, oid);
      return None;
    case Raised(e) =>
      return if e == KeyError then None else Some(e);
  }

  /**
   * `process_pull_request`: returns early for actions other than opened and
   * closed, otherwise builds and inserts the record; a KeyError is swallowed,
   * any other exception is handed back to the caller.
   */
  method ProcessPullRequest(store: EventStore?, payload: Json, now: string, oid: ObjectId)
    returns (escaped: Option<Exc>)
    modifies store
    ensures var o := Finish(PullRequestOutcome(payload, now), store != null);
      && (escaped.Some? <==> o.status == 500)
      && (escaped.Some? ==> o.body == Exception(escaped.value))
      && (store != null ==> store.docs == Written(old(store.docs), o, oid))
  {
    match PullRequestRecord(payload, now)
    case Ok(None) =>
      return None;
    case Ok(Some(record)) =>
      if store == null {
        return Some(AttributeError);
      }
      store.Insert(record, oid);
      return None;
    case Raised(e) =>
      return if e == KeyError then None else Some(e);
  }

  /**
   * `handle_webhook`: answers what `Dispatch` says, and the store gains
   * exactly the record `Dispatch` writes, if any, and nothing else.
   */
  method HandleWebhook(store: EventStore?, req: Request, secret: Option<string>, mac: Mac,
                       now: string, oid: ObjectId)
    returns (status: int, body: Body)
    modifies store
    ensures var o := Dispatch(req, secret, mac, now, store != null);
      && status == o.status && body == o.body
      && (store != null ==> store.docs == Written(old(store.docs), o, oid))
  {
    if req.verb == GET {
      return 200, Plain(req.challenge.GetOr(""));
    }
    var header := req.signature.GetOr("");
    if header == "" {
      return 403, Error("Missing signature");
    }
    if secret.GetOr("") == "" {
      return 500, Error("Server misconfigured");
    }
    var same := CompareDigest(header, ExpectedSignature(mac, secret.value, req.body));
    if same.Raised? {
      return 500, Exception(same.exc);
    }
    if !same.value {
      return 403, Error("Invalid signature");
    }
    var event := req.event.GetOr("");
    if event == "" {
      return 400, Error("Missing GitHub event header");
    }
    if event == "ping" {
      return 200, Status("pong");
    }
    if req.json.Raised? {
      return 500, Exception(req.json.exc);
    }
    var escaped: Option<Exc> := None;
    if event == "push" {
      escaped := ProcessPush(store, req.json.value, now, oid);
    } else if event == "pull_request" {
      escaped := ProcessPullRequest(store, req.json.value, now, oid);
    }
    if escaped.Some? {
      return 500, Exception(escaped.value);
    }
    return 200, Status("success");
  }

  // ---------------------------------------------------------------------------
  // Properties of the decision chain

  /** A GET echoes `hub.challenge` (or "") with 200, whatever the headers, secret or body, and writes nothing. */
  lemma GetEchoesChallenge(req: Request, secret: Option<string>, mac: Mac, now: string, storeUp: bool)
    requires req.verb == GET
    ensures Dispatch(req, secret, mac, now, storeUp) == Outcome(200, Plain(req.challenge.GetOr("")), None)
  {
  }

  /**
   * An absent or empty signature header gets 403 before anything else is
   * looked at: two such requests get the same answer whatever their secret,
   * body, event header or payload.
   */
  lemma MissingSignatureFirst(req1: Request, req2: Request, secret1: Option<string>, secret2: Option<string>,
                              mac1: Mac, mac2: Mac, now1: string, now2: string, up1: bool, up2: bool)
    requires req1.verb != GET && req2.verb != GET
    requires req1.signature.GetOr("") == "" && req2.signature.GetOr("") == ""
    ensures Dispatch(req1, secret1, mac1, now1, up1) == Dispatch(req2, secret2, mac2, now2, up2)
              == Outcome(403, Error("Missing signature"), None)
  {
  }

  /** A signature with no configured secret is a 500, not the 403 of a mismatch. */
  lemma UnsetSecretIsServerError(req: Request, secret: Option<string>, mac: Mac, now: string, storeUp: bool)
    requires req.verb != GET && req.signature.GetOr("") != ""
    requires secret.GetOr("") == ""
    ensures Dispatch(req, secret, mac, now, storeUp) == Outcome(500, Error("Server misconfigured"), None)
  {
  }

  /**
   * A request gets past the signature check exactly when it is not a GET, a
   * secret is set, and the header is exactly "sha256=" and the hex MAC of the
   * body; a header that differs from that is refused with 403, or with 500
   * when `compare_digest` cannot compare it (non-ASCII).
   */
  lemma SignatureGate(req: Request, secret: Option<string>, mac: Mac, now: string, storeUp: bool)
    ensures var passes := req.verb != GET && secret.GetOr("") != ""
                          && req.signature == Some(ExpectedSignature(mac, secret.value, req.body));
      && (passes ==> Dispatch(req, secret, mac, now, storeUp) == Route(req.event.GetOr(""), req.json, now, storeUp))
      && (req.verb != GET && secret.GetOr("") != "" && req.signature.GetOr("") != "" && !passes ==>
            var o := Dispatch(req, secret, mac, now, storeUp);
            o.write == None &&
            if IsAscii(req.signature.value)
            then o == Outcome(403, Error("Invalid signature"), None)
            else o == Outcome(500, Exception(TypeError), None))
  {
  }

  /**
   * Whatever the handler answers with a pong, a success, a 400 or a write has
   * passed the signature check.
   */
  lemma OnlySignedRequestsReachEvents(req: Request, secret: Option<string>, mac: Mac, now: string, storeUp: bool)
    ensures var o := Dispatch(req, secret, mac, now, storeUp);
      (o.status == 400 || o.body.Status? || o.write.Some?) ==>
        req.verb != GET && secret.GetOr("") != ""
        && req.signature == Some(ExpectedSignature(mac, secret.value, req.body))
  {
  }

  /**
   * A signature made for one body is refused for any other body whose MAC
   * differs: the handler answers 403 and writes nothing.
   */
  lemma TamperedBodyRefused(req: Request, secret: string, mac: Mac, original: seq<Byte>, now: string, storeUp: bool)
    requires req.verb != GET && secret != ""
    requires req.signature == Some(ExpectedSignature(mac, secret, original))
    requires mac(secret, req.body) != mac(secret, original)
    ensures Dispatch(req, Some(secret), mac, now, storeUp) == Outcome(403, Error("Invalid signature"), None)
  {
  }

  /**
   * Past the signature: no event header is a 400; `ping` is a pong, even for a
   * body that is not JSON; an event other than push or pull_request is a
   * success. None of these writes.
   */
  lemma EventsWithoutRecords(event: string, json: Eval<Json>, now: string, storeUp: bool)
    ensures event == "" ==> Route(event, json, now, storeUp) == Outcome(400, Error("Missing GitHub event header"), None)
    ensures event == "ping" ==> Route(event, json, now, storeUp) == Outcome(200, Status("pong"), None)
    ensures event !in {"", "ping", "push", "pull_request"} && json.Ok? ==>
              Route(event, json, now, storeUp) == Outcome(200, Status("success"), None)
  {
  }

  /**
   * The handler writes only for a push or a pull_request whose normaliser
   * built that very record, and then answers 200 success.
   */
  lemma WritesComeFromNormalisers(event: string, json: Eval<Json>, now: string, storeUp: bool)
    ensures var o := Route(event, json, now, storeUp);
      o.write.Some? ==>
        && storeUp && json.Ok?
        && o.status == 200 && o.body == Status("success")
        && ((event == "push" && PushOutcome(json.value, now) == ToInsert(o.write.value))
            || (event == "pull_request" && PullRequestOutcome(json.value, now) == ToInsert(o.write.value)))
  {
  }

  /**
   * A payload that is dropped is reported as a success: a push missing a
   * field, a pull request whose action is not recorded, or a recorded pull
   * request missing a field answers 200 success and writes nothing.
   */
  lemma DroppedPayloadsStillSucceed(json: Json, now: string, storeUp: bool)
    ensures PushTyped(json) && !PushWellFormed(json) ==>
              Route("push", Ok(json), now, storeUp) == Outcome(200, Status("success"), None)
    ensures json.JObject? && "action" in json.fields && "pull_request" in json.fields
            && !Recorded(json.fields["action"]) ==>
              Route("pull_request", Ok(json), now, storeUp) == Outcome(200, Status("success"), None)
    ensures PullRequestTyped(json) && "action" in json.fields && "pull_request" in json.fields
            && Recorded(json.fields["action"]) && !PullRequestWellFormed(json.fields["pull_request"]) ==>
              Route("pull_request", Ok(json), now, storeUp) == Outcome(200, Status("success"), None)
  {
    PullRequestOutcomeCases(json, now);
  }
}
