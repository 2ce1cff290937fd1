# webhook-repo: a Dafny model of the webhook ingestor

The service receives webhook deliveries from a source-control host. It checks
the `X-Hub-Signature-256` HMAC-SHA256 signature against a shared secret,
dispatches on the `X-GitHub-Event` header, normalises push and pull-request
payloads into an Event Record, and appends that record to an `events` document
collection. A second endpoint, `/events`, lists the ten newest records, with
each store identifier turned into a string.

This model covers `app.py`'s webhook handler, its two normalisers and the event
query. Modules:

- `Text` (`text.dfy`): `str.split` with one separator, the last piece of a
  split (`ref.split('/')[-1]`), and `str(int)` in decimal.
- `PyValue` (`py_value.dfy`): JSON payloads as `request.json` delivers them,
  plus the Python semantics the handlers depend on. Subscripting a dict with a
  missing key raises `KeyError`. Subscripting anything else raises `TypeError`.
  `.split` on a non-string raises `AttributeError`. `dict.get`, truthiness and
  `str()` are modelled too.
- `Hex` (`hex.dfy`): lower-case hex text for byte strings. Both `hexdigest()`
  and `str(ObjectId)` use it.
- `Signature` (`signature.dfy`): the expected signature
  `"sha256=" + hex(HMAC(secret, body))`, and `hmac.compare_digest` on two
  strings.
- `Records` (`records.dfy`): the Event Record.
- `Normalise` (`normalise.dfy`): `process_push` and `process_pull_request` as
  functions from a payload to what they insert, swallow or let escape.
- `Events` (`events.dfy`): the store as a class holding a sequence of
  documents. `Insert` appends one document. `Latest` specifies
  `find().sort("timestamp", -1).limit(10)`. `GetEvents` calls `StringifyIds`, which rewrites each `_id` to a
  string in place, in a loop over an array.
- `Webhook` (`webhook.dfy`): the handler's chain of early returns as the
  function `Dispatch`, and the method `HandleWebhook`, which runs the chain
  against a store and is proved to agree with `Dispatch`.

External inputs are parameters:

- the HMAC-SHA256 function (`mac`), which the model does not compute;
- the `WEBHOOK_SECRET` environment variable (`secret`);
- the receipt time (`now`);
- the ObjectId the driver assigns (`oid`);
- the decoded JSON body, or the exception that decoding raises (`Request.json`).

A store that failed to connect at start-up (`events = None`) is modelled as a
null `EventStore?`.

Behaviour of the code as written that the model keeps:

- `hmac.compare_digest` raises `TypeError` when given a `str` with non-ASCII
  characters. A signature header with such characters therefore gets a 500,
  not a 403.
- A `ping` is answered before the body is decoded as JSON, so a `ping` with a
  non-JSON body still gets its pong. Any other event with a non-JSON body gets
  a 500, including events the handler would otherwise ignore.
- A missing key in a push or pull-request payload is swallowed. The handler
  still answers 200 success and writes nothing. A field that the normaliser
  subscripts or splits, reached before any missing key, raises TypeError or
  AttributeError when it has the wrong type, and that gives a 500. For
  example, `{"pusher": {"name": "a"}, "ref": "refs/heads/x", "head_commit":
  null}` gives a 500, while the same payload without `pusher` is swallowed.
  Fields that are only copied into the record, such as `pusher.name`, are
  not checked by the normaliser and go to the store whatever their JSON type;
  the model's store accepts every such value (see "## Left out" for values
  the real store rejects).
- Only `GET` echoes the challenge. A `HEAD` request reaches the view with
  `request.method == 'HEAD'` and takes the signature path.
- A push's `request_id` and `author`, and a pull request's `author`,
  `from_branch` and `to_branch`, keep whatever JSON value the payload held
  there. A push's `to_branch` is always a string piece of `ref` and its
  `from_branch` is always null. Only a pull request's `request_id` goes
  through `str()`.

## Model

| member | source | states |
|---|---|---|
| Text.Split | app.py:96 | `ref.split('/')` gives at least one piece, no piece contains `/`, and there is exactly one piece iff `ref` has no `/` |
| Text.JoinSplit | app.py:96 | joining the pieces of a split with the separator gives back the original string, so splitting loses nothing |
| Text.LastPieceAfterLastSeparator | app.py:96 | `ref.split('/')[-1]` is a suffix of `ref` with no `/`; it is preceded by `/` when `ref` has one, and is all of `ref` otherwise |
| Text.LastPieceFollowsLastSeparator | app.py:96 | for `ref = p + "/" + t` with no `/` in `t`, the extracted branch is exactly `t`, whatever `p` is |
| Text.SplitWithoutSeparator | app.py:96 | a string without `/` splits into itself alone |
| Text.NatToDecimal | app.py:133 | the decimal text of a natural number is all digits, non-empty, and starts with `0` only for zero |
| Text.DecimalRoundTrip | app.py:133 | reading the decimal text of a natural number back gives the number |
| Text.IntToDecimal | app.py:133 | `str(n)` starts with `-` exactly for a negative `n`, followed by digits with no leading zero; zero is exactly "0" (no `-0`, no `00`) |
| Text.IntRoundTrip | app.py:133 | `int(str(n)) == n`: the PR id's string form loses nothing |
| Text.DecimalCanonical | app.py:133 | a digit string without a leading zero (other than "0") is the decimal text of its own value |
| Text.IntDecimalCanonical | app.py:133 | every canonical decimal (optional `-`, no leading zero, no `-0`) is `str` of its value, so `str` on ints and `int` on canonical decimals are inverse |
| Text.LastPiece | app.py:96 | `ref.split('/')[-1]` holds no `/` |
| PyValue.SplitMethod | app.py:96 | `.split('/')` raises AttributeError on a non-string `ref`; on a string its last piece is `LastPiece` |
| PyValue.Subscript | app.py:95-100 | `v[key]` succeeds exactly on a dict holding the key, with its value; a dict without it raises KeyError, anything else TypeError |
| PyValue.Get | app.py:129 | `pr.get(key)` gives the value, or None for a missing key, on a dict; any other value raises AttributeError |
| PyValue.Truthy | app.py:129 | a JSON value is false exactly when it is None, False, 0, "", [] or {} |
| PyValue.Str | app.py:133 | `str()` of an integer id is the canonical decimal text (sign exactly for negatives, no leading zero, zero as "0") and reads back as the id |
| Hex.Hex | app.py:57 | `hexdigest()` gives two lower-case hex digits per byte |
| Hex.UnhexHex | app.py:57 | decoding the hex text of bytes gives back the bytes |
| Hex.HexUnhex | app.py:57 | every text that hex decoding accepts is the hex text of its result |
| Hex.HexInjective | app.py:57 | two byte strings have the same hex text iff they are equal |
| Signature.ExpectedSignature | app.py:53-58 | the expected header is ASCII, starts with `sha256=`, and the rest decodes to exactly the MAC of the body |
| Signature.CompareDigest | app.py:61 | `compare_digest` on two str values raises TypeError exactly when one is non-ASCII, and otherwise answers whether they are equal |
| Signature.CompareWithExpected | app.py:61 | `compare_digest` with the expected value raises iff the header is non-ASCII; otherwise it is true iff the header equals the expected value |
| Signature.SignatureBindsMac | app.py:53-63 | two bodies have the same expected signature iff their MACs are equal |
| Normalise.CatchKeyError | app.py:110-112 | the `except KeyError` turns exactly a KeyError into a swallowed outcome, keeps a record or an early return, and lets every other exception through unchanged |
| Normalise.PushOutcome | app.py:92-112 | the push normaliser never returns early; what it inserts is a PUSH record stamped now; what escapes is a TypeError or AttributeError |
| Normalise.PullRequestOutcome | app.py:115-145 | the PR normaliser inserts only PULL_REQUEST or MERGE records stamped now; what escapes is a TypeError |
| Normalise.PushRecord | app.py:95-106 | a push record has action PUSH, a null `from_branch`, the receipt time, and a string `to_branch` with no `/`; only KeyError, TypeError or AttributeError can be raised |
| Normalise.PushOutcomeCases | app.py:92-112 | a push inserts iff every field it reads is present with the right type; a payload whose only fault is a missing key is swallowed; only a wrongly typed field lets an exception escape, and never a KeyError |
| Normalise.PushInserts | app.py:95-106 | a well-formed push payload yields the record (head commit id, pusher name, PUSH, null, last `/`-piece of `ref`, now) |
| Normalise.PushRecordFields | app.py:95-106 | the push record is (head commit id, pusher name, PUSH, null, last `/`-piece of `ref`, now), and that branch has no `/`, ends `ref` and follows its last `/` |
| Normalise.PushExample | app.py:95-106 | alice pushing `refs/heads/main` at `abc123` inserts `{abc123, alice, PUSH, null, main}` |
| Normalise.MainBranchExample | app.py:96 | `"refs/heads/main".split('/')[-1] == "main"` |
| Normalise.PullRequestRecord | app.py:117-139 | a PR record's action is PULL_REQUEST or MERGE, its `request_id` is a string, and its timestamp is the receipt time; only KeyError or TypeError can be raised |
| Normalise.PullRequestFilter | app.py:117-121 | only `opened` or `closed` can insert; a missing `action` or `pull_request` is swallowed whatever the action; any other action inserts nothing whatever the PR holds |
| Normalise.PullRequestOutcomeCases | app.py:115-145 | a PR inserts iff its action is recorded and every field it reads is present; a recorded PR whose containers are dicts but which misses a key is swallowed; only a non-dict container lets an exception escape, and it is a TypeError |
| Normalise.PullRequestRecordFields | app.py:123-139 | an opened or closed PR with all fields inserts (str(id), login, kind, head ref, base ref, now), where kind is MERGE iff closed and `merged` is truthy |
| Normalise.MergeClassification | app.py:128-130 | an inserted PR record is MERGE iff the action is `closed` and `merged` is present and truthy, and never PUSH |
| Normalise.ClosedPullRequestExamples | app.py:128-139 | a closed PR with `merged` true is MERGE and with `merged` false is PULL_REQUEST, with `request_id` "42" for id 42 |
| Normalise.SynchronizeIsFiltered | app.py:120-121 | a `synchronize` action inserts nothing and raises nothing |
| Events.EventStore.constructor | app.py:22 | an empty collection holds no documents (the store a handler meets may hold any documents; see below) |
| Events.EventStore.Insert | app.py:108 | `insert_one` appends exactly one document and leaves the others unchanged |
| Events.StrId | app.py:153 | `str(_id)` of an ObjectId is 24 hex digits that decode to it; of a string, the string itself |
| Events.Stringified | app.py:153 | a listed document keeps its record, and its `_id` is a 24-character hex string that decodes to the stored ObjectId |
| Events.StrLeTotal | app.py:151 | any two timestamps are ordered one way or the other |
| Events.StrLeTransitive | app.py:151 | the timestamp order is transitive |
| Events.InsertByStamp | app.py:151 | placing one document into the sorted sequence lengthens it by one and includes that document |
| Events.SortByStamp | app.py:151 | sorting by timestamp keeps the number of documents |
| Events.InsertByStampElements | app.py:151 | inserting one document lengthens the sequence by one, adds exactly that document, and brings in nothing else |
| Events.InsertByStampCorrect | app.py:151 | inserting into a newest-first sequence keeps it newest first and adds exactly that document |
| Events.SortByStampCorrect | app.py:151 | sorting by timestamp descending gives a newest-first permutation of the documents |
| Events.PrefixIsNewest | app.py:151 | in a newest-first sequence nothing after a cut is newer than anything before it |
| Events.Latest | app.py:151 | `find().sort("timestamp", -1).limit(n)` returns min(n, count) documents taken from the store, newest first, and no document left out is newer than one returned |
| Events.StringifyIds | app.py:152-153 | the loop over the fetched documents replaces each `_id` in place by its hex string and keeps every record and the order |
| Events.GetEvents | app.py:149-156 | with no store the answer is an AttributeError (500); otherwise at most 10 documents, newest first, each the stored record with `_id` rewritten to its hex string |
| Webhook.Dispatch | app.py:33-89 | the handler only answers 200, 400, 403 or 500, and writes only when it answers 200 and the store exists |
| Webhook.Route | app.py:66-85 | after the signature check it answers only 200, 400 or 500, and writes only with 200 |
| Webhook.Finish | app.py:78-89 | a normaliser's record is written iff the store exists; an escaped exception or a missing store gives 500; anything else is 200 success |
| Webhook.ProcessPush | app.py:92-112 | the push normaliser writes what `PushOutcome` builds and hands back exactly the exceptions that make the handler answer 500 |
| Webhook.ProcessPullRequest | app.py:115-145 | the PR normaliser writes what `PullRequestOutcome` builds and hands back exactly the exceptions that make the handler answer 500 |
| Webhook.HandleWebhook | app.py:33-89 | the handler answers what `Dispatch` decides; the store gains exactly the record `Dispatch` writes, if any, and nothing else |
| Webhook.GetEchoesChallenge | app.py:34-36 | a GET answers 200 with `hub.challenge` or "", whatever the signature, secret or body, and writes nothing |
| Webhook.MissingSignatureFirst | app.py:40-43 | a non-GET request with an absent or empty signature gets 403 "Missing signature" with no write, whatever the secret, body, event header or payload |
| Webhook.UnsetSecretIsServerError | app.py:46-49 | a signed non-GET request with no configured secret gets 500 "Server misconfigured", not the mismatch 403 |
| Webhook.SignatureGate | app.py:52-63 | a non-GET request with a secret set passes iff the header equals `sha256=` plus the hex MAC of the body; any other non-empty header gives 403, or 500 when it is non-ASCII, with no write |
| Webhook.OnlySignedRequestsReachEvents | app.py:40-85 | every 400, every pong or success, and every write comes from a request with a correct signature |
| Webhook.TamperedBodyRefused | app.py:52-63 | a non-GET request carrying the signature made for one body is refused with 403, with no write, for any body with a different MAC |
| Webhook.EventsWithoutRecords | app.py:66-85 | a missing event header gives 400; `ping` gives a pong; any other event kind whose body decodes as JSON gives success; none of them writes |
| Webhook.WritesComeFromNormalisers | app.py:78-85 | a write happens only for push or pull_request, is exactly the record the normaliser built, and comes with 200 success |
| Webhook.DroppedPayloadsStillSucceed | app.py:78-85 | a push whose subscripted fields are well typed but which misses a key, a PR with an unrecorded action, or a well-typed recorded PR missing a key answers 200 success with no write |

## Left out

- Flask routing, the `/` status page and `app.run`: web-framework plumbing.
- Connecting to the store at start-up: the model receives either a store or
  none.
- Events.EventStore.constructor: `db.events` opens the persisted collection,
  which may already hold documents from earlier runs. The constructor builds
  an empty store only; `HandleWebhook` and `GetEvents` are proved for a store
  holding any documents.
- The MongoDB driver beyond append and the ordered query. Driver errors
  after start-up are not modelled, and neither is the `_id` that `insert_one`
  adds to the dict it is given. In particular, a copied field holding a value
  BSON cannot encode (an integer outside the signed 64-bit range, such as a
  `pusher.name` of 2^64) makes `insert_one` raise; the handler then answers
  500 and writes nothing, where the model, whose `Json` integers are
  unbounded and whose `EventStore.Insert` never fails, answers 200 success
  and writes the record.
- HMAC-SHA256 itself: `mac` is a parameter. Encoding the secret as UTF-8 is
  part of `mac`. The constant-time behaviour of `compare_digest` cannot be
  expressed and is not modelled.
- `datetime.now(...).isoformat()`: the receipt time is the parameter `now`.
- Decoding JSON: the request carries its result. The consistency between
  `body` and `json` is not modelled.
- Log output and `print`, and the text of an exception echoed in a 500 body.
  The model keeps the exception's class only.
- JSON numbers with a fraction or an exponent: Python reads these as floats.
  `Json` has integers only.
- PyValue.Str: `str()` of a list or dict id gives Python's repr. The model
  gives a fixed stand-in for these. It is exact for null, booleans, integers
  and strings.
- Events.Latest: when timestamps tie, MongoDB does not guarantee an order.
  The model keeps insertion order. The proved properties (newest first, at most
  ten, nothing left out is newer) hold for any order of ties.
- Documents in the collection written by other programs: every stored document
  is one this handler wrote, so every timestamp is a string.
