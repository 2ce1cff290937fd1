/**
 * The two payload normalisers, `process_push` and `process_pull_request`:
 * each reads fields out of a decoded webhook payload and yields at most one
 * Event Record. A missing key (KeyError) is caught, printed and dropped; any
 * other exception leaves the normaliser.
 */
module Normalise {
  import opened PyValue
  import opened Records
  import Text

  /** What one normaliser call comes to, up to (not including) the store write. */
  datatype Processed =
    | ToInsert(record: EventRecord)  // one record to insert
    | Filtered                     // returned without building a record
    | Swallowed                    // a KeyError was caught and printed
    | Escaped(exc: Exc)            // any other exception propagates to the caller

  /** The `try: ... except KeyError:` around each normaliser body. */
  function CatchKeyError(body: Eval<Option<EventRecord>>): (p: Processed)
    ensures p.ToInsert? <==> body.Ok? && body.value.Some?
    ensures p.ToInsert? ==> p.record == body.value.value
    ensures p == Filtered <==> body == Ok(None)
    ensures p == Swallowed <==> body == Raised(KeyError)
    ensures p.Escaped? ==> body == Raised(p.exc) && p.exc != KeyError
  {
    match body
    case Ok(Some(r)) => ToInsert(r)
    case Ok(None) => Filtered
    case Raised(KeyError) => Swallowed
    case Raised(e) => Escaped(e)
  }

  /** The push normaliser's body, reading the payload in the order the source does. */
  function PushRecord(payload: Json, now: string): (r: Eval<EventRecord>)
    ensures r.Ok? ==> r.value.action == Push && r.value.fromBranch == JNull && r.value.timestamp == now
    ensures r.Ok? ==> r.value.toBranch.JStr? && '/' !in r.value.toBranch.s
    ensures r.Raised? ==> r.exc in {KeyError, TypeError, AttributeError}
  {
    var pusher :- Subscript(payload, "pusher");
    var author :- Subscript(pusher, "name");
    var ref :- Subscript(payload, "ref");
    var pieces :- SplitMethod(ref, '/');
    var headCommit :- Subscript(payload, "head_commit");
    var id :- Subscript(headCommit, "id");
    Ok(EventRecord(id, author, Push, JNull, JStr(pieces[|pieces| - 1]), now))
  }

  function PushOutcome(payload: Json, now: string): (p: Processed)
    ensures p != Filtered
    ensures p.ToInsert? ==> p.record.action == Push && p.record.timestamp == now
    ensures p.Escaped? ==> p.exc in {TypeError, AttributeError}
  {
    match PushRecord(payload, now)
    case Ok(r) => CatchKeyError(Ok(Some(r)))
    case Raised(e) => CatchKeyError(Raised(e))
  }

  /** The pull-request normaliser's body; `None` is its early `return` for other actions. */
  function PullRequestRecord(payload: Json, now: string): (r: Eval<Option<EventRecord>>)
    ensures r.Ok? && r.value.Some? ==>
      && r.value.value.action in {PullRequest, Merge}
      && r.value.value.requestId.JStr?
      && r.value.value.timestamp == now
    ensures r.Raised? ==> r.exc in {KeyError, TypeError}
  {
    var action :- Subscript(payload, "action");
    var pr :- Subscript(payload, "pull_request");
    if action != JStr("opened") && action != JStr("closed") then Ok(None)
    else
      var user :- Subscript(pr, "user");
      var author :- Subscript(user, "login");
      var head :- Subscript(pr, "head");
      var fromBranch :- Subscript(head, "ref");
      var base :- Subscript(pr, "base");
      var toBranch :- Subscript(base, "ref");
      // `action == 'closed' and pr.get('merged')` reads `merged` only for a closed PR;
      // `pr` has just been subscripted, so it is a dict and `get` cannot raise
      var merged := if action == JStr("closed") then Get(pr, "merged").value else JNull;
      var kind := if action == JStr("closed") && Truthy(merged) then Merge else PullRequest;
      var id :- Subscript(pr, "id");
      Ok(Some(EventRecord(JStr(Str(id)), author, kind, fromBranch, toBranch, now)))
  }

  function PullRequestOutcome(payload: Json, now: string): (p: Processed)
    ensures p.ToInsert? ==> p.record.action in {PullRequest, Merge} && p.record.timestamp == now
    ensures p.Escaped? ==> p.exc == TypeError
  {
    CatchKeyError(PullRequestRecord(payload, now))
  }

  // ---------------------------------------------------------------------------
  // Push

  /** Every field the push normaliser reads is there, with the type it needs. */
  predicate PushWellFormed(p: Json) {
    && p.JObject?
    && "pusher" in p.fields && p.fields["pusher"].JObject? && "name" in p.fields["pusher"].fields
    && "ref" in p.fields && p.fields["ref"].JStr?
    && "head_commit" in p.fields && p.fields["head_commit"].JObject?
    && "id" in p.fields["head_commit"].fields
  }

  /** The fields the push normaliser reads have the types it needs wherever they are present. */
  predicate PushTyped(p: Json) {
    && p.JObject?
    && ("pusher" in p.fields ==> p.fields["pusher"].JObject?)
    && ("ref" in p.fields ==> p.fields["ref"].JStr?)
    && ("head_commit" in p.fields ==> p.fields["head_commit"].JObject?)
  }

  /**
   * A push payload yields a record exactly when it is well formed; a payload
   * whose only fault is a missing key yields nothing and raises nothing; only
   * a field of the wrong type lets an exception out, and never a KeyError.
   */
  lemma PushOutcomeCases(p: Json, now: string)
    ensures PushOutcome(p, now).ToInsert? <==> PushWellFormed(p)
    ensures PushOutcome(p, now) != Filtered
    ensures PushTyped(p) && !PushWellFormed(p) ==> PushOutcome(p, now) == Swallowed
    ensures PushOutcome(p, now).Escaped? ==>
              !PushTyped(p) && PushOutcome(p, now).exc in {TypeError, AttributeError}
  {
  }

  /**
   * The push record: the head commit id, the pusher's name, action PUSH, no
   * source branch, and as target the last `/`-separated piece of `ref`, which
   * holds no `/`, ends `ref`, and follows its last `/`.
   */
  lemma PushRecordFields(p: Json, now: string)
    requires PushWellFormed(p)
    ensures var ref := p.fields["ref"].s;
      && PushOutcome(p, now) == ToInsert(EventRecord(
           p.fields["head_commit"].fields["id"],
           p.fields["pusher"].fields["name"],
           Push, JNull, JStr(Text.LastPiece(ref, '/')), now))
      && var branch := Text.LastPiece(ref, '/');
      && '/' !in branch
      && |branch| <= |ref| && ref[|ref| - |branch|..] == branch
      && ('/' in ref ==> |branch| < |ref| && ref[|ref| - |branch| - 1] == '/')
  {
    PushInserts(p, now);
    Text.LastPieceAfterLastSeparator(p.fields["ref"].s, '/');
  }

  /** The record a well-formed push payload yields, field by field. */
  lemma PushInserts(p: Json, now: string)
    requires PushWellFormed(p)
    ensures PushOutcome(p, now) == ToInsert(EventRecord(
              p.fields["head_commit"].fields["id"],
              p.fields["pusher"].fields["name"],
              Push, JNull, JStr(Text.LastPiece(p.fields["ref"].s, '/')), now))
  {
    var pieces := Text.Split(p.fields["ref"].s, '/');
    assert SplitMethod(p.fields["ref"], '/') == Ok(pieces);
  }

  // ---------------------------------------------------------------------------
  // Pull request

  /** The fields read from `pull_request` after the action filter are all there. */
  predicate PullRequestWellFormed(pr: Json) {
    && pr.JObject?
    && "user" in pr.fields && pr.fields["user"].JObject? && "login" in pr.fields["user"].fields
    && "head" in pr.fields && pr.fields["head"].JObject? && "ref" in pr.fields["head"].fields
    && "base" in pr.fields && pr.fields["base"].JObject? && "ref" in pr.fields["base"].fields
    && "id" in pr.fields
  }

  predicate Recorded(action: Json) {
    action == JStr("opened") || action == JStr("closed")
  }

  /** `pr.get('merged')` as a flag: an absent key reads as None, which is false. */
  predicate MergedFlag(pr: Json)
    requires pr.JObject?
  {
    "merged" in pr.fields && Truthy(pr.fields["merged"])
  }

  /**
   * Only an `opened` or `closed` action can yield a record. `action` and
   * `pull_request` are read before the filter, so either missing yields nothing
   * whatever the action; any other action yields nothing whatever the PR holds.
   */
  lemma PullRequestFilter(p: Json, now: string)
    ensures PullRequestOutcome(p, now).ToInsert? ==>
              p.JObject? && "action" in p.fields && Recorded(p.fields["action"])
              && "pull_request" in p.fields && PullRequestWellFormed(p.fields["pull_request"])
    ensures p.JObject? && ("action" !in p.fields || "pull_request" !in p.fields) ==>
              PullRequestOutcome(p, now) == Swallowed
    ensures p.JObject? && "action" in p.fields && "pull_request" in p.fields
            && !Recorded(p.fields["action"]) ==>
              PullRequestOutcome(p, now) == Filtered
  {
  }

  /**
   * The containers the pull-request normaliser subscripts are dicts wherever
   * they are present: the payload, `pull_request`, and its `user`, `head` and
   * `base`.
   */
  predicate PullRequestTyped(p: Json) {
    && p.JObject?
    && ("pull_request" in p.fields ==>
          var pr := p.fields["pull_request"];
          && pr.JObject?
          && ("user" in pr.fields ==> pr.fields["user"].JObject?)
          && ("head" in pr.fields ==> pr.fields["head"].JObject?)
          && ("base" in pr.fields ==> pr.fields["base"].JObject?))
  }

  /**
   * A pull-request payload yields a record exactly when its action is
   * recorded and the PR is well formed. A recorded action whose PR only
   * misses a key yields nothing and raises nothing; only a container of the
   * wrong type lets an exception out, and it is a TypeError.
   */
  lemma PullRequestOutcomeCases(p: Json, now: string)
    ensures PullRequestOutcome(p, now).ToInsert? <==>
              p.JObject? && "action" in p.fields && "pull_request" in p.fields
              && Recorded(p.fields["action"]) && PullRequestWellFormed(p.fields["pull_request"])
    ensures PullRequestTyped(p) && "action" in p.fields && "pull_request" in p.fields
            && Recorded(p.fields["action"]) && !PullRequestWellFormed(p.fields["pull_request"]) ==>
              PullRequestOutcome(p, now) == Swallowed
    ensures PullRequestOutcome(p, now).Escaped? ==>
              !PullRequestTyped(p) && PullRequestOutcome(p, now).exc == TypeError
  {
    if p.JObject? && "action" in p.fields && "pull_request" in p.fields
       && Recorded(p.fields["action"]) && PullRequestWellFormed(p.fields["pull_request"]) {
      PullRequestRecordFields(p, now);
    }
  }

  /**
   * A recorded action with a well-formed PR yields its record: the PR id as a
   * string, the author's login, head ref to base ref, and MERGE exactly when
   * the action is `closed` and `merged` is truthy (absent counts as false).
   */
  lemma PullRequestRecordFields(p: Json, now: string)
    requires p.JObject? && "action" in p.fields && "pull_request" in p.fields
    requires Recorded(p.fields["action"]) && PullRequestWellFormed(p.fields["pull_request"])
    ensures var pr := p.fields["pull_request"];
      var kind := if p.fields["action"] == JStr("closed") && MergedFlag(pr) then Merge else PullRequest;
      PullRequestOutcome(p, now) == ToInsert(EventRecord(
        JStr(Str(pr.fields["id"])),
        pr.fields["user"].fields["login"],
        kind,
        pr.fields["head"].fields["ref"],
        pr.fields["base"].fields["ref"],
        now))
  {
  }

  /** A pull-request record is MERGE exactly for a closed PR whose `merged` is truthy, and never PUSH. */
  lemma MergeClassification(p: Json, now: string)
    requires PullRequestOutcome(p, now).ToInsert?
    ensures var r := PullRequestOutcome(p, now).record;
      var pr := p.fields["pull_request"];
      && r.action != Push
      && (r.action == Merge <==> p.fields["action"] == JStr("closed") && MergedFlag(pr))
  {
  }

  // ---------------------------------------------------------------------------
  // Worked examples

  /** A push of `refs/heads/main` by alice at commit abc123 stores a PUSH record to `main`. */
  lemma PushExample(now: string)
    ensures var payload := JObject(map[
      "pusher" := JObject(map["name" := JStr("alice")]),
      "ref" := JStr("refs/heads/main"),
      "head_commit" := JObject(map["id" := JStr("abc123")])]);
      PushOutcome(payload, now)
        == ToInsert(EventRecord(JStr("abc123"), JStr("alice"), Push, JNull, JStr("main"), now))
  {
    var payload := JObject(map[
      "pusher" := JObject(map["name" := JStr("alice")]),
      "ref" := JStr("refs/heads/main"),
      "head_commit" := JObject(map["id" := JStr("abc123")])]);
    PushRecordFields(payload, now);
    MainBranchExample();
  }

  /** `"refs/heads/main".split('/')[-1]` is `"main"`. */
  lemma MainBranchExample()
    ensures Text.LastPiece("refs/heads/main", '/') == "main"
  {
    assert "refs/heads/main" == "refs/heads" + ['/'] + "main";
    Text.LastPieceFollowsLastSeparator("refs/heads", "main", '/');
  }

  /** A closed pull request is MERGE when `merged` is true and PULL_REQUEST when it is false. */
  lemma ClosedPullRequestExamples(now: string, merged: bool)
    ensures var pr := JObject(map[
      "id" := JInt(42),
      "merged" := JBool(merged),
      "user" := JObject(map["login" := JStr("bob")]),
      "head" := JObject(map["ref" := JStr("feature")]),
      "base" := JObject(map["ref" := JStr("main")])]);
      var payload := JObject(map["action" := JStr("closed"), "pull_request" := pr]);
      PullRequestOutcome(payload, now)
        == ToInsert(EventRecord(JStr("42"), JStr("bob"), if merged then Merge else PullRequest,
                              JStr("feature"), JStr("main"), now))
  {
    var pr := JObject(map[
      "id" := JInt(42),
      "merged" := JBool(merged),
      "user" := JObject(map["login" := JStr("bob")]),
      "head" := JObject(map["ref" := JStr("feature")]),
      "base" := JObject(map["ref" := JStr("main")])]);
    var payload := JObject(map["action" := JStr("closed"), "pull_request" := pr]);
    assert payload.fields["action"] == JStr("closed") && payload.fields["pull_request"] == pr;
    assert pr.fields["id"] == JInt(42) && pr.fields["merged"] == JBool(merged);
    assert pr.fields["user"].fields["login"] == JStr("bob");
    assert pr.fields["head"].fields["ref"] == JStr("feature");
    assert pr.fields["base"].fields["ref"] == JStr("main");
    assert PullRequestWellFormed(pr) && (MergedFlag(pr) <==> merged);
    PullRequestRecordFields(payload, now);
    IdFortyTwo();
  }

  /** `str(42)` is `"42"`. */
  lemma IdFortyTwo()
    ensures Str(JInt(42)) == "42"
  {
    assert Text.NatToDecimal(4) == "4";
  }

  /** A `synchronize` action records nothing, however complete the pull request is. */
  lemma SynchronizeIsFiltered(pr: Json, now: string)
    ensures PullRequestOutcome(JObject(map["action" := JStr("synchronize"), "pull_request" := pr]), now)
              == Filtered
  {
  }
}
