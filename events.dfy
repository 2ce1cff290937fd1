/**
 * The event store and the `/events` query. The store is the `events`
 * collection: documents are appended by `insert_one`, each under an ObjectId
 * the driver assigns. The query takes the ten newest documents by
 * `timestamp` and rewrites each `_id` to its string form before answering.
 */
module Events {
  import opened PyValue
  import opened Records
  import Hex

  /** A BSON ObjectId: twelve bytes, chosen by the driver at insert time. */
  type ObjectId = s: seq<Byte> | |s| == 12 witness [0, 0, 0, 0, 0, 0, 0, 0, 0, 0, 0, 0]

  /** A document as the store holds it. */
  datatype StoredEvent = StoredEvent(oid: ObjectId, record: EventRecord)

  /** The `_id` of a document in the query's hands: still native, or already a string. */
  datatype DocId = Native(oid: ObjectId) | Printed(text: string)

  datatype Document = Document(id: DocId, record: EventRecord)

  /** `str(_id)`: an ObjectId prints as its 24 lower-case hex digits; a string as itself. */
  function StrId(id: DocId): (s: string)
    ensures id.Native? ==> |s| == 24 && Hex.IsHex(s) && Hex.Unhex(s) == Some(id.oid)
    ensures id.Printed? ==> s == id.text
  {
    match id
    case Native(oid) => Hex.UnhexHex(oid); Hex.Hex(oid)
    case Printed(s) => s
  }

  /**
   * A stored document as the query hands it out: the same record, and an
   * `_id` that is a 24-digit hex string reading back as the ObjectId.
   */
  function Stringified(e: StoredEvent): (d: Document)
    ensures d.record == e.record && d.id.Printed?
    ensures |d.id.text| == 24 && Hex.Unhex(d.id.text) == Some(e.oid)
  {
    Hex.UnhexHex(e.oid);
    Document(Printed(Hex.Hex(e.oid)), e.record)
  }

  /** How the query answers: the listing, or the exception that became a 500. */
  datatype Listing = Listing(events: seq<Document>) | Failed(exc: Exc)

  const PageSize: nat := 10

  class EventStore {
    /** The collection's documents, in insertion order. */
    var docs: seq<StoredEvent>

    constructor ()
      ensures docs == []
    {
      docs := [];
    }

    /** `insert_one`: appends one document and leaves the others as they were. */
    method Insert(record: EventRecord, oid: ObjectId)
      modifies this
      ensures docs == old(docs) + [StoredEvent(oid, record)]
    {
      docs := docs + [StoredEvent(oid, record)];
    }
  }

  // ---------------------------------------------------------------------------
  // Ordering by timestamp

  function Stamp(e: StoredEvent): string {
    e.record.timestamp
  }

  /** String order as the store compares strings: code point by code point, a prefix first. */
  predicate StrLe(a: string, b: string) {
    a == [] || (b != [] && (a[0] < b[0] || (a[0] == b[0] && StrLe(a[1..], b[1..]))))
  }

  lemma {:induction false} StrLeTotal(a: string, b: string)
    ensures StrLe(a, b) || StrLe(b, a)
  {
    if a != [] && b != [] && a[0] == b[0] {
      StrLeTotal(a[1..], b[1..]);
    }
  }

  lemma {:induction false} StrLeTransitive(a: string, b: string, c: string)
    requires StrLe(a, b) && StrLe(b, c)
    ensures StrLe(a, c)
  {
    if a != [] && a[0] == b[0] && b[0] == c[0] {
      StrLeTransitive(a[1..], b[1..], c[1..]);
    }
  }

  /** Newest first: no document has an older timestamp than one after it. */
  predicate NewestFirst(s: seq<StoredEvent>) {
    forall i, j :: 0 <= i < j < |s| ==> StrLe(Stamp(s[j]), Stamp(s[i]))
  }

  /** Puts `e` into a newest-first sequence, ahead of any document with an equal timestamp. */
  function InsertByStamp(e: StoredEvent, s: seq<StoredEvent>): (r: seq<StoredEvent>)
    ensures |r| == |s| + 1 && e in r
  {
    if s == [] || StrLe(Stamp(s[0]), Stamp(e)) then [e] + s
    else [s[0]] + InsertByStamp(e, s[1..])
  }

  /** `sort("timestamp", -1)`: newest first, ties in insertion order. */
  function SortByStamp(s: seq<StoredEvent>): (r: seq<StoredEvent>)
    ensures |r| == |s|
  {
    if s == [] then [] else InsertByStamp(s[0], SortByStamp(s[1..]))
  }

  /** Inserting adds `e` and nothing else. */
  lemma {:induction false} InsertByStampElements(e: StoredEvent, s: seq<StoredEvent>)
    ensures |InsertByStamp(e, s)| == |s| + 1
    ensures multiset(InsertByStamp(e, s)) == multiset(s) + multiset{e}
    ensures forall x :: x in InsertByStamp(e, s) ==> x == e || x in s
  {
    if s != [] && !StrLe(Stamp(s[0]), Stamp(e)) {
      InsertByStampElements(e, s[1..]);
      assert s == [s[0]] + s[1..];
    }
  }

  lemma {:induction false} InsertByStampCorrect(e: StoredEvent, s: seq<StoredEvent>)
    requires NewestFirst(s)
    ensures NewestFirst(InsertByStamp(e, s))
    ensures multiset(InsertByStamp(e, s)) == multiset(s) + multiset{e}
  {
    InsertByStampElements(e, s);
    if s == [] {
    } else if StrLe(Stamp(s[0]), Stamp(e)) {
      var r := [e] + s;
      forall j | 0 < j < |r|
        ensures StrLe(Stamp(r[j]), Stamp(e))
      {
        if j > 1 {
          StrLeTransitive(Stamp(s[j - 1]), Stamp(s[0]), Stamp(e));
        }
      }
    } else {
      InsertByStampCorrect(e, s[1..]);
      InsertByStampElements(e, s[1..]);
      StrLeTotal(Stamp(s[0]), Stamp(e));
      NewerHead(s[0], InsertByStamp(e, s[1..]), e, s[1..]);
    }
  }

  /** A document no older than everything in a newest-first sequence can go in front of it. */
  lemma NewerHead(h: StoredEvent, t: seq<StoredEvent>, e: StoredEvent, rest: seq<StoredEvent>)
    requires NewestFirst(t) && NewestFirst([h] + rest)
    requires StrLe(Stamp(e), Stamp(h))
    requires forall x :: x in t ==> x == e || x in rest
    ensures NewestFirst([h] + t)
  {
    var r := [h] + t;
    forall j | 0 < j < |r|
      ensures StrLe(Stamp(r[j]), Stamp(h))
    {
      var x := t[j - 1];
      assert r[j] == x && x in t;
      if x != e {
        var k :| 0 <= k < |rest| && rest[k] == x;
        var hr := [h] + rest;
        assert hr[0] == h && hr[k + 1] == x;
        assert StrLe(Stamp(hr[k + 1]), Stamp(hr[0]));
      }
    }
  }

  lemma {:induction false} SortByStampCorrect(s: seq<StoredEvent>)
    ensures NewestFirst(SortByStamp(s))
    ensures multiset(SortByStamp(s)) == multiset(s)
    ensures |SortByStamp(s)| == |s|
  {
    if s != [] {
      var rest := SortByStamp(s[1..]);
      SortByStampCorrect(s[1..]);
      InsertByStampCorrect(s[0], rest);
      InsertByStampElements(s[0], rest);
      assert s == [s[0]] + s[1..];
    }
  }

  /** In a newest-first sequence, nothing after position `k` is newer than anything before it. */
  lemma PrefixIsNewest(s: seq<StoredEvent>, k: nat)
    requires NewestFirst(s) && k <= |s|
    ensures forall e, d :: e in multiset(s[k..]) && d in s[..k] ==> StrLe(Stamp(e), Stamp(d))
  {
  }

  /**
   * `find().sort("timestamp", -1).limit(limit)`: at most `limit` documents, all
   * taken from the store, newest first, and no document left out is newer than
   * any document returned.
   */
  function Latest(docs: seq<StoredEvent>, limit: nat): (r: seq<StoredEvent>)
    ensures |r| == if |docs| < limit then |docs| else limit
    ensures NewestFirst(r)
    ensures multiset(r) <= multiset(docs)
    ensures forall e, d :: e in multiset(docs) - multiset(r) && d in r ==> StrLe(Stamp(e), Stamp(d))
  {
    var sorted := SortByStamp(docs);
    SortByStampCorrect(docs);
    var k := if |sorted| < limit then |sorted| else limit;
    PrefixIsNewest(sorted, k);
    assert sorted == sorted[..k] + sorted[k..];
    assert multiset(sorted) == multiset(sorted[..k]) + multiset(sorted[k..]);
    sorted[..k]
  }

  /**
   * `get_events`: with no store, touching it raises AttributeError (a 500).
   * Otherwise the answer is the store's `PageSize` newest documents, newest
   * first, each `_id` rewritten in place to its 24-digit hex string, which
   * reads back as the stored ObjectId.
   */
  method GetEvents(store: EventStore?) returns (response: Listing)
    ensures store == null <==> response.Failed?
    ensures response.Failed? ==> response.exc == AttributeError
    ensures store != null ==>
      var latest := Latest(store.docs, PageSize);
      && |response.events| == |latest| <= PageSize
      && (forall i :: 0 <= i < |latest| ==> response.events[i] == Stringified(latest[i]))
      && (forall i, j :: 0 <= i < j < |response.events| ==>
            StrLe(response.events[j].record.timestamp, response.events[i].record.timestamp))
  {
    if store == null {
      return Failed(AttributeError);
    }
    var latest := Latest(store.docs, PageSize);
    var events := StringifyIds(latest);
    ListingNewestFirst(latest, events);
    return Listing(events);
  }

  /**
   * The loop over the query's cursor: each document's `_id` is replaced in
   * place by `str(_id)`, and nothing else about it changes.
   */
  method StringifyIds(latest: seq<StoredEvent>) returns (events: seq<Document>)
    ensures |events| == |latest|
    ensures forall i :: 0 <= i < |latest| ==> events[i] == Stringified(latest[i])
  {
    var found := new Document[|latest|](i requires 0 <= i < |latest| =>
      Document(Native(latest[i].oid), latest[i].record));
    for i := 0 to found.Length
      invariant forall k :: 0 <= k < i ==> found[k] == Stringified(latest[k])
      invariant forall k :: i <= k < found.Length ==>
        found[k] == Document(Native(latest[k].oid), latest[k].record)
    {
      ghost var e := latest[i];
      assert found[i] == Document(Native(e.oid), e.record);
      found[i] := found[i].(id := Printed(StrId(found[i].id)));
      assert found[i] == Stringified(e);
    }
    events := found[..];
    assert forall k :: 0 <= k < |events| ==> events[k] == found[k];
  }

  /** Rewriting the `_id`s keeps the records, and so keeps them newest first. */
  lemma ListingNewestFirst(latest: seq<StoredEvent>, events: seq<Document>)
    requires NewestFirst(latest) && |events| == |latest|
    requires forall i :: 0 <= i < |latest| ==> events[i] == Stringified(latest[i])
    ensures forall i, j :: 0 <= i < j < |events| ==>
              StrLe(events[j].record.timestamp, events[i].record.timestamp)
  {
    forall i, j | 0 <= i < j < |events|
      ensures StrLe(events[j].record.timestamp, events[i].record.timestamp)
    {
      assert StrLe(Stamp(latest[j]), Stamp(latest[i]));
    }
  }
}
