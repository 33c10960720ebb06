/**
 * The browser-side document store: one ordered list of persisted
 * documents, read and written back as a whole.  Saving appends, updating
 * rewrites one record, deleting filters, and the maintenance operations
 * mark overdue invoices, count the store and trim it to the newest records.
 * Fresh ids and the clock are parameters; "today" is the local midnight the
 * overdue check compares against.
 */
module StorageService {
  import opened Values
  import opened FormatService
  import opened Orchestrator

  /** A persisted document; timestamps are milliseconds since the epoch. */
  datatype Document = Document(
    id: string,
    uploadDate: int,
    fileName: Value,
    imageData: Value,
    extracted: Option<Fields>,
    validated: Option<ValidationMap>,
    scored: Option<ScoreMap>,
    formatted: Option<FormattedOutput>,
    costs: Option<Costs>,
    errors: seq<StepIssue>,
    status: string,
    paidDate: Option<int>,
    userEdits: Fields,
    updatedDate: Option<int>)

  /** What a caller hands to `saveDocument`; `errors` may be missing. */
  datatype DocumentData = DocumentData(
    fileName: Value,
    imageData: Value,
    extracted: Option<Fields>,
    validated: Option<ValidationMap>,
    scored: Option<ScoreMap>,
    formatted: Option<FormattedOutput>,
    costs: Option<Costs>,
    errors: Option<seq<StepIssue>>)

  /**
   * The properties an `updates` object names, each with its new value;
   * `None` is a property it does not name.  (`updatedDate` is left out: the
   * update always overwrites it.)
   */
  datatype Update = Update(
    id: Option<string>,
    uploadDate: Option<int>,
    fileName: Option<Value>,
    imageData: Option<Value>,
    extracted: Option<Option<Fields>>,
    validated: Option<Option<ValidationMap>>,
    scored: Option<Option<ScoreMap>>,
    formatted: Option<Option<FormattedOutput>>,
    costs: Option<Option<Costs>>,
    errors: Option<seq<StepIssue>>,
    status: Option<string>,
    paidDate: Option<Option<int>>,
    userEdits: Option<Fields>)

  const NoUpdate := Update(None, None, None, None, None, None, None, None, None, None, None, None, None)

  /** The update `markDocumentAsPaid` makes. */
  function PaidUpdate(now: int): Update
  {
    NoUpdate.(status := Some("paid"), paidDate := Some(Some(now)))
  }

  /** The clock the overdue check reads: today's local midnight and the date parser (`None` is an invalid date). */
  datatype Calendar = Calendar(today: int, parseDate: Value -> Option<int>)

  const NotFound := "Document not found"
  const DefaultKeepCount := 10

  // ---------------------------------------------------------------------
  // Records

  /** The record `saveDocument` creates: unpaid, never paid, with no edits. */
  function NewDocument(data: DocumentData, id: string, now: int): Document
  {
    Document(id, now, data.fileName, data.imageData, data.extracted, data.validated, data.scored,
             data.formatted, data.costs, if data.errors.Some? then data.errors.value else [],
             "unpaid", None, map[], None)
  }

  function Pick<T>(given: Option<T>, current: T): T
  {
    if given.Some? then given.value else current
  }

  /** `{...document, ...updates, updatedDate: now}` */
  function Apply(d: Document, u: Update, now: int): Document
  {
    Document(
      Pick(u.id, d.id), Pick(u.uploadDate, d.uploadDate), Pick(u.fileName, d.fileName),
      Pick(u.imageData, d.imageData), Pick(u.extracted, d.extracted), Pick(u.validated, d.validated),
      Pick(u.scored, d.scored), Pick(u.formatted, d.formatted), Pick(u.costs, d.costs),
      Pick(u.errors, d.errors), Pick(u.status, d.status), Pick(u.paidDate, d.paidDate),
      Pick(u.userEdits, d.userEdits), Some(now))
  }

  /** An empty update only stamps the record; marking as paid changes exactly status, paid date and stamp. */
  lemma ApplyEffects(d: Document, now: int)
    ensures Apply(d, NoUpdate, now) == d.(updatedDate := Some(now))
    ensures Apply(d, PaidUpdate(now), now) == d.(status := "paid", paidDate := Some(now), updatedDate := Some(now))
  {
  }

  /** `!document.extracted?.due_date` fails the check; otherwise the parsed due date lies before today. */
  predicate IsOverdue(d: Document, cal: Calendar)
  {
    && d.extracted.Some?
    && Truthy(Get(d.extracted.value, "due_date"))
    && match cal.parseDate(Get(d.extracted.value, "due_date"))
       case None => false
       case Some(due) => due < cal.today
  }

  /** A document with no due date, or one that does not parse, is never overdue. */
  lemma OverdueNeedsDueDate(d: Document, cal: Calendar)
    ensures d.extracted.None? || !Truthy(Get(d.extracted.value, "due_date")) ==> !IsOverdue(d, cal)
    ensures IsOverdue(d, cal) <==>
      d.extracted.Some? && Truthy(Get(d.extracted.value, "due_date"))
      && exists due :: cal.parseDate(Get(d.extracted.value, "due_date")) == Some(due) && due < cal.today
  {
    if IsOverdue(d, cal) {
      var due := cal.parseDate(Get(d.extracted.value, "due_date")).value;
      assert cal.parseDate(Get(d.extracted.value, "due_date")) == Some(due);
    }
  }

  // ---------------------------------------------------------------------
  // Queries

  /** `documents.findIndex(doc => doc.id === id)`, with `None` for -1. */
  function FirstIndex(docs: seq<Document>, id: string): (r: Option<nat>)
    ensures r.Some? ==> r.value < |docs| && docs[r.value].id == id && forall k :: 0 <= k < r.value ==> docs[k].id != id
    ensures r.None? ==> forall k :: 0 <= k < |docs| ==> docs[k].id != id
  {
    if docs == [] then None
    else if docs[0].id == id then Some(0)
    else
      var rest := FirstIndex(docs[1..], id);
      assert forall k :: 1 <= k < |docs| ==> docs[k] == docs[1..][k - 1];
      if rest.None? then None else Some(rest.value + 1)
  }

  /** `getDocumentById`: the first document with that id. */
  function FindById(docs: seq<Document>, id: string): Option<Document>
  {
    match FirstIndex(docs, id)
    case None => None
    case Some(i) => Some(docs[i])
  }

  /** A lookup finds a document exactly when one has the id, and then the earliest such. */
  lemma FindByIdFinds(docs: seq<Document>, id: string)
    ensures FindById(docs, id).None? <==> forall d :: d in docs ==> d.id != id
    ensures FindById(docs, id).Some? ==>
      exists i :: 0 <= i < |docs| && FindById(docs, id).value == docs[i] && docs[i].id == id
                  && forall k :: 0 <= k < i ==> docs[k].id != id
  {
    var r := FirstIndex(docs, id);
    if r.Some? {
      assert docs[r.value] in docs;
    } else {
      forall d | d in docs
        ensures d.id != id
      {
        var k :| 0 <= k < |docs| && docs[k] == d;
      }
    }
  }

  /** The conditions the store filters by. */
  datatype Selector =
    | IdIsNot(id: string)
    | StatusIs(status: string)
    | UnpaidAndOverdue(cal: Calendar)

  predicate Selects(sel: Selector, d: Document)
  {
    match sel
    case IdIsNot(id) => d.id != id
    case StatusIs(status) => d.status == status
    case UnpaidAndOverdue(cal) => d.status == "unpaid" && IsOverdue(d, cal)
  }

  /** `docs.filter(...)`: the selected documents, in their order. */
  function Filter(docs: seq<Document>, sel: Selector): (r: seq<Document>)
    ensures |r| <= |docs|
    ensures forall d :: d in r <==> d in docs && Selects(sel, d)
  {
    if docs == [] then []
    else
      var last := docs[|docs| - 1];
      assert docs == docs[..|docs| - 1] + [last];
      Filter(docs[..|docs| - 1], sel) + (if Selects(sel, last) then [last] else [])
  }

  /** Filtering keeps the order: it distributes over concatenation. */
  lemma {:induction false} FilterAppend(a: seq<Document>, b: seq<Document>, sel: Selector)
    ensures Filter(a + b, sel) == Filter(a, sel) + Filter(b, sel)
  {
    if b == [] {
      assert a + b == a;
    } else {
      var b' := b[..|b| - 1];
      var last := b[|b| - 1];
      var tail := if Selects(sel, last) then [last] else [];
      assert (a + b)[..|a + b| - 1] == a + b';
      assert Filter(a + b, sel) == Filter(a + b', sel) + tail;
      assert Filter(b, sel) == Filter(b', sel) + tail;
      FilterAppend(a, b', sel);
      assert Filter(a, sel) + Filter(b', sel) + tail == Filter(a, sel) + (Filter(b', sel) + tail);
    }
  }

  /** `getDocumentsByStatus` */
  function ByStatus(docs: seq<Document>, status: string, cal: Calendar): seq<Document>
  {
    if status == "all" then docs
    else if status == "overdue" then Filter(docs, UnpaidAndOverdue(cal))
    else Filter(docs, StatusIs(status))
  }

  /**
   * 'all' returns every document; 'overdue' the unpaid documents whose due
   * date has passed (a document already marked 'overdue' is not among
   * them); any other status its exact matches.
   */
  lemma ByStatusMembers(docs: seq<Document>, status: string, cal: Calendar)
    ensures status == "all" ==> ByStatus(docs, status, cal) == docs
    ensures status == "overdue" ==>
      forall d :: d in ByStatus(docs, status, cal) <==> d in docs && d.status == "unpaid" && IsOverdue(d, cal)
    ensures status != "all" && status != "overdue" ==>
      forall d :: d in ByStatus(docs, status, cal) <==> d in docs && d.status == status
  {
  }

  // ---------------------------------------------------------------------
  // Overdue marking

  /** An unpaid document whose due date has passed. */
  predicate BecomesOverdue(d: Document, cal: Calendar)
  {
    d.status == "unpaid" && IsOverdue(d, cal)
  }

  function Mark(d: Document, cal: Calendar): Document
  {
    if BecomesOverdue(d, cal) then d.(status := "overdue") else d
  }

  /** Every document after `updateInvoiceStatuses`' loop. */
  function MarkOverdue(docs: seq<Document>, cal: Calendar): (r: seq<Document>)
    ensures |r| == |docs|
  {
    seq(|docs|, i requires 0 <= i < |docs| => Mark(docs[i], cal))
  }

  /**
   * Marking changes only the status, only of unpaid overdue documents, and
   * only to 'overdue'; marking twice marks nothing more.
   */
  lemma MarkOverdueEffect(docs: seq<Document>, cal: Calendar)
    ensures forall i :: 0 <= i < |docs| ==>
      MarkOverdue(docs, cal)[i] == (if BecomesOverdue(docs[i], cal) then docs[i].(status := "overdue") else docs[i])
    ensures (forall i :: 0 <= i < |docs| ==> !BecomesOverdue(docs[i], cal)) ==> MarkOverdue(docs, cal) == docs
    ensures MarkOverdue(MarkOverdue(docs, cal), cal) == MarkOverdue(docs, cal)
  {
  }

  // ---------------------------------------------------------------------
  // Statistics

  datatype Bucket = PaidBucket | OverdueBucket | UnpaidBucket | NoBucket

  /** The one bucket a document is counted in: paid first, then overdue (whatever the status), then unpaid. */
  function BucketOf(d: Document, cal: Calendar): Bucket
  {
    if d.status == "paid" then PaidBucket
    else if IsOverdue(d, cal) then OverdueBucket
    else if d.status == "unpaid" then UnpaidBucket
    else NoBucket
  }

  function CountIn(docs: seq<Document>, b: Bucket, cal: Calendar): nat
  {
    if docs == [] then 0
    else CountIn(docs[..|docs| - 1], b, cal) + (if BucketOf(docs[|docs| - 1], cal) == b then 1 else 0)
  }

  /** `inv.costs?.total || 0` */
  function CostOf(d: Document): real
  {
    if d.costs.Some? then d.costs.value.total else 0.0
  }

  function CostSum(docs: seq<Document>): real
  {
    if docs == [] then 0.0 else CostSum(docs[..|docs| - 1]) + CostOf(docs[|docs| - 1])
  }

  datatype Stats = Stats(total: nat, unpaid: nat, paid: nat, overdue: nat, totalCost: real, averageCost: real)

  function StatsOf(docs: seq<Document>, cal: Calendar): Stats
  {
    var totalCost := CostSum(docs);
    Stats(|docs|, CountIn(docs, UnpaidBucket, cal), CountIn(docs, PaidBucket, cal), CountIn(docs, OverdueBucket, cal),
          totalCost, if |docs| > 0 then totalCost / |docs| as real else 0.0)
  }

  /** Each document falls in exactly one of the four buckets. */
  lemma {:induction false} BucketsPartition(docs: seq<Document>, cal: Calendar)
    ensures CountIn(docs, PaidBucket, cal) + CountIn(docs, OverdueBucket, cal)
          + CountIn(docs, UnpaidBucket, cal) + CountIn(docs, NoBucket, cal) == |docs|
  {
    if docs != [] {
      BucketsPartition(docs[..|docs| - 1], cal);
    }
  }

  /**
   * The three counted buckets never exceed the total; the average is the
   * total cost over the count, and zero for an empty store.
   */
  lemma StatsBounds(docs: seq<Document>, cal: Calendar)
    ensures var s := StatsOf(docs, cal);
      && s.paid + s.overdue + s.unpaid <= s.total
      && (s.total == 0 ==> s.averageCost == 0.0 && s.totalCost == 0.0)
      && (s.total > 0 ==> s.averageCost * s.total as real == s.totalCost)
  {
    BucketsPartition(docs, cal);
  }

  // ---------------------------------------------------------------------
  // Trimming

  /** Newest first: no document is older than one after it. */
  predicate NewestFirstOrder(s: seq<Document>)
  {
    forall i, j :: 0 <= i < j < |s| ==> s[i].uploadDate >= s[j].uploadDate
  }

  /** Places `x` before the first document not newer than it. */
  function Insert(x: Document, s: seq<Document>): (r: seq<Document>)
    requires NewestFirstOrder(s)
    ensures |r| == |s| + 1
    ensures NewestFirstOrder(r)
    ensures multiset(r) == multiset(s) + multiset{x}
    ensures forall y :: y in r <==> y == x || y in s
  {
    if s == [] then [x]
    else if s[0].uploadDate <= x.uploadDate then
      assert forall j :: 0 <= j < |s| ==> s[j].uploadDate <= s[0].uploadDate;
      [x] + s
    else
      var rest := Insert(x, s[1..]);
      assert s == [s[0]] + s[1..];
      InsertAfterHead(s[0], s[1..], x, rest);
      [s[0]] + rest
  }

  /** A newest-first list's head may still lead once an older document is inserted behind it. */
  lemma InsertAfterHead(h: Document, tail: seq<Document>, x: Document, rest: seq<Document>)
    requires NewestFirstOrder([h] + tail)
    requires x.uploadDate < h.uploadDate
    requires NewestFirstOrder(rest)
    requires forall y :: y in rest <==> y == x || y in tail
    ensures NewestFirstOrder([h] + rest)
  {
    forall y | y in rest
      ensures y.uploadDate <= h.uploadDate
    {
      if y != x {
        var k :| 0 <= k < |tail| && tail[k] == y;
        assert ([h] + tail)[0] == h && ([h] + tail)[k + 1] == y;
      }
    }
    InsertOrder(h, rest);
  }

  /** A document no older than every one of a newest-first list may lead it. */
  lemma InsertOrder(y: Document, rest: seq<Document>)
    requires NewestFirstOrder(rest)
    requires forall z :: z in rest ==> z.uploadDate <= y.uploadDate
    ensures NewestFirstOrder([y] + rest)
  {
    var r := [y] + rest;
    forall i, j | 0 <= i < j < |r|
      ensures r[i].uploadDate >= r[j].uploadDate
    {
      assert r[j] == rest[j - 1];
      assert rest[j - 1] in rest;
      if i > 0 {
        assert r[i] == rest[i - 1];
      }
    }
  }

  /** `documents.sort((a, b) => new Date(b.uploadDate) - new Date(a.uploadDate))`, by insertion. */
  function NewestFirst(docs: seq<Document>): (r: seq<Document>)
    ensures |r| == |docs|
    ensures NewestFirstOrder(r)
    ensures multiset(r) == multiset(docs)
  {
    if docs == [] then []
    else
      assert docs == [docs[0]] + docs[1..];
      Insert(docs[0], NewestFirst(docs[1..]))
  }

  /** The documents uploaded at `date`, in their order in `docs`. */
  function UploadedAt(docs: seq<Document>, date: int): seq<Document>
  {
    if docs == [] then []
    else (if docs[0].uploadDate == date then [docs[0]] else []) + UploadedAt(docs[1..], date)
  }

  lemma UploadedAtCons(y: Document, t: seq<Document>, date: int)
    ensures y.uploadDate == date ==> UploadedAt([y] + t, date) == [y] + UploadedAt(t, date)
    ensures y.uploadDate != date ==> UploadedAt([y] + t, date) == UploadedAt(t, date)
  {
    assert ([y] + t)[0] == y && ([y] + t)[1..] == t;
  }

  /** Inserting puts the new document ahead of every document with its upload date. */
  lemma {:induction false} InsertStable(x: Document, s: seq<Document>, date: int)
    requires NewestFirstOrder(s)
    ensures x.uploadDate == date ==> UploadedAt(Insert(x, s), date) == [x] + UploadedAt(s, date)
    ensures x.uploadDate != date ==> UploadedAt(Insert(x, s), date) == UploadedAt(s, date)
  {
    if s == [] {
      assert Insert(x, s) == [x];
      UploadedAtCons(x, [], date);
    } else if s[0].uploadDate <= x.uploadDate {
      assert Insert(x, s) == [x] + s;
      UploadedAtCons(x, s, date);
    } else {
      var rest := Insert(x, s[1..]);
      assert Insert(x, s) == [s[0]] + rest;
      UploadedAtCons(s[0], rest, date);
      InsertStable(x, s[1..], date);
      UploadedAtCons(s[0], s[1..], date);
      assert [s[0]] + s[1..] == s;
      var later := UploadedAt(s[1..], date);
      if x.uploadDate == date {
        assert s[0].uploadDate != date;
        assert UploadedAt(rest, date) == [x] + later;
        assert UploadedAt(s, date) == later;
        assert UploadedAt(Insert(x, s), date) == [x] + later;
      } else {
        assert UploadedAt(rest, date) == later;
        assert UploadedAt(Insert(x, s), date) == UploadedAt(s, date);
      }
    }
  }

  /**
   * The sort is stable, as `Array.prototype.sort` is: documents with the
   * same upload date keep the order they had in the store.
   */
  lemma {:induction false} NewestFirstStable(docs: seq<Document>, date: int)
    ensures UploadedAt(NewestFirst(docs), date) == UploadedAt(docs, date)
  {
    if docs != [] {
      NewestFirstStable(docs[1..], date);
      InsertStable(docs[0], NewestFirst(docs[1..]), date);
      UploadedAtCons(docs[0], docs[1..], date);
      assert [docs[0]] + docs[1..] == docs;
    }
  }

  /**
   * Trimming to `keepCount` keeps exactly that many documents, none older
   * than any document removed, and together kept and removed are the store.
   */
  lemma KeepsNewest(docs: seq<Document>, keepCount: nat)
    requires keepCount < |docs|
    ensures var sorted := NewestFirst(docs);
      var kept := sorted[..keepCount];
      var removed := sorted[keepCount..];
      && |kept| == keepCount && |removed| == |docs| - keepCount
      && multiset(kept) + multiset(removed) == multiset(docs)
      && forall i, j :: 0 <= i < |kept| && 0 <= j < |removed| ==> kept[i].uploadDate >= removed[j].uploadDate
  {
    var sorted := NewestFirst(docs);
    assert sorted == sorted[..keepCount] + sorted[keepCount..];
    forall i, j | 0 <= i < keepCount && 0 <= j < |sorted| - keepCount
      ensures sorted[..keepCount][i].uploadDate >= sorted[keepCount..][j].uploadDate
    {
      assert sorted[keepCount..][j] == sorted[keepCount + j];
    }
  }

  // ---------------------------------------------------------------------
  // The store

  /** The persisted list, as `getAllDocuments` reads it and each operation writes it back. */
  class DocumentStore {
    var documents: seq<Document>

    constructor (documents: seq<Document>)
      ensures this.documents == documents
    {
      this.documents := documents;
    }

    /** Appends the new record and returns it. */
    method SaveDocument(data: DocumentData, freshId: string, now: int) returns (doc: Document)
      modifies this
      ensures doc == NewDocument(data, freshId, now)
      ensures doc.status == "unpaid" && doc.paidDate.None? && doc.userEdits == map[]
      ensures documents == old(documents) + [doc]
    {
      doc := NewDocument(data, freshId, now);
      documents := documents + [doc];
    }

    /**
     * Merges `updates` into the first record with the id and stamps it; an
     * unknown id is an error and leaves the store as it was.
     */
    method UpdateDocument(id: string, updates: Update, now: int) returns (r: Result<Document, string>)
      modifies this
      ensures FirstIndex(old(documents), id).None? ==> r == Err(NotFound) && documents == old(documents)
      ensures FirstIndex(old(documents), id).Some? ==>
        var i := FirstIndex(old(documents), id).value;
        && r == Ok(Apply(old(documents)[i], updates, now))
        && documents == old(documents)[i := r.value]
    {
      var index := FirstIndex(documents, id);
      if index.None? {
        return Err(NotFound);
      }
      var updated := Apply(documents[index.value], updates, now);
      documents := documents[index.value := updated];
      r := Ok(updated);
    }

    method MarkDocumentAsPaid(id: string, now: int) returns (r: Result<Document, string>)
      modifies this
      ensures FirstIndex(old(documents), id).None? ==> r == Err(NotFound) && documents == old(documents)
      ensures FirstIndex(old(documents), id).Some? ==>
        var i := FirstIndex(old(documents), id).value;
        && r == Ok(old(documents)[i].(status := "paid", paidDate := Some(now), updatedDate := Some(now)))
        && documents == old(documents)[i := r.value]
    {
      r := UpdateDocument(id, PaidUpdate(now), now);
      if r.Ok? {
        ApplyEffects(old(documents)[FirstIndex(old(documents), id).value], now);
      }
    }

    /** Removes every record with the id, keeping the others in order. */
    method DeleteDocument(id: string) returns (ok: bool)
      modifies this
      ensures ok
      ensures documents == Filter(old(documents), IdIsNot(id))
    {
      documents := Filter(documents, IdIsNot(id));
      ok := true;
    }

    /** Marks every unpaid overdue record and writes the list back only when one changed. */
    method UpdateInvoiceStatuses(cal: Calendar) returns (updated: bool)
      modifies this
      ensures updated <==> exists i :: 0 <= i < |old(documents)| && BecomesOverdue(old(documents)[i], cal)
      ensures documents == MarkOverdue(old(documents), cal)
    {
      var invoices := documents;
      updated := false;
      var i := 0;
      while i < |invoices|
        invariant 0 <= i <= |invoices| == |documents|
        invariant forall k :: 0 <= k < i ==> invoices[k] == Mark(documents[k], cal)
        invariant forall k :: i <= k < |invoices| ==> invoices[k] == documents[k]
        invariant updated <==> exists k :: 0 <= k < i && BecomesOverdue(documents[k], cal)
      {
        if invoices[i].status == "unpaid" && IsOverdue(invoices[i], cal) {
          invoices := invoices[i := invoices[i].(status := "overdue")];
          updated := true;
        }
        i := i + 1;
      }
      if updated {
        documents := invoices;
      } else {
        MarkOverdueEffect(documents, cal);
      }
    }

    /** Counts the store in one pass. */
    method GetStorageStats(cal: Calendar) returns (stats: Stats)
      ensures stats == StatsOf(documents, cal)
    {
      var paid, overdue, unpaid := 0, 0, 0;
      var totalCost := 0.0;
      var i := 0;
      while i < |documents|
        invariant 0 <= i <= |documents|
        invariant paid == CountIn(documents[..i], PaidBucket, cal)
        invariant overdue == CountIn(documents[..i], OverdueBucket, cal)
        invariant unpaid == CountIn(documents[..i], UnpaidBucket, cal)
        invariant totalCost == CostSum(documents[..i])
      {
        var inv := documents[i];
        assert documents[..i + 1][..i] == documents[..i];
        if inv.status == "paid" {
          paid := paid + 1;
        } else if IsOverdue(inv, cal) {
          overdue := overdue + 1;
        } else if inv.status == "unpaid" {
          unpaid := unpaid + 1;
        }
        totalCost := totalCost + CostOf(inv);
        i := i + 1;
      }
      assert documents[..i] == documents;
      var total := |documents|;
      stats := Stats(total, unpaid, paid, overdue, totalCost, if total > 0 then totalCost / total as real else 0.0);
    }

    /**
     * Keeps the `keepCount` newest records and reports how many went; a
     * store that already fits is left alone and nothing is reported.
     */
    method ClearOldDocuments(keepCount: nat) returns (cleared: Option<nat>)
      modifies this
      ensures |old(documents)| <= keepCount ==> cleared.None? && documents == old(documents)
      ensures |old(documents)| > keepCount ==>
        cleared == Some(|old(documents)| - keepCount) && documents == NewestFirst(old(documents))[..keepCount]
    {
      var before := documents;
      if |before| <= keepCount {
        return None;
      }
      var sorted := NewestFirst(before);
      var removed := |before| - keepCount;
      documents := sorted[..keepCount];
      cleared := Some(removed);
    }
  }
}
