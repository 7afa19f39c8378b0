/** The queue variant of the change scan (`handler` of the scanner): every listed spreadsheet is
    compared with the ledger; a new one is stored and announced on the queue, a changed one is
    announced only, an unchanged one is left alone. */
module QueueScan {
  import opened Wrappers
  import opened Drive
  import opened Ledger
  import opened Dispatch

  /** The ledger's items and the messages sent so far. */
  datatype State = State(items: map<string, Item>, outbox: seq<Message>)

  /** What handling one listed document does. */
  function Step(s: State, d: Doc): State {
    match Classify(Get(s.items, d.id), d)
    case New => State(Put(s.items, Snapshot(d)), s.outbox + [ImportEvent(d)])
    case Unchanged => s
    case Changed => State(s.items, s.outbox + [ImportEvent(d)])
  }

  /** Handling `docs` one after the other, in order. */
  function Scan(s: State, docs: seq<Doc>): State
  {
    if docs == [] then s else Step(Scan(s, docs[..|docs| - 1]), docs[|docs| - 1])
  }

  /** Scanning one more document is one more step. */
  lemma ScanSnoc(s: State, docs: seq<Doc>, d: Doc)
    ensures Scan(s, docs + [d]) == Step(Scan(s, docs), d)
  {
    assert (docs + [d])[..|docs|] == docs;
  }

  /** A document with no item: exactly one put of its snapshot and exactly one message. */
  lemma NewDocument(s: State, d: Doc)
    requires d.id !in s.items
    ensures Step(s, d) == State(s.items[d.id := Snapshot(d)], s.outbox + [ImportEvent(d)])
  {
  }

  /** A document whose stored time (missing reads as "") equals the listed one: nothing happens. */
  lemma UnchangedDocument(s: State, d: Doc)
    requires d.id in s.items && s.items[d.id].modifiedTime.GetOr("") == d.modifiedTime
    ensures Step(s, d) == s
  {
  }

  /** A document whose stored time differs: exactly one message and no ledger write, so handling it
      again sends the same message again. */
  lemma ChangedDocument(s: State, d: Doc)
    requires d.id in s.items && StoredTime(s.items[d.id]) != d.modifiedTime
    ensures Step(s, d) == State(s.items, s.outbox + [ImportEvent(d)])
    ensures Step(Step(s, d), d) == State(s.items, s.outbox + [ImportEvent(d), ImportEvent(d)])
  {
  }

  /** A changed document is announced again by every later scan of the same listing: the ledger
      never catches up. */
  lemma {:induction false} ChangedForever(s: State, d: Doc, n: nat)
    requires d.id in s.items && StoredTime(s.items[d.id]) != d.modifiedTime
    ensures Scan(s, seq(n, _ => d)) == State(s.items, s.outbox + seq(n, _ => ImportEvent(d)))
  {
    if n > 0 {
      var ds := seq(n, _ => d);
      assert ds[..n - 1] == seq(n - 1, _ => d);
      ChangedForever(s, d, n - 1);
      assert s.outbox + seq(n - 1, _ => ImportEvent(d)) + [ImportEvent(d)] == s.outbox + seq(n, _ => ImportEvent(d));
    }
  }

  /** A scan never rewrites a stored item: the ledger only gains items for new ids. */
  lemma {:induction false} ScanKeepsStored(s: State, docs: seq<Doc>, k: string)
    requires k in s.items
    ensures k in Scan(s, docs).items && Scan(s, docs).items[k] == s.items[k]
  {
    if docs != [] {
      ScanKeepsStored(s, docs[..|docs| - 1], k);
    }
  }

  /** Messages are only ever appended. */
  lemma {:induction false} OutboxGrows(s: State, docs: seq<Doc>)
    ensures |s.outbox| <= |Scan(s, docs).outbox| && Scan(s, docs).outbox[..|s.outbox|] == s.outbox
  {
    if docs != [] {
      OutboxGrows(s, docs[..|docs| - 1]);
    }
  }

  /** Every scan of a listing that holds a changed document sends that document's message, however
      often the listing was scanned before: its stored time never catches up. */
  lemma {:induction false} ChangedAnnounced(s: State, docs: seq<Doc>, i: nat)
    requires i < |docs| && docs[i].id in s.items && StoredTime(s.items[docs[i].id]) != docs[i].modifiedTime
    ensures |s.outbox| <= |Scan(s, docs).outbox|
    ensures ImportEvent(docs[i]) in Scan(s, docs).outbox[|s.outbox|..]
  {
    var n := |docs| - 1;
    var t := Scan(s, docs[..n]);
    OutboxGrows(s, docs[..n]);
    if i < n {
      assert docs[..n][i] == docs[i];
      ChangedAnnounced(s, docs[..n], i);
      var j :| |s.outbox| <= j < |t.outbox| && t.outbox[j] == ImportEvent(docs[i]);
      assert Scan(s, docs).outbox[j] == ImportEvent(docs[i]);
    } else {
      ScanKeepsStored(s, docs[..n], docs[i].id);
      assert Scan(s, docs).outbox == t.outbox + [ImportEvent(docs[i])];
      assert Scan(s, docs).outbox[|Scan(s, docs).outbox| - 1] == ImportEvent(docs[i]);
    }
  }

  /** Items of ids the scan did not list are untouched. */
  lemma {:induction false} ScanLeavesOthers(s: State, docs: seq<Doc>, k: string)
    requires k !in Ids(docs)
    ensures Get(Scan(s, docs).items, k) == Get(s.items, k)
  {
    if docs != [] {
      var n := |docs| - 1;
      IdsSnoc(docs);
      ScanLeavesOthers(s, docs[..n], k);
    }
  }

  /** After a scan the ledger holds an item for every listed id and for every id it held before,
      and nothing else; it stays keyed by id; messages are only ever appended, at most one per
      listed document. */
  lemma {:induction false} ScanShape(s: State, docs: seq<Doc>)
    requires KeyedById(s.items)
    ensures Scan(s, docs).items.Keys == s.items.Keys + Ids(docs)
    ensures KeyedById(Scan(s, docs).items)
    ensures |s.outbox| <= |Scan(s, docs).outbox| <= |s.outbox| + |docs|
    ensures Scan(s, docs).outbox[..|s.outbox|] == s.outbox
  {
    if docs != [] {
      var n := |docs| - 1;
      ScanShape(s, docs[..n]);
      IdsSnoc(docs);
    }
  }

  /** The messages for `docs`, in order. */
  function Events(docs: seq<Doc>): seq<Message> {
    seq(|docs|, i requires 0 <= i < |docs| => ImportEvent(docs[i]))
  }

  /** A first scan (no listed id in the ledger, ids distinct) stores every document's snapshot and
      sends exactly one message per document, in listing order. */
  lemma {:induction false} FirstScan(s: State, docs: seq<Doc>)
    requires DistinctIds(docs)
    requires forall i :: 0 <= i < |docs| ==> docs[i].id !in s.items
    ensures Scan(s, docs).outbox == s.outbox + Events(docs)
    ensures forall i :: 0 <= i < |docs| ==> Get(Scan(s, docs).items, docs[i].id) == Some(Snapshot(docs[i]))
  {
    if docs != [] {
      var n := |docs| - 1;
      var pre := docs[..n];
      FirstScan(s, pre);
      assert docs[n].id !in Ids(pre);
      ScanLeavesOthers(s, pre, docs[n].id);
      assert Events(docs) == Events(pre) + [ImportEvent(docs[n])];
      forall i | 0 <= i < n ensures Get(Scan(s, docs).items, docs[i].id) == Some(Snapshot(docs[i])) {
        assert pre[i] == docs[i];
      }
    }
  }

  /** When every listed document's own snapshot is already stored, a scan changes nothing. */
  lemma {:induction false} QuietScan(s: State, docs: seq<Doc>)
    requires forall i :: 0 <= i < |docs| ==> Get(s.items, docs[i].id) == Some(Snapshot(docs[i]))
    ensures Scan(s, docs) == s
  {
    if docs != [] {
      var n := |docs| - 1;
      assert forall i :: 0 <= i < n ==> docs[..n][i] == docs[i];
      QuietScan(s, docs[..n]);
    }
  }

  /** Scanning the same listing twice from a first scan: the second scan sends nothing more. */
  lemma RescanAfterFirstScan(s: State, docs: seq<Doc>)
    requires DistinctIds(docs)
    requires forall i :: 0 <= i < |docs| ==> docs[i].id !in s.items
    ensures Scan(Scan(s, docs), docs) == Scan(s, docs)
  {
    FirstScan(s, docs);
    QuietScan(Scan(s, docs), docs);
  }

  /** The scanner: the ledger table and the import queue it sends to. */
  class Scanner {
    const table: Table
    var outbox: seq<Message>

    ghost predicate Valid()
      reads table
    {
      table.Valid()
    }

    /** The scanner's view of the ledger and the queue. */
    ghost function Current(): State
      reads this, table
    {
      State(table.items, outbox)
    }

    constructor (table: Table)
      requires table.Valid()
      ensures Valid() && this.table == table && outbox == []
    {
      this.table := table;
      outbox := [];
    }

    /** `send_import_event`: puts the document's event on the queue. */
    method SendImportEvent(d: Doc)
      modifies this
      ensures outbox == old(outbox) + [ImportEvent(d)]
    {
      outbox := outbox + [ImportEvent(d)];
    }

    /** The body of the per-file loop. */
    method Process(d: Doc)
      requires Valid()
      modifies this, table
      ensures Valid() && Current() == Step(old(Current()), d)
    {
      var stored := table.Query(d.id);
      if stored.None? {
        table.PutItem(Snapshot(d));
        SendImportEvent(d);
      } else if stored.value.modifiedTime.GetOr("") == d.modifiedTime {
      } else {
        SendImportEvent(d);
      }
    }

    /** The loop over the files of one response, after the documents `seen`. */
    method ProcessFiles(files: seq<Doc>, ghost s0: State, ghost seen: seq<Doc>)
      requires Valid() && Current() == Scan(s0, seen)
      modifies this, table
      ensures Valid() && Current() == Scan(s0, seen + files)
    {
      assert seen + files[..0] == seen;
      for j := 0 to |files|
        invariant Valid()
        invariant Current() == Scan(s0, seen + files[..j])
      {
        ScanSnoc(s0, seen + files[..j], files[j]);
        Process(files[j]);
        assert seen + files[..j + 1] == seen + files[..j] + [files[j]];
      }
      assert files[..|files|] == files;
    }

    /** `handler`: requests responses until one has no `nextPageToken` and handles every file of
        every response, in order. */
    method Handler(pages: seq<Page>)
      requires Valid() && Ends(pages)
      modifies this, table
      ensures Valid() && Current() == Scan(old(Current()), Files(Fetched(pages)))
    {
      ghost var s0 := Current();
      var p := 0;
      while true
        invariant Valid()
        invariant p <= LastPage(pages)
        invariant Current() == Scan(s0, Files(pages[..p]))
        decreases LastPage(pages) - p
      {
        var response := pages[p];
        ProcessFiles(response.files, s0, Files(pages[..p]));
        assert pages[..p + 1][..p] == pages[..p];
        if response.nextPageToken.None? {
          break;
        }
        p := p + 1;
      }
    }
  }
}
