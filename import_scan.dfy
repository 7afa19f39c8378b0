/** The scan-and-import variant: `scanGDrive` walks the folder listing like the queue variant, but
    calls `importSheet` directly for every listed document (whatever its timestamp), then re-reads
    the document's metadata and stores it when the document was new or changed. An exception in
    `importSheet` or in the metadata read ends the whole scan. */
module ImportScan {
  import opened Wrappers
  import opened Drive
  import opened Ledger
  import opened Registry
  import opened WriteBack

  /** The metadata `getSheet` reads for a file. */
  datatype Meta = Meta(name: string, modifiedTime: string)

  /** What the outside world answers during one scan: the metadata of every file `getSheet` can
      read (an id outside it raises), the ids whose `importSheet` raises, the client list, and the
      rows the two lookup queries return. */
  datatype Env = Env(metadata: map<string, Meta>, raises: set<string>, registry: seq<ClientConfig>,
                     localRows: seq<seq<DbValue>>, marketRows: seq<seq<DbValue>>)

  /** `getSheet(id)`: the document as it is now. */
  function Refetch(env: Env, id: string): Doc
    requires id in env.metadata
  {
    Doc(id, env.metadata[id].name, env.metadata[id].modifiedTime)
  }

  /** One completed `importSheet`: the document and what it decided for it. */
  datatype Import = Import(doc: Doc, decision: Decision)

  /** The ledger and the log of completed imports. */
  datatype State = State(items: map<string, Item>, imports: seq<Import>)

  /** The scan goes on, or an exception ended it, in the state reached so far. */
  datatype Outcome = Continue(state: State) | Abort(state: State)

  /** The body of the per-file loop. A new document's snapshot is stored first; then the import
      runs (raising ends the scan); then, for a new or changed document, the metadata is re-read
      (raising ends the scan) and stored. */
  function Step(env: Env, s: State, d: Doc): Outcome {
    var cls := Classify(Get(s.items, d.id), d);
    var s1 := if cls == New then s.(items := Put(s.items, Snapshot(d))) else s;
    if d.id in env.raises then Abort(s1)
    else
      var s2 := s1.(imports := s1.imports + [Import(d, Decide(env.registry, d.id))]);
      if cls == Unchanged then Continue(s2)
      else if d.id !in env.metadata then Abort(s2)
      else Continue(s2.(items := Put(s2.items, Snapshot(Refetch(env, d.id)))))
  }

  /** The scan over the listed documents in order; once aborted it stays aborted. */
  function Scan(env: Env, s: State, docs: seq<Doc>): Outcome {
    if docs == [] then Continue(s)
    else
      match Scan(env, s, docs[..|docs| - 1])
      case Abort(t) => Abort(t)
      case Continue(t) => Step(env, t, docs[|docs| - 1])
  }

  lemma ScanSnoc(env: Env, s: State, docs: seq<Doc>, d: Doc)
    ensures Scan(env, s, docs + [d]) ==
      match Scan(env, s, docs)
      case Abort(t) => Abort(t)
      case Continue(t) => Step(env, t, d)
  {
    assert (docs + [d])[..|docs|] == docs;
  }

  /** A scan that reached `t` after `docs` goes on with the step for `d`. */
  lemma ScanContinues(env: Env, s: State, docs: seq<Doc>, d: Doc, t: State)
    requires Scan(env, s, docs) == Continue(t)
    ensures Scan(env, s, docs + [d]) == Step(env, t, d)
  {
    ScanSnoc(env, s, docs, d);
  }

  /** A new document gets its listed snapshot before the import. When the import raises, that
      snapshot stays, so the next scan finds the document unchanged; otherwise the document is
      imported once and its re-read metadata replaces the snapshot. */
  lemma NewDocument(env: Env, s: State, d: Doc)
    requires d.id !in s.items
    ensures d.id in env.raises ==>
      && Step(env, s, d) == Abort(State(Put(s.items, Snapshot(d)), s.imports))
      && Classify(Get(Step(env, s, d).state.items, d.id), d) == Unchanged
    ensures d.id !in env.raises && d.id in env.metadata ==>
      Step(env, s, d) == Continue(State(Put(s.items, Snapshot(Refetch(env, d.id))),
                                        s.imports + [Import(d, Decide(env.registry, d.id))]))
    ensures d.id !in env.raises && d.id !in env.metadata ==>
      Step(env, s, d) == Abort(State(Put(s.items, Snapshot(d)), s.imports + [Import(d, Decide(env.registry, d.id))]))
  {
  }

  /** A document whose stored time equals its listed one is imported again, every scan, and the
      ledger is left as it is. */
  lemma UnchangedDocument(env: Env, s: State, d: Doc)
    requires d.id in s.items && StoredTime(s.items[d.id]) == d.modifiedTime
    ensures Step(env, s, d).state.items == s.items
    ensures Step(env, s, d) ==
      if d.id in env.raises then Abort(s)
      else Continue(s.(imports := s.imports + [Import(d, Decide(env.registry, d.id))]))
  {
  }

  /** A changed document keeps its old item when the import raises, so it stays changed and is
      retried by the next scan; otherwise it is imported and its item becomes the re-read metadata,
      which a later listing with that time finds unchanged. */
  lemma ChangedDocument(env: Env, s: State, d: Doc)
    requires d.id in s.items && StoredTime(s.items[d.id]) != d.modifiedTime
    ensures d.id in env.raises ==>
      Step(env, s, d) == Abort(s) && Classify(Get(Step(env, s, d).state.items, d.id), d) == Changed
    ensures d.id !in env.raises && d.id in env.metadata ==>
      && Step(env, s, d) == Continue(State(Put(s.items, Snapshot(Refetch(env, d.id))),
                                           s.imports + [Import(d, Decide(env.registry, d.id))]))
      && Classify(Get(Step(env, s, d).state.items, d.id), Refetch(env, d.id)) == Unchanged
  {
  }

  /** Nothing after an exception runs: extending the listing leaves an aborted scan as it was. */
  lemma {:induction false} AbortIsFinal(env: Env, s: State, docs: seq<Doc>, more: seq<Doc>)
    requires Scan(env, s, docs).Abort?
    ensures Scan(env, s, docs + more) == Scan(env, s, docs)
  {
    if more == [] {
      assert docs + more == docs;
    } else {
      var n := |more| - 1;
      AbortIsFinal(env, s, docs, more[..n]);
      assert docs + more == (docs + more[..n]) + [more[n]];
      ScanSnoc(env, s, docs + more[..n], more[n]);
    }
  }

  /** A scan that aborts at the `j`-th of `files` is the scan of all of them. */
  lemma AbortInFiles(env: Env, s: State, files: seq<Doc>, j: nat)
    requires j < |files| && Scan(env, s, files[..j + 1]).Abort?
    ensures Scan(env, s, files) == Scan(env, s, files[..j + 1])
  {
    assert files == files[..j + 1] + files[j + 1..];
    AbortIsFinal(env, s, files[..j + 1], files[j + 1..]);
  }

  /** Scanning two listings one after the other is scanning them joined, the second starting from
      where the first left off. */
  lemma {:induction false} ScanAppend(env: Env, s: State, a: seq<Doc>, b: seq<Doc>, t: State)
    requires Scan(env, s, a) == Continue(t)
    ensures Scan(env, s, a + b) == Scan(env, t, b)
  {
    if b == [] {
      assert a + b == a;
    } else {
      var n := |b| - 1;
      ScanAppend(env, s, a, b[..n], t);
      assert a + b == (a + b[..n]) + [b[n]];
      ScanSnoc(env, s, a + b[..n], b[n]);
      assert b[..n] + [b[n]] == b;
      ScanSnoc(env, t, b[..n], b[n]);
    }
  }

  /** A scan that aborts within the `p`-th response is the scan of the whole listing. */
  lemma AbortInPage(env: Env, s: State, pages: seq<Page>, p: nat)
    requires Ends(pages) && p <= LastPage(pages)
    requires Scan(env, s, Files(pages[..p]) + pages[p].files).Abort?
    ensures Scan(env, s, Files(Fetched(pages))) == Scan(env, s, Files(pages[..p]) + pages[p].files)
  {
    var last := LastPage(pages);
    FilesFrom(pages, p, last);
    AbortIsFinal(env, s, Files(pages[..p]) + pages[p].files, Files(pages[p + 1..last + 1]));
  }

  /** Items of ids the scan did not list are untouched, and imports are only ever appended, at
      most one per listed document. */
  lemma {:induction false} ScanFrame(env: Env, s: State, docs: seq<Doc>, k: string)
    requires k !in Ids(docs)
    ensures Get(Scan(env, s, docs).state.items, k) == Get(s.items, k)
    ensures |s.imports| <= |Scan(env, s, docs).state.imports| <= |s.imports| + |docs|
    ensures Scan(env, s, docs).state.imports[..|s.imports|] == s.imports
  {
    if docs != [] {
      var n := |docs| - 1;
      IdsSnoc(docs);
      ScanFrame(env, s, docs[..n], k);
      var t := Scan(env, s, docs[..n]).state;
      assert t.imports[..|s.imports|] == s.imports;
    }
  }

  /** Nothing in the listing raises: every listed id has readable metadata and a non-raising import. */
  predicate Healthy(env: Env, docs: seq<Doc>) {
    forall i :: 0 <= i < |docs| ==> docs[i].id !in env.raises && docs[i].id in env.metadata
  }

  /** The imports a full scan of `docs` makes, in order. */
  function Imports(env: Env, docs: seq<Doc>): seq<Import> {
    seq(|docs|, i requires 0 <= i < |docs| => Import(docs[i], Decide(env.registry, docs[i].id)))
  }

  /** When nothing raises the scan runs to the end, imports every listed document exactly once in
      listing order, and leaves an item for every listed id. */
  lemma {:induction false} HealthyScan(env: Env, s: State, docs: seq<Doc>)
    requires Healthy(env, docs)
    ensures Scan(env, s, docs).Continue?
    ensures Scan(env, s, docs).state.imports == s.imports + Imports(env, docs)
    ensures Scan(env, s, docs).state.items.Keys == s.items.Keys + Ids(docs)
  {
    if docs != [] {
      var n := |docs| - 1;
      assert Healthy(env, docs[..n]) by {
        forall i | 0 <= i < n ensures docs[..n][i] == docs[i] { }
      }
      HealthyScan(env, s, docs[..n]);
      var t := Scan(env, s, docs[..n]).state;
      assert docs[..n] + [docs[n]] == docs;
      ScanContinues(env, s, docs[..n], docs[n], t);
      HealthyStep(env, t, docs[n]);
      IdsSnoc(docs);
      ImportsSnoc(env, docs);
      var last := [Import(docs[n], Decide(env.registry, docs[n].id))];
      assert (s.imports + Imports(env, docs[..n])) + last == s.imports + (Imports(env, docs[..n]) + last);
    }
  }

  lemma ImportsSnoc(env: Env, docs: seq<Doc>)
    requires docs != []
    ensures Imports(env, docs) == Imports(env, docs[..|docs| - 1]) + [Import(docs[|docs| - 1], Decide(env.registry, docs[|docs| - 1].id))]
  {
  }

  /** A step that raises nowhere goes on, with one more import and an item for the document. */
  lemma HealthyStep(env: Env, t: State, d: Doc)
    requires d.id !in env.raises && d.id in env.metadata
    ensures Step(env, t, d).Continue?
    ensures Step(env, t, d).state.imports == t.imports + [Import(d, Decide(env.registry, d.id))]
    ensures Step(env, t, d).state.items.Keys == t.items.Keys + {d.id}
  {
  }

  /** The scanner: the ledger table, the lookup tables the imports rebuild, and the import log. */
  class DriveScanner {
    const table: Table
    const tables: LookupTables
    var imports: seq<Import>

    ghost predicate Valid()
      reads table, tables
    {
      table.Valid() && tables.Valid()
    }

    ghost function Current(): State
      reads this, table
    {
      State(table.items, imports)
    }

    /** The lookup tables as a completed `importSheet` under `env` leaves them. */
    ghost predicate TablesFrom(env: Env)
      reads tables
    {
      && tables.localRadioIds == env.localRows && tables.nonLocalRadioIds == env.marketRows
      && tables.dfAsList == Flattened(LOCAL_RADIO_COLUMNS, env.localRows)
      && tables.dfAsList2 == Flattened(MARKET_INFO_COLUMNS, env.marketRows)
      && tables.rangeString == RangeString(4, |env.localRows|)
      && tables.rangeString2 == RangeString(13, |env.marketRows|)
    }

    constructor (table: Table, tables: LookupTables)
      requires table.Valid() && tables.Valid()
      ensures Valid() && this.table == table && this.tables == tables && imports == []
    {
      this.table := table;
      this.tables := tables;
      imports := [];
    }

    /** `importSheet`: rebuild the lookup tables, find the first client whose `order_url` contains
        the id, and go on or skip by that url. An exception (false) ends it before anything else. */
    method ImportSheet(d: Doc, env: Env) returns (ok: bool)
      requires Valid() && Rectangular(env.localRows, 4) && Rectangular(env.marketRows, 13)
      modifies this, tables
      ensures Valid()
      ensures ok <==> d.id !in env.raises
      ensures imports == if ok then old(imports) + [Import(d, Decide(env.registry, d.id))] else old(imports)
      ensures ok ==> tables.localRadioIds == env.localRows && tables.nonLocalRadioIds == env.marketRows
      ensures ok ==> tables.dfAsList == Flattened(LOCAL_RADIO_COLUMNS, env.localRows)
      ensures ok ==> tables.dfAsList2 == Flattened(MARKET_INFO_COLUMNS, env.marketRows)
      ensures ok ==> tables.rangeString == RangeString(4, |env.localRows|)
      ensures ok ==> tables.rangeString2 == RangeString(13, |env.marketRows|)
      ensures !ok ==> unchanged(tables)
    {
      if d.id in env.raises {
        return false;
      }
      tables.Rebuild(env.localRows, env.marketRows);
      var orderUrl, client := FindClient(env.registry, d.id);
      var decision := if orderUrl != "" then Upload(client.value) else Skip;
      imports := imports + [Import(d, decision)];
      ok := true;
    }

    /** `getSheet` then `dynamo_add_gsheet_record`: store the document's current metadata; an id
        `getSheet` cannot read raises (false). */
    method Refresh(id: string, env: Env) returns (ok: bool)
      requires Valid()
      modifies table
      ensures Valid()
      ensures ok <==> id in env.metadata
      ensures table.items == if ok then Put(old(table.items), Snapshot(Refetch(env, id))) else old(table.items)
    {
      if id !in env.metadata {
        return false;
      }
      var meta := env.metadata[id];
      table.PutItem(Snapshot(Doc(id, meta.name, meta.modifiedTime)));
      ok := true;
    }

    /** The body of the per-file loop. */
    method Process(d: Doc, env: Env) returns (ok: bool)
      requires Valid() && Rectangular(env.localRows, 4) && Rectangular(env.marketRows, 13)
      modifies this, table, tables
      ensures Valid()
      ensures Step(env, old(Current()), d) == if ok then Continue(Current()) else Abort(Current())
      ensures |old(imports)| <= |imports|
      ensures |imports| == |old(imports)| ==> unchanged(tables)
      ensures |imports| > |old(imports)| ==> TablesFrom(env)
    {
      var stored := table.Query(d.id);
      if stored.None? {
        table.PutItem(Snapshot(d));
        ok := ImportSheet(d, env);
        if ok {
          ok := Refresh(d.id, env);
        }
      } else if stored.value.modifiedTime.GetOr("") == d.modifiedTime {
        ok := ImportSheet(d, env);
      } else {
        ok := ImportSheet(d, env);
        if ok {
          ok := Refresh(d.id, env);
        }
      }
    }

    /** The loop over the files of one response, after the documents `seen`; an exception (false)
        ends it where it is raised. */
    method ScanFiles(files: seq<Doc>, env: Env) returns (ok: bool)
      requires Valid() && Rectangular(env.localRows, 4) && Rectangular(env.marketRows, 13)
      modifies this, table, tables
      ensures Valid()
      ensures Scan(env, old(Current()), files) == if ok then Continue(Current()) else Abort(Current())
      ensures |old(imports)| <= |imports|
      ensures |imports| == |old(imports)| ==> unchanged(tables)
      ensures |imports| > |old(imports)| ==> TablesFrom(env)
    {
      ghost var s0 := Current();
      for j := 0 to |files|
        invariant Valid()
        invariant |old(imports)| <= |imports|
        invariant |imports| == |old(imports)| ==> unchanged(tables)
        invariant |imports| > |old(imports)| ==> TablesFrom(env)
        invariant Scan(env, s0, files[..j]) == Continue(Current())
      {
        ScanContinues(env, s0, files[..j], files[j], Current());
        ok := Process(files[j], env);
        assert files[..j + 1] == files[..j] + [files[j]];
        if !ok {
          AbortInFiles(env, s0, files, j);
          return;
        }
      }
      assert files[..|files|] == files;
      ok := true;
    }

    /** `scanGDrive`: requests responses until one has no `nextPageToken` and handles every file of
        every response in order; an exception (false) ends the scan where it is raised. */
    method ScanGDrive(pages: seq<Page>, env: Env) returns (ok: bool)
      requires Valid() && Ends(pages)
      requires Rectangular(env.localRows, 4) && Rectangular(env.marketRows, 13)
      modifies this, table, tables
      ensures Valid()
      ensures Scan(env, old(Current()), Files(Fetched(pages))) == if ok then Continue(Current()) else Abort(Current())
      ensures |old(imports)| <= |imports|
      ensures |imports| == |old(imports)| ==> unchanged(tables)
      ensures |imports| > |old(imports)| ==> TablesFrom(env)
    {
      ghost var s0 := Current();
      var p := 0;
      while true
        invariant Valid()
        invariant |old(imports)| <= |imports|
        invariant |imports| == |old(imports)| ==> unchanged(tables)
        invariant |imports| > |old(imports)| ==> TablesFrom(env)
        invariant p <= LastPage(pages)
        invariant Scan(env, s0, Files(pages[..p])) == Continue(Current())
        decreases LastPage(pages) - p
      {
        var response := pages[p];
        ghost var before := Current();
        ok := ScanFiles(response.files, env);
        ScanAppend(env, s0, Files(pages[..p]), response.files, before);
        if !ok {
          AbortInPage(env, s0, pages, p);
          return;
        }
        assert pages[..p + 1][..p] == pages[..p];
        if response.nextPageToken.None? {
          break;
        }
        p := p + 1;
      }
      ok := true;
    }
  }
}
