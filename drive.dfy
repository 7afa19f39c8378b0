/** The paginated folder listing both scanners walk: each response holds some files and,
    unless it is the last, a token for the next response. */
module Drive {
  import opened Wrappers

  /** A spreadsheet as the listing reports it (`fields='files(id, name, modifiedTime)'`). */
  datatype Doc = Doc(id: string, name: string, modifiedTime: string)

  /** One response of the listing; a response without a `files` key has no files. */
  datatype Page = Page(files: seq<Doc>, nextPageToken: Option<string>)

  /** The listing ends: some response carries no `nextPageToken`. */
  predicate Ends(pages: seq<Page>) {
    exists i :: 0 <= i < |pages| && pages[i].nextPageToken.None?
  }

  /** The index of the first response without a `nextPageToken`: the last one a scan requests. */
  function LastPage(pages: seq<Page>): (k: nat)
    requires Ends(pages)
    ensures k < |pages| && pages[k].nextPageToken.None?
    ensures forall q :: 0 <= q < k ==> pages[q].nextPageToken.Some?
  {
    if pages[0].nextPageToken.None? then
      0
    else
      assert Ends(pages[1..]) by {
        var i :| 0 <= i < |pages| && pages[i].nextPageToken.None?;
        assert pages[1..][i - 1] == pages[i];
      }
      1 + LastPage(pages[1..])
  }

  /** The responses a scan requests: all of them up to the first one without a token. */
  function Fetched(pages: seq<Page>): seq<Page>
    requires Ends(pages)
  {
    pages[..LastPage(pages) + 1]
  }

  /** The files of `pages`, response by response, each response's files in listed order. */
  function Files(pages: seq<Page>): seq<Doc>
  {
    if pages == [] then [] else Files(pages[..|pages| - 1]) + pages[|pages| - 1].files
  }

  /** Listing two runs of responses one after the other lists their files one after the other. */
  lemma {:induction false} FilesAppend(a: seq<Page>, b: seq<Page>)
    ensures Files(a + b) == Files(a) + Files(b)
    decreases |b|
  {
    if b == [] {
      assert a + b == a;
    } else {
      var n := |b| - 1;
      assert (a + b)[..|a + b| - 1] == a + b[..n];
      FilesAppend(a, b[..n]);
    }
  }

  /** The `j`-th file of response `q` is listed exactly at offset `j` after the files of the
      responses before `q`: every file of every response appears, in response order. */
  lemma FileOrder(pages: seq<Page>, q: nat, j: nat)
    requires q < |pages| && j < |pages[q].files|
    ensures |Files(pages[..q])| + j < |Files(pages)|
    ensures Files(pages)[|Files(pages[..q])| + j] == pages[q].files[j]
  {
    assert pages == pages[..q] + ([pages[q]] + pages[q + 1..]);
    FilesAppend(pages[..q], [pages[q]] + pages[q + 1..]);
    FilesAppend([pages[q]], pages[q + 1..]);
    assert Files([pages[q]]) == Files([]) + pages[q].files;
  }

  /** The files of responses `p` up to and including `last`: those of `p`, then the rest. */
  lemma FilesFrom(pages: seq<Page>, p: nat, last: nat)
    requires p <= last < |pages|
    ensures Files(pages[..last + 1]) == Files(pages[..p]) + pages[p].files + Files(pages[p + 1..last + 1])
  {
    assert pages[..last + 1] == pages[..p] + ([pages[p]] + pages[p + 1..last + 1]);
    FilesAppend(pages[..p], [pages[p]] + pages[p + 1..last + 1]);
    FilesAppend([pages[p]], pages[p + 1..last + 1]);
    assert Files([pages[p]]) == Files([]) + pages[p].files;
  }

  /** The ids of `docs`. */
  function Ids(docs: seq<Doc>): set<string> {
    set i | 0 <= i < |docs| :: docs[i].id
  }

  /** The ids of a listing are those of all but its last document, plus the last one's. */
  lemma IdsSnoc(docs: seq<Doc>)
    requires docs != []
    ensures Ids(docs) == Ids(docs[..|docs| - 1]) + {docs[|docs| - 1].id}
  {
    var n := |docs| - 1;
    forall x | x in Ids(docs) ensures x in Ids(docs[..n]) + {docs[n].id} {
      var i :| 0 <= i < |docs| && docs[i].id == x;
      if i < n { assert docs[..n][i] == docs[i]; }
    }
    forall i | 0 <= i < n ensures docs[..n][i].id in Ids(docs) {
      assert docs[..n][i] == docs[i];
    }
  }

  /** No two listed documents share an id. */
  predicate DistinctIds(docs: seq<Doc>) {
    forall i, j :: 0 <= i < j < |docs| ==> docs[i].id != docs[j].id
  }
}
