/** How the stages meet: the cursor a films run leaves behind, the cursor
    columns of the dependent-part scans (src/raw_sql.py), and what the
    transformer and the loader make of a films run. */
module Pipeline {
  import opened Wrappers
  import opened Rows
  import opened Seqs
  import opened Extract
  import opened Transform
  import opened Load

  // ---- the films cursor ----

  /** A row whose `updated_at` is a timestamp. */
  predicate StampedRow(r: Row) { "updated_at" in r && r["updated_at"].Stamp? }

  function StampOf(r: Row): int
    requires StampedRow(r)
  {
    r["updated_at"].t
  }

  /** The rows of the first `n` pages, in order. */
  function RowsUpTo(pages: seq<seq<Row>>, n: nat): seq<Row>
    requires n <= |pages|
  {
    Flatten(pages[..n])
  }

  /** Every row is stamped, in `ORDER BY updated_at` order. */
  ghost predicate Ascending(rs: seq<Row>)
  {
    && (forall i :: 0 <= i < |rs| ==> StampedRow(rs[i]))
    && (forall i, j :: 0 <= i < j < |rs| ==> StampOf(rs[i]) <= StampOf(rs[j]))
  }

  /** The last row of the first `n` pages is the last row of page `n - 1`. */
  lemma LastRowOfPages(pages: seq<seq<Row>>, n: nat)
    requires 0 < n <= PageCount(pages)
    ensures var rs := RowsUpTo(pages, n);
            var page := pages[n - 1];
            |rs| > 0 && rs[|rs| - 1] == page[|page| - 1]
  {
    var init := pages[..n];
    assert init[..n - 1] == pages[..n - 1] && init[n - 1] == pages[n - 1];
    assert Flatten(init) == Flatten(init[..n - 1]) + pages[n - 1];
  }

  /** With stamped rows in ascending order, the `films` cursor once every
      page has been resumed past is the latest stamp of all the rows. */
  lemma CursorIsMax(m0: map<string, Text>, pages: seq<seq<Row>>)
    requires 0 < PageCount(pages) && Ascending(RowsUpTo(pages, PageCount(pages)))
    ensures var rs := RowsUpTo(pages, PageCount(pages));
            var c := Checkpoint(m0, "films", pages, PageCount(pages))["films"];
            && c == StampText(StampOf(rs[|rs| - 1]))
            && forall i :: 0 <= i < |rs| ==> StampOf(rs[i]) <= c.t
  {
    var n := PageCount(pages);
    var rs := RowsUpTo(pages, n);
    LastRowOfPages(pages, n);
    assert forall i :: 0 <= i < |rs| - 1 ==> StampOf(rs[i]) <= StampOf(rs[|rs| - 1]);
  }

  /** A films run pulled past its sentinel, over a storage with a path:
      everything was yielded and the cursor is the latest stamp. */
  lemma FilmsRunCursor(m0: map<string, Text>, m: map<string, Text>, pages: seq<seq<Row>>, pulls: nat,
                       yielded: seq<Option<seq<Row>>>, res: Outcome<Error>)
    requires FilmsRun(m0, m, pages, pulls, true, yielded, res)
    requires pulls > PageCount(pages) > 0 && Ascending(RowsUpTo(pages, PageCount(pages)))
    ensures yielded == FilmsYields(pages)
    ensures var rs := RowsUpTo(pages, PageCount(pages));
            && m["films"] == StampText(StampOf(rs[|rs| - 1]))
            && forall i :: 0 <= i < |rs| ==> StampOf(rs[i]) <= m["films"].t
  {
    CursorIsMax(m0, pages);
  }

  // ---- the cursor columns of the dependent parts ----

  /** `SELECT <cols> FROM ...`: keep only the selected columns of each row. */
  function Project(page: seq<Row>, cols: set<string>): (r: seq<Row>)
    ensures |r| == |page|
    ensures forall i :: 0 <= i < |page| ==> r[i] == map k | k in page[i] && k in cols :: page[i][k]
  {
    seq(|page|, i requires 0 <= i < |page| => map k | k in page[i] && k in cols :: page[i][k])
  }

  /** The columns of `person_film_id` as written (src/raw_sql.py:56-63). */
  const PersonFilmIdColumnsAsWritten: set<string> := {"id"}

  /** The columns of `genre_film_id` (src/raw_sql.py:93-100), which
      `person_film_id` evidently means to select as well. */
  const FilmIdColumns: set<string> := {"id", "updated_at"}

  /** As written, the `persons_film` cursor written after any page is
      `str(None)`: the page's rows carry no `updated_at`. */
  lemma PersonsFilmCursorAsWritten(films: seq<Row>)
    requires films != []
    ensures LastStamp(Project(films, PersonFilmIdColumnsAsWritten)) == NoneText
  {
  }

  /** Selecting `updated_at` too, the cursor is the stamp of the last film
      of the page. */
  lemma FilmIdCursor(films: seq<Row>)
    requires films != []
    ensures LastStamp(Project(films, FilmIdColumns)) == LastStamp(films)
    ensures StampedRow(films[|films| - 1]) ==>
              LastStamp(Project(films, FilmIdColumns)) == StampText(StampOf(films[|films| - 1]))
  {
    var last := films[|films| - 1];
    assert Project(films, FilmIdColumns)[|films| - 1] == map k | k in last && k in FilmIdColumns :: last[k];
  }

  /** The id pages of `pages` are the film pages `films` scanned for the
      columns `cols`. */
  ghost predicate ScannedFrom(pages: seq<LinkedPage>, films: seq<seq<Row>>, cols: set<string>)
  {
    |pages| == |films| && forall i :: 0 <= i < |films| ==> pages[i].ids == Project(films[i], cols)
  }

  /** A dependent part whose loop walks every id page (the follow-up query
      on a cursor of its own) and whose id scan selects `id` and
      `updated_at` from the film pages `films`, over a storage with a path
      and pulled past its sentinel: the link cursor is the stamp of the last
      affected film and the entity cursor that of the last changed entity. */
  lemma LinkedRunCursors(m0: map<string, Text>, m: map<string, Text>, entityKey: string, linkKey: string,
                         scanned: seq<Row>, films: seq<seq<Row>>, pages: seq<LinkedPage>, pulls: nat,
                         yielded: seq<Option<seq<Row>>>, res: Outcome<Error>)
    requires entityKey != linkKey && scanned != [] && ScannedFrom(pages, films, FilmIdColumns)
    requires LinkedRun(m0, m, entityKey, linkKey, scanned, pages, pulls, true, yielded, res)
    requires pulls > PageCount(films) > 0
    ensures m[entityKey] == LastStamp(scanned)
    ensures var page := films[PageCount(films) - 1];
            m[linkKey] == LastStamp(page)
  {
    var n := PageCount(films);
    ScanIdPages(films, pages, FilmIdColumns);
    LinkedRunFinal(m0, m, entityKey, linkKey, scanned, pages, pulls, yielded, res);
    assert IdPages(pages)[n - 1] == Project(films[n - 1], FilmIdColumns);
    FilmIdCursor(films[n - 1]);
  }

  /** As written, a dependent part with affected films, over a storage
      with a path and pulled past its sentinel, leaves the link cursor at
      the last film of the first id page, whatever later pages hold. */
  lemma LinkedRunAsWrittenCursors(m0: map<string, Text>, m: map<string, Text>, entityKey: string, linkKey: string,
                                  scanned: seq<Row>, pages: seq<LinkedPage>, pulls: nat,
                                  yielded: seq<Option<seq<Row>>>, res: Outcome<Error>)
    requires entityKey != linkKey && scanned != []
    requires LinkedRun(m0, m, entityKey, linkKey, scanned, ReachedPages(pages), pulls, true, yielded, res)
    requires pulls > 1 && PageCount(IdPages(pages)) > 0
    ensures m[entityKey] == LastStamp(scanned)
    ensures m[linkKey] == LastStamp(pages[0].ids)
  {
    LinkedRunFinal(m0, m, entityKey, linkKey, scanned, ReachedPages(pages), pulls, yielded, res);
  }

  /** A dependent part over a storage with a path, pulled past its page
      loop: both cursors hold their last write. */
  lemma LinkedRunFinal(m0: map<string, Text>, m: map<string, Text>, entityKey: string, linkKey: string,
                       scanned: seq<Row>, pages: seq<LinkedPage>, pulls: nat,
                       yielded: seq<Option<seq<Row>>>, res: Outcome<Error>)
    requires entityKey != linkKey && scanned != []
    requires LinkedRun(m0, m, entityKey, linkKey, scanned, pages, pulls, true, yielded, res)
    requires pulls > PageCount(IdPages(pages)) > 0
    ensures m[entityKey] == LastStamp(scanned)
    ensures m[linkKey] == LastStamp(IdPages(pages)[PageCount(IdPages(pages)) - 1])
  {
    var n := PageCount(IdPages(pages));
    assert PageWrites(n, pulls) == n;
    var m1 := Checkpoint(m0, linkKey, IdPages(pages), n);
    assert m == m1[entityKey := LastStamp(scanned)];
  }

  /** Projection keeps a page empty exactly when it was, so the page loop
      runs over the same pages. */
  lemma ScanIdPages(films: seq<seq<Row>>, pages: seq<LinkedPage>, cols: set<string>)
    requires ScannedFrom(pages, films, cols)
    ensures PageCount(IdPages(pages)) == PageCount(films)
  {
    var ids := IdPages(pages);
    assert forall i :: 0 <= i < |films| ==> (ids[i] == [] <==> films[i] == []);
    PageCountSame(ids, films);
  }

  /** Two page sequences empty at the same places have the same page count. */
  lemma {:induction false} PageCountSame(a: seq<seq<Row>>, b: seq<seq<Row>>)
    requires |a| == |b| && forall i :: 0 <= i < |a| ==> (a[i] == [] <==> b[i] == [])
    ensures PageCount(a) == PageCount(b)
  {
    if a != [] && a[0] != [] {
      assert forall i :: 0 <= i < |a| - 1 ==> a[1..][i] == a[i + 1] && b[1..][i] == b[i + 1];
      PageCountSame(a[1..], b[1..]);
    }
  }

  // ---- a films run through the transformer and the loader ----

  /** A batch stream of pages followed by the sentinel is cut at the
      sentinel. */
  lemma FilmsStreamCut(pages: seq<seq<Row>>)
    ensures FirstFalsy(FilmsYields(pages)) == PageCount(pages)
  {
    var y := FilmsYields(pages);
    var n := PageCount(pages);
    assert forall i :: 0 <= i < n ==> !FalsyBatch(y[i]);
    assert FalsyBatch(y[n]);
    FirstFalsyIs(y, n);
  }

  lemma FirstFalsyIs(s: seq<Option<seq<Row>>>, k: nat)
    requires k < |s| && FalsyBatch(s[k]) && forall i :: 0 <= i < k ==> !FalsyBatch(s[i])
    ensures FirstFalsy(s) == k
  {
  }

  /** When the handler accepts every page, it is the films run's batches
      that the loader gets: one output per page, then the sentinel. */
  lemma FilmsTransformed(h: seq<Row> -> Result<Output, Error>, pages: seq<seq<Row>>)
    requires forall i :: 0 <= i < PageCount(pages) ==> h(pages[i]).Success?
    ensures var y := FilmsYields(pages);
            FirstInvalid(h, y, FirstFalsy(y)) == PageCount(pages)
  {
    var y := FilmsYields(pages);
    FilmsStreamCut(pages);
  }

  /** A films run whose every row fits the films scheme goes through the
      films handler whole: one payload per page, the lines of that page's
      films. */
  lemma FilmsHandled(pages: seq<seq<Row>>, index: string)
    requires forall i, j :: 0 <= i < PageCount(pages) && 0 <= j < |pages[i]| ==> FilmScheme(pages[i][j]).Success?
    ensures var y := FilmsYields(pages);
            var h := Handler("films", index);
            var n := PageCount(pages);
            && FirstInvalid(h, y, FirstFalsy(y)) == n
            && forall i :: 0 <= i < n ==> Outputs(h, y, n)[i] == Some(Payload(FilmsPayload(pages[i], index).value))
  {
    FilmsPagesAccepted(pages, index);
    FilmsTransformed(Handler("films", index), pages);
  }

  /** ... and the loader's part is those payloads, ended by the sentinel. */
  lemma FilmsPartLoaded(pages: seq<seq<Row>>, index: string)
    requires forall i, j :: 0 <= i < PageCount(pages) && 0 <= j < |pages[i]| ==> FilmScheme(pages[i][j]).Success?
    ensures var y := FilmsYields(pages);
            var h := Handler("films", index);
            && FirstInvalid(h, y, FirstFalsy(y)) == PageCount(pages)
            && var outs := Outputs(h, y, PageCount(pages));
               && Cut(outs + [None]).ends && |Cut(outs + [None]).items| == PageCount(pages)
               && forall i :: 0 <= i < PageCount(pages) ==>
                    Cut(outs + [None]).items[i] == Payload(FilmsPayload(pages[i], index).value)
  {
    FilmsHandled(pages, index);
    PayloadsPart(Outputs(Handler("films", index), FilmsYields(pages), PageCount(pages)));
  }

  /** The films handler accepts a page of scheme-fitting rows, as a payload. */
  lemma FilmsPagesAccepted(pages: seq<seq<Row>>, index: string)
    requires forall i, j :: 0 <= i < PageCount(pages) && 0 <= j < |pages[i]| ==> FilmScheme(pages[i][j]).Success?
    ensures forall i :: 0 <= i < PageCount(pages) ==>
              Handler("films", index)(pages[i]) == Success(Payload(FilmsPayload(pages[i], index).value))
  {
    forall i | 0 <= i < PageCount(pages)
      ensures Handler("films", index)(pages[i]) == Success(Payload(FilmsPayload(pages[i], index).value))
    {
      assert FilmsPayload(pages[i], index).Success?;
    }
  }

  /** Films payloads are never falsy, so the loader's part is every
      payload, ended by the sentinel. */
  lemma PayloadsPart(outs: seq<Option<Output>>)
    requires forall i :: 0 <= i < |outs| ==> outs[i].Some? && outs[i].value.Payload?
    ensures Cut(outs + [None]).ends
    ensures |Cut(outs + [None]).items| == |outs|
    ensures forall i :: 0 <= i < |outs| ==> Cut(outs + [None]).items[i] == outs[i].value
  {
    var s := outs + [None];
    assert forall i :: 0 <= i < |outs| ==> s[i] == outs[i];
    FirstFalsyItemIs(s, |outs|);
    CutIsPrefix(s);
  }

  lemma FirstFalsyItemIs(s: seq<Option<Output>>, k: nat)
    requires k < |s| && FalsyItem(s[k]) && forall i :: 0 <= i < k ==> !FalsyItem(s[i])
    ensures FirstFalsyItem(s) == k
  {
  }
}
