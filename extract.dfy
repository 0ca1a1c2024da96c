/** The checkpointed extraction of src/etl/extract.py.  The database is
    replaced by what its queries return: pages of rows, already ordered by
    the query's ORDER BY, held by the one cursor every query runs on.  Each
    part generator is driven by a number of `next()` calls (`pulls`); a
    cursor is written on the pull that resumes the generator after it
    yielded the page the cursor comes from. */
module Extract {
  import opened Wrappers
  import opened Rows
  import opened Seqs
  import opened Storage
  import opened Watermarks

  datatype PartName = Films | Persons | Genres

  /** `PartName.value`. */
  function PartValue(p: PartName): string
  {
    match p
    case Films => "films"
    case Persons => "persons"
    case Genres => "genres"
  }

  function Values(parts: seq<PartName>): (r: seq<string>)
    ensures |r| == |parts|
    ensures forall i :: 0 <= i < |parts| ==> r[i] == PartValue(parts[i])
  {
    if parts == [] then [] else [PartValue(parts[0])] + Values(parts[1..])
  }

  /** Different parts have different names (their first letters differ). */
  lemma PartValueInjective(p: PartName, q: PartName)
    requires p != q
    ensures PartValue(p) != PartValue(q)
  {
    assert PartValue(p)[0] != PartValue(q)[0];
  }

  /** The keys of the dictionary `extract` returns: every part in the enum
      has an `_extract_` handler, so none is skipped; a part named twice is
      one key, and the keys keep the order in which `extract_parts` first
      names them. */
  function ExtractPlan(parts: seq<PartName>): (keys: seq<string>)
    ensures forall i :: 0 <= i < |parts| ==> PartValue(parts[i]) in keys
    ensures forall i :: 0 <= i < |keys| ==> keys[i] in Values(parts)
    ensures forall i, j :: 0 <= i < j < |keys| ==> keys[i] != keys[j]
    ensures forall i, j :: 0 <= i < j < |keys| ==>
              IndexOf(Values(parts), keys[i]) < IndexOf(Values(parts), keys[j])
  {
    DistinctOrdered(Values(parts));
    Distinct(Values(parts))
  }

  /** How many pages a `while page := fetchmany(...)` loop sees: the pages
      before the first empty one. */
  function PageCount(pages: seq<seq<Row>>): (n: nat)
    ensures n <= |pages|
    ensures forall i :: 0 <= i < n ==> pages[i] != []
    ensures n < |pages| ==> pages[n] == []
  {
    if pages == [] || pages[0] == [] then 0 else 1 + PageCount(pages[1..])
  }

  /** `str(page[-1].get('updated_at'))`. */
  function LastStamp(page: seq<Row>): Text
    requires page != []
  {
    ToText(Get(page[|page| - 1], "updated_at"))
  }

  /** The checkpoint map after the cursor `key` was written for the first
      `w` pages: the last write wins. */
  function Checkpoint(m: map<string, Text>, key: string, pages: seq<seq<Row>>, w: nat): (r: map<string, Text>)
    requires w <= PageCount(pages)
    ensures w == 0 ==> r == m
    ensures w > 0 ==> r == m[key := LastStamp(pages[w - 1])]
  {
    if w == 0 then m else m[key := LastStamp(pages[w - 1])]
  }

  /** `_get_process_last_filed_time`: the stored cursor, else the default. */
  function StartCursor(m: map<string, Text>, key: string, defaultTime: int): (t: Text)
    ensures key in m ==> t == m[key]
    ensures key !in m ==> t == StampText(defaultTime)
  {
    if key in m then m[key] else StampText(defaultTime)
  }

  /** Everything `_extract_films` yields when pulled to the end: each page,
      then the sentinel. */
  function FilmsYields(pages: seq<seq<Row>>): (y: seq<Option<seq<Row>>>)
    ensures |y| == PageCount(pages) + 1
    ensures forall i :: 0 <= i < PageCount(pages) ==> y[i] == Some(pages[i])
    ensures y[|y| - 1] == None
  {
    seq(PageCount(pages), i requires 0 <= i < PageCount(pages) => Some(pages[i])) + [None]
  }

  /** The number of page cursors written after `pulls` pulls. */
  function PageWrites(n: nat, pulls: nat): (w: nat)
    ensures w <= n
  {
    if pulls == 0 then 0 else Min(pulls - 1, n)
  }

  /** A page of the relationship scan (what `fetchmany` of the film-id
      query would return next, its result set left alone) and the rows the
      follow-up query returns for those film ids. */
  datatype LinkedPage = LinkedPage(ids: seq<Row>, rows: seq<Row>)

  function IdPages(pages: seq<LinkedPage>): (r: seq<seq<Row>>)
    ensures |r| == |pages|
    ensures forall i :: 0 <= i < |pages| ==> r[i] == pages[i].ids
  {
    seq(|pages|, i requires 0 <= i < |pages| => pages[i].ids)
  }

  /** The pages a dependent part's loop reaches as written: the follow-up
      query runs on the cursor of the id scan and `fetchall` drains it, so
      the second `fetchmany` finds nothing and only the first page is seen. */
  function ReachedPages(pages: seq<LinkedPage>): (r: seq<LinkedPage>)
    ensures |r| == Min(1, |pages|) && (pages != [] ==> r[0] == pages[0])
    ensures PageCount(IdPages(r)) == Min(1, PageCount(IdPages(pages)))
  {
    if pages == [] then [] else [pages[0]]
  }

  /** Everything a dependent-part generator yields when pulled to the end,
      when its loop walks `pages`. */
  function LinkedYields(scanned: seq<Row>, pages: seq<LinkedPage>): (y: seq<Option<seq<Row>>>)
    ensures scanned == [] ==> y == [None]
    ensures scanned != [] ==> |y| == PageCount(IdPages(pages)) + 1
    ensures scanned != [] ==> forall i :: 0 <= i < PageCount(IdPages(pages)) ==> y[i] == Some(pages[i].rows)
    ensures y[|y| - 1] == None
  {
    if scanned == [] then [None]
    else
      var n := PageCount(IdPages(pages));
      seq(n, i requires 0 <= i < n => Some(pages[i].rows)) + [None]
  }

  /** The checkpoint map of a dependent part after `pulls` pulls, when
      every save succeeds: the link cursor after each page, then the entity
      cursor once the page loop is over. */
  function LinkedCheckpoint(m: map<string, Text>, entityKey: string, linkKey: string,
                            scanned: seq<Row>, pages: seq<LinkedPage>, pulls: nat): map<string, Text>
  {
    var n := PageCount(IdPages(pages));
    if scanned == [] then m
    else
      var m1 := Checkpoint(m, linkKey, IdPages(pages), PageWrites(n, pulls));
      if pulls >= n + 1 then m1[entityKey := LastStamp(scanned)] else m1
  }

  /** As written, a dependent part whose film-id scan has two pages or more
      yields the follow-up rows of the first page and then the sentinel,
      where a walk over every page yields a batch per page. */
  lemma SharedCursorDropsPages(scanned: seq<Row>, pages: seq<LinkedPage>)
    requires scanned != [] && PageCount(IdPages(pages)) >= 2
    ensures LinkedYields(scanned, ReachedPages(pages)) == [Some(pages[0].rows), None]
    ensures |LinkedYields(scanned, pages)| == PageCount(IdPages(pages)) + 1 > 2
    ensures LinkedYields(scanned, pages)[1] == Some(pages[1].rows)
  {
  }

  /** One pull of a dependent-part generator that has not yet yielded its
      sentinel: the link cursor of the page it resumes after, then, if the
      page loop ends, the entity cursor. */
  lemma LinkedCheckpointStep(m: map<string, Text>, entityKey: string, linkKey: string,
                             scanned: seq<Row>, pages: seq<LinkedPage>, k: nat)
    requires scanned != [] && k <= PageCount(IdPages(pages))
    ensures var ids := IdPages(pages);
            var before := LinkedCheckpoint(m, entityKey, linkKey, scanned, pages, k);
            var linked := if k > 0 then before[linkKey := LastStamp(ids[k - 1])] else before;
            LinkedCheckpoint(m, entityKey, linkKey, scanned, pages, k + 1) ==
              if k == PageCount(ids) then linked[entityKey := LastStamp(scanned)] else linked
  {
  }

  /** What `pulls` pulls of `_extract_films` leave behind, from checkpoint
      map `m0` to `m`: when the storage has no path, the first cursor write
      raises; otherwise the cursor of every page the consumer resumed after
      is written, and a pull past the sentinel raises StopIteration. */
  ghost predicate FilmsRun(m0: map<string, Text>, m: map<string, Text>, pages: seq<seq<Row>>, pulls: nat,
                           persistent: bool, yielded: seq<Option<seq<Row>>>, res: Outcome<Error>)
  {
    var n := PageCount(pages);
    var w := PageWrites(n, pulls);
    if w > 0 && !persistent then
      && res == Fail(FilePathNotSpecified)
      && yielded == FilmsYields(pages)[..1]
      && m == Checkpoint(m0, "films", pages, 1)
    else
      && res == (if pulls > n + 1 then Fail(StopIteration) else Pass)
      && yielded == FilmsYields(pages)[..Min(pulls, n + 1)]
      && m == Checkpoint(m0, "films", pages, w)
  }

  /** What `pulls` pulls of a dependent-part generator leave behind, from
      checkpoint map `m0` to `m`: when a save fails (the storage has no
      path), the first cursor write raises; otherwise every write of the
      pulls made happens, and a pull past the sentinel raises StopIteration. */
  ghost predicate LinkedRun(m0: map<string, Text>, m: map<string, Text>, entityKey: string, linkKey: string,
                            scanned: seq<Row>, pages: seq<LinkedPage>, pulls: nat, persistent: bool,
                            yielded: seq<Option<seq<Row>>>, res: Outcome<Error>)
  {
    var n := PageCount(IdPages(pages));
    var total := |LinkedYields(scanned, pages)|;
    var writes := scanned != [] && pulls >= 1 && (n > 0 ==> pulls >= 2);
    if writes && !persistent then
      && res == Fail(FilePathNotSpecified)
      && (n > 0 ==> yielded == LinkedYields(scanned, pages)[..1] && m == m0[linkKey := LastStamp(pages[0].ids)])
      && (n == 0 ==> yielded == [] && m == m0[entityKey := LastStamp(scanned)])
    else
      && res == (if pulls > total then Fail(StopIteration) else Pass)
      && yielded == LinkedYields(scanned, pages)[..Min(pulls, total)]
      && m == LinkedCheckpoint(m0, entityKey, linkKey, scanned, pages, pulls)
  }

  /** Appending the item pulled at step `k` extends the yielded prefix. */
  lemma FilmsYieldsStep(pages: seq<seq<Row>>, k: nat, yielded: seq<Option<seq<Row>>>)
    requires k < |FilmsYields(pages)| && yielded == FilmsYields(pages)[..k]
    ensures yielded + [FilmsYields(pages)[k]] == FilmsYields(pages)[..k + 1]
  {
  }

  lemma LinkedYieldsStep(scanned: seq<Row>, pages: seq<LinkedPage>, k: nat, yielded: seq<Option<seq<Row>>>)
    requires k < |LinkedYields(scanned, pages)| && yielded == LinkedYields(scanned, pages)[..k]
    ensures yielded + [LinkedYields(scanned, pages)[k]] == LinkedYields(scanned, pages)[..k + 1]
  {
  }

  /** A pull after the sentinel raises StopIteration. */
  lemma FilmsStopped(m0: map<string, Text>, m: map<string, Text>, pages: seq<seq<Row>>, pulls: nat,
                     persistent: bool, k: nat, yielded: seq<Option<seq<Row>>>)
    requires k == PageCount(pages) + 1 && k < pulls && yielded == FilmsYields(pages)[..k]
    requires m == Checkpoint(m0, "films", pages, PageWrites(PageCount(pages), k)) && (k > 1 ==> persistent)
    ensures FilmsRun(m0, m, pages, pulls, persistent, yielded, Fail(StopIteration))
  {
  }

  /** The first cursor write, on the second pull, raised. */
  lemma FilmsFailed(m0: map<string, Text>, m: map<string, Text>, pages: seq<seq<Row>>, pulls: nat,
                    yielded: seq<Option<seq<Row>>>)
    requires 1 <= PageCount(pages) && 1 < pulls && yielded == FilmsYields(pages)[..1]
    requires m == Checkpoint(m0, "films", pages, 1)
    ensures FilmsRun(m0, m, pages, pulls, false, yielded, Fail(FilePathNotSpecified))
  {
  }

  /** Every pull asked for was made. */
  lemma FilmsDone(m0: map<string, Text>, m: map<string, Text>, pages: seq<seq<Row>>, pulls: nat,
                  persistent: bool, yielded: seq<Option<seq<Row>>>)
    requires 0 < pulls <= PageCount(pages) + 1 && yielded == FilmsYields(pages)[..pulls]
    requires m == Checkpoint(m0, "films", pages, PageWrites(PageCount(pages), pulls)) && (pulls > 1 ==> persistent)
    ensures FilmsRun(m0, m, pages, pulls, persistent, yielded, Pass)
  {
  }

  lemma LinkedStopped(m0: map<string, Text>, m: map<string, Text>, entityKey: string, linkKey: string,
                      scanned: seq<Row>, pages: seq<LinkedPage>, pulls: nat, k: nat, yielded: seq<Option<seq<Row>>>)
    requires scanned != [] && k == PageCount(IdPages(pages)) + 1 && k < pulls
    requires yielded == LinkedYields(scanned, pages)[..k]
    requires m == LinkedCheckpoint(m0, entityKey, linkKey, scanned, pages, k)
    ensures LinkedRun(m0, m, entityKey, linkKey, scanned, pages, pulls, true, yielded, Fail(StopIteration))
  {
  }

  lemma LinkedFailed(m0: map<string, Text>, m: map<string, Text>, entityKey: string, linkKey: string,
                     scanned: seq<Row>, pages: seq<LinkedPage>, pulls: nat, k: nat, yielded: seq<Option<seq<Row>>>)
    requires scanned != [] && k < pulls && k <= PageCount(IdPages(pages))
    requires yielded == LinkedYields(scanned, pages)[..k]
    requires k == 1 || (k == 0 && PageCount(IdPages(pages)) == 0)
    requires k == 1 ==> m == m0[linkKey := LastStamp(pages[0].ids)]
    requires k == 0 ==> m == m0[entityKey := LastStamp(scanned)]
    ensures LinkedRun(m0, m, entityKey, linkKey, scanned, pages, pulls, false, yielded, Fail(FilePathNotSpecified))
  {
  }

  lemma LinkedDone(m0: map<string, Text>, m: map<string, Text>, entityKey: string, linkKey: string,
                   scanned: seq<Row>, pages: seq<LinkedPage>, pulls: nat, persistent: bool, finished: bool,
                   yielded: seq<Option<seq<Row>>>)
    requires scanned != [] && 0 < pulls <= PageCount(IdPages(pages)) + 1
    requires yielded == LinkedYields(scanned, pages)[..pulls]
    requires m == LinkedCheckpoint(m0, entityKey, linkKey, scanned, pages, pulls)
    requires finished <==> pulls == PageCount(IdPages(pages)) + 1
    requires (pulls > 1 || finished) ==> persistent
    ensures LinkedRun(m0, m, entityKey, linkKey, scanned, pages, pulls, persistent, yielded, Pass)
  {
  }

  /** The database cursor every query of the extractor runs on: what is
      left of the last executed query's result, as the pages successive
      `fetchmany(extract_size)` calls return. */
  class Cursor {
    var pending: seq<seq<Row>>

    constructor ()
      ensures pending == []
    {
      pending := [];
    }

    /** `execute`: the new query's result replaces whatever was left. */
    method Execute(result: seq<seq<Row>>)
      modifies this
      ensures pending == result
    {
      pending := result;
    }

    /** `fetchmany`: the next page, or nothing once the result is used up. */
    method FetchMany() returns (page: seq<Row>)
      modifies this
      ensures old(pending) == [] ==> page == [] && pending == []
      ensures old(pending) != [] ==> page == old(pending)[0] && pending == old(pending)[1..]
    {
      page := [];
      if pending != [] {
        page := pending[0];
        pending := pending[1..];
      }
    }

    /** `fetchall`: every row left, after which nothing is. */
    method FetchAll() returns (rows: seq<Row>)
      modifies this
      ensures rows == Flatten(old(pending)) && pending == []
    {
      rows := Flatten(pending);
      pending := [];
    }
  }

  class PostgresExtracting {
    const cur: Cursor
    const state: State<Text>
    const defaultProcessTime: int

    constructor (cur: Cursor, state: State<Text>, defaultProcessTime: int)
      ensures this.cur == cur && this.state == state && this.defaultProcessTime == defaultProcessTime
    {
      this.cur := cur;
      this.state := state;
      this.defaultProcessTime := defaultProcessTime;
    }

    ghost predicate Valid()
      reads this, state, state.storage
    {
      state.Valid()
    }

    /** `_get_process_last_filed_time`. */
    method GetProcessLastFiledTime(processName: string) returns (t: Text)
      ensures processName in state.state ==> t == state.state[processName]
      ensures processName !in state.state ==> t == StampText(defaultProcessTime)
    {
      var stored := state.GetState(processName);
      if stored.Some? {
        return stored.value;
      }
      t := StampText(defaultProcessTime);
    }

    /** `_extract_films`, given the pages `fetchmany` returns for the film
        query.  `start` is the cursor the query ran with (None when the
        generator was never started); `res` is the exception, if any, the
        last pull raised. */
    method ExtractFilms(pages: seq<seq<Row>>, pulls: nat)
      returns (start: Option<Text>, yielded: seq<Option<seq<Row>>>, res: Outcome<Error>)
      requires Valid()
      modifies cur, state, state.storage
      ensures Valid()
      ensures start == if pulls == 0 then None else Some(StartCursor(old(state.state), "films", defaultProcessTime))
      ensures FilmsRun(old(state.state), state.state, pages, pulls, state.storage.filePath.Some?, yielded, res)
    {
      yielded, res, start := [], Pass, None;
      if pulls == 0 {
        return;
      }
      var t := GetProcessLastFiledTime("films");
      start := Some(t);
      cur.Execute(pages);
      yielded, res := WalkFilms(pages, pulls);
    }

    /** The page loop of `_extract_films`, from the first pull on, with the
        film query's result on the cursor. */
    method WalkFilms(pages: seq<seq<Row>>, pulls: nat) returns (yielded: seq<Option<seq<Row>>>, res: Outcome<Error>)
      requires Valid() && pulls > 0 && cur.pending == pages
      modifies cur, state, state.storage
      ensures Valid()
      ensures FilmsRun(old(state.state), state.state, pages, pulls, state.storage.filePath.Some?, yielded, res)
    {
      ghost var m0 := state.state;
      ghost var n := PageCount(pages);
      yielded, res := [], Pass;
      var i := 0;
      var k := 0;
      var finished := false;
      while k < pulls
        invariant k <= pulls && i <= n
        invariant k == (if finished then n + 1 else i)
        invariant !finished ==> cur.pending == pages[i..]
        invariant yielded == FilmsYields(pages)[..k]
        invariant state.Valid()
        invariant state.state == Checkpoint(m0, "films", pages, PageWrites(n, k))
        invariant k > 1 ==> state.storage.filePath.Some?
      {
        if finished {
          res := Fail(StopIteration);
          FilmsStopped(m0, state.state, pages, pulls, state.storage.filePath.Some?, k, yielded);
          return;
        }
        var item, saved := FilmsPull(pages, m0, i);
        if saved.Fail? {
          res := saved;
          FilmsFailed(m0, state.state, pages, pulls, yielded);
          return;
        }
        FilmsYieldsStep(pages, k, yielded);
        yielded := yielded + [item];
        if item.Some? {
          i := i + 1;
        } else {
          finished := true;
        }
        k := k + 1;
      }
      FilmsDone(m0, state.state, pages, pulls, state.storage.filePath.Some?, yielded);
    }

    /** One pull of `_extract_films` that resumes it after page `i` (the
        cursor of the page before is written first, when there is one) and
        runs it to its next yield: the next page `fetchmany` returns, or the
        sentinel once there is none. */
    method FilmsPull(pages: seq<seq<Row>>, ghost m0: map<string, Text>, i: nat)
      returns (item: Option<seq<Row>>, saved: Outcome<Error>)
      requires Valid() && i <= PageCount(pages) && cur.pending == pages[i..]
      requires state.state == Checkpoint(m0, "films", pages, PageWrites(PageCount(pages), i))
      requires i > 1 ==> state.storage.filePath.Some?
      modifies cur, state, state.storage
      ensures Valid()
      ensures saved.Fail? ==> i == 1 && state.storage.filePath.None? && saved == Fail(FilePathNotSpecified) &&
                              state.state == Checkpoint(m0, "films", pages, 1)
      ensures saved.Pass? ==> state.state == Checkpoint(m0, "films", pages, PageWrites(PageCount(pages), i + 1)) &&
                              item == FilmsYields(pages)[i] && (item.Some? <==> i < PageCount(pages)) &&
                              (item.Some? ==> cur.pending == pages[i + 1..]) &&
                              (i > 0 ==> state.storage.filePath.Some?)
    {
      item, saved := None, Pass;
      if i > 0 {
        saved := state.SetState("films", LastStamp(pages[i - 1]));
        if saved.Fail? {
          return;
        }
      }
      assert i < |pages| ==> pages[i..][0] == pages[i] && pages[i..][1..] == pages[i + 1..];
      var films := cur.FetchMany();
      if films != [] {
        item := Some(films);
      } else {
        item := None;
      }
    }

    /** The shared body of `_extract_persons` and `_extract_genres`: scan the
        changed entities (`scanned`, the `fetchall` of the id query), and if
        there are any, run the film-id query (`pages`) and walk its pages,
        yielding the rows the follow-up query fetches for each page.  All of
        it runs on the one cursor, so the walk reaches `ReachedPages(pages)`. */
    method ExtractLinked(entityKey: string, linkKey: string, scanned: seq<Row>, pages: seq<LinkedPage>, pulls: nat)
      returns (start: Option<Text>, linkStart: Option<Text>, yielded: seq<Option<seq<Row>>>, res: Outcome<Error>)
      requires Valid()
      requires entityKey != linkKey
      modifies cur, state, state.storage
      ensures Valid()
      ensures start == if pulls == 0 then None else Some(StartCursor(old(state.state), entityKey, defaultProcessTime))
      ensures linkStart == if pulls == 0 || scanned == [] then None
                           else Some(StartCursor(old(state.state), linkKey, defaultProcessTime))
      ensures LinkedRun(old(state.state), state.state, entityKey, linkKey, scanned, ReachedPages(pages), pulls,
                        state.storage.filePath.Some?, yielded, res)
    {
      yielded, res, start, linkStart := [], Pass, None, None;
      if pulls == 0 {
        return;
      }
      var t := GetProcessLastFiledTime(entityKey);
      start := Some(t);
      var entities := ScanEntities(scanned);
      if entities == [] {
        // `if persons_id:` fails: only the sentinel
        yielded := [None];
        if pulls > 1 {
          res := Fail(StopIteration);
        }
        return;
      }
      var lt := GetProcessLastFiledTime(linkKey);
      linkStart := Some(lt);
      cur.Execute(IdPages(pages));
      yielded, res := WalkLinked(entityKey, linkKey, entities, pages, pulls);
    }

    /** The entity scan of a dependent part: `execute` of the id query,
        then `fetchall` of its one result. */
    method ScanEntities(scanned: seq<Row>) returns (entities: seq<Row>)
      modifies cur
      ensures entities == scanned && cur.pending == []
    {
      cur.Execute([scanned]);
      entities := cur.FetchAll();
      assert [scanned][..0] == [];
    }

    /** The page loop of a dependent part, from the first pull on, with the
        film-id query's result on the cursor. */
    method WalkLinked(entityKey: string, linkKey: string, scanned: seq<Row>, pages: seq<LinkedPage>, pulls: nat)
      returns (yielded: seq<Option<seq<Row>>>, res: Outcome<Error>)
      requires Valid() && cur.pending == IdPages(pages)
      requires entityKey != linkKey && scanned != [] && pulls > 0
      modifies cur, state, state.storage
      ensures Valid()
      ensures LinkedRun(old(state.state), state.state, entityKey, linkKey, scanned, ReachedPages(pages), pulls,
                        state.storage.filePath.Some?, yielded, res)
    {
      ghost var m0 := state.state;
      ghost var reached := ReachedPages(pages);
      ghost var n := PageCount(IdPages(reached));
      yielded, res := [], Pass;
      var i := 0;
      var k := 0;
      var finished := false;
      while k < pulls
        invariant k <= pulls && i <= n
        invariant k == (if finished then n + 1 else i)
        invariant !finished && i == 0 ==> cur.pending == IdPages(pages)
        invariant !finished && i > 0 ==> cur.pending == []
        invariant yielded == LinkedYields(scanned, reached)[..k]
        invariant state.Valid()
        invariant state.state == LinkedCheckpoint(m0, entityKey, linkKey, scanned, reached, k)
        invariant (k > 1 || finished) ==> state.storage.filePath.Some?
      {
        if finished {
          res := Fail(StopIteration);
          LinkedStopped(m0, state.state, entityKey, linkKey, scanned, reached, pulls, k, yielded);
          return;
        }
        var item, saved := LinkedPull(entityKey, linkKey, scanned, pages, m0, i);
        if saved.Fail? {
          res := saved;
          LinkedFailed(m0, state.state, entityKey, linkKey, scanned, reached, pulls, k, yielded);
          return;
        }
        LinkedYieldsStep(scanned, reached, k, yielded);
        yielded := yielded + [item];
        if item.Some? {
          i := i + 1;
        } else {
          finished := true;
        }
        k := k + 1;
      }
      LinkedDone(m0, state.state, entityKey, linkKey, scanned, reached, pulls, state.storage.filePath.Some?, finished, yielded);
    }

    /** One pull of a dependent-part generator that resumes it after page
        `i` (the link cursor of the page before is written first, when there
        is one) and runs it to its next yield: the follow-up rows of the
        next page `fetchmany` returns, or, when there is none, the entity
        cursor and the sentinel.  The follow-up query replaces the id scan's
        result on the cursor and `fetchall` drains it, so only the first
        fetch finds a page. */
    method LinkedPull(entityKey: string, linkKey: string, scanned: seq<Row>, pages: seq<LinkedPage>,
                      ghost m0: map<string, Text>, i: nat)
      returns (item: Option<seq<Row>>, saved: Outcome<Error>)
      requires Valid() && entityKey != linkKey && scanned != [] && i <= PageCount(IdPages(ReachedPages(pages)))
      requires i == 0 ==> cur.pending == IdPages(pages)
      requires i > 0 ==> cur.pending == []
      requires state.state == LinkedCheckpoint(m0, entityKey, linkKey, scanned, ReachedPages(pages), i)
      modifies cur, state, state.storage
      ensures Valid()
      ensures saved.Fail? ==> state.storage.filePath.None? && saved == Fail(FilePathNotSpecified) &&
                              (i == 1 || (i == 0 && PageCount(IdPages(pages)) == 0)) &&
                              (i == 1 ==> state.state == m0[linkKey := LastStamp(pages[0].ids)]) &&
                              (i == 0 ==> state.state == m0[entityKey := LastStamp(scanned)])
      ensures saved.Pass? ==> state.state == LinkedCheckpoint(m0, entityKey, linkKey, scanned, ReachedPages(pages), i + 1) &&
                              item == LinkedYields(scanned, ReachedPages(pages))[i] &&
                              (item.Some? <==> i < PageCount(IdPages(ReachedPages(pages)))) &&
                              (item.Some? ==> cur.pending == []) &&
                              ((i > 0 || item.None?) ==> state.storage.filePath.Some?)
    {
      LinkedCheckpointStep(m0, entityKey, linkKey, scanned, ReachedPages(pages), i);
      item, saved := None, Pass;
      if i > 0 {
        saved := state.SetState(linkKey, LastStamp(pages[i - 1].ids));
        if saved.Fail? {
          return;
        }
      }
      var films := cur.FetchMany();
      if films != [] {
        // the page is `pages[0].ids`; its follow-up result replaces the scan
        cur.Execute([pages[i].rows]);
        var rows := cur.FetchAll();
        assert [pages[i].rows][..0] == [];
        assert rows == pages[0].rows;
        assert PageCount(IdPages(ReachedPages(pages))) == 1;
        item := Some(rows);
      } else {
        saved := state.SetState(entityKey, LastStamp(scanned));
        item := None;
        assert i == PageCount(IdPages(ReachedPages(pages)));
      }
    }

    /** `_extract_persons`. */
    method ExtractPersons(persons: seq<Row>, pages: seq<LinkedPage>, pulls: nat)
      returns (start: Option<Text>, linkStart: Option<Text>, yielded: seq<Option<seq<Row>>>, res: Outcome<Error>)
      requires Valid()
      modifies cur, state, state.storage
      ensures Valid()
      ensures state.storage.filePath.Some? ==>
                var y := LinkedYields(persons, ReachedPages(pages));
                && res == (if pulls > |y| then Fail(StopIteration) else Pass)
                && yielded == y[..Min(pulls, |y|)]
                && state.state == LinkedCheckpoint(old(state.state), "persons", "persons_film", persons, ReachedPages(pages), pulls)
    {
      start, linkStart, yielded, res := ExtractLinked("persons", "persons_film", persons, pages, pulls);
    }

    /** `_extract_genres`. */
    method ExtractGenres(genres: seq<Row>, pages: seq<LinkedPage>, pulls: nat)
      returns (start: Option<Text>, linkStart: Option<Text>, yielded: seq<Option<seq<Row>>>, res: Outcome<Error>)
      requires Valid()
      modifies cur, state, state.storage
      ensures Valid()
      ensures state.storage.filePath.Some? ==>
                var y := LinkedYields(genres, ReachedPages(pages));
                && res == (if pulls > |y| then Fail(StopIteration) else Pass)
                && yielded == y[..Min(pulls, |y|)]
                && state.state == LinkedCheckpoint(old(state.state), "genres", "genres_film", genres, ReachedPages(pages), pulls)
    {
      start, linkStart, yielded, res := ExtractLinked("genres", "genres_film", genres, pages, pulls);
    }
  }
}
