# Incremental films ETL — a Dafny model

This project models the core of an incremental ETL pipeline. The pipeline copies a PostgreSQL movie
catalogue into an Elasticsearch index. It has five stages:

- **Extract.** A generator per part (`films`, `persons`, `genres`) reads the rows changed since a stored
  cursor, page by page. After the consumer resumes it past a page, it writes that page's last
  `updated_at` as the new cursor.
- **Transform.** Each batch of rows is validated against a pydantic scheme. The films part becomes a
  bulk `index` payload; persons and genres become partial `update` actions.
- **Load.** The indices the sink lacks are created. Each part's stream is then re-batched into chunks of
  `batch_size`, and each chunk goes to one `bulk` call.
- **Retry wrapper.** `Backoff` re-invokes a failing function, sleeping by a delay that doubles up to a
  limit.
- **State.** A map of named cursors is rewritten in full to a JSON file on every update.

The database, the search engine and the file system are values:

- a query is the pages of rows it returns, in its `ORDER BY` order. The extractor runs every query on one
  cursor object (`Extract.Cursor`): `execute` replaces what is left of the previous result, `fetchmany`
  takes the next page and `fetchall` takes everything left;
- the sink is an object that records its indices, its `indices.create` calls and its `bulk` calls;
- the file system is a map from path to file content.

A generator is driven by a number of `next()` calls (`pulls`). Its run is described by what it yielded,
the cursor map it left, and the exception its last pull raised. A stream whose generator raised has no
falsy sentinel at its end. Python truthiness is spelled out: `None` and `[]` are false, and a films
payload string is never empty.

Modules, one per source file:

| module | file | form |
|---|---|---|
| `Retry` | backoff.dfy: `default_backoff_gen` and the `Backoff` class (src/utils.py) | mixed: a generator loop as a method, the class with its updated fields |
| `Storage` | storage.dfy: `JsonFileStorage` (01_etl/state_storage.py) | class over a file-system map |
| `Watermarks` | state.dfy: `State` (src/states/state.py; 01_etl/state.py is the same class) | class |
| `Extract` | extract.dfy: `PostgresExtracting` (src/etl/extract.py) | class whose page loops are methods proved against run predicates |
| `Transform` | transform.dfy: `ElasticTransformer` and the schemes of src/etl/scheme.py | functions, plus the pull loop as a method |
| `Chunking`, `Load` | chunks.dfy, load.dfy: `ElasticLoader` (src/etl/load.py) | a reference chunking, the chunker as a function and as loops, the loader class |
| `Pipeline` | pipeline.dfy | lemmas across stages: the cursors a run leaves, and what a films run becomes downstream |
| `Wrappers`, `Rows`, `Seqs` | shared datatypes and sequence lemmas | |

## Model

| member | source | states |
|---|---|---|
| Retry.DefaultBackoffGen | src/utils.py:33-46 | The generator's first `count` values: the first is the start delay with 0 replaced by 1. Each next one is double the previous while that is below the limit, otherwise the limit. Each equals the reference `DelayAt`. |
| Retry.SaturatedStaysAtLimit | src/utils.py:43-46 | Once a delay at or above the limit is produced, every later delay is exactly the limit. |
| Retry.DelayBounded | src/utils.py:39-46 | Take a non-negative start whose adjusted value is within the limit. Then every delay is positive and below twice the limit. |
| Retry.DelayDoubles | src/utils.py:39-44 | While every earlier delay is below the limit, the n-th delay is the adjusted start times 2^n. |
| Retry.OvershootBeforeClamp | src/utils.py:43-46 | With start 3 and limit 10, the third delay is 12, above the limit, and the fourth is 10. The sequence is not min(start·2^n, limit). |
| Retry.FirstReturn | src/utils.py:78-80 | The first attempt in a range that returns: every attempt before it raised. If it is inside the range, it returned. |
| Retry.Sleeps | src/utils.py:86-87 | The `time.sleep` arguments of k caught failures: the call's starting delay first, then the generator's values in order. |
| Retry.Backoff.constructor | src/utils.py:54-71 | The delay, limit and try count are taken from the arguments. `tries` starts at 0. |
| Retry.Backoff.Call | src/utils.py:73-94 | Let k be the first returning attempt among the guarded ones. If one returns, its value is returned after k + 1 calls. Otherwise one last unguarded call decides the result, and its exception propagates. The delay field ends as the generator's (k-1)-th value. The sleeps are `Sleeps`. `tries` is reset to 0. The notice is the as-written condition, `NoticeAsWritten`, on the value `tries` has at exit, which is `TriesAtExit`. |
| Retry.AsWrittenNoticeMissed | src/utils.py:92-93 | As written, when every guarded attempt fails, the "Retry limit exceeded" notice is not logged. |
| Retry.AsWrittenNoticeSpurious | src/utils.py:92-93 | As written, when only the last guarded attempt succeeds, the notice is logged. |
| Retry.CorrectedNoticeExactlyOnExhaustion | src/utils.py:78-93 | The corrected notice fires if and only if every guarded attempt raised. |
| Storage.Decode | 01_etl/state_storage.py:26-31 | The parse fails with a JSON decode error exactly on unparseable content. A falsy JSON value reads as `{}`, and an object reads as itself. |
| Storage.JsonFileStorage.constructor | 01_etl/state_storage.py:11-12 | Keeps the optional path. |
| Storage.JsonFileStorage.SaveState | 01_etl/state_storage.py:14-19 | Without a path it raises `FilePathNotSpecified` and leaves the files alone. Otherwise it overwrites the file with the map, which then reads back as that map. |
| Storage.JsonFileStorage.RetrieveState | 01_etl/state_storage.py:21-35 | Without a path it gives `{}`. A missing file gives `{}` and is created holding `{}`. An existing file gives its decoded content and nothing changes. |
| Watermarks.GetAfterSet | 01_etl/state.py:23-29 | After setting a key, `get` of it gives the new value, and every other key gives what it gave before. |
| Watermarks.State.FromMap | src/states/state.py:15-17 | Keeps the storage and the loaded map. |
| Watermarks.State.Open | src/states/state.py:15-23 | Construction fails exactly when the file exists and is not JSON. Otherwise the in-memory map is the decoded file, or `{}` when there is no path or no file, and the storage holds it. The file map changes only by creating a missing file holding `{}`; a failure changes nothing. |
| Watermarks.State.SetState | src/states/state.py:25-28 | Updates one key in memory, then saves the whole map. It raises exactly when there is no path. The storage keeps holding the in-memory map. |
| Watermarks.State.GetState | 01_etl/state.py:28-29 | The stored value of a present key, and None exactly when it is absent. |
| Wrappers.Get | src/etl/extract.py:77 | `d.get(key)`, on a row here and on the cursor map in `State.get_state`, is Some exactly when the key is present, and then it holds the key's value. |
| Rows.ToText | src/etl/extract.py:77 | `str(x)` is the "None" text exactly for a missing value and for SQL NULL. A timestamp gives the timestamp's text, and only a timestamp does. |
| Extract.PartValueInjective | src/etl/extract.py:22-25 | Different parts have different names. |
| Extract.ExtractPlan | src/etl/extract.py:44-55 | The keys of the extracted dictionary. Every requested part is present, only requested parts are present, and no key repeats. The keys follow the order in which `extract_parts` first names them, which is the order `load` walks. |
| Extract.PageCount | src/etl/extract.py:75 | The pages a `while page := fetchmany(...)` loop sees: the pages before the first empty one, every one of them non-empty. |
| Extract.FilmsYields | src/etl/extract.py:75-79 | A films generator pulled to its end yields each page in order, then None. |
| Extract.LinkedYields | src/etl/extract.py:90-105 | With no changed entities, a dependent part yields only None. Otherwise it yields the fetched rows of each page its loop walks, then None. |
| Extract.ReachedPages | src/etl/extract.py:93-99 | The pages the as-written loop walks: at most the first id page, because the follow-up query and its `fetchall` leave nothing on the shared cursor for the next `fetchmany`. |
| Extract.SharedCursorDropsPages | src/etl/extract.py:95-99 | With two or more id pages, the as-written part yields the first page's rows and then None, where the walk over every page yields a batch for each. |
| Extract.LinkedCheckpointStep | src/etl/extract.py:95-103 | One more pull writes the link cursor of the page it resumes after. When the page loop then ends, it also writes the entity cursor. |
| Extract.FilmsStopped | src/etl/extract.py:67-79 | A pull after the sentinel ends the run with StopIteration, with every page's cursor written. |
| Extract.FilmsFailed | src/etl/extract.py:76-77 | Without a path, the second pull's cursor write ends the run with `FilePathNotSpecified`, after one page. |
| Extract.FilmsDone | src/etl/extract.py:67-79 | A run of at most n + 1 pulls yields the first pulls items and writes one cursor per resumed page. |
| Extract.LinkedStopped | src/etl/extract.py:81-105 | A pull after a dependent part's sentinel ends the run with StopIteration. |
| Extract.LinkedFailed | src/etl/extract.py:95-103 | Without a path, the first cursor write raises. This is the link cursor after page 0, or the entity cursor when there are no pages. |
| Extract.LinkedDone | src/etl/extract.py:81-105 | A run that made every pull asked for yields that prefix and leaves the checkpoint of that many pulls. |
| Extract.PostgresExtracting.constructor | src/etl/extract.py:29-42 | Keeps the cursor, the state and the default process time. |
| Extract.PostgresExtracting.GetProcessLastFiledTime | src/etl/extract.py:57-65 | The stored cursor of the process, otherwise the default time. |
| Extract.Cursor.Execute | src/etl/extract.py:73 | `execute` replaces what is left on the cursor with the new result. |
| Extract.Cursor.FetchMany | src/etl/extract.py:75 | `fetchmany` takes the next page of what is left, and gives nothing once nothing is. |
| Extract.Cursor.FetchAll | src/etl/extract.py:99 | `fetchall` takes every row left and leaves nothing. |
| Extract.PostgresExtracting.ExtractFilms | src/etl/extract.py:67-79 | The start cursor the query ran with, and a run that is `FilmsRun` of the old cursor map. |
| Extract.PostgresExtracting.WalkFilms | src/etl/extract.py:75-79 | The page loop over the film query's result on the cursor satisfies `FilmsRun`. |
| Extract.PostgresExtracting.FilmsPull | src/etl/extract.py:75-77 | One pull: the previous page's cursor write, which fails only on the second pull without a path, then the next page `fetchmany` gives, or the sentinel. |
| Extract.PostgresExtracting.ScanEntities | src/etl/extract.py:86-87 | The entity scan's `execute` and `fetchall` give exactly the changed entities and leave the cursor empty. |
| Extract.PostgresExtracting.ExtractLinked | src/etl/extract.py:81-105 | Both cursors read, the second one only when some entity changed, and a run that is `LinkedRun` over `ReachedPages`: the first id page at most. |
| Extract.PostgresExtracting.WalkLinked | src/etl/extract.py:95-105 | The page loop of a dependent part on the shared cursor satisfies `LinkedRun` over `ReachedPages`. |
| Extract.PostgresExtracting.LinkedPull | src/etl/extract.py:95-103 | One pull: the link cursor write, then the follow-up rows of the next page `fetchmany` gives. That is only ever the first page; after it, the entity cursor write and the sentinel. |
| Extract.PostgresExtracting.ExtractPersons | src/etl/extract.py:81-105 | With a path: the persons stream and the `persons` and `persons_film` cursors its pulls leave, over the first id page at most. |
| Extract.PostgresExtracting.ExtractGenres | src/etl/extract.py:107-131 | With a path: the genres stream and the `genres` and `genres_film` cursors its pulls leave, over the first id page at most. |
| Transform.FirstFalsy | src/etl/transform.py:42 | Where `while x := next(...)` stops: every batch before it is truthy, and it is falsy if it exists. |
| Transform.RequiredStr | src/etl/scheme.py:45 | A required string field is accepted exactly when present as a string. |
| Transform.OptionalField | src/etl/scheme.py:46-50 | An optional field is accepted exactly when it is absent, None or of its declared shape. A missing field gives its default. |
| Transform.PersonScheme | src/etl/scheme.py:44-50 | A row validates exactly when `film_id` is a string and the five list fields are optional lists. The document holds those fields, with missing ones None. |
| Transform.GenreScheme | src/etl/scheme.py:53-55 | A row validates exactly when `film_id` is a string and `genre` is an optional list. |
| Transform.FilmScheme | src/etl/scheme.py:31-41 | A row validates exactly when `id` and `title` are strings and the other fields are of their optional shapes. The document has exactly the ten fields. Present ones are copied, `imdb_rating` defaults to 0, `actors` to [], and the rest to None. |
| Transform.PersonAction | src/etl/transform.py:66-82 | An update action for the film id whose document holds the five person fields. |
| Transform.GenreAction | src/etl/transform.py:94-106 | An update action for the film id whose document is `genres` set to the genre list. |
| Transform.ValidateAll | src/etl/transform.py:65 | A batch validates exactly when every row does. The documents are then the rows' documents, in order. |
| Transform.PersonActions | src/etl/transform.py:64-83 | One action per row in row order, exactly when every row validates. |
| Transform.GenreActions | src/etl/transform.py:92-107 | One action per row in row order, exactly when every row validates. This is the corrected attribute. |
| Transform.GenreActionsAsWritten | src/etl/transform.py:93-101 | As written, a batch succeeds only when it is empty. |
| Transform.GenreAttributeFinding | src/etl/transform.py:93-101 | A non-empty batch of valid rows raises an AttributeError as written. Corrected, it gives actions whose document carries each row's `genre`. |
| Transform.FilmsPayload | src/etl/transform.py:42-55 | A batch gives a payload exactly when every row validates: two lines per film, the index header then the document, in row order. |
| Transform.PayloadLines | src/etl/transform.py:45-54 | Film i owns payload lines 2i and 2i + 1. |
| Transform.Handler | src/etl/transform.py:32-107 | The `_transform_<part>` handler on a truthy batch accepts it exactly when every row fits the part's scheme. Films give one payload of the batch's lines. Persons and genres give one update action per row, and genres use the corrected attribute. |
| Transform.FirstInvalid | src/etl/transform.py:42-43 | The first batch the scheme refuses among the truthy ones: every batch before it validates. |
| Transform.Outputs | src/etl/transform.py:42-55 | One output per accepted batch, in order. |
| Transform.Pull | src/etl/transform.py:37-57 | The transform loop pulled to its end. It yields one output per truthy batch up to the first refused one. It ends with None at the input's sentinel or with the validation error. When the input runs out without a sentinel, it ends with the exception the input generator raised, which `next()` re-raises. It also counts its `next()` calls. |
| Transform.TransformPlan | src/etl/transform.py:24-35 | The keys given a generator are exactly the extracted keys that have a handler. |
| Transform.TransformPlanKeepsHandled | src/etl/transform.py:29-35 | When every key has a handler, none is skipped. |
| Chunking.ChunksIsChunking | src/etl/load.py:47-55 | The reference cut is a chunking: its chunks flatten back to the input, none is empty, all but the last have exactly `size` items, and none has more. |
| Chunking.ChunkingUnique | src/etl/load.py:47-55 | A sequence has only one chunking. |
| Chunking.ChunkCount | src/etl/load.py:47-55 | There are ceil(n / size) chunks. |
| Load.FirstFalsyItem | src/etl/load.py:48 | Where `while cur_data := next(actions)` stops. |
| Load.CutIsPrefix | src/etl/load.py:48 | The chunker sees exactly the values before the first falsy item. It ends exactly when there is one. |
| Load.ChunkerIsSummary | src/etl/load.py:46-56 | The chunker run from an open chunk hands on the reference chunking of the open chunk followed by the stream's values. When the stream raised, the remainder is lost. |
| Load.ChunkerAgrees | src/etl/load.py:46-56 | From an empty chunk, the chunker's calls, sentinel and flush are those of the reference chunking of the part. |
| Load.FirstRaising | src/etl/load.py:62-65 | The first part whose stream raised: every earlier part ended with its sentinel. |
| Load.EndedPartDelivers | src/etl/load.py:46-56 | A part that ended hands on all its items, in order. |
| Load.PartChunksBounded | src/etl/load.py:50-55 | Every chunk handed on is non-empty and at most `batch_size` long. |
| Load.LoadDeliversAll | src/etl/load.py:58-65 | When every part ends with its sentinel, the bulk calls carry every output of every part, in order, and nothing else. |
| Load.LoadCallsBounded | src/etl/load.py:58-65 | Every bulk call carries between one and `batch_size` outputs. |
| Load.Creations | src/etl/load.py:30-44 | Index creation creates only indices the sink lacked. |
| Load.CreatesExactlyMissing | src/etl/load.py:30-44 | When every name has a scheme path, creation succeeds and creates exactly the missing indices, each once, in order. |
| Load.CreationsFail | src/etl/load.py:34-44 | A pair whose index is absent when its turn comes and whose name has no scheme path makes index creation fail. |
| Load.MissingIsExact | src/etl/load.py:34-36 | The missing list holds each index the sink lacks, and nothing else, without repetition. |
| Load.Sink.constructor | src/etl/load.py:21 | A sink with the given indices and no calls yet. |
| Load.Sink.Exists | src/etl/load.py:35 | `indices.exists` is true exactly for a present index. |
| Load.Sink.Create | src/etl/load.py:44 | `indices.create` adds the index and records the call. |
| Load.Sink.Bulk | src/etl/load.py:65 | `bulk` records the call with its actions. |
| Load.ElasticLoader.FromParts | src/etl/load.py:21-28 | Keeps the sink, the names, the paths, the batch size and the data, with `is_loaded` false. |
| Load.ElasticLoader.Open | src/etl/load.py:13-28 | Construction runs `index_exist`. It fails exactly when a missing index has no scheme path. The sink gets exactly the planned creations. |
| Load.ElasticLoader.IndexExist | src/etl/load.py:30-36 | Each absent index is created from its name's scheme, pair by pair. The result is the plan of `Creations`. |
| Load.ElasticLoader.IndexNext | src/etl/load.py:34-44 | One pair: nothing when the index exists, a failure when its scheme path is missing, otherwise one creation. |
| Load.ElasticLoader.PrepareChunkedActions | src/etl/load.py:46-56 | The chunks are the part's reference chunking. The remainder is lost when the stream raised. The sentinel is yielded exactly when the stream had one. `is_loaded` is set exactly when a remainder is flushed. |
| Load.ElasticLoader.Load | src/etl/load.py:58-65 | The sink gets the chunks of each part in order, up to and including the first part whose stream raised. The run raises exactly when some part's stream raised. `is_loaded` records a flush. |
| Load.ElasticLoader.LoadAll | src/etl/load.py:62-65 | The `for` loop over the parts, with the same promise as `Load`. |
| Load.ElasticLoader.LoadNext | src/etl/load.py:62-65 | One part of the loop: its calls, its sentinel and its flush. |
| Load.ElasticLoader.LoadPart | src/etl/load.py:63-65 | One part's chunks each go to one bulk call, in order. |
| Load.ElasticLoader.BulkAll | src/etl/load.py:64-65 | One bulk call per chunk, in order. |
| Load.Rebatch | src/etl/load.py:47-52 | The chunker's loop stops at the first falsy item. The full chunks plus the open chunk are the values seen. Every closed chunk has exactly `size` items, and the open one is shorter. |
| Load.FinalPartChunks | src/etl/load.py:53-56 | At the end, the full chunks plus the flushed non-empty open chunk are the part's chunks. The flush happens exactly when the part ended with a non-empty open chunk. |
| Load.FinalChunking | src/etl/load.py:47-55 | The loop's final state is the reference chunking. |
| Pipeline.CursorIsMax | src/etl/extract.py:75-77 | Take rows in ascending stamp order. Once every page is resumed past, the films cursor is the last row's stamp, and no row's stamp is later. |
| Pipeline.FilmsRunCursor | src/raw_sql.py:31-33 | A films run with a path, pulled past its sentinel, yields every page and leaves the latest stamp as its cursor. |
| Pipeline.Project | src/raw_sql.py:93-94 | A `SELECT` of some columns keeps each row's selected columns and nothing else. |
| Pipeline.PersonsFilmCursorAsWritten | src/raw_sql.py:56-63 | As written, the `persons_film` cursor after any page is the text "None". |
| Pipeline.FilmIdCursor | src/raw_sql.py:93-100 | Selecting `updated_at` too, the link cursor is the stamp of the page's last film. |
| Pipeline.LinkedRunFinal | src/etl/extract.py:95-103 | A dependent part with a path, pulled past its page loop, leaves the stamp of the last page its loop walked as the link cursor and the last entity's stamp as the entity cursor. |
| Pipeline.LinkedRunAsWrittenCursors | src/etl/extract.py:95-103 | As written, that link cursor is the stamp of the first id page's last film, whatever later pages hold. |
| Pipeline.LinkedRunCursors | src/etl/extract.py:95-103 | Corrected to walk every id page, and with the scan that selects `id` and `updated_at`, the link cursor is the stamp of the last affected film. |
| Pipeline.FilmsStreamCut | src/etl/extract.py:75-79 | The transformer's loop over a films stream stops exactly at the sentinel. |
| Pipeline.FilmsTransformed | src/etl/transform.py:42-55 | When every page validates, the transformer accepts every page before the sentinel. |
| Pipeline.FilmsHandled | src/etl/transform.py:37-57 | When every film row fits the scheme, the films handler accepts every page and gives one payload per page, the lines of that page's films. |
| Pipeline.FilmsPartLoaded | src/etl/load.py:46-56 | The loader's films part is then exactly those payloads, ended by the sentinel. |
| Pipeline.PayloadsPart | src/etl/load.py:48 | A stream of films payloads, then None, is one ended part holding every payload in order. |

Three methods are worked scenarios with no contract of their own: `Retry.FailOnceThenSucceed` (one
failure, then a value), `Storage.SaveThenRetrieve` (a save read back, a missing file, no path) and
`Watermarks.SetThenGet` (two updates read back from memory and from the file).

## Left out

- The network, the database and the search engine are values. Their queries, connection handling and
  errors (bulk errors included) are not modelled. So are `db_conn`, src/main.py, src/config.py,
  01_etl/load.py and 01_etl/main.py.
- The SQL text is not interpreted. A query is the pages it returns, assumed to be in its `ORDER BY` order.
  The `fetchmany` page size only shapes those pages.
- The parts share the one cursor. The model runs them one after the other, as the loader pulls them, so
  one part's queries never land between another part's `fetchmany` calls.
- `time.sleep` and logging are not modelled, except for two things: the ghost log of sleep arguments, and
  whether `Backoff.Call` logs "Retry limit exceeded".
- Storage.Decode: two kinds of file content are not representable. Truthy JSON that is not an object (a
  list, a number, a string, `true`) is returned as is by 01_etl/state_storage.py:31. A JSON `null` under a
  key makes `get_state` give None, so src/etl/extract.py:63 falls back to the default cursor. The model
  has only objects whose values are cursor texts.
- JSON and NDJSON rendering of documents, headers and files is not modelled. A bulk payload is a sequence
  of lines, and a file is its decoded content.
- Pydantic coercion is not modelled: UUID parsing, float and integer conversion, and list element types.
  A list field accepts any list. This means the model cannot see the genre names that `genre_films`
  returns where `list[dict]` is declared.
- Generators are driven one at a time. The interleaving of the lazily chained generators (load pulls
  transform, which pulls extract) is not modelled.
  - In Python 3.7 and later, a generator that calls `next()` on an exhausted one raises `RuntimeError`.
    The model reports `StopIteration` in its place. `Transform.Pull` takes the exception that ends its
    input as a parameter, so an extract that raised part-way is reported with its own error.
- Retry.Backoff.Call: every failure of the function is caught. Filtering by the configured `exception`
  class is not modelled, and delays are integers, so the 0.1 s default start delay is not representable.
- Retry.DefaultBackoffGen: returns the generator's first `count` values, not an infinite generator.
- Retry.Backoff.constructor: the `backoff` argument (src/utils.py:56) is always `default_backoff_gen`. A
  caller-supplied generator is not modelled, and the one decorated function (src/main.py:21) uses the
  default.
- Transform.Handler: its genres branch reads the corrected attribute. The code as written is
  `GenreActionsAsWritten`, which refuses every non-empty batch (see Findings).
- Extract.PostgresExtracting.ExtractPersons: states the run only for a storage with a path. The no-path
  case is stated by `ExtractLinked`, which it calls.
- Extract.PostgresExtracting.ExtractGenres: the same as `ExtractPersons`.
- The `AttributeError` branch of `extract` (src/etl/extract.py:51-54) cannot occur, because every part of
  the enum has an `_extract_` method. `ExtractPlan` has no error path.
- In two places the model follows the code rather than what a reader might expect:
  - delays overshoot the limit once before they are clamped (`OvershootBeforeClamp`);
  - an empty state file makes `json.load` raise rather than read as `{}` (`Decode`).

## Findings

| source | as written | input that shows it | evidently intended | confidence | as-written member | corrected member |
|---|---|---|---|---|---|---|
| src/utils.py:92-93 | the notice is logged when `tries == max_tries` in `finally` | every guarded attempt raises: `tries` is `max_tries + 1` at exit and nothing is logged; with `max_tries` failures and then a success, it is logged | log the notice when the guarded attempts ran out (`tries > max_tries`) | not executed | Retry.AsWrittenNoticeMissed | Retry.CorrectedNoticeExactlyOnExhaustion |
| src/raw_sql.py:56-63 | `person_film_id` selects only `fw.id`, yet extract.py:101 stores `str(films[-1].get('updated_at'))` | any non-empty page of affected films: the stored `persons_film` cursor is the text "None" | also select `fw.updated_at`, as `genre_film_id` does | not executed | Pipeline.PersonsFilmCursorAsWritten | Pipeline.FilmIdCursor |
| src/etl/extract.py:95-99, 121-125 | the follow-up query runs on the cursor of the film-id scan, and its `fetchall` drains it | a film-id scan of two pages (`extract_size` 1, films f1 and f2): only f1's rows are yielded, the link cursor stays at f1, and the entity cursor moves on as if f2 were done | run the follow-up query on a cursor of its own, so the loop walks every id page | not executed | Extract.SharedCursorDropsPages | Pipeline.LinkedRunCursors |
| src/etl/transform.py:101 | the update document reads `genre.genres`, but `GenreScheme` declares `genre` | any genres batch holding one valid row raises `AttributeError` | read `genre.genre` | not executed | Transform.GenreAttributeFinding | Transform.GenreActions |
