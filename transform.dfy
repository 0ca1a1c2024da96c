/** The document transformer of src/etl/transform.py: each part's batches
    of rows become sink actions.  Schema validation (the pydantic schemes
    of src/etl/scheme.py) is a partial function on rows. */
module Transform {
  import opened Wrappers
  import opened Rows

  /** Python truthiness of a batch: `None` and `[]` are false. */
  predicate FalsyBatch(b: Option<seq<Row>>) { b.None? || b.value == [] }

  /** The index of the first falsy batch, or |s|: where `while x := next(...)` stops. */
  function FirstFalsy(s: seq<Option<seq<Row>>>): (k: nat)
    ensures k <= |s|
    ensures forall i :: 0 <= i < k ==> !FalsyBatch(s[i])
    ensures k < |s| ==> FalsyBatch(s[k])
  {
    if s == [] || FalsyBatch(s[0]) then 0 else 1 + FirstFalsy(s[1..])
  }

  // ---- validation ----

  /** A required `str`/`UUID` field. */
  function RequiredStr(row: Row, key: string): (r: Result<string, Error>)
    ensures r.Success? <==> key in row && row[key].Str?
    ensures r.Success? ==> r.value == row[key].s
  {
    if key in row && row[key].Str? then Success(row[key].s) else Failure(SchemaValidation)
  }

  /** The shape a field declares: `list[...]`, `str` or `float`. */
  datatype Kind = ListOf | Text | Number

  predicate HasKind(v: Value, kind: Kind)
  {
    match kind
    case ListOf => v.Arr?
    case Text => v.Str?
    case Number => v.Num?
  }

  /** The field is missing, None, or of its declared shape. */
  predicate FieldOk(row: Row, key: string, kind: Kind)
  {
    key !in row || row[key].Null? || HasKind(row[key], kind)
  }

  /** An `Optional[...]` field: missing gives `dflt`, None stays None, and
      any other value must have the declared shape. */
  function OptionalField(row: Row, key: string, dflt: Value, kind: Kind): (r: Result<Value, Error>)
    ensures r.Success? <==> FieldOk(row, key, kind)
    ensures r.Failure? ==> r.error == SchemaValidation
    ensures key !in row ==> r == Success(dflt)
    ensures key in row && r.Success? ==> r.value == row[key]
  {
    if key !in row then Success(dflt)
    else if row[key].Null? || HasKind(row[key], kind) then Success(row[key])
    else Failure(SchemaValidation)
  }

  /** `PersonScheme` (src/etl/scheme.py:44-50). */
  datatype PersonDoc = PersonDoc(filmId: string, director: Value, actors: Value, writers: Value,
                                 actorsNames: Value, writersNames: Value)

  /** A row `PersonScheme` accepts. */
  predicate PersonRowOk(row: Row)
  {
    && "film_id" in row && row["film_id"].Str?
    && FieldOk(row, "director", ListOf) && FieldOk(row, "actors", ListOf) && FieldOk(row, "writers", ListOf)
    && FieldOk(row, "actors_names", ListOf) && FieldOk(row, "writers_names", ListOf)
  }

  /** Missing and None both read as None. */
  function FieldOrNull(row: Row, key: string): Value
  {
    if key in row then row[key] else Null
  }

  function PersonScheme(row: Row): (r: Result<PersonDoc, Error>)
    ensures r.Success? <==> PersonRowOk(row)
    ensures r.Failure? ==> r.error == SchemaValidation
    ensures r.Success? ==> r.value == PersonDoc(row["film_id"].s, FieldOrNull(row, "director"),
                                                FieldOrNull(row, "actors"), FieldOrNull(row, "writers"),
                                                FieldOrNull(row, "actors_names"), FieldOrNull(row, "writers_names"))
  {
    var filmId :- RequiredStr(row, "film_id");
    var director :- OptionalField(row, "director", Null, ListOf);
    var actors :- OptionalField(row, "actors", Null, ListOf);
    var writers :- OptionalField(row, "writers", Null, ListOf);
    var actorsNames :- OptionalField(row, "actors_names", Null, ListOf);
    var writersNames :- OptionalField(row, "writers_names", Null, ListOf);
    Success(PersonDoc(filmId, director, actors, writers, actorsNames, writersNames))
  }

  /** `GenreScheme` (src/etl/scheme.py:53-55): its one list field is `genre`. */
  datatype GenreDoc = GenreDoc(filmId: string, genre: Value)

  function GenreScheme(row: Row): (r: Result<GenreDoc, Error>)
    ensures r.Success? <==> "film_id" in row && row["film_id"].Str? && FieldOk(row, "genre", ListOf)
    ensures r.Failure? ==> r.error == SchemaValidation
    ensures r.Success? ==> r.value == GenreDoc(row["film_id"].s, FieldOrNull(row, "genre"))
  {
    var filmId :- RequiredStr(row, "film_id");
    var genre :- OptionalField(row, "genre", Null, ListOf);
    Success(GenreDoc(filmId, genre))
  }

  /** `FilmScheme` (src/etl/scheme.py:31-41): the id and the document fields. */
  datatype FilmDoc = FilmDoc(id: string, fields: map<string, Value>)

  /** A row `FilmScheme` accepts. */
  predicate FilmRowOk(row: Row)
  {
    && "id" in row && row["id"].Str? && "title" in row && row["title"].Str?
    && FieldOk(row, "description", Text) && FieldOk(row, "imdb_rating", Number)
    && FieldOk(row, "director", ListOf) && FieldOk(row, "actors", ListOf) && FieldOk(row, "writers", ListOf)
    && FieldOk(row, "actors_names", ListOf) && FieldOk(row, "writers_names", ListOf)
    && FieldOk(row, "genre", ListOf)
  }

  /** The document fields of a film; the two with defaults are `imdb_rating` (0) and `actors` ([]). */
  const FilmFields: set<string> := {"id", "title", "description", "imdb_rating", "director", "actors",
                                    "writers", "actors_names", "writers_names", "genre"}

  /** The default of a film field: 0 for `imdb_rating`, [] for `actors`, None otherwise. */
  function FilmDefault(key: string): Value
  {
    if key == "imdb_rating" then Num(0) else if key == "actors" then Arr([]) else Null
  }

  function FilmScheme(row: Row): (r: Result<FilmDoc, Error>)
    ensures r.Success? <==> FilmRowOk(row)
    ensures r.Failure? ==> r.error == SchemaValidation
    ensures r.Success? ==>
              && r.value.id == row["id"].s
              && r.value.fields.Keys == FilmFields
              && (forall key :: key in FilmFields && key in row ==> r.value.fields[key] == row[key])
              && ("imdb_rating" !in row ==> r.value.fields["imdb_rating"] == Num(0))
              && ("actors" !in row ==> r.value.fields["actors"] == Arr([]))
              && (forall key :: key in FilmFields - {"imdb_rating", "actors"} && key !in row ==>
                                  r.value.fields[key] == Null)
  {
    if FilmRowOk(row) then
      Success(FilmDoc(row["id"].s, map key | key in FilmFields :: if key in row then row[key] else FilmDefault(key)))
    else
      Failure(SchemaValidation)
  }

  // ---- actions ----

  /** A partial-update action (`'_op_type': 'update'`) on document `id`. */
  datatype Action = Update(index: string, id: string, doc: map<string, Value>)

  /** A line of the films bulk payload: the `index` header or the document. */
  datatype BulkLine = IndexHeader(index: string, id: string) | Document(film: FilmDoc)

  /** What a transform generator yields: the films payload or a list of actions. */
  datatype Output = Payload(lines: seq<BulkLine>) | Actions(actions: seq<Action>)

  const PersonFields: set<string> := {"director", "actors", "writers", "actors_names", "writers_names"}

  /** The action `_transform_persons` builds for one validated row. */
  function PersonAction(p: PersonDoc, index: string): (a: Action)
    ensures a.index == index && a.id == p.filmId
    ensures a.doc.Keys == PersonFields
    ensures a.doc["director"] == p.director && a.doc["actors"] == p.actors && a.doc["writers"] == p.writers
    ensures a.doc["actors_names"] == p.actorsNames && a.doc["writers_names"] == p.writersNames
  {
    Update(index, p.filmId, map["director" := p.director, "actors" := p.actors, "writers" := p.writers,
                                "actors_names" := p.actorsNames, "writers_names" := p.writersNames])
  }

  /** The action `_transform_genres` builds for one validated row. */
  function GenreAction(g: GenreDoc, index: string): (a: Action)
    ensures a.index == index && a.id == g.filmId
    ensures a.doc.Keys == {"genres"} && a.doc["genres"] == g.genre
  {
    Update(index, g.filmId, map["genres" := g.genre])
  }

  /** Validate every row of a batch with `scheme`: the list comprehension
      `[Scheme(**row) for row in data]`, which raises at the first bad row. */
  function ValidateAll<D>(rows: seq<Row>, scheme: Row -> Result<D, Error>): (r: Result<seq<D>, Error>)
    ensures r.Success? <==> forall i :: 0 <= i < |rows| ==> scheme(rows[i]).Success?
    ensures r.Success? ==> |r.value| == |rows| && forall i :: 0 <= i < |rows| ==> r.value[i] == scheme(rows[i]).value
  {
    if rows == [] then Success([])
    else
      match scheme(rows[0])
      case Failure(e) => Failure(e)
      case Success(d) =>
        match ValidateAll(rows[1..], scheme)
        case Failure(e) =>
          assert forall i :: 0 <= i < |rows| - 1 ==> rows[1..][i] == rows[i + 1];
          Failure(e)
        case Success(rest) => Success([d] + rest)
  }

  /** `_transform_persons` on one batch: one action per row, in row order. */
  function PersonActions(rows: seq<Row>, index: string): (r: Result<seq<Action>, Error>)
    ensures r.Success? <==> forall i :: 0 <= i < |rows| ==> PersonScheme(rows[i]).Success?
    ensures r.Success? ==> |r.value| == |rows|
    ensures r.Success? ==> forall i :: 0 <= i < |rows| ==> r.value[i] == PersonAction(PersonScheme(rows[i]).value, index)
  {
    var persons :- ValidateAll(rows, PersonScheme);
    Success(seq(|persons|, i requires 0 <= i < |persons| => PersonAction(persons[i], index)))
  }

  /** `_transform_genres` on one batch. */
  function GenreActions(rows: seq<Row>, index: string): (r: Result<seq<Action>, Error>)
    ensures r.Success? <==> forall i :: 0 <= i < |rows| ==> GenreScheme(rows[i]).Success?
    ensures r.Success? ==> |r.value| == |rows|
    ensures r.Success? ==> forall i :: 0 <= i < |rows| ==> r.value[i] == GenreAction(GenreScheme(rows[i]).value, index)
  {
    var genres :- ValidateAll(rows, GenreScheme);
    Success(seq(|genres|, i requires 0 <= i < |genres| => GenreAction(genres[i], index)))
  }

  /** `_transform_genres` as written: the document reads `genre.genres`,
      which `GenreScheme` does not declare (its field is `genre`), so a
      batch raises as soon as it holds one valid row. */
  function GenreActionsAsWritten(rows: seq<Row>, index: string): (r: Result<seq<Action>, Error>)
    ensures r.Success? <==> rows == []
  {
    var genres :- ValidateAll(rows, GenreScheme);
    if genres == [] then Success([]) else Failure(AttributeError)
  }

  /** A batch of valid genre rows is refused as written and accepted once
      the attribute is `genre`, whose value the `genres` document key carries. */
  lemma GenreAttributeFinding(rows: seq<Row>, index: string)
    requires rows != [] && forall i :: 0 <= i < |rows| ==> GenreScheme(rows[i]).Success?
    ensures GenreActionsAsWritten(rows, index) == Failure(AttributeError)
    ensures GenreActions(rows, index).Success?
    ensures forall i :: 0 <= i < |rows| ==>
              GenreActions(rows, index).value[i].doc == map["genres" := FieldOrNull(rows[i], "genre")]
  {
  }

  /** The two payload lines of one film: the `index` header, then the document. */
  function FilmLines(f: FilmDoc, index: string): seq<BulkLine>
  {
    [IndexHeader(index, f.id), Document(f)]
  }

  /** `_transform_films` on one batch: the lines of every film, in row order. */
  function FilmsPayload(rows: seq<Row>, index: string): (r: Result<seq<BulkLine>, Error>)
    ensures r.Success? <==> forall i :: 0 <= i < |rows| ==> FilmScheme(rows[i]).Success?
    ensures r.Success? ==> |r.value| == 2 * |rows|
    ensures r.Success? ==> forall i :: 0 <= i < |rows| ==>
              r.value[2 * i..2 * i + 2] == FilmLines(FilmScheme(rows[i]).value, index)
  {
    var films :- ValidateAll(rows, FilmScheme);
    Success(PayloadLines(films, index))
  }

  /** The lines of every film, in order. */
  function PayloadLines(films: seq<FilmDoc>, index: string): (r: seq<BulkLine>)
    ensures |r| == 2 * |films|
    ensures forall i :: 0 <= i < |films| ==> r[2 * i..2 * i + 2] == FilmLines(films[i], index)
  {
    if films == [] then []
    else
      var rest := PayloadLines(films[1..], index);
      var r := FilmLines(films[0], index) + rest;
      assert forall i :: 1 <= i < |films| ==> r[2 * i..2 * i + 2] == rest[2 * (i - 1)..2 * (i - 1) + 2];
      r
  }

  // ---- dispatch and the pull loop ----

  /** The part names with a `_transform_<name>` method. */
  predicate HasHandler(part: string) { part == "films" || part == "persons" || part == "genres" }

  /** The `_transform_<part>` method as a function on truthy batches: a
      batch is accepted exactly when every row fits the part's scheme; films
      become one payload of the batch's lines, persons and genres one update
      action per row.  The genres branch reads the corrected attribute
      (`GenreActions`); the code as written is `GenreActionsAsWritten`. */
  function Handler(part: string, index: string): (h: seq<Row> -> Result<Output, Error>)
    requires HasHandler(part)
    ensures part == "films" ==> forall rows ::
              (h(rows).Success? <==> forall i :: 0 <= i < |rows| ==> FilmScheme(rows[i]).Success?)
    ensures part == "films" ==> forall rows ::
              h(rows).Success? ==> h(rows).value == Payload(FilmsPayload(rows, index).value)
    ensures part == "persons" ==> forall rows ::
              (h(rows).Success? <==> forall i :: 0 <= i < |rows| ==> PersonScheme(rows[i]).Success?)
    ensures part == "persons" ==> forall rows ::
              h(rows).Success? ==> h(rows).value == Actions(PersonActions(rows, index).value)
    ensures part == "genres" ==> forall rows ::
              (h(rows).Success? <==> forall i :: 0 <= i < |rows| ==> GenreScheme(rows[i]).Success?)
    ensures part == "genres" ==> forall rows ::
              h(rows).Success? ==> h(rows).value == Actions(GenreActions(rows, index).value)
  {
    if part == "films" then
      rows => match FilmsPayload(rows, index)
              case Failure(e) => Failure(e)
              case Success(lines) => Success(Payload(lines))
    else if part == "persons" then
      rows => match PersonActions(rows, index)
              case Failure(e) => Failure(e)
              case Success(acts) => Success(Actions(acts))
    else
      rows => match GenreActions(rows, index)
              case Failure(e) => Failure(e)
              case Success(acts) => Success(Actions(acts))
  }

  /** The index of the first batch before `k` that `h` refuses, or k. */
  function FirstInvalid(h: seq<Row> -> Result<Output, Error>, s: seq<Option<seq<Row>>>, k: nat): (j: nat)
    requires k <= FirstFalsy(s)
    ensures j <= k
    ensures forall i :: 0 <= i < j ==> h(s[i].value).Success?
    ensures j < k ==> h(s[j].value).Failure?
  {
    if k == 0 then 0
    else
      var j := FirstInvalid(h, s, k - 1);
      if j < k - 1 then j
      else if h(s[k - 1].value).Success? then k else k - 1
  }

  /** What `h` makes of the first `j` batches, all of them accepted. */
  function Outputs(h: seq<Row> -> Result<Output, Error>, s: seq<Option<seq<Row>>>, j: nat): (out: seq<Option<Output>>)
    requires j <= FirstInvalid(h, s, FirstFalsy(s))
    ensures |out| == j
    ensures forall i :: 0 <= i < j ==> out[i] == Some(h(s[i].value).value)
  {
    seq(j, i requires 0 <= i < j => Some(h(s[i].value).value))
  }

  /** The loop every `_transform_<part>` generator runs, pulled to its end:
      `out` is what it yields, `pulled` how many `next()` calls it made on
      its input and `err` the exception it ended with, if any.  `input` is
      what the extract generator yields and `end` the exception that
      generator raises after it: `next()` re-raises it here, so an extract
      that failed part-way is reported with its own error, and one that was
      simply exhausted with StopIteration. */
  method Pull(h: seq<Row> -> Result<Output, Error>, input: seq<Option<seq<Row>>>, end: Error)
    returns (out: seq<Option<Output>>, pulled: nat, err: Option<Error>)
    ensures var k := FirstFalsy(input);
            var j := FirstInvalid(h, input, k);
            && out == Outputs(h, input, j) + (if j == k && k < |input| then [None] else [])
            && pulled == (if j < k then j + 1 else Min(k + 1, |input|))
            && err == (if j < k then Some(h(input[j].value).error) else if k == |input| then Some(end) else None)
  {
    ghost var k := FirstFalsy(input);
    ghost var j := FirstInvalid(h, input, k);
    out, pulled := [], 0;
    while true
      invariant pulled <= k && pulled <= j
      invariant out == Outputs(h, input, pulled)
      decreases |input| - pulled
    {
      if pulled == |input| {
        return out, pulled, Some(end);
      }
      var batch := input[pulled];
      pulled := pulled + 1;
      if FalsyBatch(batch) {
        return out + [None], pulled, None;
      }
      var r := h(batch.value);
      if r.Failure? {
        return out, pulled, Some(r.error);
      }
      out := out + [Some(r.value)];
    }
  }

  /** The keys `transform` maps: the extracted names with a handler. */
  function TransformPlan(keys: seq<string>): (r: seq<string>)
    ensures forall i :: 0 <= i < |r| ==> HasHandler(r[i]) && r[i] in keys
    ensures forall i :: 0 <= i < |keys| ==> HasHandler(keys[i]) ==> keys[i] in r
    ensures |r| <= |keys|
  {
    if keys == [] then []
    else if HasHandler(keys[0]) then [keys[0]] + TransformPlan(keys[1..])
    else TransformPlan(keys[1..])
  }

  /** When every key has a handler, nothing is skipped. */
  lemma {:induction false} TransformPlanKeepsHandled(keys: seq<string>)
    requires forall i :: 0 <= i < |keys| ==> HasHandler(keys[i])
    ensures TransformPlan(keys) == keys
  {
    if keys != [] {
      TransformPlanKeepsHandled(keys[1..]);
    }
  }
}
