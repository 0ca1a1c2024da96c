/** `JsonFileStorage` of 01_etl/state_storage.py over an abstract file
    system: a map from path to what the file holds. */
module Storage {
  import opened Wrappers

  /** What a checkpoint file holds, as json.load reads it. */
  datatype Content<V> =
    | Object(fields: map<string, V>)   // a JSON object
    | FalsyJson                        // null, false, 0, "" or []
    | Unparseable                      // not JSON at all, an empty file included

  /** What `retrieve_state` makes of an existing file. */
  function Decode<V>(c: Content<V>): (r: Result<map<string, V>, Error>)
    ensures r.Failure? <==> c.Unparseable?
    ensures r.Failure? ==> r.error == JsonDecodeError
    ensures c.Object? ==> r == Success(c.fields)
    ensures c.FalsyJson? ==> r == Success(map[])
  {
    match c
    case Object(m) => if m == map[] then Success(map[]) else Success(m)
    case FalsyJson => Success(map[])
    case Unparseable => Failure(JsonDecodeError)
  }

  class JsonFileStorage<V> {
    const filePath: Option<string>
    /** The file system this storage reads and writes. */
    var files: map<string, Content<V>>

    constructor (filePath: Option<string>, files: map<string, Content<V>>)
      ensures this.filePath == filePath && this.files == files
    {
      this.filePath := filePath;
      this.files := files;
    }

    /** The storage holds exactly `m`: its file reads back as `m`. */
    ghost predicate Holds(m: map<string, V>)
      reads this
    {
      filePath.Some? && filePath.value in files && Decode(files[filePath.value]) == Success(m)
    }

    /** `save_state`: overwrite the whole file with `state`. */
    method SaveState(state: map<string, V>) returns (r: Outcome<Error>)
      modifies this
      ensures filePath.None? ==> r == Fail(FilePathNotSpecified) && files == old(files)
      ensures filePath.Some? ==> r == Pass && files == old(files)[filePath.value := Object(state)]
      ensures r.Pass? ==> Holds(state)
    {
      if filePath.None? {
        return Fail(FilePathNotSpecified);
      }
      files := files[filePath.value := Object(state)];
      r := Pass;
    }

    /** `retrieve_state`: read the file; a missing file is created holding `{}`. */
    method RetrieveState() returns (r: Result<map<string, V>, Error>)
      modifies this
      ensures filePath.None? ==> r == Success(map[]) && files == old(files)
      ensures filePath.Some? && filePath.value !in old(files) ==>
                r == Success(map[]) && files == old(files)[filePath.value := Object(map[])]
      ensures filePath.Some? && filePath.value in old(files) ==>
                r == Decode(old(files)[filePath.value]) && files == old(files)
      ensures r.Success? && filePath.Some? ==> Holds(r.value)
    {
      if filePath.None? {
        return Success(map[]);
      }
      var path := filePath.value;
      if path !in files {
        var saved := SaveState(map[]);
        return Success(map[]);
      }
      r := Decode(files[path]);
    }
  }

  /** Save followed by retrieve gives back what was saved, and a missing
      file reads as `{}` and is left holding `{}`. */
  method SaveThenRetrieve(path: string, m: map<string, int>)
  {
    var s := new JsonFileStorage(Some(path), map[]);
    var first := s.RetrieveState();
    assert first == Success(map[]) && s.files == map[path := Object(map[])];
    var saved := s.SaveState(m);
    var again := s.RetrieveState();
    assert saved == Pass && again == Success(m);
    var none := new JsonFileStorage<int>(None, map[path := Object(m)]);
    var failed := none.SaveState(m);
    assert failed == Fail(FilePathNotSpecified) && none.files == map[path := Object(m)];
  }
}
