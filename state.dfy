/** The watermark tracker: `State` of src/states/state.py, of which
    01_etl/state.py is a line-for-line copy.  An in-memory map of named
    cursors over a storage that is rewritten in full on every update. */
module Watermarks {
  import opened Wrappers
  import opened Storage

  /** `get` after setting `key` gives the value set for it, and every
      other key gives what it gave before. */
  lemma GetAfterSet<V>(m: map<string, V>, key: string, value: V, other: string)
    ensures Get(m[key := value], key) == Some(value)
    ensures other != key ==> Get(m[key := value], other) == Get(m, other)
  {
  }

  class State<V> {
    /** `self.state`. */
    var state: map<string, V>
    const storage: JsonFileStorage<V>

    /** When the storage has a path, it holds the whole in-memory map. */
    ghost predicate Valid()
      reads this, storage
    {
      storage.filePath.Some? ==> storage.Holds(state)
    }

    constructor FromMap(storage: JsonFileStorage<V>, state: map<string, V>)
      ensures this.storage == storage && this.state == state
    {
      this.storage := storage;
      this.state := state;
    }

    /** `State(storage)`: load the map once; a JSON error in the file propagates. */
    static method Open(storage: JsonFileStorage<V>) returns (r: Result<State<V>, Error>)
      modifies storage
      ensures r.Failure? <==>
                storage.filePath.Some? && storage.filePath.value in old(storage.files) &&
                old(storage.files)[storage.filePath.value].Unparseable?
      ensures r.Success? ==> fresh(r.value) && r.value.storage == storage && r.value.Valid()
      ensures storage.files ==
                (if storage.filePath.Some? && storage.filePath.value !in old(storage.files)
                 then old(storage.files)[storage.filePath.value := Object(map[])]
                 else old(storage.files))
      ensures r.Success? ==>
                r.value.state == (if storage.filePath.Some? && storage.filePath.value in old(storage.files)
                                  then Decode(old(storage.files)[storage.filePath.value]).value
                                  else map[])
    {
      var data := storage.RetrieveState();
      if data.Failure? {
        return Failure(data.error);
      }
      // `if not data: return {}`
      var loaded := if data.value == map[] then map[] else data.value;
      var s := new State.FromMap(storage, loaded);
      r := Success(s);
    }

    /** `set_state`: update one key in memory, then save the whole map. */
    method SetState(key: string, value: V) returns (r: Outcome<Error>)
      requires Valid()
      modifies this, storage
      ensures Valid()
      ensures state == old(state)[key := value]
      ensures r == (if storage.filePath.None? then Fail(FilePathNotSpecified) else Pass)
      ensures storage.files ==
                (if storage.filePath.None? then old(storage.files)
                 else old(storage.files)[storage.filePath.value := Object(state)])
    {
      state := state[key := value];
      r := storage.SaveState(state);
    }

    /** `get_state`. */
    method GetState(key: string) returns (v: Option<V>)
      ensures v.Some? <==> key in state
      ensures v.Some? ==> v.value == state[key]
    {
      v := Get(state, key);
    }
  }

  /** `get_state` after `set_state(k, v)` gives `v`, other keys keep their
      values, and the file holds the whole map after each update. */
  method SetThenGet(path: string)
  {
    var storage := new JsonFileStorage<int>(Some(path), map[]);
    var loaded := State.Open(storage);
    assert loaded.Success?;
    var s := loaded.value;
    assert s.state == map[];
    var r := s.SetState("films", 5);
    r := s.SetState("genres", 9);
    var films := s.GetState("films");
    var persons := s.GetState("persons");
    assert films == Some(5) && persons == None;
    assert storage.files[path] == Object(map["films" := 5, "genres" := 9]);
  }
}
