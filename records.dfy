/** The records the extension keeps in platform storage, and the key-value store itself. */
module Records {
  import opened Wrappers

  /** The user-supplied part of a history entry. A missing text is `None`; a missing `isFavorite`
      reads as `false`, which is how JavaScript's `!item.isFavorite` treats `undefined`. */
  datatype HistoryFields = HistoryFields(
    originalText: Option<string>,
    translatedText: Option<string>,
    language: Option<string>,
    isFavorite: bool)

  /** What spreading `undefined` into an object contributes: no field at all. */
  const EmptyFields: HistoryFields := HistoryFields(None, None, None, false)

  /** A stored history entry: the fields, and the `id` and `timestamp` the save operation stamps on it. */
  datatype HistoryEntry = HistoryEntry(id: string, timestamp: string, fields: HistoryFields)

  /** A stored value: the store holds strings, numbers and the history array. */
  datatype Value = Text(text: string) | Number(number: int) | Entries(entries: seq<HistoryEntry>)

  /** JavaScript truthiness of a stored value; an array is truthy even when empty. */
  predicate IsTruthy(v: Value) {
    match v
    case Text(s) => s != ""
    case Number(n) => n != 0
    case Entries(_) => true
  }

  /** `result[key]`: the value under `key`, `undefined` (`None`) when there is none. */
  function Lookup(data: map<string, Value>, key: string): Option<Value> {
    if key in data then Some(data[key]) else None
  }

  /** The platform's local key-value storage. `readError` and `writeError` say whether reads and
      writes of this store throw, and with which message; they are fixed for the store's lifetime. */
  class PlatformStore {
    var data: map<string, Value>
    const readError: Option<string>
    const writeError: Option<string>

    constructor(initial: map<string, Value>, readError: Option<string>, writeError: Option<string>)
      ensures data == initial && this.readError == readError && this.writeError == writeError
    {
      data := initial;
      this.readError := readError;
      this.writeError := writeError;
    }

    /** `getData(key)`: the stored value, or the error the read throws. */
    method Get(key: string) returns (r: Result<Option<Value>>)
      ensures readError.Some? ==> r == Err(readError.value)
      ensures readError.None? ==> r == Ok(Lookup(data, key))
    {
      if readError.Some? {
        r := Err(readError.value);
      } else {
        r := Ok(Lookup(data, key));
      }
    }

    /** `saveData(key, value)`: stores the value under the key, or throws and stores nothing. */
    method Save(key: string, value: Value) returns (thrown: Option<string>)
      modifies this
      ensures thrown == writeError
      ensures data == if thrown.None? then old(data)[key := value] else old(data)
    {
      thrown := writeError;
      if thrown.None? {
        data := data[key := value];
      }
    }

    /** `removeData(key)`: deletes the key, or throws and deletes nothing. */
    method Remove(key: string) returns (thrown: Option<string>)
      modifies this
      ensures thrown == writeError
      ensures data == if thrown.None? then old(data) - {key} else old(data)
    {
      thrown := writeError;
      if thrown.None? {
        data := data - {key};
      }
    }
  }
}
