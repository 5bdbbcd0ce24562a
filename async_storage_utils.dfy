/** The key-value persistence adapter: the device's string store and the four
    wrappers that turn its failures into `null` / `false` and layer JSON on top.
    Whether a native read, write or removal fails is an oracle answer passed in
    as a `bool`; JSON.stringify / JSON.parse are a `Codec` passed in. */
module AsyncStorageUtils {
  import opened Wrappers

  /** The five fixed storage keys (distinct by construction) and any other key. */
  datatype Key =
    | UserProfileKey
    | MealPlansKey
    | OnboardingCompletedKey
    | ThemeKey
    | FollowSystemThemeKey
    | NamedKey(name: string)

  /** The native store's rejection of a call. */
  datatype NativeError = ReadRejected | WriteRejected | RemoveRejected

  /** JSON.parse throwing on text that is not well-formed. */
  datatype JsonError = SyntaxError

  /** A serialiser and a parser. The parser gives `None` on corrupt text,
      `Some(None)` on the text of JSON `null`, and `Some(Some(v))` otherwise. */
  datatype Codec<!T> = Codec(encode: T -> string, decode: string -> Option<Option<T>>)

  /** What the model relies on from JSON for one value: its encoding is not
      the empty string and decodes to the value again. */
  ghost predicate RoundTrips<T>(c: Codec<T>, v: T) {
    c.encode(v) != "" && c.decode(c.encode(v)) == Some(Some(v))
  }

  /** The process-wide device store (AsyncStorage): a map from keys to strings. */
  class DeviceStore {
    var entries: map<Key, string>

    constructor (initial: map<Key, string>)
      ensures entries == initial
    {
      entries := initial;
    }

    /** AsyncStorage.getItem: the stored string or null, or a rejection. */
    function GetItem(key: Key, fails: bool): (r: Result<Option<string>, NativeError>)
      reads this
      ensures r.Failure? <==> fails
      ensures r.Failure? ==> r.error == ReadRejected
      ensures r.Success? ==> (r.value.Some? <==> key in entries)
      ensures r.Success? && r.value.Some? ==> r.value.value == entries[key]
    {
      if fails then Failure(ReadRejected)
      else if key in entries then Success(Some(entries[key]))
      else Success(None)
    }

    /** AsyncStorage.setItem; a rejected write leaves the store as it was. */
    method SetItem(key: Key, value: string, fails: bool) returns (r: Outcome<NativeError>)
      modifies this
      ensures r.Pass? <==> !fails
      ensures r.Fail? ==> r.error == WriteRejected
      ensures entries == if fails then old(entries) else old(entries)[key := value]
    {
      if fails {
        r := Fail(WriteRejected);
      } else {
        entries := entries[key := value];
        r := Pass;
      }
    }

    /** AsyncStorage.multiRemove; after a rejection nothing is promised about
        which of the keys are gone. */
    method MultiRemove(keys: seq<Key>, fails: bool) returns (r: Outcome<NativeError>)
      modifies this
      ensures r.Pass? <==> !fails
      ensures r.Fail? ==> r.error == RemoveRejected
      ensures r.Pass? ==> entries == old(entries) - (set k | k in keys)
    {
      if fails {
        r := Fail(RemoveRejected);
      } else {
        entries := entries - (set k | k in keys);
        r := Pass;
      }
    }
  }

  /** getValueFromAsyncStorage: never throws; a rejected read reads as null. */
  function GetValue(store: DeviceStore, key: Key, readFails: bool): (r: Option<string>)
    reads store
    ensures r.Some? <==> !readFails && key in store.entries
    ensures r.Some? ==> r.value == store.entries[key]
  {
    match store.GetItem(key, readFails)
    case Success(v) => v
    case Failure(_) => None
  }

  /** setValueInAsyncStorage: never throws; reports whether the write happened. */
  method SetValue(store: DeviceStore, key: Key, value: string, writeFails: bool) returns (ok: bool)
    modifies store
    ensures ok <==> !writeFails
    ensures store.entries == if ok then old(store.entries)[key := value] else old(store.entries)
    ensures ok ==> GetValue(store, key, false) == Some(value)
    ensures forall k, rf :: k != key ==> GetValue(store, k, rf) == old(GetValue(store, k, rf))
  {
    var outcome := store.SetItem(key, value, writeFails);
    ok := outcome.Pass?;
  }

  /** getJsonFromAsyncStorage: null when the raw value is null or the empty
      string (the source tests truthiness) or parses as JSON null; otherwise
      the parsed value, and a parse failure is not caught. */
  function GetJson<T>(store: DeviceStore, key: Key, codec: Codec<T>, readFails: bool): (r: Result<Option<T>, JsonError>)
    reads store
    ensures var raw := GetValue(store, key, readFails);
      r.Success? && r.value.None? <==>
        raw.None? || raw.value == "" || codec.decode(raw.value) == Some(None)
    ensures var raw := GetValue(store, key, readFails);
      r.Failure? <==> raw.Some? && raw.value != "" && codec.decode(raw.value).None?
    ensures r.Success? && r.value.Some? ==>
      key in store.entries && codec.decode(store.entries[key]) == Some(r.value)
  {
    var raw := GetValue(store, key, readFails);
    if raw.None? || raw.value == "" then Success(None)
    else match codec.decode(raw.value)
      case None => Failure(SyntaxError)
      case Some(v) => Success(v)
  }

  /** setJsonInAsyncStorage: writes the encoding; when the value survives the
      round trip, a successful write reads back as the value itself. */
  method SetJson<T>(store: DeviceStore, key: Key, v: T, codec: Codec<T>, writeFails: bool) returns (ok: bool)
    modifies store
    ensures ok <==> !writeFails
    ensures store.entries == if ok then old(store.entries)[key := codec.encode(v)] else old(store.entries)
    ensures ok && RoundTrips(codec, v) ==> GetJson(store, key, codec, false) == Success(Some(v))
  {
    ok := SetValue(store, key, codec.encode(v), writeFails);
    if ok && RoundTrips(codec, v) {
      JsonRoundTrip(store, key, v, codec);
    }
  }

  /** The JSON round trip on store contents alone: whatever else is stored,
      reading a key that holds the encoding of a value that survives the round
      trip gives the value back. */
  lemma JsonRoundTrip<T>(store: DeviceStore, key: Key, v: T, codec: Codec<T>)
    requires RoundTrips(codec, v)
    requires key in store.entries && store.entries[key] == codec.encode(v)
    ensures GetJson(store, key, codec, false) == Success(Some(v))
  {
  }
}
