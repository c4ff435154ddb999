/** The parts of the wearable data-replication API that both devices use:
    a DataMap of typed values, the put request that publishes one under a path,
    and the change event that delivers one to a listener. The replication itself
    (connection, asynchronous delivery, result callbacks) is vendor code and is
    not part of this model. */
module DataLayer {
  import opened Wrappers

  /** Java `int`: 32-bit two's complement. */
  type Int32 = x: int | -0x8000_0000 <= x < 0x8000_0000

  /** Java `long`: 64-bit two's complement. */
  type Long = x: int | -0x8000_0000_0000_0000 <= x < 0x8000_0000_0000_0000

  /** The two kinds of value the code stores in a DataMap (`putInt`, `putString`). */
  datatype Value = IntValue(i: Int32) | StringValue(s: string)

  /** A DataMap: keys to typed values. A put of an existing key replaces its value. */
  type DataMap = map<string, Value>

  /** `DataEvent.TYPE_CHANGED` and `DataEvent.TYPE_DELETED`. */
  datatype EventType = TypeChanged | TypeDeleted

  /** A delivered change event: its type, the path of its data item, and the
      DataMap the item carries. */
  datatype DataEvent = DataEvent(eventType: EventType, path: string, dataMap: DataMap)

  /** A `PutDataRequest`: the DataMap to store under a path. */
  datatype PutRequest = PutRequest(path: string, dataMap: DataMap)

  /** `DataMap.getString`: the string stored under `key`, or null (None) when the
      key is absent or holds a value of another type. */
  function GetString(m: DataMap, key: string): (r: Option<string>)
    ensures r.Some? <==> key in m && m[key].StringValue?
    ensures r.Some? ==> m[key] == StringValue(r.value)
  {
    if key in m && m[key].StringValue? then Some(m[key].s) else None
  }

  /** `DataMap.getInt`: the int stored under `key`, or 0 when the key is absent
      or holds a value of another type. */
  function GetInt(m: DataMap, key: string): (r: Int32)
    ensures key in m && m[key].IntValue? ==> m[key] == IntValue(r)
    ensures !(key in m && m[key].IntValue?) ==> r == 0
  {
    if key in m && m[key].IntValue? then m[key].i else 0
  }

  /** A `putString` is read back by `getString` under the same key. */
  lemma GetStringAfterPutString(m: DataMap, key: string, s: string)
    ensures GetString(m[key := StringValue(s)], key) == Some(s)
  {
  }

  /** A `putInt` is read back by `getInt` under the same key, and makes
      `getString` under that key yield null. */
  lemma GetIntAfterPutInt(m: DataMap, key: string, i: Int32)
    ensures GetInt(m[key := IntValue(i)], key) == i
    ensures GetString(m[key := IntValue(i)], key) == None
  {
  }

  /** A put under one key leaves what both getters read under every other key. */
  lemma PutLeavesOtherKeys(m: DataMap, key: string, v: Value, other: string)
    requires other != key
    ensures GetString(m[key := v], other) == GetString(m, other)
    ensures GetInt(m[key := v], other) == GetInt(m, other)
  {
  }

  /** What a listener receives once a put has been replicated to its device
      (the putting device's own listener included): a TYPE_CHANGED event for
      the same path and DataMap. */
  function Deliver(p: PutRequest): DataEvent
  {
    DataEvent(TypeChanged, p.path, p.dataMap)
  }
}
