/**
 * The device's persistent key-value store (AsyncStorage). Every operation
 * takes a `fails` input standing for the rejection the platform may produce;
 * a failed write or removal leaves the store as it was.
 *
 * Items are held as `Json` values. A raw string item is `Str(s)`; an item the
 * client writes with `JSON.stringify(v)` and reads back with `JSON.parse` is
 * held as `v` itself.
 */
module Storage {
  import opened Js

  /** The outcome of `getItem`: it rejects, finds nothing (`null`) or finds a value. */
  datatype Read = ReadFailed | Absent | Present(value: Json)

  /** What `getItem(key)` yields on the given contents. */
  function ReadOf(items: map<string, Json>, key: string, fails: bool): (r: Read)
    ensures r.Present? <==> !fails && key in items
    ensures r.Present? ==> r.value == items[key]
    ensures r.ReadFailed? <==> fails
  {
    if fails then ReadFailed else if key in items then Present(items[key]) else Absent
  }

  class KeyValueStore {
    var items: map<string, Json>

    constructor ()
      ensures items == map[]
    {
      items := map[];
    }

    method GetItem(key: string, fails: bool) returns (r: Read)
      ensures r == ReadOf(items, key, fails)
    {
      if fails {
        r := ReadFailed;
      } else if key in items {
        r := Present(items[key]);
      } else {
        r := Absent;
      }
    }

    method SetItem(key: string, value: Json, fails: bool) returns (ok: bool)
      modifies this`items
      ensures ok == !fails
      ensures items == if fails then old(items) else old(items)[key := value]
    {
      ok := !fails;
      if !fails {
        items := items[key := value];
      }
    }

    method RemoveItem(key: string, fails: bool) returns (ok: bool)
      modifies this`items
      ensures ok == !fails
      ensures items == if fails then old(items) else old(items) - {key}
    {
      ok := !fails;
      if !fails {
        items := items - {key};
      }
    }
  }
}
