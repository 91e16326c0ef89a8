/** AsyncStorage: the device's process-wide, restart-surviving string store. The
    session store and the login screen share one instance. */
module Storage {
  import opened Wrappers

  class KeyValueStore {
    var items: map<string, string>

    constructor (initial: map<string, string>)
      ensures items == initial
    {
      items := initial;
    }

    /** `AsyncStorage.setItem(key, value)` */
    method SetItem(key: string, value: string)
      modifies this
      ensures items == old(items)[key := value]
    {
      items := items[key := value];
    }

    /** `AsyncStorage.getItem(key)`; `None` is the `null` of a missing key. */
    method GetItem(key: string) returns (r: Option<string>)
      ensures key in items ==> r == Some(items[key])
      ensures key !in items ==> r == None
    {
      r := if key in items then Some(items[key]) else None;
    }

    /** `AsyncStorage.removeItem(key)`; removing a missing key is not an error. */
    method RemoveItem(key: string)
      modifies this
      ensures items == old(items) - {key}
    {
      items := items - {key};
    }
  }
}
