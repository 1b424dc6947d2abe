/** The browser's `localStorage`: a string-to-string store that every
    component reads and writes. */
module Storage {
  import opened Js

  class LocalStorage {
    var items: map<string, string>

    constructor (init: map<string, string>)
      ensures items == init
    {
      items := init;
    }

    /** `getItem(key)`: the stored string, or `null` for an absent key. */
    function GetItem(key: string): (v: JsString)
      reads this
      ensures v.Str? <==> key in items
      ensures v.Str? ==> v.s == items[key]
      ensures !v.Str? ==> v == Null
    {
      if key in items then Str(items[key]) else Null
    }

    /** `setItem(key, value)`, after the value has been turned into a string. */
    method SetItem(key: string, value: string)
      modifies this
      ensures items == old(items)[key := value]
    {
      items := items[key := value];
    }

    /** `removeItem(key)`. */
    method RemoveItem(key: string)
      modifies this
      ensures items == old(items) - {key}
    {
      items := items - {key};
    }

    /** `clear()`. */
    method Clear()
      modifies this
      ensures items == map[]
    {
      items := map[];
    }
  }
}
