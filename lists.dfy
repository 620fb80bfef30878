/** A Python list owned by a caller and changed in place by a callee. */
module Lists {

  class RecordList<T> {
    var items: seq<T>

    constructor (init: seq<T>)
      ensures items == init
    {
      items := init;
    }

    /** `list.insert(i, x)` for a non-negative index: an index past the end appends. */
    method Insert(i: nat, x: T)
      modifies this
      ensures var k := if i < |old(items)| then i else |old(items)|;
              items == old(items)[..k] + [x] + old(items)[k..]
    {
      var k := if i < |items| then i else |items|;
      items := items[..k] + [x] + items[k..];
    }

    /** `list.append(x)`. */
    method Append(x: T)
      modifies this
      ensures items == old(items) + [x]
    {
      items := items + [x];
    }
  }
}
