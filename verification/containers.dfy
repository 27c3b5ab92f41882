/** Python lists that a callee changes in place, visible to the caller that passed them. */
module Containers {

  class PyList<T> {
    /** The current contents. */
    var items: seq<T>

    constructor (xs: seq<T>)
      ensures items == xs
    {
      items := xs;
    }

    /** `list.insert(i, x)` for an index inside the list. */
    method Insert(i: nat, x: T)
      requires i <= |items|
      modifies this
      ensures items == old(items)[..i] + [x] + old(items)[i..]
    {
      items := items[..i] + [x] + items[i..];
    }

    /** `list.append(x)`. */
    method Append(x: T)
      modifies this
      ensures items == old(items) + [x]
    {
      items := items + [x];
    }
  }
}
