/**
 * The Python values and exceptions that the extension produces or inspects.
 * Reference counts and object identity are not modelled: a value is what it prints as.
 */
module Python {
  import opened Wrappers

  /** The exception classes the extension raises itself. */
  datatype ExcKind = TypeError | ValueError | AttributeError | SystemError

  /**
   * A raised exception: `Raised` for one the extension sets with its own message,
   * `ParseFailure` for whatever the host's argument parser raised.
   */
  datatype PyError = Raised(kind: ExcKind, msg: string) | ParseFailure

  /** The outcome of a call that returns a value or raises. */
  datatype Result<T> = Ok(value: T) | Err(error: PyError)

  datatype PyValue =
    | PyNone
    | PyBool(b: bool)
    | PyInt(i: int)
    | PyStr(s: string)
    | PyBytes(bytes: seq<bv8>)
    | PyList(items: seq<PyValue>)
    | PyDict(dict: Dict)

  /** A dict with str keys: its entries and the order in which the keys were first inserted. */
  datatype Dict = Dict(order: seq<string>, entries: map<string, PyValue>)
  {
    /** Every key appears once in `order`, and `order` holds exactly the keys. */
    ghost predicate Valid() {
      && (forall k :: k in entries <==> k in order)
      && (forall i, j :: 0 <= i < j < |order| ==> order[i] != order[j])
    }

    /**
     * d[k] = v: a new key goes to the end of the order, an existing key keeps
     * its place and gets the new value.
     */
    function SetItem(k: string, v: PyValue): Dict {
      if k in entries then Dict(order, entries[k := v])
      else Dict(order + [k], entries[k := v])
    }
  }

  /**
   * d[k] = v keeps a dict well formed: afterwards `k` maps to `v`, every other
   * key keeps its value and its place, and a new key is last in the order.
   */
  lemma SetItemKeepsValid(d: Dict, k: string, v: PyValue)
    requires d.Valid()
    ensures d.SetItem(k, v).Valid()
    ensures d.SetItem(k, v).entries.Keys == d.entries.Keys + {k}
    ensures d.SetItem(k, v).entries[k] == v
    ensures forall j :: j in d.entries && j != k ==> d.SetItem(k, v).entries[j] == d.entries[j]
    ensures k in d.entries ==> d.SetItem(k, v).order == d.order
    ensures k !in d.entries ==> d.SetItem(k, v).order == d.order + [k]
  {
  }

  const EmptyDict: Dict := Dict([], map[])

  /**
   * The "s" format of the host's argument parser: a str without an embedded NUL
   * gives its characters; anything else makes the parse fail.
   */
  function ParseStrArg(v: PyValue): Option<string> {
    if v.PyStr? && '\0' !in v.s then Some(v.s) else None
  }
}
