/** Values shared by every module: optional values, the errors the library
    raises, and results that carry either a value or one of those errors. */
module Base {

  datatype Option<T> = None | Some(value: T)

  /** The exceptions the modelled code can raise. */
  datatype Error =
    | KeyError(key: int)          // a block handle missing from the block-id map
    | NoChildren                  // Exception("this type of flow has no children")
    | NoChildrenList              // AttributeError: a BlockFlow never creates `children`
    | ValueError(message: string)
    | NameError(name: string)     // NameError, and its subclass UnboundLocalError

  datatype Result<T> = Ok(value: T) | Err(error: Error)

  /** `json.dumps` of a Python bool. */
  function JsonBool(b: bool): (s: string)
    ensures s == "true" || s == "false"
    ensures (s == "true") == b
  {
    if b then "true" else "false"
  }

  /** Python's `repr` of a string without quotes, backslashes or
      non-printable characters. */
  function Quoted(s: string): (q: string)
    ensures |q| == |s| + 2 && q[0] == '\'' && q[|q| - 1] == '\''
    ensures q[1..|q| - 1] == s
  {
    "'" + s + "'"
  }

  /** `list(range(lo, hi))`. */
  function Range(lo: int, hi: int): (r: seq<int>)
    decreases hi - lo
    ensures |r| == if lo < hi then hi - lo else 0
    ensures forall i :: 0 <= i < |r| ==> r[i] == lo + i
  {
    if lo < hi then [lo] + Range(lo + 1, hi) else []
  }
}
