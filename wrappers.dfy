/** Optional values, results with an error side, and fallback chains. */
module Wrappers {

  /** A value that may be absent (Python's `None`). */
  datatype Option<+T> = None | Some(value: T) {

    /** The value when present, otherwise `default`. */
    function GetOr(default: T): T {
      if Some? then value else default
    }
  }

  /** The outcome of an operation that may raise: a value or the error raised. */
  datatype Result<+R, +E> = Success(value: R) | Failure(error: E)

  /** The first present link of a fallback chain such as
      "request meta, else spider settings, else the default";
      None exactly when every link is absent. */
  function FirstSome<T(==)>(chain: seq<Option<T>>): (r: Option<T>)
    ensures r.None? <==> forall i :: 0 <= i < |chain| ==> chain[i].None?
    ensures r.Some? ==>
      exists i :: 0 <= i < |chain| && chain[i] == r &&
        forall j :: 0 <= j < i ==> chain[j].None?
  {
    if chain == [] then None
    else if chain[0].Some? then chain[0]
    else
      var rest := FirstSome(chain[1..]);
      assert forall i :: 0 <= i < |chain[1..]| ==> chain[1..][i] == chain[i + 1];
      rest
  }

  /** A present link wins over everything after it. */
  lemma FirstSomeStopsAtPresent<T>(chain: seq<Option<T>>, k: nat)
    requires k < |chain| && chain[k].Some?
    requires forall j :: 0 <= j < k ==> chain[j].None?
    ensures FirstSome(chain) == chain[k]
  {
  }
}
