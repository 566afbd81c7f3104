/** Shared value types: optional values, results, and the JSON-like values
    that the services keep in their metadata dictionaries. */
module Common {

  datatype Option<+T> = None | Some(value: T)
  {
    function GetOr(default: T): T
    {
      match this
      case Some(v) => v
      case None => default
    }
  }

  datatype Result<+T, +E> = Ok(value: T) | Err(error: E)

  /** A value stored in a Python `Dict[str, Any]` that came from JSON or Mongo.
      Lists are the only compound values the core ever meets. */
  datatype Value =
    | VStr(s: string)
    | VInt(i: int)
    | VFloat(r: real)
    | VBool(b: bool)
    | VNull
    | VList(items: seq<Value>)

  /** Python truthiness of a stored value: "", 0, 0.0, False, None and [] are false. */
  predicate Truthy(v: Value)
  {
    match v
    case VStr(s) => s != ""
    case VInt(i) => i != 0
    case VFloat(r) => r != 0.0
    case VBool(b) => b
    case VNull => false
    case VList(items) => items != []
  }

  /** `isinstance(v, (str, int, float, bool))` */
  predicate IsScalar(v: Value)
  {
    v.VStr? || v.VInt? || v.VFloat? || v.VBool?
  }

  /** Python truthiness of an optional string (`if x:` on `Optional[str]`). */
  predicate Present(s: Option<string>)
  {
    s.Some? && s.value != ""
  }

  type byte = x: int | 0 <= x < 256

  /** Time instants, in microseconds (the resolution of Python's `datetime`). */
  type Instant = int

  const MicrosPerMinute: int := 60 * 1000 * 1000

  /** The positions below `n` whose flag is down, in order. */
  function KeptIndices(skipped: seq<bool>, n: nat): seq<nat>
    requires n <= |skipped|
  {
    if n == 0 then []
    else KeptIndices(skipped, n - 1) + (if skipped[n - 1] then [] else [n - 1])
  }

  /** Each kept position is below `n` and its flag is down. */
  lemma {:induction false} KeptIndicesSound(skipped: seq<bool>, n: nat)
    requires n <= |skipped|
    ensures forall j :: 0 <= j < |KeptIndices(skipped, n)| ==>
              KeptIndices(skipped, n)[j] < n && !skipped[KeptIndices(skipped, n)[j]]
  {
    if n > 0 {
      KeptIndicesSound(skipped, n - 1);
      var front := KeptIndices(skipped, n - 1);
      var kept := KeptIndices(skipped, n);
      forall j | 0 <= j < |kept| ensures kept[j] < n && !skipped[kept[j]] {
        if j < |front| {
          assert kept[j] == front[j];
        }
      }
    }
  }

  /** The kept positions increase. */
  lemma {:induction false} KeptIndicesIncrease(skipped: seq<bool>, n: nat)
    requires n <= |skipped|
    ensures forall i, j :: 0 <= i < j < |KeptIndices(skipped, n)| ==> KeptIndices(skipped, n)[i] < KeptIndices(skipped, n)[j]
  {
    if n > 0 {
      KeptIndicesIncrease(skipped, n - 1);
      KeptIndicesSound(skipped, n - 1);
      var front := KeptIndices(skipped, n - 1);
      var kept := KeptIndices(skipped, n);
      forall i, j | 0 <= i < j < |kept| ensures kept[i] < kept[j] {
        assert kept[i] == front[i];
        if j < |front| {
          assert kept[j] == front[j];
        }
      }
    }
  }

  /** Every position below `n` whose flag is down is kept: a skipped
      document does not stop the later ones. */
  lemma {:induction false} KeptIndicesComplete(skipped: seq<bool>, n: nat)
    requires n <= |skipped|
    ensures forall d :: 0 <= d < n && !skipped[d] ==> d in KeptIndices(skipped, n)
  {
    if n > 0 {
      KeptIndicesComplete(skipped, n - 1);
    }
  }

  /** At most one kept position per position below `n`. */
  lemma {:induction false} KeptIndicesLength(skipped: seq<bool>, n: nat)
    requires n <= |skipped|
    ensures |KeptIndices(skipped, n)| <= n
  {
    if n > 0 {
      KeptIndicesLength(skipped, n - 1);
    }
  }
}
