/**
 * The slice of JavaScript's value model that the launcher's option
 * resolution observes: the shapes a parsed argument map, an environment
 * variable or a JSON document can take, truthiness, destructuring
 * defaults and the two kinds of comparison (`==`, `!==`) the code uses.
 */
module JsValues {

  /** A JavaScript value. Object key order is not modelled; NaN is not a value here. */
  datatype Value =
    | Undefined
    | Null
    | Bool(b: bool)
    | Num(r: real)
    | Str(s: string)
    | Arr(elems: seq<Value>)
    | Obj(fields: map<string, Value>)

  /** The launcher's failure conditions: the TypeErrors its code runs into and its own error class. */
  datatype Failure =
    // `vars.reduce` on an absent `sql-var` flag or on one given once (a string)
    | SqlVarNotAList
    // `n.split('=')` on a `sql-var` entry that is not a string
    | SqlVarEntryNotText
    // `connectionString.split('@')` on a connection string that is not a string
    | ConnectionStringNotText
    // `.split('@')[1]` is undefined: the connection string has no `@`
    | NoHostSegment
    // `options.script.startsWith` on a truthy script that is not a string
    | ScriptNotText
    // the `RequiredScriptMissingError` class of the launcher
    | RequiredScriptMissing
    // the TypeError `fileURLToPath` throws on a `file:` URL it cannot map to a path
    | InvalidFileUrl

  /** A result type usable with `:-`, so that a thrown error propagates. */
  datatype Result<+T> = Ok(value: T) | Err(error: Failure) {
    predicate IsFailure() { Err? }
    function PropagateFailure<U>(): Result<U>
      requires Err?
    {
      Err(error)
    }
    function Extract(): T
      requires Ok?
    {
      value
    }
  }

  datatype Option<+T> = None | Some(value: T)

  /** JavaScript's ToBoolean: `undefined`, `null`, `false`, `0` and `""` are falsy. */
  predicate Truthy(v: Value)
  {
    match v
    case Undefined => false
    case Null => false
    case Bool(b) => b
    case Num(r) => r != 0.0
    case Str(s) => s != ""
    case Arr(_) => true
    case Obj(_) => true
  }

  /** Property access `o[k]`: a missing key reads as `undefined`. */
  function Get(o: map<string, Value>, k: string): Value
  {
    if k in o then o[k] else Undefined
  }

  /**
   * A destructuring default `{ k = d } = o`: the default replaces `undefined`
   * only. A defined default leaves nothing undefined, and a falsy default
   * does not change truthiness.
   */
  function Default(v: Value, d: Value): (r: Value)
    ensures r == v || r == d
    ensures d != Undefined ==> r != Undefined
    ensures !Truthy(d) ==> (Truthy(r) <==> Truthy(v))
    ensures Truthy(v) ==> r == v
    ensures v != Undefined ==> r == v
  {
    if v == Undefined then d else v
  }

  /**
   * Loose equality `v == t` against a string literal `t` that is non-empty,
   * holds no comma, is not numeric and is neither "true" nor "false" (every
   * literal the launcher compares with loosely is such a string). A number,
   * a boolean, `null`, `undefined` and a plain object then never equal `t`;
   * an array equals `t` exactly when its one element does, because an array
   * compares through its comma-joined string form.
   */
  predicate LooseEqualsText(v: Value, t: string)
  {
    match v
    case Str(s) => s == t
    case Arr(xs) => |xs| == 1 && LooseEqualsText(xs[0], t)
    case _ => false
  }

  /** `[...].filter(Boolean)`: keeps the truthy elements in order. */
  function FilterTruthy(xs: seq<Value>): (ys: seq<Value>)
    ensures |ys| <= |xs|
    ensures forall i :: 0 <= i < |ys| ==> Truthy(ys[i])
    ensures forall i :: 0 <= i < |ys| ==> ys[i] in xs
    ensures (forall i :: 0 <= i < |xs| ==> Truthy(xs[i])) ==> ys == xs
  {
    if xs == [] then []
    else if Truthy(xs[0]) then [xs[0]] + FilterTruthy(xs[1..])
    else FilterTruthy(xs[1..])
  }

  /** Every truthy element is kept, as often as it occurs, and no falsy one. */
  lemma {:induction false} FilterTruthyCounts(xs: seq<Value>)
    ensures forall v :: !Truthy(v) ==> v !in FilterTruthy(xs)
    ensures forall v :: Truthy(v) ==> multiset(FilterTruthy(xs))[v] == multiset(xs)[v]
    decreases |xs|
  {
    if xs != [] {
      FilterTruthyCounts(xs[1..]);
      assert xs == [xs[0]] + xs[1..];
      assert multiset(xs) == multiset([xs[0]]) + multiset(xs[1..]);
    }
  }

  /** Filtering works piece by piece, so the kept elements stay in their order. */
  lemma {:induction false} FilterTruthyAppend(a: seq<Value>, b: seq<Value>)
    ensures FilterTruthy(a + b) == FilterTruthy(a) + FilterTruthy(b)
    decreases |a|
  {
    if a == [] {
      assert a + b == b;
    } else {
      assert (a + b)[0] == a[0];
      assert (a + b)[1..] == a[1..] + b;
      FilterTruthyAppend(a[1..], b);
    }
  }

  /** A value loosely equals at most one such literal. */
  lemma {:induction false} LooseEqualsOneText(v: Value, t: string, u: string)
    ensures LooseEqualsText(v, t) && LooseEqualsText(v, u) ==> t == u
  {
    if v.Arr? && |v.elems| == 1 {
      LooseEqualsOneText(v.elems[0], t, u);
    }
  }
}
