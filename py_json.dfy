/**
 * The Python values the server handles: decoded JSON as `response.json()`
 * yields it, Python truthiness (`if not data:`), `dict.get(key, default)`,
 * and the int coercion that `max`, `+=` and `/` perform on a field value.
 * A call that raises an exception (an `AttributeError` on `.get` of a
 * non-dict, a `TypeError` on arithmetic with a string) yields `Raises`.
 */
module PyJson {

  datatype Option<+T> = None | Some(value: T)

  /** A value, or the reason none could be produced. */
  datatype Result<+T, +E> = Ok(value: T) | Err(error: E)

  /** The result of evaluating Python code: a value, or an exception. */
  datatype Eval<+T> = Returns(value: T) | Raises

  /**
   * A decoded JSON value. A JSON object becomes a Python dict; it is kept
   * as its list of (key, value) items in insertion order, which is the
   * order `dict.items()` walks. Its keys are distinct, as those of a
   * decoded dict are. JSON numbers with a fraction are not part of this
   * model.
   */
  datatype Json =
    | Null
    | Bool(b: bool)
    | Int(n: int)
    | Str(s: string)
    | List(elems: seq<Json>)
    | Dict(items: seq<(string, Json)>)

  /** Python truthiness: None, False, 0, "", [] and {} are false. */
  predicate Truthy(v: Json) {
    match v
    case Null => false
    case Bool(b) => b
    case Int(n) => n != 0
    case Str(s) => s != ""
    case List(xs) => xs != []
    case Dict(items) => items != []
  }

  predicate HasKey(items: seq<(string, Json)>, key: string) {
    exists i :: 0 <= i < |items| && items[i].0 == key
  }

  /** `d.get(key, default)` on the dict whose items are `items`. */
  function GetOr(items: seq<(string, Json)>, key: string, default: Json): (r: Json)
    ensures !HasKey(items, key) ==> r == default
  {
    if items == [] then default
    else if items[0].0 == key then items[0].1
    else
      GetOr(items[1..], key, default)
  }

  /** `d.get(key, default)` finds the binding of `key` when there is one. */
  lemma {:induction false} GetOrFindsBinding(items: seq<(string, Json)>, key: string, default: Json)
    requires HasKey(items, key)
    ensures exists i :: (0 <= i < |items| && items[i] == (key, GetOr(items, key, default)) &&
                         forall j :: 0 <= j < i ==> items[j].0 != key)
  {
    if items[0].0 != key {
      var k :| 0 <= k < |items| && items[k].0 == key;
      assert items[1..][k - 1].0 == key;
      GetOrFindsBinding(items[1..], key, default);
      var i :| (0 <= i < |items[1..]| && items[1..][i] == (key, GetOr(items, key, default)) &&
                forall j :: 0 <= j < i ==> items[1..][j].0 != key);
      assert items[i + 1] == (key, GetOr(items, key, default));
      assert forall j :: 1 <= j < i + 1 ==> items[j] == items[1..][j - 1];
    } else {
      assert items[0] == (key, GetOr(items, key, default));
    }
  }

  /** When the key is present, `d.get(key, default)` yields a value bound to it in the dict. */
  lemma {:induction false} GetOrIsBinding(items: seq<(string, Json)>, key: string, default: Json)
    ensures HasKey(items, key) ==> (key, GetOr(items, key, default)) in items
  {
    if HasKey(items, key) {
      GetOrFindsBinding(items, key, default);
    }
  }

  /**
   * The integer a field value stands for in Python arithmetic and `max`:
   * an int is itself, a bool is 0 or 1 (bool is a subclass of int), and
   * anything else makes the arithmetic raise `TypeError`.
   */
  function AsNumber(v: Json): (r: Eval<int>)
    ensures r.Raises? <==> !(v.Int? || v.Bool?)
    ensures v.Int? ==> r == Returns(v.n)
    ensures v.Bool? ==> r == Returns(if v.b then 1 else 0)
    ensures Truthy(v) && r.Returns? ==> r.value != 0
  {
    match v
    case Int(n) => Returns(n)
    case Bool(b) => Returns(if b then 1 else 0)
    case _ => Raises
  }

  /**
   * The loop `for x in xs: out.append(f(x))`: every result in order, or
   * `Raises` as soon as `f` raises on some element.
   */
  function MapAll<A, B>(f: A -> Eval<B>, xs: seq<A>): Eval<seq<B>> {
    if xs == [] then Returns([])
    else match (MapAll(f, xs[..|xs| - 1]), f(xs[|xs| - 1]))
      case (Returns(ys), Returns(y)) => Returns(ys + [y])
      case _ => Raises
  }

  /** Each element gives exactly one result, in order; the loop raises iff `f` raises on some element. */
  lemma {:induction false} MapAllPointwise<A, B>(f: A -> Eval<B>, xs: seq<A>)
    ensures MapAll(f, xs).Returns? <==> forall i :: 0 <= i < |xs| ==> f(xs[i]).Returns?
    ensures MapAll(f, xs).Returns? ==>
      && |MapAll(f, xs).value| == |xs|
      && forall i :: 0 <= i < |xs| ==> f(xs[i]) == Returns(MapAll(f, xs).value[i])
  {
    if xs != [] {
      var n := |xs| - 1;
      var front := xs[..n];
      MapAllPointwise(f, front);
      assert forall i :: 0 <= i < n ==> front[i] == xs[i];
      if MapAll(f, xs).Returns? {
        assert MapAll(f, xs).value == MapAll(f, front).value + [f(xs[n]).value];
      } else if MapAll(f, front).Returns? {
        assert f(xs[n]).Raises?;
      } else {
        var i :| 0 <= i < n && f(front[i]).Raises?;
        assert f(xs[i]).Raises?;
      }
    }
  }

  /** Extending the input by one element extends the loop by one iteration. */
  lemma MapAllSnoc<A, B>(f: A -> Eval<B>, xs: seq<A>, x: A)
    ensures MapAll(f, xs + [x]) ==
      match (MapAll(f, xs), f(x))
      case (Returns(ys), Returns(y)) => Returns(ys + [y])
      case _ => Raises
  {
  }

  /** A millisecond timestamp as the reports show it: unknown, or a moment. */
  datatype When = Unknown | At(millis: int)

  /**
   * `datetime.fromtimestamp(ts / 1000)` guarded by `if ts:`. A falsy value
   * is shown as 'Unknown'; a truthy one must be a number, otherwise the
   * division raises `TypeError`.
   */
  function Timestamp(v: Json): (r: Eval<When>)
    ensures !Truthy(v) ==> r == Returns(Unknown)
    ensures Truthy(v) ==> (r.Returns? <==> v.Int? || v.Bool?)
    ensures Truthy(v) && v.Int? ==> r == Returns(At(v.n))
    ensures v == Bool(true) ==> r == Returns(At(1))
    ensures r.Returns? && r.value.At? ==> Truthy(v) && r.value.millis != 0
  {
    if !Truthy(v) then Returns(Unknown)
    else match AsNumber(v)
      case Returns(n) => Returns(At(n))
      case Raises => Raises
  }
}
