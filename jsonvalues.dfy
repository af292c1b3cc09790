/**
 * `clean_json` (main.py): the sanitiser that makes an anomaly or a response
 * serialisable before it is sent as JSON.
 *
 * A value is what the function can meet: None, booleans, integers, Python
 * floats (finite, infinite or NaN), strings, tuples, lists, dicts (their items
 * in insertion order, keys distinct) and datetime-like objects, represented by
 * the string their `isoformat()` returns.
 */
module JsonValues {

  datatype PyFloat = Finite(x: real) | PosInf | NegInf | NotANumber

  datatype Value =
    | Null
    | Bool(b: bool)
    | Int(i: int)
    | Float(f: PyFloat)
    | Str(s: string)
    | Tuple(elems: seq<Value>)
    | List(elems: seq<Value>)
    | Dict(items: seq<(string, Value)>)
    | DateLike(iso: string)

  /**
   * `clean_json`: dicts and lists are cleaned element by element, keeping their
   * keys and order; NaN and infinite floats become None, finite ones stay;
   * datetime-likes become their ISO string; everything else, tuples included,
   * is returned as it is.
   */
  function Clean(v: Value): (r: Value)
    decreases v
    ensures v.Dict? ==>
      && r.Dict? && |r.items| == |v.items|
      && forall i :: 0 <= i < |v.items| ==> r.items[i].0 == v.items[i].0 && r.items[i].1 == Clean(v.items[i].1)
    ensures v.List? ==>
      && r.List? && |r.elems| == |v.elems|
      && forall i :: 0 <= i < |v.elems| ==> r.elems[i] == Clean(v.elems[i])
    ensures v.Float? ==> r == (if v.f.Finite? then v else Null)
    ensures v.DateLike? ==> r == Str(v.iso)
    ensures !(v.Dict? || v.List? || v.Float? || v.DateLike?) ==> r == v
  {
    match v
    case Dict(items) =>
      Dict(seq(|items|, i requires 0 <= i < |items| => (items[i].0, Clean(items[i].1))))
    case List(elems) =>
      List(seq(|elems|, i requires 0 <= i < |elems| => Clean(elems[i])))
    case Float(f) => if f.Finite? then v else Null
    case DateLike(iso) => Str(iso)
    case _ => v
  }

  /** A value `clean_json` has nothing left to change in: no non-finite float and no datetime-like outside a tuple. */
  predicate Settled(v: Value)
    decreases v
  {
    match v
    case Dict(items) => forall i :: 0 <= i < |items| ==> Settled(items[i].1)
    case List(elems) => forall i :: 0 <= i < |elems| ==> Settled(elems[i])
    case Float(f) => f.Finite?
    case DateLike(_) => false
    case _ => true
  }

  /** Whatever `clean_json` returns is settled. */
  lemma {:induction false} CleanSettles(v: Value)
    ensures Settled(Clean(v))
    decreases v
  {
    match v
    case Dict(items) =>
      forall i | 0 <= i < |items| {
        CleanSettles(items[i].1);
      }
    case List(elems) =>
      forall i | 0 <= i < |elems| {
        CleanSettles(elems[i]);
      }
    case _ =>
  }

  /** A settled value is returned unchanged. */
  lemma {:induction false} CleanKeepsSettled(v: Value)
    requires Settled(v)
    ensures Clean(v) == v
    decreases v
  {
    match v
    case Dict(items) =>
      forall i | 0 <= i < |items| {
        CleanKeepsSettled(items[i].1);
      }
      assert Clean(v).items == items;
    case List(elems) =>
      forall i | 0 <= i < |elems| {
        CleanKeepsSettled(elems[i]);
      }
      assert Clean(v).elems == elems;
    case _ =>
  }

  /** `clean_json` is idempotent. */
  lemma CleanIdempotent(v: Value)
    ensures Clean(Clean(v)) == Clean(v)
  {
    CleanSettles(v);
    CleanKeepsSettled(Clean(v));
  }
}
