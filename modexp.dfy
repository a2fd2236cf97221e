/**
 * The earlier package `ch.mainini.famodulus.modexp`: the item bean, the query bean
 * without a brief flag, and the resource that fills in every item's result in place.
 */
module ModExp {
  import opened Wrappers
  import opened Arith
  import opened Evaluation

  /** One modular exponentiation; every field is nullable. */
  class ModExpBean {
    var modulus: Option<nat>
    var base: Option<nat>
    var exponent: Option<nat>
    var result: Option<nat>

    /** The bean's fields as a value. */
    function Value(): (r: Item)
      reads this
    {
      Item(modulus, base, exponent, result)
    }

    /** The default constructor: all four fields null. */
    constructor ()
      ensures Value() == Item(None, None, None, None)
    {
      modulus, base, exponent, result := None, None, None, None;
    }

    /** The constructor without result: the operands as given, the result null. */
    constructor WithOperands(modulus: Option<nat>, base: Option<nat>, exponent: Option<nat>)
      ensures Value() == Item(modulus, base, exponent, None)
    {
      this.modulus, this.base, this.exponent, this.result := modulus, base, exponent, None;
    }

    /** The constructor with result: all four fields as given. */
    constructor WithResult(modulus: Option<nat>, base: Option<nat>, exponent: Option<nat>, result: Option<nat>)
      ensures Value() == Item(modulus, base, exponent, result)
    {
      this.modulus, this.base, this.exponent, this.result := modulus, base, exponent, result;
    }

    method SetModulus(modulus: Option<nat>)
      modifies this
      ensures Value() == old(Value()).(modulus := modulus)
    {
      this.modulus := modulus;
    }

    method SetBase(base: Option<nat>)
      modifies this
      ensures Value() == old(Value()).(base := base)
    {
      this.base := base;
    }

    method SetExponent(exponent: Option<nat>)
      modifies this
      ensures Value() == old(Value()).(exponent := exponent)
    {
      this.exponent := exponent;
    }

    method SetResult(result: Option<nat>)
      modifies this
      ensures Value() == old(Value()).(result := result)
    {
      this.result := result;
    }
  }

  /** The beans of an item array, in order, as values. */
  function Values(beans: seq<ModExpBean>): (items: seq<Item>)
    reads beans
    ensures |items| == |beans| && forall i :: 0 <= i < |beans| ==> items[i] == beans[i].Value()
  {
    if beans == [] then [] else Values(beans[..|beans| - 1]) + [beans[|beans| - 1].Value()]
  }

  /** The beans an item array holds, or none when the array reference is null. */
  function BeansOf(modexps: array?<ModExpBean>): (r: set<ModExpBean>)
    reads modexps
  {
    if modexps == null then {} else set i | 0 <= i < modexps.Length :: modexps[i]
  }

  /** What the resource can be given: no bean appears twice in the item array. */
  predicate DistinctBeans(modexps: array?<ModExpBean>)
    reads modexps
  {
    modexps != null ==> forall i, j :: 0 <= i < j < modexps.Length ==> modexps[i] != modexps[j]
  }

  /** The query bean: a nullable item array and the three nullable defaults. */
  class ModExpQueryBean {
    var modexps: array?<ModExpBean>
    var modulus: Option<nat>
    var base: Option<nat>
    var exponent: Option<nat>

    function Defaults(): (r: Evaluation.Defaults)
      reads this
    {
      Evaluation.Defaults(modulus, base, exponent)
    }

    /** The bean's fields, with the items it refers to, as a value. */
    function Value(): (r: QueryValue)
      reads this, modexps, BeansOf(modexps)
    {
      QueryValue(if modexps == null then None else Some(Values(modexps[..])), Defaults())
    }

    /** The default constructor: no item array and no defaults. */
    constructor ()
      ensures modexps == null && Defaults() == NoDefaults
    {
      modexps, modulus, base, exponent := null, None, None, None;
    }

    /** The constructor with items: exactly the given array, no defaults. */
    constructor WithModexps(modexps: array?<ModExpBean>)
      ensures this.modexps == modexps && Defaults() == NoDefaults
    {
      this.modexps, modulus, base, exponent := modexps, None, None, None;
    }

    method SetModexps(modexps: array?<ModExpBean>)
      modifies this
      ensures this.modexps == modexps && Defaults() == old(Defaults())
    {
      this.modexps := modexps;
    }

    method SetModulus(modulus: Option<nat>)
      modifies this
      ensures modexps == old(modexps) && Defaults() == old(Defaults()).(modulus := modulus)
    {
      this.modulus := modulus;
    }

    method SetBase(base: Option<nat>)
      modifies this
      ensures modexps == old(modexps) && Defaults() == old(Defaults()).(base := base)
    {
      this.base := base;
    }

    method SetExponent(exponent: Option<nat>)
      modifies this
      ensures modexps == old(modexps) && Defaults() == old(Defaults()).(exponent := exponent)
    {
      this.exponent := exponent;
    }
  }

  /**
   * The loop of the earlier `query`, over the beans of the item array in order: each
   * bean's result is set from its effective operands.  `failed` is the index of the
   * first bean whose `modPow` throws, where the loop stops; the beans before it are
   * updated and the rest untouched.
   */
  method EvaluateModexps(a: array<ModExpBean>, d: Evaluation.Defaults) returns (failed: Option<nat>)
    requires DistinctBeans(a)
    modifies BeansOf(a)
    ensures failed.None? ==> forall j :: 0 <= j < a.Length ==> ItemResult(old(a[j].Value()), d).Some?
    ensures failed.Some? ==>
      (failed.value < a.Length && ItemResult(old(a[failed.value].Value()), d).None? &&
       forall j :: 0 <= j < failed.value ==> ItemResult(old(a[j].Value()), d).Some?)
    ensures var stop := if failed.Some? then failed.value else a.Length;
      forall j :: 0 <= j < a.Length ==>
        a[j].Value() == if j < stop then Step(old(a[j].Value()), d, false) else old(a[j].Value())
  {
    var i := 0;
    while i < a.Length
      invariant i <= a.Length
      invariant forall j :: 0 <= j < i ==> ItemResult(old(a[j].Value()), d).Some?
      invariant forall j :: 0 <= j < a.Length ==>
        a[j].Value() == if j < i then Step(old(a[j].Value()), d, false) else old(a[j].Value())
    {
      var bean := a[i];
      var m := Effective(bean.modulus, d.modulus);
      var b := Effective(bean.base, d.base);
      var e := Effective(bean.exponent, d.exponent);
      if m.None? || b.None? || e.None? || m.value == 0 {
        return Some(i);
      }
      bean.SetResult(Some(ModPow(b.value, e.value, m.value)));
      i := i + 1;
    }
    return None;
  }

  /**
   * The earlier `ModExpResource.query`: sets every item's result to `b^e mod m` with
   * item-over-default operands, changes nothing else, and returns the same bean.
   */
  method Query(q: ModExpQueryBean) returns (res: Result<ModExpQueryBean, EvalError>)
    requires DistinctBeans(q.modexps)
    modifies BeansOf(q.modexps)
    ensures res == match Evaluate(old(q.Value()))
      case Success(_) => Success(q)
      case Failure(err) => Failure(err)
    ensures q.Value() == StateAfter(old(q.Value()))
  {
    var d := q.Defaults();
    if q.modexps == null {
      return Failure(NoModexps);
    }
    var a := q.modexps;
    ghost var items := Values(a[..]);
    var failed := EvaluateModexps(a, d);
    ghost var stop := if failed.Some? then failed.value else a.Length;
    assert Values(a[..]) == Processed(items, d, false, stop);
    EvaluateItemsStop(items, d, false, stop);
    CallWith(old(q.Value()), items);
    if failed.Some? {
      return Failure(ItemFailed(failed.value));
    }
    return Success(q);
  }
}
