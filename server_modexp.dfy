/**
 * The server package `ch.mainini.famodulus.server.modexp`: the query bean with the
 * nullable `brief` flag, and the resource that computes every item's result in place
 * and, in brief mode, strips everything but the results.
 */
module ServerModExp {
  import opened Wrappers
  import opened Arith
  import opened Evaluation
  import opened ModExp

  /** The query bean: item array, three nullable defaults and a nullable `brief`, initially true. */
  class ModExpQueryBean {
    var modexps: array?<ModExpBean>
    var modulus: Option<nat>
    var base: Option<nat>
    var exponent: Option<nat>
    var brief: Option<bool>

    function Defaults(): (r: Evaluation.Defaults)
      reads this
    {
      Evaluation.Defaults(modulus, base, exponent)
    }

    /** The bean's fields, with the items it refers to, as a value. */
    function Value(): (r: ServerQueryValue)
      reads this, modexps, BeansOf(modexps)
    {
      ServerQueryValue(if modexps == null then None else Some(Values(modexps[..])), Defaults(), brief)
    }

    /** The default constructor: no item array, no defaults, brief response requested. */
    constructor ()
      ensures modexps == null && Defaults() == NoDefaults && brief == Some(true)
    {
      modexps, modulus, base, exponent, brief := null, None, None, None, Some(true);
    }

    /** The constructor with items: exactly the given array; the other fields keep their initial values. */
    constructor WithModexps(modexps: array?<ModExpBean>)
      ensures this.modexps == modexps && Defaults() == NoDefaults && brief == Some(true)
    {
      this.modexps, modulus, base, exponent, brief := modexps, None, None, None, Some(true);
    }

    method SetModexps(modexps: array?<ModExpBean>)
      modifies this
      ensures this.modexps == modexps && Defaults() == old(Defaults()) && brief == old(brief)
    {
      this.modexps := modexps;
    }

    method SetModulus(modulus: Option<nat>)
      modifies this
      ensures modexps == old(modexps) && Defaults() == old(Defaults()).(modulus := modulus) && brief == old(brief)
    {
      this.modulus := modulus;
    }

    method SetBase(base: Option<nat>)
      modifies this
      ensures modexps == old(modexps) && Defaults() == old(Defaults()).(base := base) && brief == old(brief)
    {
      this.base := base;
    }

    method SetExponent(exponent: Option<nat>)
      modifies this
      ensures modexps == old(modexps) && Defaults() == old(Defaults()).(exponent := exponent) && brief == old(brief)
    {
      this.exponent := exponent;
    }

    /** `setBrief(null)` is allowed and makes the flag absent. */
    method SetBrief(brief: Option<bool>)
      modifies this
      ensures modexps == old(modexps) && Defaults() == old(Defaults()) && this.brief == brief
    {
      this.brief := brief;
    }
  }

  /**
   * One pass of the loop body of the server `query`: the effective operands, the
   * result, and in brief mode the nulling of the item's operands.  `ok` is false
   * where `modPow` throws, and then the bean is untouched.
   */
  method EvaluateBean(bean: ModExpBean, d: Evaluation.Defaults, briefResponse: bool) returns (ok: bool)
    modifies bean
    ensures ok == ItemResult(old(bean.Value()), d).Some?
    ensures bean.Value() == Step(old(bean.Value()), d, briefResponse)
  {
    var m := Effective(bean.modulus, d.modulus);
    var b := Effective(bean.base, d.base);
    var e := Effective(bean.exponent, d.exponent);
    if m.None? || b.None? || e.None? || m.value == 0 {
      return false;
    }
    bean.SetResult(Some(ModPow(b.value, e.value, m.value)));
    if briefResponse {
      bean.SetModulus(None);
      bean.SetBase(None);
      bean.SetExponent(None);
    }
    return true;
  }

  /**
   * The loop of the server `query`, over the beans of the item array in order.
   * `failed` is the index of the first bean whose `modPow` throws, where the loop
   * stops; the beans before it are updated and the rest untouched.
   */
  method EvaluateModexps(a: array<ModExpBean>, d: Evaluation.Defaults, briefResponse: bool)
    returns (failed: Option<nat>)
    requires DistinctBeans(a)
    modifies BeansOf(a)
    ensures failed.None? ==> forall j :: 0 <= j < a.Length ==> ItemResult(old(a[j].Value()), d).Some?
    ensures failed.Some? ==>
      (failed.value < a.Length && ItemResult(old(a[failed.value].Value()), d).None? &&
       forall j :: 0 <= j < failed.value ==> ItemResult(old(a[j].Value()), d).Some?)
    ensures var stop := if failed.Some? then failed.value else a.Length;
      forall j :: 0 <= j < a.Length ==>
        a[j].Value() == if j < stop then Step(old(a[j].Value()), d, briefResponse) else old(a[j].Value())
  {
    var i := 0;
    while i < a.Length
      invariant i <= a.Length
      invariant forall j :: 0 <= j < i ==> ItemResult(old(a[j].Value()), d).Some?
      invariant forall j :: 0 <= j < a.Length ==>
        a[j].Value() == if j < i then Step(old(a[j].Value()), d, briefResponse) else old(a[j].Value())
    {
      var ok := EvaluateBean(a[i], d, briefResponse);
      if !ok {
        return Some(i);
      }
      i := i + 1;
    }
    return None;
  }

  /**
   * The server `ModExpResource.query`: reads the defaults and the brief flag at entry,
   * sets every item's result to `b^e mod m` with item-over-default operands, strips
   * items and query in brief mode, and returns the same bean.
   */
  method Query(q: ModExpQueryBean) returns (res: Result<ModExpQueryBean, EvalError>)
    requires DistinctBeans(q.modexps)
    modifies q, BeansOf(q.modexps)
    ensures q.modexps == old(q.modexps)
    ensures res == match EvaluateServer(old(q.Value()))
      case Success(_) => Success(q)
      case Failure(err) => Failure(err)
    ensures q.Value() == ServerStateAfter(old(q.Value()))
  {
    var d := q.Defaults();
    if q.brief.None? {
      return Failure(NullBrief);
    }
    var briefResponse := q.brief.value;
    if q.modexps == null {
      return Failure(NoModexps);
    }
    var a := q.modexps;
    ghost var items := Values(a[..]);
    var failed := EvaluateModexps(a, d, briefResponse);
    ghost var stop := if failed.Some? then failed.value else a.Length;
    ghost var out := Processed(items, d, briefResponse, stop);
    assert Values(a[..]) == out;
    EvaluateItemsStop(items, d, briefResponse, stop);
    ServerCallWith(old(q.Value()), briefResponse, items);
    if failed.Some? {
      return Failure(ItemFailed(failed.value));
    }
    if briefResponse {
      StripQuery(q);
    }
    return Success(q);
  }

  /** The query-level half of brief mode: defaults and flag nulled, the item array and its beans untouched. */
  method StripQuery(q: ModExpQueryBean)
    modifies q
    ensures q.modexps == old(q.modexps)
    ensures q.Value() == old(q.Value()).(defaults := NoDefaults, brief := None)
  {
    q.SetModulus(None);
    q.SetBase(None);
    q.SetExponent(None);
    q.SetBrief(None);
  }
}
