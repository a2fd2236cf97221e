/**
 * What the two `ModExpResource.query` versions compute, stated on values: the
 * abstract contents of the beans before and after the call.  The bean classes
 * and the in-place loops in modules ModExp and ServerModExp are proved against
 * these functions.
 */
module Evaluation {
  import opened Wrappers
  import opened Arith

  /** The fields of one `ModExpBean`; `None` is a null field. */
  datatype Item = Item(modulus: Option<nat>, base: Option<nat>, exponent: Option<nat>, result: Option<nat>)

  /** The query-level defaults for modulus, base and exponent. */
  datatype Defaults = Defaults(modulus: Option<nat>, base: Option<nat>, exponent: Option<nat>)

  const NoDefaults := Defaults(None, None, None)

  /** The fields of an earlier-version `ModExpQueryBean`. */
  datatype QueryValue = QueryValue(modexps: Option<seq<Item>>, defaults: Defaults)

  /** The fields of a server-version `ModExpQueryBean`, which adds the nullable `brief` flag. */
  datatype ServerQueryValue = ServerQueryValue(modexps: Option<seq<Item>>, defaults: Defaults, brief: Option<bool>)

  /** Why `query` throws: unboxing a null `brief`, a null item array, or `modPow` failing on an item. */
  datatype EvalError = NullBrief | NoModexps | ItemFailed(index: nat)

  /** The effective operand: the item's own value if it has one, else the query default. */
  function Effective(own: Option<nat>, default: Option<nat>): (r: Option<nat>)
  {
    if own.Some? then own else default
  }

  /**
   * The result `b.modPow(e, m)` gives the item with its effective operands, or `None`
   * where that call throws: an operand is null (NullPointerException) or the
   * modulus is not positive (ArithmeticException).
   */
  function ItemResult(it: Item, d: Defaults): (r: Option<nat>)
  {
    var m := Effective(it.modulus, d.modulus);
    var b := Effective(it.base, d.base);
    var e := Effective(it.exponent, d.exponent);
    if m.Some? && b.Some? && e.Some? && m.value > 0 then Some(ModPow(b.value, e.value, m.value))
    else None
  }

  /** The item with its result stored and, in brief mode, its modulus, base and exponent nulled. */
  function Evaluated(it: Item, r: nat, brief: bool): (out: Item)
  {
    if brief then Item(None, None, None, Some(r)) else it.(result := Some(r))
  }

  /** One completed iteration of the loop body; an item whose `modPow` throws is left as it is. */
  function Step(it: Item, d: Defaults, brief: bool): (r: Item)
  {
    match ItemResult(it, d)
    case Some(r) => Evaluated(it, r, brief)
    case None => it
  }

  /** The items after the loop has completed its first `k` iterations. */
  function Processed(items: seq<Item>, d: Defaults, brief: bool, k: nat): (out: seq<Item>)
  {
    seq(|items|, j requires 0 <= j < |items| => if j < k then Step(items[j], d, brief) else items[j])
  }

  /**
   * The loop over the items, in array order: the first item whose `modPow` throws
   * aborts the batch with its index; otherwise every item is evaluated.
   */
  function EvaluateItems(items: seq<Item>, d: Defaults, brief: bool): (r: Result<seq<Item>, nat>)
    decreases |items|
  {
    if items == [] then Success([])
    else
      var n := |items| - 1;
      match EvaluateItems(items[..n], d, brief)
      case Failure(k) => Failure(k)
      case Success(done) =>
        match ItemResult(items[n], d)
        case None => Failure(n)
        case Some(r) => Success(done + [Evaluated(items[n], r, brief)])
  }

  /** The earlier `ModExpResource.query`: results only, no brief shaping. */
  function Evaluate(q: QueryValue): (r: Result<QueryValue, EvalError>)
  {
    match q.modexps
    case None => Failure(NoModexps)
    case Some(items) =>
      match EvaluateItems(items, q.defaults, false)
      case Failure(k) => Failure(ItemFailed(k))
      case Success(out) => Success(q.(modexps := Some(out)))
  }

  /**
   * The server `ModExpResource.query`: defaults and the brief flag are read at entry;
   * in brief mode the query's defaults and flag are nulled after the loop.
   */
  function EvaluateServer(q: ServerQueryValue): (r: Result<ServerQueryValue, EvalError>)
  {
    match q.brief
    case None => Failure(NullBrief)
    case Some(brief) =>
      match q.modexps
      case None => Failure(NoModexps)
      case Some(items) =>
        match EvaluateItems(items, q.defaults, brief)
        case Failure(k) => Failure(ItemFailed(k))
        case Success(out) =>
          if brief then Success(ServerQueryValue(Some(out), NoDefaults, None))
          else Success(q.(modexps := Some(out)))
  }

  /**
   * The query as the earlier `query` leaves it, whether it returns or throws: a throw
   * on item `k` happens after the items before `k` have been updated.
   */
  function StateAfter(q: QueryValue): (r: QueryValue)
  {
    match Evaluate(q)
    case Success(after) => after
    case Failure(ItemFailed(k)) => q.(modexps := Some(Processed(q.modexps.value, q.defaults, false, k)))
    case Failure(_) => q
  }

  /** The query as the server `query` leaves it; the query-level nulling happens only after the loop. */
  function ServerStateAfter(q: ServerQueryValue): (r: ServerQueryValue)
  {
    match EvaluateServer(q)
    case Success(after) => after
    case Failure(ItemFailed(k)) => q.(modexps := Some(Processed(q.modexps.value, q.defaults, q.brief.value, k)))
    case Failure(_) => q
  }

  // ---------------------------------------------------------------------------
  // The loop semantics

  /**
   * The batch succeeds exactly when every item can be computed, and then the item at
   * each position is that same position's input evaluated: count and order are kept,
   * and each result depends only on its own item and the defaults.
   */
  lemma {:induction false} EvaluateItemsSuccess(items: seq<Item>, d: Defaults, brief: bool)
    ensures EvaluateItems(items, d, brief).Success? <==>
      forall i :: 0 <= i < |items| ==> ItemResult(items[i], d).Some?
    ensures EvaluateItems(items, d, brief).Success? ==>
      var out := EvaluateItems(items, d, brief).value;
      |out| == |items| &&
      forall i :: 0 <= i < |items| ==> out[i] == Evaluated(items[i], ItemResult(items[i], d).value, brief)
  {
    if items != [] {
      var n := |items| - 1;
      var init := items[..n];
      EvaluateItemsSuccess(init, d, brief);
      assert forall i :: 0 <= i < n ==> init[i] == items[i];
    }
  }

  /** The batch fails with index `k` exactly when item `k` is the first whose `modPow` throws. */
  lemma {:induction false} EvaluateItemsFailure(items: seq<Item>, d: Defaults, brief: bool, k: nat)
    ensures EvaluateItems(items, d, brief) == Failure(k) <==>
      k < |items| && ItemResult(items[k], d).None? &&
      forall j :: 0 <= j < k ==> ItemResult(items[j], d).Some?
  {
    if items != [] {
      var n := |items| - 1;
      var init := items[..n];
      EvaluateItemsFailure(init, d, brief, k);
      EvaluateItemsSuccess(init, d, brief);
      assert forall i :: 0 <= i < n ==> init[i] == items[i];
    }
  }

  /**
   * Where the loop stops: if the first `stop` items can be computed and item `stop`
   * (if any) cannot, the batch fails at `stop`, or succeeds with every item processed.
   */
  lemma EvaluateItemsStop(items: seq<Item>, d: Defaults, brief: bool, stop: nat)
    requires stop <= |items|
    requires forall j :: 0 <= j < stop ==> ItemResult(items[j], d).Some?
    requires stop < |items| ==> ItemResult(items[stop], d).None?
    ensures EvaluateItems(items, d, brief) ==
      if stop < |items| then Failure(stop) else Success(Processed(items, d, brief, stop))
  {
    if stop < |items| {
      EvaluateItemsFailure(items, d, brief, stop);
    } else {
      EvaluateItemsSuccess(items, d, brief);
      EvaluateItemsProcessed(items, d, brief);
    }
  }

  /** A successful batch is what the loop leaves after all its iterations. */
  lemma EvaluateItemsProcessed(items: seq<Item>, d: Defaults, brief: bool)
    requires EvaluateItems(items, d, brief).Success?
    ensures EvaluateItems(items, d, brief).value == Processed(items, d, brief, |items|)
  {
    EvaluateItemsSuccess(items, d, brief);
  }

  /** The earlier call once the item array is known to be present. */
  lemma CallWith(q: QueryValue, items: seq<Item>)
    requires q.modexps == Some(items)
    ensures EvaluateItems(items, q.defaults, false).Success? ==>
      var out := EvaluateItems(items, q.defaults, false).value;
      Evaluate(q) == Success(q.(modexps := Some(out))) && StateAfter(q) == q.(modexps := Some(out))
    ensures EvaluateItems(items, q.defaults, false).Failure? ==>
      var k := EvaluateItems(items, q.defaults, false).error;
      Evaluate(q) == Failure(ItemFailed(k)) &&
      StateAfter(q) == q.(modexps := Some(Processed(items, q.defaults, false, k)))
  {
  }

  /** The server call once the brief flag and the item array are known to be present. */
  lemma ServerCallWith(q: ServerQueryValue, brief: bool, items: seq<Item>)
    requires q.brief == Some(brief) && q.modexps == Some(items)
    ensures EvaluateItems(items, q.defaults, brief).Success? ==>
      var out := EvaluateItems(items, q.defaults, brief).value;
      var after := if brief then ServerQueryValue(Some(out), NoDefaults, None) else q.(modexps := Some(out));
      EvaluateServer(q) == Success(after) && ServerStateAfter(q) == after
    ensures EvaluateItems(items, q.defaults, brief).Failure? ==>
      var k := EvaluateItems(items, q.defaults, brief).error;
      EvaluateServer(q) == Failure(ItemFailed(k)) &&
      ServerStateAfter(q) == q.(modexps := Some(Processed(items, q.defaults, brief, k)))
  {
  }

  // ---------------------------------------------------------------------------
  // Results

  /**
   * Every computed result is `b^e mod m` for the item's effective operands, and lies
   * in `[0, m)`; every effective operand exists and the modulus is positive.
   */
  lemma ResultsCorrect(items: seq<Item>, d: Defaults, brief: bool)
    requires EvaluateItems(items, d, brief).Success?
    ensures var out := EvaluateItems(items, d, brief).value;
      |out| == |items| &&
      forall i :: 0 <= i < |items| ==>
        var m := Effective(items[i].modulus, d.modulus);
        var b := Effective(items[i].base, d.base);
        var e := Effective(items[i].exponent, d.exponent);
        m.Some? && b.Some? && e.Some? && m.value > 0 &&
        out[i].result == Some(ModPow(b.value, e.value, m.value)) &&
        out[i].result.value < m.value
  {
    EvaluateItemsSuccess(items, d, brief);
  }

  /** An item that carries all three operands ignores the defaults entirely. */
  lemma ItemValuesWin(it: Item, d: Defaults, d': Defaults)
    requires it.modulus.Some? && it.base.Some? && it.exponent.Some?
    ensures ItemResult(it, d) == ItemResult(it, d')
  {
  }

  /** A field the item lacks is taken from the defaults, field by field. */
  lemma ItemInheritsDefaults(it: Item, d: Defaults)
    ensures ItemResult(it, d) ==
      ItemResult(Item(Effective(it.modulus, d.modulus), Effective(it.base, d.base),
                      Effective(it.exponent, d.exponent), it.result), NoDefaults)
  {
  }

  // ---------------------------------------------------------------------------
  // Response shaping of the server version

  /**
   * Brief mode: afterwards every item holds only its result, and the query's
   * defaults and brief flag are all null.
   */
  lemma BriefResponseShape(q: ServerQueryValue)
    requires q.brief == Some(true)
    requires EvaluateServer(q).Success?
    ensures var after := EvaluateServer(q).value;
      after.defaults == NoDefaults && after.brief.None? && after.modexps.Some? &&
      |after.modexps.value| == |q.modexps.value| &&
      forall i :: 0 <= i < |after.modexps.value| ==>
        var it := after.modexps.value[i];
        it.modulus.None? && it.base.None? && it.exponent.None? && it.result.Some?
  {
    EvaluateItemsSuccess(q.modexps.value, q.defaults, true);
  }

  /** Full mode: only the items' results change; defaults and the brief flag stay as received. */
  lemma FullResponseShape(q: ServerQueryValue)
    requires q.brief == Some(false)
    requires EvaluateServer(q).Success?
    ensures var after := EvaluateServer(q).value;
      after.defaults == q.defaults && after.brief == q.brief && after.modexps.Some? &&
      |after.modexps.value| == |q.modexps.value| &&
      forall i :: 0 <= i < |after.modexps.value| ==>
        after.modexps.value[i] == q.modexps.value[i].(result := after.modexps.value[i].result) &&
        after.modexps.value[i].result.Some?
  {
    EvaluateItemsSuccess(q.modexps.value, q.defaults, false);
  }

  /**
   * The server call fails exactly when brief is null, the item array is null, or some
   * item has an operand missing from both item and defaults or a zero modulus.
   */
  lemma EvaluateServerFails(q: ServerQueryValue)
    ensures EvaluateServer(q).Failure? <==>
      q.brief.None? || q.modexps.None? ||
      exists i :: 0 <= i < |q.modexps.value| && ItemResult(q.modexps.value[i], q.defaults).None?
    ensures EvaluateServer(q) == Failure(NullBrief) <==> q.brief.None?
    ensures EvaluateServer(q) == Failure(NoModexps) <==> q.brief.Some? && q.modexps.None?
  {
    if q.brief.Some? && q.modexps.Some? {
      EvaluateItemsSuccess(q.modexps.value, q.defaults, q.brief.value);
    }
  }

  /**
   * Without brief mode, evaluating an item twice is evaluating it once: the result it
   * stores never feeds back into its own computation.
   */
  lemma EvaluateTwiceSameResult(it: Item, d: Defaults)
    ensures ItemResult(Step(it, d, false), d) == ItemResult(it, d)
    ensures Step(Step(it, d, false), d, false) == Step(it, d, false)
  {
  }

  /** The earlier version changes nothing but the results, and agrees with the server's full mode. */
  lemma EvaluateOnlySetsResults(q: QueryValue)
    ensures Evaluate(q).Success? ==>
      var after := Evaluate(q).value;
      after.defaults == q.defaults && after.modexps.Some? &&
      |after.modexps.value| == |q.modexps.value| &&
      forall i :: 0 <= i < |q.modexps.value| ==>
        after.modexps.value[i] == q.modexps.value[i].(result := after.modexps.value[i].result) &&
        after.modexps.value[i].result == ItemResult(q.modexps.value[i], q.defaults)
    ensures Evaluate(q).Failure? <==>
      q.modexps.None? ||
      exists i :: 0 <= i < |q.modexps.value| && ItemResult(q.modexps.value[i], q.defaults).None?
    ensures EvaluateServer(ServerQueryValue(q.modexps, q.defaults, Some(false))) ==
      match Evaluate(q)
      case Success(after) => Success(ServerQueryValue(after.modexps, after.defaults, Some(false)))
      case Failure(err) => Failure(err)
  {
    if q.modexps.Some? {
      EvaluateItemsSuccess(q.modexps.value, q.defaults, false);
    }
  }

  /**
   * When item `k` throws, the items before it already hold their results (and are
   * stripped in brief mode), item `k` and the rest are untouched, and the query's own
   * defaults and brief flag are as received.
   */
  lemma ServerFailedCallState(q: ServerQueryValue, k: nat)
    requires EvaluateServer(q) == Failure(ItemFailed(k))
    ensures var after := ServerStateAfter(q);
      q.brief.Some? && q.modexps.Some? && k < |q.modexps.value| &&
      after.defaults == q.defaults && after.brief == q.brief && after.modexps.Some? &&
      |after.modexps.value| == |q.modexps.value| &&
      (forall j :: 0 <= j < k ==>
        ItemResult(q.modexps.value[j], q.defaults).Some? &&
        after.modexps.value[j] ==
          Evaluated(q.modexps.value[j], ItemResult(q.modexps.value[j], q.defaults).value, q.brief.value)) &&
      forall j :: k <= j < |q.modexps.value| ==> after.modexps.value[j] == q.modexps.value[j]
  {
    EvaluateItemsFailure(q.modexps.value, q.defaults, q.brief.value, k);
  }

  // ---------------------------------------------------------------------------
  // The request scenarios of the resource tests

  /** `{"modexps":[{"m":3,"b":2,"e":3}]}` with the default brief flag gives `{"modexps":[{"r":2}]}`. */
  lemma BriefScenario()
    ensures EvaluateServer(ServerQueryValue(Some([Item(Some(3), Some(2), Some(3), None)]), NoDefaults, Some(true)))
      == Success(ServerQueryValue(Some([Item(None, None, None, Some(2))]), NoDefaults, None))
  {
    var items := [Item(Some(3), Some(2), Some(3), None)];
    assert Pow(2, 3) == 8;
    assert ItemResult(items[0], NoDefaults) == Some(2);
    assert EvaluateItems(items[..0], NoDefaults, true) == Success([]);
    assert [] + [Item(None, None, None, Some(2))] == [Item(None, None, None, Some(2))];
    assert EvaluateItems(items, NoDefaults, true) == Success([Item(None, None, None, Some(2))]);
  }

  /** Defaults m=23, b=9, e=2 lose against an item's own m=17, b=3, e=5: the result is 5. */
  lemma OverrideScenario()
    ensures EvaluateServer(ServerQueryValue(Some([Item(Some(17), Some(3), Some(5), None)]),
                                       Defaults(Some(23), Some(9), Some(2)), Some(false)))
      == Success(ServerQueryValue(Some([Item(Some(17), Some(3), Some(5), Some(5))]),
                             Defaults(Some(23), Some(9), Some(2)), Some(false)))
  {
    var items := [Item(Some(17), Some(3), Some(5), None)];
    var d := Defaults(Some(23), Some(9), Some(2));
    assert Pow(3, 5) == 243;
    assert ItemResult(items[0], d) == Some(5);
    assert EvaluateItems(items[..0], d, false) == Success([]);
    assert [] + [Item(Some(17), Some(3), Some(5), Some(5))] == [Item(Some(17), Some(3), Some(5), Some(5))];
    assert EvaluateItems(items, d, false) == Success([Item(Some(17), Some(3), Some(5), Some(5))]);
  }

  /** An item without a modulus takes the default one: default m=17 with b=3, e=5 gives 5. */
  lemma DefaultModulusScenario()
    ensures EvaluateServer(ServerQueryValue(Some([Item(None, Some(3), Some(5), None)]),
                                       Defaults(Some(17), None, None), Some(true)))
      == Success(ServerQueryValue(Some([Item(None, None, None, Some(5))]), NoDefaults, None))
  {
    var items := [Item(None, Some(3), Some(5), None)];
    var d := Defaults(Some(17), None, None);
    assert Pow(3, 5) == 243;
    assert ItemResult(items[0], d) == Some(5);
    assert EvaluateItems(items[..0], d, true) == Success([]);
    assert [] + [Item(None, None, None, Some(5))] == [Item(None, None, None, Some(5))];
    assert EvaluateItems(items, d, true) == Success([Item(None, None, None, Some(5))]);
  }

  /** No item array, or an item with no modulus anywhere, fails the whole call. */
  lemma FailureScenarios()
    ensures EvaluateServer(ServerQueryValue(None, Defaults(Some(23), Some(2), Some(3)), Some(true))) == Failure(NoModexps)
    ensures EvaluateServer(ServerQueryValue(Some([Item(Some(5), Some(2), Some(3), None), Item(None, Some(2), Some(3), None)]),
                                       NoDefaults, Some(true))) == Failure(ItemFailed(1))
  {
    var items := [Item(Some(5), Some(2), Some(3), None), Item(None, Some(2), Some(3), None)];
    assert ItemResult(items[0], NoDefaults).Some?;
    assert ItemResult(items[1], NoDefaults).None?;
    EvaluateItemsFailure(items, NoDefaults, true, 1);
  }
}
