/**
 * The reference serializer of the resource tests (`Util`, test package
 * `ch.mainini.famodulus.modexp`): the exact JSON texts of a request and of the
 * expected response.  Every number is a quoted string of `toString(16)` digits.
 */
module Util {
  import opened Wrappers
  import opened Arith
  import opened BigIntegerStringAdapter
  import opened Evaluation
  import opened FlatJson

  /** The array `randomModexp` returns: modulus, base, exponent and result, in that order. */
  datatype Modexp = Modexp(modulus: nat, base: nat, exponent: nat, result: nat)

  /** The members of an item that are present, in the wire order m, b, e, r, as hex texts. */
  function ItemMembers(it: Item): (r: seq<(string, string)>)
  {
    (if it.modulus.Some? then [("m", Marshal(it.modulus.value))] else []) +
    (if it.base.Some? then [("b", Marshal(it.base.value))] else []) +
    (if it.exponent.Some? then [("e", Marshal(it.exponent.value))] else []) +
    (if it.result.Some? then [("r", Marshal(it.result.value))] else [])
  }

  /**
   * An item as the `Util`-based tests expect it on the wire: its present members
   * only, each a quoted hex string.  This is the encoding those tests assume; the
   * JSON binding that actually writes responses is not part of this model, and
   * some other tests expect bare decimal numbers instead.
   */
  function ItemJson(it: Item): (r: string)
  {
    Object(ItemMembers(it))
  }

  /** The item a `serializeModexp` variant describes: the operands it keeps, and the result if asked. */
  function ModexpItem(x: Modexp, withModulus: bool, withBase: bool, withExponent: bool, withResult: bool): (r: Item)
  {
    Item(if withModulus then Some(x.modulus) else None,
         if withBase then Some(x.base) else None,
         if withExponent then Some(x.exponent) else None,
         if withResult then Some(x.result) else None)
  }

  // ---------------------------------------------------------------------------
  // Reading an item back

  /** The item with the field `key` set to `v`; `None` for a key an item does not have. */
  function SetField(it: Item, key: string, v: nat): (r: Option<Item>)
  {
    if key == "m" then Some(it.(modulus := Some(v)))
    else if key == "b" then Some(it.(base := Some(v)))
    else if key == "e" then Some(it.(exponent := Some(v)))
    else if key == "r" then Some(it.(result := Some(v)))
    else None
  }

  /** The item a list of members denotes: each value read as hex and stored under its key. */
  function ReadItem(members: seq<(string, string)>): (r: Option<Item>)
  {
    if members == [] then Some(Item(None, None, None, None))
    else match ReadItem(members[..|members| - 1])
      case None => None
      case Some(it) =>
        var (key, text) := members[|members| - 1];
        match Unmarshal(text)
        case None => None
        case Some(v) => if v < 0 then None else SetField(it, key, v)
  }

  /** The item a text denotes, when it is a flat object of such members. */
  function ReadItemText(s: string): (r: Option<Item>)
  {
    match ParseObject(s)
    case None => None
    case Some(members) => ReadItem(members)
  }

  lemma MarshalIsPlain(v: nat)
    ensures Plain(Marshal(v))
  {
    MarshalCanonical(v);
    assert forall i :: 0 <= i < |MarshalNat(v)| ==> IsLowerHexDigit(MarshalNat(v)[i]);
  }

  lemma ItemMembersPlain(it: Item)
    ensures PlainMembers(ItemMembers(it))
  {
    var members := ItemMembers(it);
    if it.modulus.Some? { MarshalIsPlain(it.modulus.value); }
    if it.base.Some? { MarshalIsPlain(it.base.value); }
    if it.exponent.Some? { MarshalIsPlain(it.exponent.value); }
    if it.result.Some? { MarshalIsPlain(it.result.value); }
    assert forall i :: 0 <= i < |members| ==> members[i].0 in ["m", "b", "e", "r"];
  }

  /** An item's wire form is a flat object that reads back as its present members, in order. */
  lemma ItemJsonParses(it: Item)
    ensures ParseObject(ItemJson(it)) == Some(ItemMembers(it))
    ensures FlatObject(ItemJson(it))
  {
    ItemMembersPlain(it);
    ParseObjectInverts(ItemMembers(it));
    ObjectIsFlat(ItemMembers(it));
  }

  /** Reading one optional field more. */
  lemma ReadOptional(members: seq<(string, string)>, before: Item, key: string, v: Option<nat>, after: Item)
    requires ReadItem(members) == Some(before)
    requires v.Some? ==> SetField(before, key, v.value) == Some(after)
    requires v.None? ==> after == before
    ensures ReadItem(members + (if v.Some? then [(key, Marshal(v.value))] else [])) == Some(after)
  {
    if v.Some? {
      RoundTrip(v.value);
      assert (members + [(key, Marshal(v.value))])[..|members|] == members;
    } else {
      assert members + [] == members;
    }
  }

  /** An item's wire form denotes exactly that item. */
  lemma ItemRoundTrip(it: Item)
    ensures ReadItemText(ItemJson(it)) == Some(it)
  {
    ItemJsonParses(it);
    var none := Item(None, None, None, None);
    var m := if it.modulus.Some? then [("m", Marshal(it.modulus.value))] else [];
    var b := if it.base.Some? then [("b", Marshal(it.base.value))] else [];
    var e := if it.exponent.Some? then [("e", Marshal(it.exponent.value))] else [];
    var r := if it.result.Some? then [("r", Marshal(it.result.value))] else [];
    assert [] + m == m;
    ReadOptional([], none, "m", it.modulus, none.(modulus := it.modulus));
    ReadOptional(m, none.(modulus := it.modulus), "b", it.base, none.(modulus := it.modulus, base := it.base));
    ReadOptional(m + b, none.(modulus := it.modulus, base := it.base), "e", it.exponent, it.(result := None));
    ReadOptional(m + b + e, it.(result := None), "r", it.result, it);
  }

  // ---------------------------------------------------------------------------
  // The item serializers

  /** `serializeModexp`: m, b and e, and with `withResult` also r, last. */
  function SerializeModexp(x: Modexp, withResult: bool): (s: string)
    ensures s == ItemJson(ModexpItem(x, true, true, true, withResult))
    ensures ParseObject(s) ==
      Some([("m", Marshal(x.modulus)), ("b", Marshal(x.base)), ("e", Marshal(x.exponent))] + (if withResult then [("r", Marshal(x.result))] else []))
  {
    var m, b, e, r := ("m", Marshal(x.modulus)), ("b", Marshal(x.base)), ("e", Marshal(x.exponent)), ("r", Marshal(x.result));
    ItemJsonParses(ModexpItem(x, true, true, true, withResult));
    if withResult then
      Object4(m, b, e, r);
      assert ItemMembers(ModexpItem(x, true, true, true, true)) == [m, b, e, r] == [m, b, e] + [r];
      "{" + (Member("m", Marshal(x.modulus)) + "," + Member("b", Marshal(x.base)) + "," + Member("e", Marshal(x.exponent)) + "," + Member("r", Marshal(x.result))) + "}"
    else
      Object3(m, b, e);
      assert ItemMembers(ModexpItem(x, true, true, true, false)) == [m, b, e] == [m, b, e] + [];
      "{" + (Member("m", Marshal(x.modulus)) + "," + Member("b", Marshal(x.base)) + "," + Member("e", Marshal(x.exponent))) + "}"
  }

  /** `serializeModexpNoModulus`: as `serializeModexp` without the modulus member. */
  function SerializeModexpNoModulus(x: Modexp, withResult: bool): (s: string)
    ensures s == ItemJson(ModexpItem(x, false, true, true, withResult))
    ensures ParseObject(s) ==
      Some([("b", Marshal(x.base)), ("e", Marshal(x.exponent))] + (if withResult then [("r", Marshal(x.result))] else []))
  {
    var b, e, r := ("b", Marshal(x.base)), ("e", Marshal(x.exponent)), ("r", Marshal(x.result));
    ItemJsonParses(ModexpItem(x, false, true, true, withResult));
    if withResult then
      Object3(b, e, r);
      assert ItemMembers(ModexpItem(x, false, true, true, true)) == [b, e, r] == [b, e] + [r];
      "{" + (Member("b", Marshal(x.base)) + "," + Member("e", Marshal(x.exponent)) + "," + Member("r", Marshal(x.result))) + "}"
    else
      Object2(b, e);
      assert ItemMembers(ModexpItem(x, false, true, true, false)) == [b, e] == [b, e] + [];
      "{" + (Member("b", Marshal(x.base)) + "," + Member("e", Marshal(x.exponent))) + "}"
  }

  /** `serializeModexpNoBase`: as `serializeModexp` without the base member. */
  function SerializeModexpNoBase(x: Modexp, withResult: bool): (s: string)
    ensures s == ItemJson(ModexpItem(x, true, false, true, withResult))
    ensures ParseObject(s) ==
      Some([("m", Marshal(x.modulus)), ("e", Marshal(x.exponent))] + (if withResult then [("r", Marshal(x.result))] else []))
  {
    var m, e, r := ("m", Marshal(x.modulus)), ("e", Marshal(x.exponent)), ("r", Marshal(x.result));
    ItemJsonParses(ModexpItem(x, true, false, true, withResult));
    if withResult then
      Object3(m, e, r);
      assert ItemMembers(ModexpItem(x, true, false, true, true)) == [m, e, r] == [m, e] + [r];
      "{" + (Member("m", Marshal(x.modulus)) + "," + Member("e", Marshal(x.exponent)) + "," + Member("r", Marshal(x.result))) + "}"
    else
      Object2(m, e);
      assert ItemMembers(ModexpItem(x, true, false, true, false)) == [m, e] == [m, e] + [];
      "{" + (Member("m", Marshal(x.modulus)) + "," + Member("e", Marshal(x.exponent))) + "}"
  }

  /** `serializeModexpNoExponent`: as `serializeModexp` without the exponent member. */
  function SerializeModexpNoExponent(x: Modexp, withResult: bool): (s: string)
    ensures s == ItemJson(ModexpItem(x, true, true, false, withResult))
    ensures ParseObject(s) ==
      Some([("m", Marshal(x.modulus)), ("b", Marshal(x.base))] + (if withResult then [("r", Marshal(x.result))] else []))
  {
    var m, b, r := ("m", Marshal(x.modulus)), ("b", Marshal(x.base)), ("r", Marshal(x.result));
    ItemJsonParses(ModexpItem(x, true, true, false, withResult));
    if withResult then
      Object3(m, b, r);
      assert ItemMembers(ModexpItem(x, true, true, false, true)) == [m, b, r] == [m, b] + [r];
      "{" + (Member("m", Marshal(x.modulus)) + "," + Member("b", Marshal(x.base)) + "," + Member("r", Marshal(x.result))) + "}"
    else
      Object2(m, b);
      assert ItemMembers(ModexpItem(x, true, true, false, false)) == [m, b] == [m, b] + [];
      "{" + (Member("m", Marshal(x.modulus)) + "," + Member("b", Marshal(x.base))) + "}"
  }

  /** `serializeModexpResponse`: an item of a brief response, the result alone. */
  function SerializeModexpResponse(response: nat): (s: string)
    ensures s == ItemJson(Item(None, None, None, Some(response)))
    ensures ParseObject(s) == Some([("r", Marshal(response))])
  {
    ItemJsonParses(Item(None, None, None, Some(response)));
    assert ItemMembers(Item(None, None, None, Some(response))) == [("r", Marshal(response))];
    Object1(("r", Marshal(response)));
    "{" + Member("r", Marshal(response)) + "}"
  }

  /** Each item serializer's text denotes the item it describes. */
  lemma SerializedItemsReadBack(x: Modexp, withResult: bool)
    ensures ReadItemText(SerializeModexp(x, withResult)) == Some(ModexpItem(x, true, true, true, withResult))
    ensures ReadItemText(SerializeModexpNoModulus(x, withResult)) == Some(ModexpItem(x, false, true, true, withResult))
    ensures ReadItemText(SerializeModexpNoBase(x, withResult)) == Some(ModexpItem(x, true, false, true, withResult))
    ensures ReadItemText(SerializeModexpNoExponent(x, withResult)) == Some(ModexpItem(x, true, true, false, withResult))
    ensures ReadItemText(SerializeModexpResponse(x.result)) == Some(Item(None, None, None, Some(x.result)))
  {
    ItemRoundTrip(ModexpItem(x, true, true, true, withResult));
    ItemRoundTrip(ModexpItem(x, false, true, true, withResult));
    ItemRoundTrip(ModexpItem(x, true, false, true, withResult));
    ItemRoundTrip(ModexpItem(x, true, true, false, withResult));
    ItemRoundTrip(Item(None, None, None, Some(x.result)));
  }

  // ---------------------------------------------------------------------------
  // Requests and responses

  /** The defaults of a request, each present one as a member followed by a comma. */
  function DefaultsText(modulus: Option<nat>, base: Option<nat>, exponent: Option<nat>): (r: string)
  {
    (if modulus.Some? then Member("m", Marshal(modulus.value)) + "," else "") +
    (if base.Some? then Member("b", Marshal(base.value)) + "," else "") +
    (if exponent.Some? then Member("e", Marshal(exponent.value)) + "," else "")
  }

  /** The key of the item array, its opening bracket included. */
  const ItemsKey: string := "\"modexps\":["

  /** The item array; left out altogether when there are no items. */
  function ItemsText(modexps: seq<string>): (r: string)
  {
    if |modexps| == 0 then "" else ItemsKey + Join(modexps) + "]"
  }

  /** A request: the defaults, `"brief":false` unless brief, then the items. */
  function QueryText(modulus: Option<nat>, base: Option<nat>, exponent: Option<nat>, brief: bool,
                     modexps: seq<string>): (r: string)
  {
    var head := "{" + DefaultsText(modulus, base, exponent);
    (if brief then head else head + "\"brief\":false,") + ItemsText(modexps) + "}"
  }

  /** An expected response: a brief one holds the items alone, a full one repeats the request's head. */
  function ResponseText(modulus: Option<nat>, base: Option<nat>, exponent: Option<nat>, brief: bool,
                        response: seq<string>): (r: string)
  {
    var head := if brief then "{" else "{" + DefaultsText(modulus, base, exponent) + "\"brief\":false,";
    head + ItemsText(response) + "}"
  }

  /** `serializeQuery`, built piece by piece as the source builds it. */
  method SerializeQuery(modulus: Option<nat>, base: Option<nat>, exponent: Option<nat>, brief: bool,
                        modexps: seq<string>) returns (query: string)
    ensures query == QueryText(modulus, base, exponent, brief, modexps)
  {
    query := "{";
    query := AppendDefaults(query, modulus, base, exponent);
    query := if brief then query else query + "\"brief\":false,";
    query := CloseItems(query, modexps);
  }

  /** `serializeResponse`, built piece by piece as the source builds it. */
  method SerializeResponse(modulus: Option<nat>, base: Option<nat>, exponent: Option<nat>, brief: bool,
                           response: seq<string>) returns (queryResponse: string)
    ensures queryResponse == ResponseText(modulus, base, exponent, brief, response)
  {
    queryResponse := "{";
    if !brief {
      queryResponse := AppendDefaults(queryResponse, modulus, base, exponent);
      queryResponse := queryResponse + "\"brief\":false,";
    }
    queryResponse := CloseItems(queryResponse, response);
  }

  /** The defaults both serializers write: each present one as a member and a comma, in the order m, b, e. */
  method AppendDefaults(head: string, modulus: Option<nat>, base: Option<nat>, exponent: Option<nat>)
    returns (text: string)
    ensures text == head + DefaultsText(modulus, base, exponent)
  {
    text := if modulus.Some? then head + Member("m", Marshal(modulus.value)) + "," else head;
    text := if base.Some? then text + Member("b", Marshal(base.value)) + "," else text;
    text := if exponent.Some? then text + Member("e", Marshal(exponent.value)) + "," else text;
    DefaultsAppended(head, modulus, base, exponent);
  }

  /** The end both serializers share: the item array, when there are items, and the closing brace. */
  method CloseItems(head: string, items: seq<string>) returns (text: string)
    ensures text == head + ItemsText(items) + "}"
  {
    text := if |items| > 0 then head + "\"modexps\":[" else head;
    text := AppendItems(text, items);
    text := if |items| > 0 then text + "]" else text;
    text := text + "}";
  }

  /** The loop both serializers share: each item, and a comma after every item but the last. */
  method AppendItems(head: string, items: seq<string>) returns (text: string)
    ensures text == head + Join(items)
  {
    text := head;
    var i := 0;
    while i < |items|
      invariant 0 <= i <= |items|
      invariant text == head + Join(items[..i]) + (if 0 < i < |items| then "," else "")
    {
      JoinSnoc(items[..i], items[i]);
      assert items[..i + 1] == items[..i] + [items[i]];
      text := text + items[i];
      text := text + (if i < |items| - 1 then "," else "");
      i := i + 1;
    }
    assert items[..i] == items;
  }

  /** Appending the present defaults one by one appends `DefaultsText`. */
  lemma DefaultsAppended(head: string, modulus: Option<nat>, base: Option<nat>, exponent: Option<nat>)
    ensures var t1 := if modulus.Some? then head + Member("m", Marshal(modulus.value)) + "," else head;
      var t2 := if base.Some? then t1 + Member("b", Marshal(base.value)) + "," else t1;
      var t3 := if exponent.Some? then t2 + Member("e", Marshal(exponent.value)) + "," else t2;
      t3 == head + DefaultsText(modulus, base, exponent)
  {
    var pm := if modulus.Some? then Member("m", Marshal(modulus.value)) else "";
    var pb := if base.Some? then Member("b", Marshal(base.value)) else "";
    var pe := if exponent.Some? then Member("e", Marshal(exponent.value)) else "";
    PiecesAppended(head, modulus.Some?, pm, base.Some?, pb, exponent.Some?, pe);
  }

  lemma PiecesAppended(head: string, wm: bool, pm: string, wb: bool, pb: string, we: bool, pe: string)
    ensures var t1 := if wm then head + pm + "," else head;
      var t2 := if wb then t1 + pb + "," else t1;
      var t3 := if we then t2 + pe + "," else t2;
      t3 == head + ((if wm then pm + "," else "") + (if wb then pb + "," else "") + (if we then pe + "," else ""))
  {
  }

  // ---------------------------------------------------------------------------
  // What the texts say

  /** A brief response is the request in brief mode without defaults: the items alone. */
  lemma BriefResponseIsItems(modulus: Option<nat>, base: Option<nat>, exponent: Option<nat>, response: seq<string>)
    ensures ResponseText(modulus, base, exponent, true, response) == QueryText(None, None, None, true, response)
    ensures ResponseText(modulus, base, exponent, true, response) == "{" + ItemsText(response) + "}"
  {
  }

  /** A full response repeats the request's defaults and its `"brief":false`. */
  lemma FullResponseIsQuery(modulus: Option<nat>, base: Option<nat>, exponent: Option<nat>, response: seq<string>)
    ensures ResponseText(modulus, base, exponent, false, response) == QueryText(modulus, base, exponent, false, response)
  {
  }

  /** The item array of a request reads back, split at the commas between objects, as the items given. */
  lemma ItemsTextSplits(modexps: seq<string>)
    requires |modexps| > 0
    requires forall i :: 0 <= i < |modexps| ==> FlatObject(modexps[i])
    ensures var t := ItemsText(modexps);
      |t| > |ItemsKey| && t[..|ItemsKey|] == ItemsKey && t[|t| - 1] == ']' &&
      SplitObjects(t[|ItemsKey|..|t| - 1]) == Some(modexps)
  {
    var t := ItemsText(modexps);
    assert t[|ItemsKey|..|t| - 1] == Join(modexps);
    SplitObjectsJoin(modexps);
  }

  /** The item array of a response, written from items, reads back as those items. */
  lemma ResponseItemsReadBack(items: seq<Item>)
    requires |items| > 0
    ensures var texts := seq(|items|, i requires 0 <= i < |items| => ItemJson(items[i]));
      var t := ItemsText(texts);
      SplitObjects(t[|ItemsKey|..|t| - 1]) == Some(texts) &&
      forall i :: 0 <= i < |texts| ==> ReadItemText(texts[i]) == Some(items[i])
  {
    var texts := seq(|items|, i requires 0 <= i < |items| => ItemJson(items[i]));
    forall i | 0 <= i < |texts|
      ensures FlatObject(texts[i]) && ReadItemText(texts[i]) == Some(items[i])
    {
      ItemJsonParses(items[i]);
      ItemRoundTrip(items[i]);
    }
    ItemsTextSplits(texts);
  }

  /**
   * Without items, a request that has any default or `"brief":false` ends in a comma
   * before the closing brace, so it is not well-formed JSON; the tests never build one.
   */
  lemma QueryWithoutItems(modulus: Option<nat>, base: Option<nat>, exponent: Option<nat>, brief: bool)
    requires modulus.Some? || base.Some? || exponent.Some? || !brief
    ensures var t := QueryText(modulus, base, exponent, brief, []);
      |t| >= 2 && t[|t| - 2..] == ",}"
  {
    var pm := if modulus.Some? then Member("m", Marshal(modulus.value)) else "";
    var pb := if base.Some? then Member("b", Marshal(base.value)) else "";
    var pe := if exponent.Some? then Member("e", Marshal(exponent.value)) else "";
    EndsInComma(modulus.Some?, pm, base.Some?, pb, exponent.Some?, pe, !brief);
  }

  lemma EndsInComma(wm: bool, pm: string, wb: bool, pb: string, we: bool, pe: string, wf: bool)
    requires wm || wb || we || wf
    ensures var head := "{" + ((if wm then pm + "," else "") + (if wb then pb + "," else "") + (if we then pe + "," else ""));
      var t := (if wf then head + "\"brief\":false," else head) + "" + "}";
      |t| >= 2 && t[|t| - 2..] == ",}"
  {
  }

  /**
   * In brief mode the evaluator leaves each item in a state whose `ItemJson` text is
   * what `serializeModexpResponse` writes, under the encoding the tests assume.
   */
  lemma BriefItemIsResponse(it: Item, d: Defaults)
    requires ItemResult(it, d).Some?
    ensures ItemJson(Step(it, d, true)) == SerializeModexpResponse(ItemResult(it, d).value)
  {
  }

  /**
   * In full mode an item given all three operands is left in a state whose `ItemJson`
   * text is `serializeModexp` with its result, under the encoding the tests assume.
   */
  lemma FullItemIsModexp(x: Modexp, d: Defaults)
    requires x.modulus > 0
    ensures ItemJson(Step(ModexpItem(x, true, true, true, false), d, false)) ==
      SerializeModexp(x.(result := ModPow(x.base, x.exponent, x.modulus)), true)
  {
  }
}
