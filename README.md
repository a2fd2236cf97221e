# famodulus-server: modular exponentiation service, modelled in Dafny

famodulus-server is a small JAX-RS service. A client posts a JSON query bean. The
bean holds an array of modular exponentiations (`modexps`, each with modulus `m`,
base `b`, exponent `e` and result `r`), optional query-level default operands and,
in the server version, a `brief` flag. The service sets every item's result to
`b^e mod m`. An item's own operand wins over the query default. In brief mode
(the default) the service strips everything but the results. The adapter
`BigIntegerStringAdapter` turns numbers into lower-case hexadecimal strings and
back. Most tests build requests and expected responses with the string serializer
`Util`, which writes every number as such a quoted hex string.

The model has eight modules:

- `Wrappers`: `Option` and `Result`.
- `Arith`: the reference semantics of `BigInteger.modPow` on non-negative operands and a positive modulus.
- `BigIntegerStringAdapter`: `marshal` (`toString(16)`) and `unmarshal` (`new BigInteger(s, 16)`), with an explicit error result.
- `Evaluation`: what both versions of `ModExpResource.query` compute, on values.
  - It covers the error cases: a null `brief` flag, a null item array, and an item whose `modPow` throws.
  - It also gives the exact state both versions leave behind when they throw part-way through the loop.
- `ModExp`: the earlier package `ch.mainini.famodulus.modexp`, in imperative form.
  - The `ModExpBean` and `ModExpQueryBean` classes, with fields, constructors and setters.
  - The resource loop over the bean array, proved against `Evaluation`.
- `ServerModExp`: the server package `ch.mainini.famodulus.server.modexp`.
  - The query bean with the nullable `brief` flag.
  - The resource, which updates the beans in place and strips them in brief mode, proved against `Evaluation`.
- `FlatJson`: the text of a flat JSON object of string members (`Member`, `Join`, `Object`), and a reference reader for it (`ParseObject`, `SplitObjects`).
  - The reader is the partner of the serializers: every text they write is read back as what was written.
- `Util`: the test serializers. `serializeModexp*` and `serializeModexpResponse` are functions.
  - `serializeQuery` and `serializeResponse` are methods that build the string step by step with the source's loop.
  - Each is proved equal to a text function (`QueryText`, `ResponseText`).
  - Lemmas relate those texts to each other and to the evaluator.

Brief mode is applied inside the resource, by nulling fields of the very beans it
received (src/main/java/ch/mainini/famodulus/server/modexp/ModExpResource.java:53-65).
It is not a separate response encoding.

Where the code and the tests differ, the model follows the code:

- An empty item array is accepted by `query`: the loop runs zero times and the call returns normally. The test at src/test/java/ch/mainini/famodulus/modexp/ModExpResourceTest.java:298 expects status 500 for such a request. The resource code does not explain that status. The likely cause is the JSON binding, which is not part of this model.

## Model

| member | source | states |
|---|---|---|
| Arith.ModPow | src/main/java/ch/mainini/famodulus/server/modexp/ModExpResource.java:49 | `b^e mod m` for a positive modulus is always below the modulus |
| Arith.ModPowEdges | src/main/java/ch/mainini/famodulus/server/modexp/ModExpResource.java:49 | exponent 0 gives `1 mod m` even for base 0, and modulus 1 always gives 0 |
| BigIntegerStringAdapter.Marshal | src/main/java/ch/mainini/famodulus/util/BigIntegerStringAdapter.java:25-27 | `marshal` as `toString(16)`: the lower-case hex digits of the magnitude, most significant first, with a leading `-` for a negative value; its properties are stated by `MarshalCanonical` and `RoundTrip` |
| BigIntegerStringAdapter.Unmarshal | src/main/java/ch/mainini/famodulus/util/BigIntegerStringAdapter.java:35-37 | `unmarshal` as `new BigInteger(s, 16)`: one optional `+` or `-`, then a non-empty run of ASCII hex digits in either case, evaluated by Horner's rule; `None` where Java throws `NumberFormatException`; its properties are stated by `UnmarshalDefined`, `UnmarshalCanonical`, `UnmarshalIgnoresCase` and `RoundTrip` |
| BigIntegerStringAdapter.MarshalCanonical | src/main/java/ch/mainini/famodulus/util/BigIntegerStringAdapter.java:25-27 | `marshal` of a non-negative number is canonical lower-case hex with no leading zero; it starts with `0` only for 0 |
| BigIntegerStringAdapter.RoundTrip | src/main/java/ch/mainini/famodulus/util/BigIntegerStringAdapter.java:25-37 | `unmarshal(marshal(v)) == v` for every integer, negative ones included |
| BigIntegerStringAdapter.UnmarshalCanonical | src/main/java/ch/mainini/famodulus/util/BigIntegerStringAdapter.java:25-37 | every canonical hex string is read as a non-negative number whose `marshal` is that same string |
| BigIntegerStringAdapter.UnmarshalDefined | src/main/java/ch/mainini/famodulus/util/BigIntegerStringAdapter.java:35-37 | `unmarshal` succeeds exactly when the text after an optional sign is non-empty and every character is an ASCII hex digit |
| BigIntegerStringAdapter.UnmarshalIgnoresCase | src/main/java/ch/mainini/famodulus/util/BigIntegerStringAdapter.java:35-37 | upper- and lower-case hex digits are read as the same number |
| BigIntegerStringAdapter.UnmarshalExamples | src/main/java/ch/mainini/famodulus/util/BigIntegerStringAdapter.java:35-37 | `FF` and `ff` are 255, `-1a` is -26, `+10` is 16; the empty string and a lone `-` are rejected |
| Evaluation.ItemResult | src/main/java/ch/mainini/famodulus/server/modexp/ModExpResource.java:45-49 | one item's `b.modPow(e, m)` with each operand taken from the item, or else from the defaults; `None` where the call throws, for an operand null in both or a zero modulus |
| Evaluation.Evaluate | src/main/java/ch/mainini/famodulus/modexp/ModExpResource.java:33-49 | the earlier `query` on values: a null item array fails, an item that throws fails the call with its index, and otherwise every item gets its result and nothing else changes |
| Evaluation.EvaluateServer | src/main/java/ch/mainini/famodulus/server/modexp/ModExpResource.java:38-68 | the server `query` on values: a null `brief`, then a null item array, then the first item that throws fail the call; otherwise every item is evaluated and, in brief mode, the items and the query are stripped |
| Evaluation.EvaluateItemsSuccess | src/main/java/ch/mainini/famodulus/server/modexp/ModExpResource.java:44-58 | the loop completes exactly when every item's effective operands exist with a positive modulus; then each output item is its own input evaluated, in the same order and count |
| Evaluation.EvaluateItemsFailure | src/main/java/ch/mainini/famodulus/server/modexp/ModExpResource.java:44-58 | the call throws on item `k` exactly when `k` is the first item whose `modPow` cannot be computed |
| Evaluation.ResultsCorrect | src/main/java/ch/mainini/famodulus/server/modexp/ModExpResource.java:45-50 | after a successful loop every item's result is `b^e mod m` of its effective operands, and lies in `[0, m)` |
| Evaluation.ItemValuesWin | src/main/java/ch/mainini/famodulus/server/modexp/ModExpResource.java:45-47 | an item that carries all three operands gets the same result whatever the defaults |
| Evaluation.ItemInheritsDefaults | src/main/java/ch/mainini/famodulus/server/modexp/ModExpResource.java:39-47 | each missing operand of an item is taken from the matching query default, field by field |
| Evaluation.BriefResponseShape | src/main/java/ch/mainini/famodulus/server/modexp/ModExpResource.java:53-65 | in brief mode every item keeps only its result, and the query's defaults and brief flag are all null |
| Evaluation.FullResponseShape | src/main/java/ch/mainini/famodulus/server/modexp/ModExpResource.java:38-67 | in full mode only the items' results change; the operands, the defaults and `brief` stay as received |
| Evaluation.EvaluateServerFails | src/main/java/ch/mainini/famodulus/server/modexp/ModExpResource.java:38-58 | the call fails exactly when `brief` is null, the array is null, or some item cannot be computed; each error case is matched to its cause |
| Evaluation.EvaluateTwiceSameResult | src/main/java/ch/mainini/famodulus/modexp/ModExpResource.java:38-46 | in the earlier version, evaluating an item a second time changes nothing: a bean repeated in the array ends up as if evaluated once |
| Evaluation.EvaluateOnlySetsResults | src/main/java/ch/mainini/famodulus/modexp/ModExpResource.java:33-49 | the earlier `query` changes nothing but the results, fails for the same inputs, and agrees with the server's full mode |
| Evaluation.ServerFailedCallState | src/main/java/ch/mainini/famodulus/server/modexp/ModExpResource.java:44-58 | after a throw on item `k`, the items before `k` are updated, the rest are untouched, and the defaults and brief flag are as received |
| Evaluation.BriefScenario | src/test/java/ch/mainini/famodulus/modexp/ModExpResourceTest.java:143-149 | `m=3, b=2, e=3` with the default brief flag yields the single result 2, with all operands and defaults stripped |
| Evaluation.OverrideScenario | src/test/java/ch/mainini/famodulus/modexp/ModExpResourceTest.java:267-272 | defaults `m=23, b=9, e=2` lose against the item's `m=17, b=3, e=5`; the result is 5 and everything else is echoed |
| Evaluation.DefaultModulusScenario | src/test/java/ch/mainini/famodulus/modexp/ModExpResourceTest.java:207-211 | an item without modulus takes the default one |
| Evaluation.FailureScenarios | src/test/java/ch/mainini/famodulus/modexp/ModExpResourceTest.java:296-297 | a query with defaults but no item array fails with the no-items error, as the test's request at line 297; the second case, an item with no modulus anywhere failing the call at its index 1, is the model's own scenario of the throw at src/main/java/ch/mainini/famodulus/server/modexp/ModExpResource.java:49 |
| ModExp.ModExpBean.constructor | src/main/java/ch/mainini/famodulus/modexp/ModExpBean.java:36 | the default constructor leaves all four fields null |
| ModExp.ModExpBean.WithOperands | src/main/java/ch/mainini/famodulus/modexp/ModExpBean.java:44-49 | the constructor stores the three operands and leaves the result null |
| ModExp.ModExpBean.WithResult | src/main/java/ch/mainini/famodulus/modexp/ModExpBean.java:58-63 | the constructor stores all four fields as given |
| ModExp.ModExpBean.SetModulus | src/main/java/ch/mainini/famodulus/modexp/ModExpBean.java:78-80 | replaces the modulus and nothing else |
| ModExp.ModExpBean.SetBase | src/main/java/ch/mainini/famodulus/modexp/ModExpBean.java:92-94 | replaces the base and nothing else |
| ModExp.ModExpBean.SetExponent | src/main/java/ch/mainini/famodulus/modexp/ModExpBean.java:106-108 | replaces the exponent and nothing else |
| ModExp.ModExpBean.SetResult | src/main/java/ch/mainini/famodulus/modexp/ModExpBean.java:120-122 | replaces the result and nothing else |
| ModExp.ModExpQueryBean.constructor | src/main/java/ch/mainini/famodulus/modexp/ModExpQueryBean.java:47 | no item array and no defaults |
| ModExp.ModExpQueryBean.WithModexps | src/main/java/ch/mainini/famodulus/modexp/ModExpQueryBean.java:53-55 | exactly the given item array, no defaults |
| ModExp.ModExpQueryBean.SetModexps | src/main/java/ch/mainini/famodulus/modexp/ModExpQueryBean.java:70-72 | replaces the item array; the defaults are unchanged |
| ModExp.ModExpQueryBean.SetModulus | src/main/java/ch/mainini/famodulus/modexp/ModExpQueryBean.java:84-86 | replaces the default modulus only |
| ModExp.ModExpQueryBean.SetBase | src/main/java/ch/mainini/famodulus/modexp/ModExpQueryBean.java:98-100 | replaces the default base only |
| ModExp.ModExpQueryBean.SetExponent | src/main/java/ch/mainini/famodulus/modexp/ModExpQueryBean.java:112-114 | replaces the default exponent only |
| ModExp.EvaluateModexps | src/main/java/ch/mainini/famodulus/modexp/ModExpResource.java:38-46 | the in-place loop stops at the first item that cannot be computed and reports its index; before it each bean holds its result, and from it on each bean is untouched |
| ModExp.Query | src/main/java/ch/mainini/famodulus/modexp/ModExpResource.java:33-49 | returns the same bean or the error `Evaluate` gives, and leaves the beans in exactly the state `StateAfter` describes, on success and on failure |
| ServerModExp.ModExpQueryBean.constructor | src/main/java/ch/mainini/famodulus/server/modexp/ModExpQueryBean.java:49-56 | no item array, no defaults, and `brief` true |
| ServerModExp.ModExpQueryBean.WithModexps | src/main/java/ch/mainini/famodulus/server/modexp/ModExpQueryBean.java:62-64 | the given item array, no defaults, and `brief` true |
| ServerModExp.ModExpQueryBean.SetModexps | src/main/java/ch/mainini/famodulus/server/modexp/ModExpQueryBean.java:79-81 | replaces the item array only |
| ServerModExp.ModExpQueryBean.SetModulus | src/main/java/ch/mainini/famodulus/server/modexp/ModExpQueryBean.java:93-95 | replaces the default modulus only |
| ServerModExp.ModExpQueryBean.SetBase | src/main/java/ch/mainini/famodulus/server/modexp/ModExpQueryBean.java:107-109 | replaces the default base only |
| ServerModExp.ModExpQueryBean.SetExponent | src/main/java/ch/mainini/famodulus/server/modexp/ModExpQueryBean.java:121-123 | replaces the default exponent only |
| ServerModExp.ModExpQueryBean.SetBrief | src/main/java/ch/mainini/famodulus/server/modexp/ModExpQueryBean.java:135-137 | replaces the brief flag only; null is allowed |
| ServerModExp.EvaluateBean | src/main/java/ch/mainini/famodulus/server/modexp/ModExpResource.java:45-57 | one loop pass: reports whether `modPow` can be computed; if so it stores the result and, in brief mode, nulls the item's operands; otherwise it leaves the bean as it was |
| ServerModExp.EvaluateModexps | src/main/java/ch/mainini/famodulus/server/modexp/ModExpResource.java:44-58 | the in-place loop stops at the first item that cannot be computed; the beans before it are evaluated and, in brief mode, stripped, and the rest are untouched |
| ServerModExp.StripQuery | src/main/java/ch/mainini/famodulus/server/modexp/ModExpResource.java:60-65 | the query-level half of brief mode: the defaults and the brief flag become null, while the item array and every bean in it stay as they were |
| ServerModExp.Query | src/main/java/ch/mainini/famodulus/server/modexp/ModExpResource.java:38-68 | returns the same bean or the error `EvaluateServer` gives, and leaves bean and items exactly as `ServerStateAfter` describes, brief stripping included |
| FlatJson.ParseObjectInverts | src/test/java/ch/mainini/famodulus/modexp/Util.java:60-100 | an object written from members without quotes or braces in them is read back as those same members, in order |
| FlatJson.SplitObjectsJoin | src/test/java/ch/mainini/famodulus/modexp/Util.java:118-123 | comma-joined flat objects are split back into exactly those objects |
| Util.SerializeModexp | src/test/java/ch/mainini/famodulus/modexp/Util.java:60-63 | the text is the item holding `m`, `b`, `e` and optionally `r` as hex strings, and it is read back as exactly those members in that order |
| Util.SerializeModexpNoModulus | src/test/java/ch/mainini/famodulus/modexp/Util.java:71-74 | as `SerializeModexp`, but without the `m` member |
| Util.SerializeModexpNoBase | src/test/java/ch/mainini/famodulus/modexp/Util.java:82-85 | as `SerializeModexp`, but without the `b` member |
| Util.SerializeModexpNoExponent | src/test/java/ch/mainini/famodulus/modexp/Util.java:93-96 | as `SerializeModexp`, but without the `e` member |
| Util.SerializeModexpResponse | src/test/java/ch/mainini/famodulus/modexp/Util.java:98-100 | the text is the item holding only `r`, and it is read back as that single member |
| Util.SerializedItemsReadBack | src/test/java/ch/mainini/famodulus/modexp/Util.java:60-100 | each item serializer's text reads back as the item it describes: the given operands and result, and no others |
| Util.SerializeQuery | src/test/java/ch/mainini/famodulus/modexp/Util.java:111-126 | the built string is the object with the present defaults in the order m, b, e, then `"brief":false` unless brief, then the item array if there are items |
| Util.SerializeResponse | src/test/java/ch/mainini/famodulus/modexp/Util.java:137-154 | the built string holds only the item array when brief; otherwise it holds the defaults, `"brief":false` and the item array |
| Util.AppendItems | src/test/java/ch/mainini/famodulus/modexp/Util.java:119-122 | the loop appends the items with a comma between neighbours and none after the last |
| Util.AppendDefaults | src/test/java/ch/mainini/famodulus/modexp/Util.java:113-115 | appends each present default as a member followed by a comma |
| Util.CloseItems | src/test/java/ch/mainini/famodulus/modexp/Util.java:118-125 | appends the item array, only when there are items, and the closing brace |
| Util.BriefResponseIsItems | src/test/java/ch/mainini/famodulus/modexp/Util.java:137-154 | a brief expected response ignores the defaults; it is the object holding the item array alone, as a brief request without defaults |
| Util.FullResponseIsQuery | src/test/java/ch/mainini/famodulus/modexp/Util.java:111-154 | a full expected response is the same text as the full request with the same defaults and items |
| Util.ItemsTextSplits | src/test/java/ch/mainini/famodulus/modexp/Util.java:118-123 | the item array starts with the `modexps` key, ends in `]`, and its body splits back into exactly the given items |
| Util.ResponseItemsReadBack | src/test/java/ch/mainini/famodulus/modexp/Util.java:118-123 | an item array written from items is split and read back as exactly those items, in order |
| Util.QueryWithoutItems | src/test/java/ch/mainini/famodulus/modexp/Util.java:111-126 | with no items, a request with any default or with `"brief":false` ends in `,}`, a trailing comma that is not valid JSON |
| Util.BriefItemIsResponse | src/main/java/ch/mainini/famodulus/server/modexp/ModExpResource.java:49-57 | in brief mode an evaluated item's text, in the quoted-hex encoding the `Util`-based tests assume, is exactly `serializeModexpResponse` of its result |
| Util.FullItemIsModexp | src/main/java/ch/mainini/famodulus/server/modexp/ModExpResource.java:49-50 | in full mode an item with all three operands has, in the quoted-hex encoding the `Util`-based tests assume, exactly the text of `serializeModexp` with its computed result |

## Left out

- HTTP, JAX-RS routing, status codes, the CORS filter, the static file handler, server startup and logging (`LOG.finest`) are outside the computational core. No status mapping is modelled. `EvalError` records where and why `query` throws, not which Java exception it throws. `NullBrief` (unboxing a null `brief`) and `NoModexps` (iterating a null array) are both a NullPointerException. `ItemFailed(k)` stands for a NullPointerException (an operand null in both item and defaults) or an ArithmeticException (a zero modulus) at item `k`.
- The JSON binding (MOXy) that turns request text into beans is not part of this model. `FlatJson.ParseObject` and `Util.ReadItem` are reference readers for the flat texts `Util` writes, not the binding. Some tests also write operands as JSON numbers in decimal; the binding's treatment of those is not modelled.
- An empty item array is evaluated by the model as zero items, as the resource code does. The resource code does not explain the tests' status 500 for such a request. The binding, which is not modelled, is the likely cause.
- `randomModexp` draws random operands (randomness); the serializers take the `Modexp` quadruple it would produce as a parameter.
- ModExp.Query: requires the array to hold distinct bean objects, because the frame proof of `ModExp.EvaluateModexps` states each position's new state on its own. The earlier version has no brief mode, so a bean repeated in the array would just get the same result written twice. Arrays that share a bean are therefore left unmodelled, not mis-modelled. A bean array decoded from JSON has one object per element.
- ServerModExp.Query: requires distinct bean objects. Here aliasing would change the outcome: in brief mode the first visit nulls the bean's operands, so a second visit would compute from the defaults or throw. The model does not capture that case.
- Null elements inside the item array (a NullPointerException in the loop) are excluded by the element type `ModExpBean`.
- Bean fields are `Option<nat>`: negative operands and moduli, which Java's `modPow` handles (a negative exponent takes a modular inverse; a negative modulus throws), are not modelled. The codec itself is over `int` and does handle signs.
- BigIntegerStringAdapter.Unmarshal: accepts only the ASCII hex digits `0-9`, `a-f` and `A-F`. `Character.digit(c, 16)` also accepts the other Unicode decimal digits. It also accepts the fullwidth Latin letters U+FF21 to U+FF26 and U+FF41 to U+FF46.
- BigIntegerStringAdapter.UnmarshalDefined: its if-and-only-if is stated for the same ASCII-only reading, so it does not cover the other Unicode digits (such as U+0660) or the fullwidth letters that Java's `new BigInteger(s, 16)` also accepts.
- src/main/java/ch/mainini/famodulus/server/modexp/ModExpBean.java is not part of this model. The server resource is modelled over `ModExp.ModExpBean`, whose fields and setters it uses the same way.
- Getters are plain field reads, and the classes' fields are read directly.
- `Util.SerializeQuery` and `Util.SerializeResponse` write each default through `FlatJson.Member`, which is the same text as the source's string literals.
