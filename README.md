# Thymeleaf expression-evaluation objects and generic tokens, in Dafny

This project models two pieces of Thymeleaf's expression machinery and proves what
they promise.

- **The evaluation-variables builder** (`ExpressionEvaluatorObjects`). It keeps a
  process-wide cache of helper bundles. The cache is keyed first by conversion
  service, then by locale. A missing conversion service is replaced by a private
  sentinel instance. A bundle binds the names `bools`, `objects`, `arrays`, `lists`,
  `sets`, `maps` and `aggregates`; for a known locale it also binds `calendars`,
  `dates`, `numbers` and `strings`. Each evaluation receives a fresh copy of the
  bundle and then puts its own entries on top:
  - `ctx` and `locale`;
  - `httpServletRequest` and `httpSession`, for a web context;
  - `root` and `vars`, which are synonyms;
  - `object`, the selection target, or else the root;
  - `messages` and `ids`, for an `Arguments` processing context.
- **The generic-token recognizer** (`GenericTokenExpression`). It accepts a string as
  a bare token when every index of the string is a token character. It rejects null,
  and it stops at the first index that fails. Executing a token yields the string it
  wraps.

Module `EvaluationObjects` (evaluation_objects.dfy) holds the builder:
- The class `ExpressionEvaluatorObjects` stands for the Java class's static state. Its
  field `baseObjectsCache` is a `map` of `map`s. `ComputeBaseObjects` and
  `ComputeEvaluationObjects` update that field.
- A returned variable map is a freshly allocated `VariableMap` object. Writing to it
  provably leaves the cache unchanged.
- Spec functions give each method's result:
  - `BaseObjects`: the bundle a pair determines;
  - `AfterLookup`: the cache after one lookup;
  - `Overlay`: the request's entries on top of a bundle.
- Lemmas state the properties of these functions.

Module `GenericTokens` (generic_token.dfy) holds the recognizer. Module `Wrappers`
(wrappers.dfy) gives Java's `null` and exceptions explicit types: `Option` and
`Outcome`.

Modelling choices:
- **Variable names.** They are the enumeration `VariableName`. `Text()` gives the
  exact string each name is published under. `TextRoundTrip` proves that distinct
  names have distinct strings.
- **Runtime type tests become variants.** Java's `instanceof` tests become datatype
  variants: `ProcessingContext` versus `Arguments`, and `PlainContext` versus
  `WebContext`.
- **Opaque values.** Helpers are constructor tags that carry what they are built
  from, such as `Calendars(service, locale)`. Servlet requests, sessions, roots and
  selection targets are opaque `Object` values.
- **Null locale.** In the code, the per-locale map is a `ConcurrentHashMap`, which
  rejects a null key. So `computeBaseObjects` with a null locale throws a
  `NullPointerException` at `objectsByLocale.get(locale)`. By then it has already
  installed the service's empty per-locale map. The model does the same
  (`Threw(NullPointerException)`). As a result, the code's `locale != null` check
  before the locale-dependent helpers always holds where it is reached.
  `BaseObjects` leaves out the locale-dependent helpers for an absent locale, but
  `computeBaseObjects` never gets that far: the null locale's `get` throws first
  (ExpressionEvaluatorObjects.java:179).
- **The empty string.** It is a token, because the scan runs zero times.

## Model

| member | source | states |
|---|---|---|
| `EvaluationObjects.TextRoundTrip` | src/main/java/org/thymeleaf/expression/ExpressionEvaluatorObjects.java:51-83 | every well-known variable name is recovered from its string, so no two names are published under the same string |
| `EvaluationObjects.DefaultedConversionService` | src/main/java/org/thymeleaf/expression/ExpressionEvaluatorObjects.java:168-170 | a null conversion service is replaced by the sentinel instance; a non-null one is kept (a definition without a contract; `ComputeBaseObjects` and `OverlayConversionService` state its effect) |
| `EvaluationObjects.BaseObjects` | src/main/java/org/thymeleaf/expression/ExpressionEvaluatorObjects.java:183-198 | a bundle binds exactly `bools, objects, arrays, lists, sets, maps, aggregates`, plus `calendars, dates, numbers, strings` exactly when the locale is known; every entry is a helper; `bools` and the four locale helpers are built from the given service and locale, and `objects, arrays, lists, sets, maps, aggregates` are each bound to their own helper |
| `EvaluationObjects.BaseObjectsHoldHelpersOnly` | src/main/java/org/thymeleaf/expression/ExpressionEvaluatorObjects.java:183-198 | every name that a bundle binds is a helper name |
| `EvaluationObjects.AfterLookup` | src/main/java/org/thymeleaf/expression/ExpressionEvaluatorObjects.java:172-202 | after a lookup the cache has a per-locale map for the service; other services' maps stay as they were; the service's map gains exactly the looked-up locale, and only when it is known; existing bundles stay as they were; a miss publishes the bundle the pair determines; a hit leaves the whole cache unchanged |
| `EvaluationObjects.AfterLookupKeepsCacheValid` | src/main/java/org/thymeleaf/expression/ExpressionEvaluatorObjects.java:172-202 | if every cached bundle is the one its (service, locale) pair determines, the same holds after a lookup, and the looked-up pair's bundle is then in the cache |
| `EvaluationObjects.OptionalConversionService` | src/main/java/org/thymeleaf/expression/ExpressionEvaluatorObjects.java:211-218 | the result is non-null exactly when the conversion-service execution attribute is present and is a conversion service, and it is then that attribute |
| `EvaluationObjects.ConversionServiceOf` | src/main/java/org/thymeleaf/expression/ExpressionEvaluatorObjects.java:111-114 | only an `Arguments` context can supply a conversion service, and one with a configuration supplies its optional conversion-service attribute |
| `EvaluationObjects.SelectionOf` | src/main/java/org/thymeleaf/expression/ExpressionEvaluatorObjects.java:138-142 | the selection target when one is set, otherwise the evaluation root (a definition without a contract; `OverlayRootBindings` states its effect) |
| `EvaluationObjects.Overlay` | src/main/java/org/thymeleaf/expression/ExpressionEvaluatorObjects.java:118-152 | the request's entries put over a bundle in the code's order: `ctx`, `locale`, the web request and session, `root`, `vars`, `object`, then `messages` and `ids` (a definition without a contract; the `Overlay*` lemmas below state its properties) |
| `EvaluationObjects.OverlayNames` | src/main/java/org/thymeleaf/expression/ExpressionEvaluatorObjects.java:118-152 | a name is bound in the variables exactly when the bundle binds it or it is one of the request-scoped names (`ctx, locale, root, vars, object`, the request and session for a web context, `messages` and `ids` for `Arguments`) |
| `EvaluationObjects.OverlayKeepsBundle` | src/main/java/org/thymeleaf/expression/ExpressionEvaluatorObjects.java:116-152 | over a bundle of helpers, every helper of the copied bundle is still bound to the same helper object in the returned variables |
| `EvaluationObjects.OverlayRootBindings` | src/main/java/org/thymeleaf/expression/ExpressionEvaluatorObjects.java:130-142 | `root` and `vars` are both bound to the evaluation root; `object` is the selection target when one is set and the root otherwise |
| `EvaluationObjects.OverlayContextBindings` | src/main/java/org/thymeleaf/expression/ExpressionEvaluatorObjects.java:118-154 | `ctx` is the context and `locale` its locale; for a web context `httpServletRequest` and `httpSession` are its request and session; for `Arguments`, `messages` and `ids` are helpers built from those arguments |
| `EvaluationObjects.OverlayOptionalEntries` | src/main/java/org/thymeleaf/expression/ExpressionEvaluatorObjects.java:121-154 | over a bundle of helpers, `httpServletRequest` and `httpSession` are present exactly for a web context, and `messages` and `ids` exactly for an `Arguments` context |
| `EvaluationObjects.OverlayConversionService` | src/main/java/org/thymeleaf/expression/ExpressionEvaluatorObjects.java:111-116 | the `bools` helper in the variables is built from the `Arguments` configuration's conversion service (or the sentinel when it has none), and from the sentinel for any other context |
| `EvaluationObjects.VariableMap.constructor` | src/main/java/org/thymeleaf/expression/ExpressionEvaluatorObjects.java:204 | `new HashMap(objects)`: a new map object with the same contents |
| `EvaluationObjects.VariableMap.Put` | src/main/java/org/thymeleaf/expression/ExpressionEvaluatorObjects.java:118-152 | a put binds one name and changes only that map object |
| `EvaluationObjects.ExpressionEvaluatorObjects.constructor` | src/main/java/org/thymeleaf/expression/ExpressionEvaluatorObjects.java:87-89 | the cache starts empty (and so valid) |
| `EvaluationObjects.ExpressionEvaluatorObjects.ComputeBaseObjects` | src/main/java/org/thymeleaf/expression/ExpressionEvaluatorObjects.java:166-206 | a null service is replaced by the sentinel, which is then a cache key; the cache becomes `AfterLookup` of the old cache and stays valid; a null locale throws `NullPointerException` after the per-locale map is installed; otherwise the result is a freshly allocated map equal to the cached bundle, which is the bundle the pair determines |
| `EvaluationObjects.ExpressionEvaluatorObjects.ComputeEvaluationObjects` | src/main/java/org/thymeleaf/expression/ExpressionEvaluatorObjects.java:105-158 | the cache changes exactly as one base-objects lookup for the request's conversion service and locale would change it; a null context locale throws; otherwise the result is a freshly allocated map holding the request's entries over the bundle (`Overlay`) |
| `EvaluationObjects.RepeatedLookupsAreIndependent` | src/main/java/org/thymeleaf/expression/ExpressionEvaluatorObjects.java:179-204 | two lookups of the same pair return distinct fresh maps; the second lookup adds nothing to the cache; a write to the first copy made between the lookups changes neither the cache nor what the second lookup returns, which is the pair's bundle |
| `GenericTokens.ParseGenericToken` | src/main/java/org/thymeleaf/standard/expression/GenericTokenExpression.java:57-68 | null input yields null; a non-null input yields a token exactly when every index is a token character, and that token wraps the input unchanged, the scan having run to the end; otherwise the scan stopped at the first failing index, `stoppedAfter - 1`, every earlier index having passed |
| `GenericTokens.ExecuteGenericToken` | src/main/java/org/thymeleaf/standard/expression/GenericTokenExpression.java:72-83 | returns the token's value; the processing context, execution context and conversion service are unused (a definition without a contract; `ExecuteIgnoresContext` and `ParseThenExecute` state its properties) |
| `GenericTokens.EmptyInputIsToken` | src/main/java/org/thymeleaf/standard/expression/GenericTokenExpression.java:61-67 | the empty string passes the scan whatever the token-character table |
| `GenericTokens.OneBadIndexRejects` | src/main/java/org/thymeleaf/standard/expression/GenericTokenExpression.java:62-65 | a single index that is not a token character rejects the whole input |
| `GenericTokens.ExecuteIgnoresContext` | src/main/java/org/thymeleaf/standard/expression/GenericTokenExpression.java:72-83 | executing a token returns its value; the processing context, execution context and conversion service do not affect the result |
| `GenericTokens.ParseThenExecute` | src/main/java/org/thymeleaf/standard/expression/GenericTokenExpression.java:57-83 | parsing a string and executing the token gives back exactly that string, and a result exists exactly when every index is a token character |

## Left out

- Concurrency: the `ConcurrentHashMap`s and the check-then-put race on both cache levels. The model is single-threaded; the race can orphan a per-locale map, so a published bundle may be lost and equal bundles built more than once.
- The in-place update of the per-locale map. In Java that map is mutated inside the outer map. Here it is taken out, updated and stored back. The model does not track the identity of the inner map objects.
- Object identity of helpers. Every miss builds new `Calendars`, `Dates`, … objects. Here helpers are values, so two builds for the same pair are equal rather than distinct objects.
- The internals of the helper classes `Calendars`, `Dates`, `Numbers`, `Strings`, `Bools`, `Objects`, `Arrays`, `Lists`, `Sets`, `Maps`, `Aggregates`, `Messages` and `Ids`. They are constructor tags; `Messages` and `Ids` carry the `Arguments` they are built from.
- Servlet request and session objects. They are opaque pass-through values.
- `Configuration.getExecutionAttributes()`. It is a map given with the configuration. The attribute's key is the variant `StandardConversionServiceAttribute`, because `StandardExpressions`, which defines its string, is not part of this model.
- The definition of `isTokenChar`. `Token` is not part of this model. The predicate is the parameter `isTokenChar`, and the recognizer queries it only at indices below the input's length.
- `Token.getValue` and `getStringRepresentation`. A token's value is the string it wraps, typed `string` rather than `Object`.
- SLF4J trace logging, `TemplateEngine.threadIndex()`, `serialVersionUID` and `toString`. They are observability or serialization only and do not affect any result.
- ParseGenericToken: the model indexes the input by Unicode characters (Dafny's `string`), while the code's `length()` and `isTokenChar(input, i)` index UTF-16 code units; for input with characters outside the Basic Multilingual Plane, the code asks about two surrogate indices where the model asks about one, and `stoppedAfter` is not Java's `inputLen`.
- The capacity and load-factor arguments of the Java maps. They do not affect contents.
