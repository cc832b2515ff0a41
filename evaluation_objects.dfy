/**
 * The evaluation-variables builder of the expression evaluator: a process-wide,
 * two-level cache of helper-object bundles keyed by conversion service and locale,
 * and the per-evaluation variable map assembled on top of a private copy of a bundle.
 */
module EvaluationObjects {
  import opened Wrappers

  /**
   * The well-known evaluation-variable names. `Text` gives the exact string each one
   * is published under; template authors reference these strings literally.
   */
  datatype VariableName =
    | ContextName | RootName | SelectionName | LocaleName | VarsName
    | HttpServletRequestName | HttpSessionName
    | CalendarsName | DatesName | BoolsName | NumbersName | ObjectsName | StringsName
    | ArraysName | ListsName | SetsName | MapsName | AggregatesName
    | MessagesName | IdsName
  {
    /** Names of the helpers every bundle holds, whatever the locale. */
    predicate IsLocaleIndependentHelper()
    {
      BoolsName? || ObjectsName? || ArraysName? || ListsName? || SetsName? || MapsName? || AggregatesName?
    }

    /** Names of the helpers a bundle holds only when it is built for a known locale. */
    predicate IsLocaleDependentHelper()
    {
      CalendarsName? || DatesName? || NumbersName? || StringsName?
    }

    predicate IsHelper()
    {
      IsLocaleIndependentHelper() || IsLocaleDependentHelper()
    }

    function Text(): string
    {
      match this
      case ContextName => "ctx"
      case RootName => "root"
      case SelectionName => "object"
      case LocaleName => "locale"
      case VarsName => "vars"
      case HttpServletRequestName => "httpServletRequest"
      case HttpSessionName => "httpSession"
      case CalendarsName => "calendars"
      case DatesName => "dates"
      case BoolsName => "bools"
      case NumbersName => "numbers"
      case ObjectsName => "objects"
      case StringsName => "strings"
      case ArraysName => "arrays"
      case ListsName => "lists"
      case SetsName => "sets"
      case MapsName => "maps"
      case AggregatesName => "aggregates"
      case MessagesName => "messages"
      case IdsName => "ids"
    }
  }

  /** The well-known name a template's literal reference resolves to, if any. */
  function NameOf(text: string): Option<VariableName>
  {
    if text == "ctx" then Some(ContextName)
    else if text == "root" then Some(RootName)
    else if text == "object" then Some(SelectionName)
    else if text == "locale" then Some(LocaleName)
    else if text == "vars" then Some(VarsName)
    else if text == "httpServletRequest" then Some(HttpServletRequestName)
    else if text == "httpSession" then Some(HttpSessionName)
    else if text == "calendars" then Some(CalendarsName)
    else if text == "dates" then Some(DatesName)
    else if text == "bools" then Some(BoolsName)
    else if text == "numbers" then Some(NumbersName)
    else if text == "objects" then Some(ObjectsName)
    else if text == "strings" then Some(StringsName)
    else if text == "arrays" then Some(ArraysName)
    else if text == "lists" then Some(ListsName)
    else if text == "sets" then Some(SetsName)
    else if text == "maps" then Some(MapsName)
    else if text == "aggregates" then Some(AggregatesName)
    else if text == "messages" then Some(MessagesName)
    else if text == "ids" then Some(IdsName)
    else None
  }

  /** Every name is found again from its string, so distinct names never share a string. */
  lemma TextRoundTrip(a: VariableName, b: VariableName)
    ensures NameOf(a.Text()) == Some(a)
    ensures a.Text() == b.Text() ==> a == b
  {
    assert NameOf(b.Text()) == Some(b);
  }

  /** Helpers every bundle holds, whatever the locale. */
  const LocaleIndependentNames: set<VariableName> :=
    {BoolsName, ObjectsName, ArraysName, ListsName, SetsName, MapsName, AggregatesName}

  /** Helpers a bundle holds only when it is built for a known locale. */
  const LocaleDependentNames: set<VariableName> :=
    {CalendarsName, DatesName, NumbersName, StringsName}

  /**
   * A conversion service, known only by identity. `NullConversionService` is the
   * private sentinel instance that stands in for an absent service as a cache key.
   */
  datatype ConversionService = NullConversionService | ServiceInstance(id: nat)

  datatype Locale = Locale(tag: string)

  /** An opaque Java object passed through unchanged (root, selection target, request, session). */
  datatype Object = Null | Instance(id: nat)

  /** The helper objects of a bundle, as constructor tags with the arguments they are built from. */
  datatype Helper =
    | Calendars(service: ConversionService, locale: Locale)
    | Dates(service: ConversionService, locale: Locale)
    | Numbers(locale: Locale)
    | Strings(locale: Locale)
    | Bools(service: ConversionService)
    | Objects
    | Arrays
    | Lists
    | Sets
    | Maps
    | Aggregates

  /** A template context; a web context also exposes the servlet request and session. */
  datatype Context =
    | PlainContext(locale: Option<Locale>)
    | WebContext(locale: Option<Locale>, request: Object, session: Object)

  /** Keys of the configuration's execution attributes. */
  datatype AttributeName = StandardConversionServiceAttribute | OtherAttribute(name: string)

  /** Values of execution attributes: a conversion service, or any other object. */
  datatype Attribute = ConversionServiceValue(service: ConversionService) | OtherValue(object: Object)

  datatype Configuration = Configuration(executionAttributes: map<AttributeName, Attribute>)

  /**
   * A processing context. `Arguments` is the richer form: it carries a configuration
   * and enables the per-invocation message and id helpers.
   */
  datatype ProcessingContext =
    | ProcessingContext(context: Context, evaluationRoot: Object, selectionTarget: Option<Object>)
    | Arguments(context: Context, evaluationRoot: Object, selectionTarget: Option<Object>,
                configuration: Configuration)

  /** What an evaluation variable may be bound to. */
  datatype Value =
    | HelperObject(helper: Helper)
    | ContextObject(context: Context)
    | LocaleObject(locale: Locale)
    | PlainObject(object: Object)
    | MessagesObject(arguments: ProcessingContext)
    | IdsObject(arguments: ProcessingContext)

  /** A bundle: helper name to helper object. */
  type Bundle = map<VariableName, Value>

  /** The cache: conversion service, then locale, to the bundle built for that pair. */
  type Cache = map<ConversionService, map<Locale, Bundle>>

  /** The cache key used for a possibly absent conversion service. */
  function DefaultedConversionService(conversionService: Option<ConversionService>): ConversionService
  {
    if conversionService.Some? then conversionService.value else NullConversionService
  }

  /**
   * The bundle for a (conversion service, locale) pair, filled in the order the
   * helpers are put: a deterministic function of the pair alone. The seven
   * locale-independent helpers are always there; the four locale-dependent ones only
   * for a known locale.
   */
  function BaseObjects(service: ConversionService, locale: Option<Locale>): (b: Bundle)
    ensures b.Keys == LocaleIndependentNames + (if locale.Some? then LocaleDependentNames else {})
    ensures forall name :: name in b ==> b[name].HelperObject?
    ensures b[BoolsName] == HelperObject(Bools(service))
    ensures && b[ObjectsName] == HelperObject(Objects) && b[ArraysName] == HelperObject(Arrays)
            && b[ListsName] == HelperObject(Lists) && b[SetsName] == HelperObject(Sets)
            && b[MapsName] == HelperObject(Maps) && b[AggregatesName] == HelperObject(Aggregates)
    ensures locale.Some? ==>
      && b[CalendarsName] == HelperObject(Calendars(service, locale.value))
      && b[DatesName] == HelperObject(Dates(service, locale.value))
      && b[NumbersName] == HelperObject(Numbers(locale.value))
      && b[StringsName] == HelperObject(Strings(locale.value))
  {
    var localized :=
      if locale.Some? then
        map[][CalendarsName := HelperObject(Calendars(service, locale.value))]
             [DatesName := HelperObject(Dates(service, locale.value))]
             [NumbersName := HelperObject(Numbers(locale.value))]
             [StringsName := HelperObject(Strings(locale.value))]
      else map[];
    localized[BoolsName := HelperObject(Bools(service))]
             [ObjectsName := HelperObject(Objects)]
             [ArraysName := HelperObject(Arrays)]
             [ListsName := HelperObject(Lists)]
             [SetsName := HelperObject(Sets)]
             [MapsName := HelperObject(Maps)]
             [AggregatesName := HelperObject(Aggregates)]
  }

  /** Every bundle in the cache is the one its key pair determines. */
  ghost predicate CacheValid(cache: Cache)
  {
    forall service, locale ::
      service in cache && locale in cache[service] ==>
        cache[service][locale] == BaseObjects(service, Some(locale))
  }

  /** The per-locale map of a service, or an empty one when the service has none yet. */
  function LocalesOf(cache: Cache, service: ConversionService): map<Locale, Bundle>
  {
    if service in cache then cache[service] else map[]
  }

  /**
   * The cache after one base-objects lookup for `service` and `locale`: the service's
   * per-locale map is installed if it was missing; on a miss for a known locale the
   * freshly built bundle is published. A null locale stops after the first step.
   */
  function AfterLookup(cache: Cache, service: ConversionService, locale: Option<Locale>): (r: Cache)
    ensures r.Keys == cache.Keys + {service}
    ensures forall other :: other in cache && other != service ==> r[other] == cache[other]
    ensures r[service].Keys ==
      LocalesOf(cache, service).Keys + (if locale.Some? then {locale.value} else {})
    ensures forall l :: l in LocalesOf(cache, service) ==> r[service][l] == LocalesOf(cache, service)[l]
    ensures locale.Some? && locale.value !in LocalesOf(cache, service) ==>
      r[service][locale.value] == BaseObjects(service, locale)
    ensures locale.Some? && service in cache && locale.value in cache[service] ==> r == cache
  {
    var installed := if service in cache then cache else cache[service := map[]];
    match locale
    case None => installed
    case Some(l) =>
      if l in installed[service] then installed
      else installed[service := installed[service][l := BaseObjects(service, locale)]]
  }

  /** A lookup keeps the cache valid and leaves the pair's bundle in it. */
  lemma AfterLookupKeepsCacheValid(cache: Cache, service: ConversionService, locale: Option<Locale>)
    requires CacheValid(cache)
    ensures CacheValid(AfterLookup(cache, service, locale))
    ensures locale.Some? ==>
      AfterLookup(cache, service, locale)[service][locale.value] == BaseObjects(service, locale)
  {
    var r := AfterLookup(cache, service, locale);
    forall s, l | s in r && l in r[s]
      ensures r[s][l] == BaseObjects(s, Some(l))
    {
      if s != service {
        assert r[s][l] == cache[s][l];
      } else if l in LocalesOf(cache, service) {
        assert r[s][l] == cache[s][l];
      } else {
        assert locale == Some(l);
      }
    }
  }

  /**
   * getOptionalConversionService: the conversion-service execution attribute when it
   * is present and is a conversion service, otherwise null.
   */
  function OptionalConversionService(configuration: Configuration): (r: Option<ConversionService>)
    ensures r.Some? <==>
      && StandardConversionServiceAttribute in configuration.executionAttributes
      && configuration.executionAttributes[StandardConversionServiceAttribute].ConversionServiceValue?
    ensures r.Some? ==>
      r.value == configuration.executionAttributes[StandardConversionServiceAttribute].service
  {
    var attributes := configuration.executionAttributes;
    if StandardConversionServiceAttribute !in attributes then None
    else
      match attributes[StandardConversionServiceAttribute]
      case ConversionServiceValue(service) => Some(service)
      case OtherValue(_) => None
  }

  /** The conversion service a processing context supplies: only `Arguments` can supply one. */
  function ConversionServiceOf(processingContext: ProcessingContext): (r: Option<ConversionService>)
    ensures r.Some? ==> processingContext.Arguments?
    ensures processingContext.Arguments? ==> r == OptionalConversionService(processingContext.configuration)
  {
    if processingContext.Arguments? then OptionalConversionService(processingContext.configuration)
    else None
  }

  /** The selection variable's value: the selection target if one is set, else the root. */
  function SelectionOf(processingContext: ProcessingContext): Object
  {
    if processingContext.selectionTarget.Some? then processingContext.selectionTarget.value
    else processingContext.evaluationRoot
  }

  /** Puts the context and its locale. */
  function PutContext(vars: map<VariableName, Value>, context: Context, locale: Locale): map<VariableName, Value>
  {
    vars[ContextName := ContextObject(context)][LocaleName := LocaleObject(locale)]
  }

  /** Puts the servlet request and session, for a web context only. */
  function PutWebHandles(vars: map<VariableName, Value>, context: Context): map<VariableName, Value>
  {
    if context.WebContext? then
      vars[HttpServletRequestName := PlainObject(context.request)][HttpSessionName := PlainObject(context.session)]
    else vars
  }

  /** Puts the evaluation root under its two synonyms, and the selection. */
  function PutRoot(vars: map<VariableName, Value>, root: Object, selection: Object): map<VariableName, Value>
  {
    vars[RootName := PlainObject(root)][VarsName := PlainObject(root)][SelectionName := PlainObject(selection)]
  }

  /** Puts the per-invocation message and id helpers, for `Arguments` only. */
  function PutInvocationHelpers(vars: map<VariableName, Value>, processingContext: ProcessingContext)
    : map<VariableName, Value>
  {
    if processingContext.Arguments? then
      vars[MessagesName := MessagesObject(processingContext)][IdsName := IdsObject(processingContext)]
    else vars
  }

  /** The request-scoped names a request binds on top of its bundle. */
  predicate IsRequestName(processingContext: ProcessingContext, name: VariableName)
  {
    || name.ContextName? || name.LocaleName? || name.RootName? || name.VarsName? || name.SelectionName?
    || (processingContext.context.WebContext? && (name.HttpServletRequestName? || name.HttpSessionName?))
    || (processingContext.Arguments? && (name.MessagesName? || name.IdsName?))
  }

  /** Every name the bundle binds is a helper name. */
  ghost predicate HelpersOnly(bundle: Bundle)
  {
    forall name :: name in bundle ==> name.IsHelper()
  }

  /** Every bundle the cache can hold binds helper names only. */
  lemma BaseObjectsHoldHelpersOnly(service: ConversionService, locale: Option<Locale>)
    ensures HelpersOnly(BaseObjects(service, locale))
  {
    var b := BaseObjects(service, locale);
    forall name | name in b ensures name.IsHelper() {
      assert name in LocaleIndependentNames + LocaleDependentNames;
    }
  }

  /**
   * A request's entries put on top of a bundle, in the order they are put: context and
   * locale, request and session for a web context, root and vars, the selection, and
   * messages and ids for `Arguments`.
   */
  function Overlay(bundle: Bundle, processingContext: ProcessingContext): map<VariableName, Value>
    requires processingContext.context.locale.Some?
  {
    var context := processingContext.context;
    var withContext := PutContext(bundle, context, context.locale.value);
    var withRoot := PutRoot(PutWebHandles(withContext, context),
                            processingContext.evaluationRoot, SelectionOf(processingContext));
    PutInvocationHelpers(withRoot, processingContext)
  }

  /** A name is bound exactly when the bundle binds it or it is a request-scoped name. */
  lemma OverlayNames(bundle: Bundle, processingContext: ProcessingContext, name: VariableName)
    requires processingContext.context.locale.Some?
    ensures name in Overlay(bundle, processingContext) <==>
      name in bundle || IsRequestName(processingContext, name)
  {
  }

  /** Over a bundle of helpers, every helper is still bound to the same helper object. */
  lemma OverlayKeepsBundle(bundle: Bundle, processingContext: ProcessingContext, name: VariableName)
    requires processingContext.context.locale.Some?
    requires HelpersOnly(bundle)
    requires name in bundle
    ensures name in Overlay(bundle, processingContext)
    ensures Overlay(bundle, processingContext)[name] == bundle[name]
  {
  }

  /**
   * `root` and `vars` are both the evaluation root; `object` is the selection target
   * when there is one and the root otherwise.
   */
  lemma OverlayRootBindings(bundle: Bundle, processingContext: ProcessingContext)
    requires processingContext.context.locale.Some?
    ensures var vars := Overlay(bundle, processingContext);
      && RootName in vars && VarsName in vars && SelectionName in vars
      && vars[RootName] == vars[VarsName] == PlainObject(processingContext.evaluationRoot)
      && (processingContext.selectionTarget.Some? ==>
            vars[SelectionName] == PlainObject(processingContext.selectionTarget.value))
      && (processingContext.selectionTarget.None? ==> vars[SelectionName] == vars[RootName])
  {
  }

  /**
   * `ctx` is the context, `locale` its locale; a web context's request and session,
   * and an `Arguments` context's message and id helpers, are bound to what it supplies.
   */
  lemma OverlayContextBindings(bundle: Bundle, processingContext: ProcessingContext)
    requires processingContext.context.locale.Some?
    ensures var vars := Overlay(bundle, processingContext);
      && ContextName in vars && vars[ContextName] == ContextObject(processingContext.context)
      && LocaleName in vars && vars[LocaleName] == LocaleObject(processingContext.context.locale.value)
      && (processingContext.context.WebContext? ==>
            && HttpServletRequestName in vars && HttpSessionName in vars
            && vars[HttpServletRequestName] == PlainObject(processingContext.context.request)
            && vars[HttpSessionName] == PlainObject(processingContext.context.session))
      && (processingContext.Arguments? ==>
            && MessagesName in vars && IdsName in vars
            && vars[MessagesName] == MessagesObject(processingContext)
            && vars[IdsName] == IdsObject(processingContext))
  {
  }

  /**
   * Over a bundle of helpers, the servlet request and session are bound exactly for a
   * web context and the message and id helpers exactly for `Arguments`.
   */
  lemma OverlayOptionalEntries(bundle: Bundle, processingContext: ProcessingContext)
    requires processingContext.context.locale.Some?
    requires HelpersOnly(bundle)
    ensures var vars := Overlay(bundle, processingContext);
      && (HttpServletRequestName in vars <==> processingContext.context.WebContext?)
      && (HttpSessionName in vars <==> processingContext.context.WebContext?)
      && (MessagesName in vars <==> processingContext.Arguments?)
      && (IdsName in vars <==> processingContext.Arguments?)
  {
    OverlayNames(bundle, processingContext, HttpServletRequestName);
    OverlayNames(bundle, processingContext, HttpSessionName);
    OverlayNames(bundle, processingContext, MessagesName);
    OverlayNames(bundle, processingContext, IdsName);
  }

  /**
   * The bools helper of a request's variables is built from the conversion service the
   * request supplies, and from the sentinel for any context that is not `Arguments`.
   */
  lemma OverlayConversionService(processingContext: ProcessingContext)
    requires processingContext.context.locale.Some?
    ensures var bundle := BaseObjects(DefaultedConversionService(ConversionServiceOf(processingContext)),
                                      processingContext.context.locale);
      var vars := Overlay(bundle, processingContext);
      && BoolsName in vars
      && (processingContext.Arguments? ==>
            vars[BoolsName] == HelperObject(Bools(DefaultedConversionService(
                                 OptionalConversionService(processingContext.configuration)))))
      && (!processingContext.Arguments? ==> vars[BoolsName] == HelperObject(Bools(NullConversionService)))
  {
    var bundle := BaseObjects(DefaultedConversionService(ConversionServiceOf(processingContext)),
                              processingContext.context.locale);
    BaseObjectsHoldHelpersOnly(DefaultedConversionService(ConversionServiceOf(processingContext)),
                               processingContext.context.locale);
    OverlayKeepsBundle(bundle, processingContext, BoolsName);
  }

  /** A caller-owned mutable variable map (a java.util.HashMap). */
  class VariableMap {
    var entries: map<VariableName, Value>

    /** `new HashMap(m)`: a new map object holding a shallow copy of `m`. */
    constructor (m: map<VariableName, Value>)
      ensures entries == m
    {
      entries := m;
    }

    method Put(name: VariableName, v: Value)
      modifies this
      ensures entries == old(entries)[name := v]
    {
      entries := entries[name := v];
    }
  }

  /**
   * The class's static state: the process-wide base-objects cache. The constructor
   * stands for class initialisation, when the cache is empty.
   */
  class ExpressionEvaluatorObjects {
    var baseObjectsCache: Cache

    ghost predicate Valid()
      reads this
    {
      CacheValid(baseObjectsCache)
    }

    constructor ()
      ensures Valid() && baseObjectsCache == map[]
    {
      baseObjectsCache := map[];
    }

    /**
     * computeBaseObjects: looks the pair up in the cache, building and publishing the
     * bundle on a miss, and returns a fresh copy of it. The per-locale map rejects a
     * null key, so a null locale throws once the service's per-locale map is installed.
     */
    method ComputeBaseObjects(conversionService: Option<ConversionService>, locale: Option<Locale>)
      returns (r: Outcome<VariableMap>)
      requires Valid()
      modifies this
      ensures Valid()
      ensures baseObjectsCache ==
        AfterLookup(old(baseObjectsCache), DefaultedConversionService(conversionService), locale)
      ensures DefaultedConversionService(conversionService) in baseObjectsCache
      ensures conversionService.None? ==> NullConversionService in baseObjectsCache
      ensures r.Threw? <==> locale.None?
      ensures r.Threw? ==> r.exception == NullPointerException
      ensures r.Returned? ==>
        && fresh(r.value)
        && r.value.entries == BaseObjects(DefaultedConversionService(conversionService), locale)
        && r.value.entries == baseObjectsCache[DefaultedConversionService(conversionService)][locale.value]
    {
      var defaultedConversionService := DefaultedConversionService(conversionService);

      var objectsByLocale: map<Locale, Bundle>;
      if defaultedConversionService in baseObjectsCache {
        objectsByLocale := baseObjectsCache[defaultedConversionService];
      } else {
        objectsByLocale := map[];
        baseObjectsCache := baseObjectsCache[defaultedConversionService := objectsByLocale];
      }

      if locale.None? {
        // objectsByLocale.get(null)
        return Threw(NullPointerException);
      }
      var key := locale.value;
      AfterLookupKeepsCacheValid(old(baseObjectsCache), defaultedConversionService, locale);

      var objects: Bundle;
      if key in objectsByLocale {
        objects := objectsByLocale[key];
      } else {
        objects := map[];
        if locale.Some? {
          objects := objects[CalendarsName := HelperObject(Calendars(defaultedConversionService, key))];
          objects := objects[DatesName := HelperObject(Dates(defaultedConversionService, key))];
          objects := objects[NumbersName := HelperObject(Numbers(key))];
          objects := objects[StringsName := HelperObject(Strings(key))];
        }
        objects := objects[BoolsName := HelperObject(Bools(defaultedConversionService))];
        objects := objects[ObjectsName := HelperObject(Objects)];
        objects := objects[ArraysName := HelperObject(Arrays)];
        objects := objects[ListsName := HelperObject(Lists)];
        objects := objects[SetsName := HelperObject(Sets)];
        objects := objects[MapsName := HelperObject(Maps)];
        objects := objects[AggregatesName := HelperObject(Aggregates)];
        assert objects == BaseObjects(defaultedConversionService, locale);

        objectsByLocale := objectsByLocale[key := objects];
        baseObjectsCache := baseObjectsCache[defaultedConversionService := objectsByLocale];
      }

      var copy := new VariableMap(objects);
      return Returned(copy);
    }

    /**
     * computeEvaluationObjects: a fresh copy of the bundle for the request's conversion
     * service and locale, with the request-scoped entries put on top in order.
     */
    method ComputeEvaluationObjects(processingContext: ProcessingContext) returns (r: Outcome<VariableMap>)
      requires Valid()
      modifies this
      ensures Valid()
      ensures baseObjectsCache ==
        AfterLookup(old(baseObjectsCache),
                    DefaultedConversionService(ConversionServiceOf(processingContext)),
                    processingContext.context.locale)
      ensures r.Threw? <==> processingContext.context.locale.None?
      ensures r.Returned? ==>
        && fresh(r.value)
        && r.value.entries == Overlay(
             BaseObjects(DefaultedConversionService(ConversionServiceOf(processingContext)),
                         processingContext.context.locale),
             processingContext)
    {
      var context := processingContext.context;
      var conversionService := ConversionServiceOf(processingContext);

      var base := ComputeBaseObjects(conversionService, context.locale);
      if base.Threw? {
        return Threw(base.exception);
      }
      var variables := base.value;

      variables.Put(ContextName, ContextObject(context));
      variables.Put(LocaleName, LocaleObject(context.locale.value));

      if context.WebContext? {
        variables.Put(HttpServletRequestName, PlainObject(context.request));
        variables.Put(HttpSessionName, PlainObject(context.session));
      }

      var evaluationRoot := processingContext.evaluationRoot;

      // root and vars are synonyms
      variables.Put(RootName, PlainObject(evaluationRoot));
      variables.Put(VarsName, PlainObject(evaluationRoot));

      if processingContext.selectionTarget.Some? {
        variables.Put(SelectionName, PlainObject(processingContext.selectionTarget.value));
      } else {
        variables.Put(SelectionName, PlainObject(evaluationRoot));
      }

      if processingContext.Arguments? {
        variables.Put(MessagesName, MessagesObject(processingContext));
        variables.Put(IdsName, IdsObject(processingContext));
      }

      return Returned(variables);
    }
  }

  /**
   * Two lookups of the same pair yield maps with equal contents in distinct objects:
   * the cache ends as after the first lookup alone, and a write to the first copy,
   * made before the second lookup, touches neither the cache nor what that lookup returns.
   */
  method RepeatedLookupsAreIndependent(
    objects: ExpressionEvaluatorObjects, service: Option<ConversionService>, locale: Locale,
    name: VariableName, v: Value)
    returns (first: VariableMap, second: VariableMap)
    requires objects.Valid()
    modifies objects
    ensures objects.Valid()
    ensures fresh(first) && fresh(second) && first != second
    ensures first.entries == BaseObjects(DefaultedConversionService(service), Some(locale))[name := v]
    ensures second.entries == BaseObjects(DefaultedConversionService(service), Some(locale))
    ensures objects.baseObjectsCache ==
      AfterLookup(old(objects.baseObjectsCache), DefaultedConversionService(service), Some(locale))
  {
    var r1 := objects.ComputeBaseObjects(service, Some(locale));
    first := r1.value;
    first.Put(name, v);
    var r2 := objects.ComputeBaseObjects(service, Some(locale));
    second := r2.value;
  }
}
