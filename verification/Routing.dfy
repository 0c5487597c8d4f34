/**
 * Which definition a read of a URI runs, and whether the answer may be cached for everyone
 * (MCPServer._resolve_resource, _shadowed and _cache_scope, with visible and bind).
 */
module Routing {
  import opened Wrappers
  import opened UriTemplates
  import opened Matching

  const MAX_URI_LENGTH := 2048

  // ------------------------------------------------------------ who sees what

  /** What of a caller decides what they see: its scopes, and the issuer of a token (None for an API key). */
  datatype Identity = Identity(scopes: set<string>, issuer: Option<string>)

  /** What of an item decides who sees it. */
  datatype Guard = Guard(requiresAuth: bool, scopes: set<string>)

  datatype Config = Config(oauth: bool, stepUp: bool, requestMiddleware: bool)

  /** auth.visible. */
  predicate Listed(identity: Option<Identity>, item: Guard) {
    if !item.requiresAuth then true
    else match identity
      case None => false
      case Some(who) => item.scopes == {} || "*" in who.scopes || who.scopes * item.scopes != {}
  }

  predicate StepsUp(config: Config, identity: Option<Identity>) {
    config.oauth && config.stepUp && identity.Some? && identity.value.issuer.Some?
  }

  predicate Visible(config: Config, identity: Option<Identity>, item: Guard) {
    StepsUp(config, identity) || Listed(identity, item)
  }

  /** auth.authorize: which error refuses the caller, if any. */
  datatype Refusal = Allowed | Unauthenticated | Unauthorized

  function Authorize(identity: Option<Identity>, item: Guard): Refusal {
    if !item.requiresAuth then Allowed
    else if identity.None? then Unauthenticated
    else if item.scopes != {} && "*" !in identity.value.scopes && identity.value.scopes * item.scopes == {}
        then Unauthorized
    else Allowed
  }

  /** The caller holds a scope the item asks for, if it asks for any. */
  ghost predicate HoldsAScope(identity: Option<Identity>, item: Guard) {
    identity.Some? && (item.scopes == {} ||
        exists scope :: scope in identity.value.scopes && (scope == "*" || scope in item.scopes))
  }

  /**
   * Who sees an item and who may use it: everyone one that is not protected, and a protected one whoever holds a
   * scope it asks for; with step-up every token sees it, and is told what it lacks when it asks.
   */
  lemma WhoSees(config: Config, identity: Option<Identity>, item: Guard)
    ensures Visible(config, identity, item) <==>
      !item.requiresAuth || HoldsAScope(identity, item) ||
      (config.oauth && config.stepUp && identity.Some? && identity.value.issuer.Some?)
    ensures Authorize(identity, item) ==
      if !item.requiresAuth || HoldsAScope(identity, item) then Allowed
      else if identity.None? then Unauthenticated else Unauthorized
  {
    if identity.Some? {
      var held := identity.value.scopes;
      assert "*" in held ==> exists scope :: scope in held && scope == "*";
      assert forall scope :: scope in held * item.scopes <==> scope in held && scope in item.scopes;
      if held * item.scopes != {} { var scope :| scope in held * item.scopes; }
    }
  }

  datatype VisibilityClass = Anonymous | SeesAll | Scoped(scopes: set<string>)

  function ClassOf(config: Config, identity: Option<Identity>): VisibilityClass {
    match identity
    case None => Anonymous
    case Some(who) => if StepsUp(config, identity) then SeesAll else Scoped(who.scopes)
  }

  /** Callers of one class see the same items, so a digest kept per class is right for each of them. */
  lemma ClassDecidesVisibility(config: Config, a: Option<Identity>, b: Option<Identity>, items: seq<Guard>)
    requires ClassOf(config, a) == ClassOf(config, b)
    ensures forall k :: 0 <= k < |items| ==> (Visible(config, a, items[k]) <==> Visible(config, b, items[k]))
    ensures !StepsUp(config, a) ==> forall k :: 0 <= k < |items| ==>
      (Listed(a, items[k]) <==> Authorize(b, items[k]) == Allowed)
  {
  }

  // ------------------------------------------------------------- definitions

  datatype Resource = Resource(uri: string, guard: Guard)

  /** A template: convert gives the argument a parameter's value converts to, or None (ValueError). */
  datatype Template<!A> = Template(uriTemplate: string, template: UriTemplate, convert: (string, string) -> Option<A>,
      guard: Guard)

  datatype Definition<!A> = Concrete(resource: Resource) | Templated(template: Template<A>) {
    function Guarded(): Guard {
      match this case Concrete(r) => r.guard case Templated(t) => t.guard
    }
  }

  datatype Registry<!A> = Registry(resources: map<string, Resource>, templates: map<string, Template<A>>,
      version: nat) {
    ghost predicate Valid() {
      && (forall uri :: uri in resources ==> resources[uri].uri == uri)
      && (forall key :: key in templates ==> templates[key].uriTemplate == key && templates[key].template.WellFormed())
    }
  }

  function LiteralLength(literals: seq<string>): nat {
    if literals == [] then 0 else |literals[0]| + LiteralLength(literals[1..])
  }

  /** Lexicographic order on text. */
  predicate TextBefore(a: string, b: string) {
    b != "" && (a == "" || a[0] < b[0] || (a[0] == b[0] && TextBefore(a[1..], b[1..])))
  }

  /** The key templates_by_specificity sorts by: most literal characters first, then by text. */
  predicate TriedBefore<A>(a: Template<A>, b: Template<A>) {
    var la, lb := LiteralLength(a.template.literals), LiteralLength(b.template.literals);
    la > lb || (la == lb && TextBefore(a.uriTemplate, b.uriTemplate))
  }

  /** What templates_by_specificity returns. */
  ghost predicate BySpecificity<A>(registry: Registry<A>, order: seq<Template<A>>) {
    && (forall i, j :: 0 <= i < j < |order| ==> TriedBefore(order[i], order[j]))
    && (forall i :: 0 <= i < |order| ==>
        order[i].uriTemplate in registry.templates && registry.templates[order[i].uriTemplate] == order[i])
    && (forall key :: key in registry.templates ==> exists i :: 0 <= i < |order| && order[i].uriTemplate == key)
  }

  predicate AllWellFormed<A>(order: seq<Template<A>>) {
    forall k :: 0 <= k < |order| ==> order[k].template.WellFormed()
  }

  /** The arguments of the first n variables, or None when one does not convert. */
  function BoundTo<A>(t: Template<A>, values: map<string, string>, n: nat): Option<map<string, A>>
    requires n <= |t.template.variables| && forall k :: 0 <= k < |t.template.variables| ==>
      t.template.variables[k] in values
  {
    if n == 0 then Some(map[])
    else match BoundTo(t, values, n - 1)
      case None => None
      case Some(bound) =>
        var name := t.template.variables[n - 1];
        match t.convert(name, values[name])
        case None => None
        case Some(value) => Some(bound[name := value])
  }

  /** The function's arguments for the URI, or None when it does not match. */
  function Bind<A>(unquote: Unquote, t: Template<A>, uri: string): Option<map<string, A>>
    requires t.template.WellFormed()
  {
    match Match(unquote, t.template, uri)
    case None => None
    case Some(values) =>
      if forall k :: 0 <= k < |t.template.variables| ==> t.template.variables[k] in values
      then BoundTo(t, values, |t.template.variables|) else None
  }

  lemma {:induction false} BoundToWhen<A>(t: Template<A>, values: map<string, string>, n: nat)
    requires n <= |t.template.variables| && forall k :: 0 <= k < |t.template.variables| ==>
      t.template.variables[k] in values
    ensures BoundTo(t, values, n).Some? <==>
      forall k :: 0 <= k < n ==> t.convert(t.template.variables[k], values[t.template.variables[k]]).Some?
    ensures BoundTo(t, values, n).Some? ==>
      BoundTo(t, values, n).value.Keys == set name | name in t.template.variables[..n]
  {
    if n > 0 {
      BoundToWhen(t, values, n - 1);
      assert t.template.variables[..n] == t.template.variables[..n - 1] + [t.template.variables[n - 1]];
    }
  }

  lemma {:induction false} BoundToAt<A>(t: Template<A>, values: map<string, string>, n: nat, k: nat)
    requires t.template.WellFormed() && k < n <= |t.template.variables| &&
      forall k :: 0 <= k < |t.template.variables| ==> t.template.variables[k] in values
    requires BoundTo(t, values, n).Some?
    ensures var name, bound := t.template.variables[k], BoundTo(t, values, n).value;
      name in bound && t.convert(name, values[name]) == Some(bound[name])
  {
    BoundToWhen(t, values, n);
    if k < n - 1 {
      BoundToAt(t, values, n - 1, k);
      assert t.template.variables[k] != t.template.variables[n - 1];
    }
  }

  /** Every value converts, each to the argument of its own parameter, and there is no other argument. */
  ghost predicate Converts<A>(t: Template<A>, values: map<string, string>, bound: map<string, A>) {
    && bound.Keys == (set name | name in t.template.variables)
    && forall name :: name in t.template.variables ==>
        name in values && t.convert(name, values[name]) == Some(bound[name])
  }

  lemma BoundMeans<A>(t: Template<A>, values: map<string, string>)
    requires t.template.WellFormed() && forall k :: 0 <= k < |t.template.variables| ==>
      t.template.variables[k] in values
    ensures var r := BoundTo(t, values, |t.template.variables|);
      && (r.Some? ==> Converts(t, values, r.value))
      && (r.None? ==> exists name :: name in t.template.variables && t.convert(name, values[name]).None?)
  {
    var names := t.template.variables;
    var r := BoundTo(t, values, |names|);
    BoundToWhen(t, values, |names|);
    assert names[..|names|] == names;
    if r.Some? {
      forall name | name in names ensures name in values && t.convert(name, values[name]) == Some(r.value[name]) {
        var k :| 0 <= k < |names| && names[k] == name;
        BoundToAt(t, values, |names|, k);
      }
    }
  }

  method BindUri<A>(unquote: Unquote, t: Template<A>, uri: string) returns (r: Option<map<string, A>>)
    requires t.template.WellFormed()
    ensures r == Bind(unquote, t, uri)
    // the arguments are what the values of the match convert to; there are none where one does not convert
    ensures var values := Match(unquote, t.template, uri);
      && (r.Some? ==> values.Some? && Converts(t, values.value, r.value))
      && (r.None? && values.Some? ==> exists name ::
          name in t.template.variables && name in values.value && t.convert(name, values.value[name]).None?)
  {
    var values := MatchUri(unquote, t.template, uri);
    if values.None? { return None; }
    hide Match, BoundTo, Converts;
    BoundMeans(t, values.value);
    r := BindValues(t, values.value);
  }

  /** The loop of bind: the first value that is no value of its parameter's type ends it. */
  method BindValues<A>(t: Template<A>, values: map<string, string>) returns (r: Option<map<string, A>>)
    requires forall k :: 0 <= k < |t.template.variables| ==> t.template.variables[k] in values
    ensures r == BoundTo(t, values, |t.template.variables|)
  {
    var bound: map<string, A> := map[];
    for i := 0 to |t.template.variables|
      invariant BoundTo(t, values, i) == Some(bound)
    {
      var name := t.template.variables[i];
      var value := t.convert(name, values[name]);
      if value.None? {
        UnboundStays(t, values, i + 1, |t.template.variables|);
        return None;
      }
      bound := bound[name := value.value];
    }
    r := Some(bound);
  }

  lemma {:induction false} UnboundStays<A>(t: Template<A>, values: map<string, string>, m: nat, n: nat)
    requires m <= n <= |t.template.variables| && forall k :: 0 <= k < |t.template.variables| ==>
      t.template.variables[k] in values
    requires BoundTo(t, values, m).None?
    ensures BoundTo(t, values, n).None?
    decreases n
  {
    if m < n { UnboundStays(t, values, m, n - 1); }
  }

  /** A URI a template binds is one that some values of it expand to. */
  lemma BoundFits<A>(unquote: Unquote, t: Template<A>, uri: string)
    requires t.template.WellFormed() && Bind(unquote, t, uri).Some?
    ensures exists vs :: Fits(t.template, vs, uri)
  {
    BacktrackSound(t.template, uri, 0, |t.template.literals[0]|, |uri|);
    var ends := Greedy(t.template, uri).value;
    assert IsSplit(t.template, uri, ends);
    assert uri[0..] == uri;
    SplitFits(t.template, 0, uri, 0, ends);
    assert Fits(t.template, Values(t.template, uri, ends), uri);
  }

  // -------------------------------------------------------- what a read runs

  datatype Resolution<!A> = Resolution(definition: Option<Definition<A>>, arguments: map<string, A>, hidden: bool)

  /** The first of order[i..] that binds the URI and the caller sees. */
  function FirstVisible<A>(config: Config, unquote: Unquote, order: seq<Template<A>>, i: nat, uri: string,
                           identity: Option<Identity>, hidden: bool): Resolution<A>
    requires AllWellFormed(order)
    requires i <= |order|
    decreases |order| - i
  {
    if i == |order| then Resolution(None, map[], hidden)
    else match Bind(unquote, order[i], uri)
      case None => FirstVisible(config, unquote, order, i + 1, uri, identity, hidden)
      case Some(arguments) =>
        if Visible(config, identity, order[i].guard) then Resolution(Some(Templated(order[i])), arguments, false)
        else FirstVisible(config, unquote, order, i + 1, uri, identity, true)
  }

  function Resolve<A>(config: Config, unquote: Unquote, registry: Registry<A>, order: seq<Template<A>>, uri: string,
                      identity: Option<Identity>): Resolution<A>
    requires AllWellFormed(order)
  {
    if |uri| > MAX_URI_LENGTH then Resolution(None, map[], false)
    else if uri in registry.resources && Visible(config, identity, registry.resources[uri].guard)
    then Resolution(Some(Concrete(registry.resources[uri])), map[], false)
    else FirstVisible(config, unquote, order, 0, uri, identity, uri in registry.resources)
  }

  method ResolveResource<A>(config: Config, unquote: Unquote, registry: Registry<A>, order: seq<Template<A>>,
      uri: string,
                            identity: Option<Identity>) returns (r: Resolution<A>)
    requires registry.Valid() && BySpecificity(registry, order)
    ensures r == Resolve(config, unquote, registry, order, uri, identity)
  {
    if |uri| > MAX_URI_LENGTH { return Resolution(None, map[], false); }
    var hidden := false;
    if uri in registry.resources {
      var concrete := registry.resources[uri];
      if Visible(config, identity, concrete.guard) { return Resolution(Some(Concrete(concrete)), map[], false); }
      hidden := true;
    }
    for i := 0 to |order|
      invariant Resolve(config, unquote, registry, order, uri, identity) ==
                FirstVisible(config, unquote, order, i, uri, identity, hidden)
    {
      var arguments := BindUri(unquote, order[i], uri);
      if arguments.Some? {
        if Visible(config, identity, order[i].guard) {
          return Resolution(Some(Templated(order[i])), arguments.value, false);
        }
        hidden := true;
      }
    }
    r := Resolution(None, map[], hidden);
  }

  // ---------------------------------------------------- templates in a shadow

  /** A protected template tried before order[i] that may match the same URIs. */
  predicate EarlierOverlaps<A>(order: seq<Template<A>>, i: nat)
    requires AllWellFormed(order) && i < |order|
  {
    exists j :: 0 <= j < i && order[j].guard.requiresAuth && MayOverlap(order[j].template, order[i].template)
  }

  /** A protected concrete resource whose URI the template binds. */
  predicate HidesConcrete<A>(unquote: Unquote, resources: map<string, Resource>, t: Template<A>)
    requires t.template.WellFormed()
  {
    exists uri :: uri in resources && resources[uri].guard.requiresAuth && Bind(unquote, t, uri).Some?
  }

  predicate Shadowed<A>(unquote: Unquote, resources: map<string, Resource>, order: seq<Template<A>>, i: nat)
    requires AllWellFormed(order) && i < |order|
  {
    !order[i].guard.requiresAuth && (EarlierOverlaps(order, i) || HidesConcrete(unquote, resources, order[i]))
  }

  function ShadowedNames<A>(unquote: Unquote, resources: map<string, Resource>, order: seq<Template<A>>): set<string>
    requires AllWellFormed(order)
  {
    set i | 0 <= i < |order| && Shadowed(unquote, resources, order, i) :: order[i].uriTemplate
  }

  /** The server's _shadowed_templates: a set of template names, and the registry version it was read after. */
  class ShadowCache<A(!new)> {
    const unquote: Unquote
    var version: int
    var names: set<string>

    constructor (unquote: Unquote)
      ensures this.unquote == unquote && version == -1 && names == {}
    {
      this.unquote, version, names := unquote, -1, {};
    }

    /** The set belongs to the registry as it is now, if it has its version; no newer one was seen. */
    ghost predicate Fresh(registry: Registry<A>)
      reads this
    {
      && version <= registry.version
      && (version == registry.version ==>
          forall order :: BySpecificity(registry, order) && AllWellFormed(order) ==>
            names == ShadowedNames(unquote, registry.resources, order))
    }

    /** Every public template's name that a protected item may answer for. */
    method FindShadowed(resources: map<string, Resource>, order: seq<Template<A>>) returns (found: set<string>)
      requires AllWellFormed(order)
      ensures found == ShadowedNames(unquote, resources, order)
    {
      hide MayOverlap, Bind, Shadowed, NamesTo;
      var protected := map uri | uri in resources && resources[uri].guard.requiresAuth :: resources[uri];
      var earlier: seq<Template<A>> := [];
      ghost var places: seq<nat> := [];
      found := {};
      NamesAre(unquote, resources, order);
      for i := 0 to |order|
        invariant |places| == |earlier|
        invariant forall k :: 0 <= k < |earlier| ==>
          places[k] < i && order[places[k]] == earlier[k] && earlier[k].guard.requiresAuth
        invariant forall j :: 0 <= j < i && order[j].guard.requiresAuth ==> order[j] in earlier
        invariant found == NamesTo(unquote, resources, order, i)
      {
        var candidate := order[i];
        NamesMore(unquote, resources, order, i);
        if candidate.guard.requiresAuth {
          earlier, places := earlier + [candidate], places + [i];
        } else {
          var overlaps := exists k :: 0 <= k < |earlier| && MayOverlap(earlier[k].template, candidate.template);
          var hides := exists uri :: uri in protected && Bind(unquote, candidate, uri).Some?;
          OverlapsAre(order, i, earlier, places);
          assert hides == HidesConcrete(unquote, resources, candidate);
          if overlaps || hides { found := found + {candidate.uriTemplate}; }
        }
      }
    }

    /**
     * Whether the template is shadowed.  The three looks at the registry (its version, its resources, its templates
     * in order) are separate, and it may have changed between them.
     */
    method IsShadowed(seen: Registry<A>, listed: Registry<A>, sorted: Registry<A>, order: seq<Template<A>>,
        name: string)
        returns (shadowed: bool)
      requires Fresh(seen) && Later(seen, listed) && Later(listed, sorted)
      requires AllWellFormed(order) && BySpecificity(sorted, order)
      modifies this
      ensures forall now: Registry<A> :: Later(sorted, now) ==> Fresh(now)
      ensures seen == sorted ==> shadowed == (name in ShadowedNames(unquote, seen.resources, order))
    {
      hide BySpecificity, ShadowedNames, AllWellFormed;
      if version != seen.version {
        var found := FindShadowed(listed.resources, order);
        version, names := seen.version, found;
      }
      shadowed := name in names;
      forall now: Registry<A>, other: seq<Template<A>> | BySpecificity(now, order) && BySpecificity(now, other)
        ensures order == other
      {
        OrderIsUnique(now, order, other);
      }
    }
  }

  /** The shadowed names among the first n templates. */
  ghost function NamesTo<A>(unquote: Unquote, resources: map<string, Resource>, order: seq<Template<A>>,
      n: nat): set<string>
    requires AllWellFormed(order) && n <= |order|
  {
    set j | 0 <= j < n && Shadowed(unquote, resources, order, j) :: order[j].uriTemplate
  }

  lemma NamesAre<A>(unquote: Unquote, resources: map<string, Resource>, order: seq<Template<A>>)
    requires AllWellFormed(order)
    ensures NamesTo(unquote, resources, order, 0) == {}
    ensures NamesTo(unquote, resources, order, |order|) == ShadowedNames(unquote, resources, order)
  {
    hide Shadowed;
  }

  lemma NamesMore<A>(unquote: Unquote, resources: map<string, Resource>, order: seq<Template<A>>, i: nat)
    requires AllWellFormed(order) && i < |order|
    ensures NamesTo(unquote, resources, order, i + 1) == NamesTo(unquote, resources, order, i) +
      if Shadowed(unquote, resources, order, i) then {order[i].uriTemplate} else {}
    ensures Shadowed(unquote, resources, order, i) <==>
      !order[i].guard.requiresAuth && (EarlierOverlaps(order, i) || HidesConcrete(unquote, resources, order[i]))
  {
    hide EarlierOverlaps, HidesConcrete;
  }

  /** The protected templates seen so far are those tried before. */
  lemma OverlapsAre<A>(order: seq<Template<A>>, i: nat, earlier: seq<Template<A>>, places: seq<nat>)
    requires AllWellFormed(order) && i < |order| && |places| == |earlier|
    requires forall k :: 0 <= k < |earlier| ==>
      places[k] < i && order[places[k]] == earlier[k] && earlier[k].guard.requiresAuth
    requires forall j :: 0 <= j < i && order[j].guard.requiresAuth ==> order[j] in earlier
    ensures EarlierOverlaps(order, i) <==>
      exists k :: 0 <= k < |earlier| && MayOverlap(earlier[k].template, order[i].template)
  {
    hide MayOverlap;
  }

  lemma {:induction false} TextBeforeAsymmetric(a: string, b: string)
    ensures !(TextBefore(a, b) && TextBefore(b, a))
  {
    if a != "" && b != "" { TextBeforeAsymmetric(a[1..], b[1..]); }
  }

  lemma TriedOneWay<A>(a: Template<A>, b: Template<A>)
    ensures !(TriedBefore(a, b) && TriedBefore(b, a))
  {
    TextBeforeAsymmetric(a.uriTemplate, b.uriTemplate);
  }

  /** There is one order in which templates are tried. */
  lemma OrderIsUnique<A>(registry: Registry<A>, order: seq<Template<A>>, other: seq<Template<A>>)
    requires BySpecificity(registry, order) && BySpecificity(registry, other)
    ensures order == other
  {
    hide TriedBefore;
    SameUpTo(registry, order, other, |order|);
    SameUpTo(registry, other, order, |other|);
  }

  lemma PlaceOf<A>(registry: Registry<A>, order: seq<Template<A>>, other: seq<Template<A>>, m: nat) returns (j: nat)
    requires BySpecificity(registry, order) && BySpecificity(registry, other)
    requires m < |order| && m <= |other| && forall i :: 0 <= i < m ==> order[i] == other[i]
    ensures m <= j < |other| && other[j] == order[m]
  {
    hide TriedBefore;
    var a := order[m];
    j :| 0 <= j < |other| && other[j].uriTemplate == a.uriTemplate;
    if j < m {
      assert TriedBefore(order[j], a);
      TriedOneWay(a, a);
    }
  }

  lemma {:induction false} SameUpTo<A>(registry: Registry<A>, order: seq<Template<A>>, other: seq<Template<A>>, n: nat)
    requires BySpecificity(registry, order) && BySpecificity(registry, other) && n <= |order|
    ensures n <= |other| && forall i :: 0 <= i < n ==> order[i] == other[i]
  {
    hide TriedBefore;
    if n > 0 {
      SameUpTo(registry, order, other, n - 1);
      var j := PlaceOf(registry, order, other, n - 1);
      var i := PlaceOf(registry, other, order, n - 1);
      TriedOneWay(order[n - 1], other[n - 1]);
    }
  }

  /** The registry as it was at one moment, and as it is after any changes: each one takes a new version. */
  ghost predicate Later<A(!new)>(before: Registry<A>, after: Registry<A>) {
    before.version <= after.version && (before.version == after.version ==> before == after)
  }

  /** What register and unregister leave; None where they refuse. */
  function Registered<A>(registry: Registry<A>, definition: Definition<A>): Option<Registry<A>> {
    match definition
    case Concrete(r) =>
      if r.uri in registry.resources then None
      else Some(registry.(resources := registry.resources[r.uri := r], version := registry.version + 1))
    case Templated(t) =>
      if t.uriTemplate in registry.templates then None
      else Some(registry.(templates := registry.templates[t.uriTemplate := t], version := registry.version + 1))
  }

  function Unregistered<A>(registry: Registry<A>, uri: string): Option<Registry<A>> {
    if uri in registry.resources
        then Some(registry.(resources := registry.resources - {uri}, version := registry.version + 1))
    else if uri in registry.templates
        then Some(registry.(templates := registry.templates - {uri}, version := registry.version + 1))
    else None
  }

  /**
   * Every change keeps the registry well formed and takes a version no earlier registry had; unregistering what was
   * just registered takes it out again.
   */
  lemma ChangesAreVersioned<A(!new)>(registry: Registry<A>, definition: Definition<A>, uri: string)
    requires registry.Valid() && (definition.Templated? ==> definition.template.template.WellFormed())
    ensures var after := Registered(registry, definition);
      after.Some? ==> after.value.Valid() && Later(registry, after.value) && !Later(after.value, registry)
    ensures var after := Unregistered(registry, uri);
      after.Some? ==> after.value.Valid() && Later(registry, after.value) && !Later(after.value, registry)
    ensures var key := match definition case Concrete(r) => r.uri case Templated(t) => t.uriTemplate;
      Registered(registry, definition).Some? && key !in registry.resources && key !in registry.templates ==>
        Unregistered(Registered(registry, definition).value, key) == Some(registry.(version := registry.version + 2))
  {
    match definition
    case Concrete(r) =>
      if r.uri !in registry.resources { assert registry.resources[r.uri := r] - {r.uri} == registry.resources; }
    case Templated(t) =>
      if t.uriTemplate !in registry.templates { assert registry.templates[t.uriTemplate := t] - {t.uriTemplate} ==
          registry.templates; }
  }

  class ResourceRegistry<A(!new)> {
    var resources: map<string, Resource>
    var templates: map<string, Template<A>>
    var version: nat

    constructor ()
      ensures Contents() == Registry(map[], map[], 0)
    {
      resources, templates, version := map[], map[], 0;
    }

    function Contents(): Registry<A>
      reads this
    {
      Registry(resources, templates, version)
    }

    method Register(definition: Definition<A>) returns (ok: bool)
      modifies this
      ensures ok == Registered(old(Contents()), definition).Some?
      // refused only where the key is taken, and else it is there under it, and all else as it was
      ensures definition.Concrete? ==>
        && ok == (definition.resource.uri !in old(resources)) && templates == old(templates)
        && (ok ==> resources == old(resources)[definition.resource.uri := definition.resource])
      ensures definition.Templated? ==>
        && ok == (definition.template.uriTemplate !in old(templates)) && resources == old(resources)
        && (ok ==> templates == old(templates)[definition.template.uriTemplate := definition.template])
      ensures Contents() == if ok then Registered(old(Contents()), definition).value else old(Contents())
    {
      match definition {
        case Templated(t) =>
          if t.uriTemplate in templates { return false; }
          templates := templates[t.uriTemplate := t];
        case Concrete(r) =>
          if r.uri in resources { return false; }
          resources := resources[r.uri := r];
      }
      version := version + 1;
      ok := true;
    }

    method Unregister(uri: string) returns (ok: bool)
      modifies this
      ensures ok == Unregistered(old(Contents()), uri).Some?
      // the resource of that URI goes, or else the template of that text; refused where there is neither
      ensures ok == (uri in old(resources) || uri in old(templates)) && resources == old(resources) - {uri}
      ensures templates == if uri in old(resources) then old(templates) else old(templates) - {uri}
      ensures Contents() == if ok then Unregistered(old(Contents()), uri).value else old(Contents())
    {
      if uri in resources { resources := resources - {uri}; }
      else if uri in templates { templates := templates - {uri}; }
      else { return false; }
      version := version + 1;
      ok := true;
    }
  }

  // ------------------------------------------------------ sharing an answer

  datatype Scope = Public | Private

  /** The cacheScope of a resources/read that ran the definition. */
  ghost function CacheScope<A>(config: Config, unquote: Unquote, registry: Registry<A>, order: seq<Template<A>>,
                               definition: Definition<A>, retry: bool): Scope
    requires AllWellFormed(order)
  {
    if retry || definition.Guarded().requiresAuth || config.oauth || config.requestMiddleware then Private
    else if definition.Templated? &&
        definition.template.uriTemplate in ShadowedNames(unquote, registry.resources, order) then Private
    else Public
  }

  /** No item a public, unshadowed template competes with binds a URI that it binds. */
  lemma NothingInTheWay<A>(unquote: Unquote, registry: Registry<A>, order: seq<Template<A>>, i: nat, uri: string)
    requires registry.Valid() && BySpecificity(registry, order) && AllWellFormed(order) && i < |order|
    requires !order[i].guard.requiresAuth && order[i].uriTemplate !in ShadowedNames(unquote, registry.resources, order)
    requires Bind(unquote, order[i], uri).Some?
    ensures uri in registry.resources ==> !registry.resources[uri].guard.requiresAuth
    ensures forall j :: 0 <= j < i && order[j].guard.requiresAuth ==> Bind(unquote, order[j], uri).None?
  {
    hide Bind, MayOverlap;
    assert !Shadowed(unquote, registry.resources, order, i);
    forall j | 0 <= j < i && order[j].guard.requiresAuth ensures Bind(unquote, order[j], uri).None? {
      if Bind(unquote, order[j], uri).Some? {
        BoundFits(unquote, order[j], uri);
        BoundFits(unquote, order[i], uri);
        var vs :| Fits(order[j].template, vs, uri);
        var ws :| Fits(order[i].template, ws, uri);
        SharedUriOverlaps(order[j].template, order[i].template, uri, vs, ws);
      }
    }
  }

  /** Where the walk over the templates stops, and that it passed over those before. */
  lemma {:induction false} FoundAt<A>(config: Config, unquote: Unquote, order: seq<Template<A>>, i: nat, uri: string,
                                      identity: Option<Identity>, hidden: bool) returns (at: nat)
    requires AllWellFormed(order) && i <= |order|
    requires FirstVisible(config, unquote, order, i, uri, identity, hidden).definition.Some?
    ensures i <= at < |order| && Visible(config, identity, order[at].guard)
    ensures Bind(unquote, order[at], uri).Some?
    ensures FirstVisible(config, unquote, order, i, uri, identity, hidden)
         == Resolution(Some(Templated(order[at])), Bind(unquote, order[at], uri).value, false)
    ensures forall k :: i <= k < at && Bind(unquote, order[k], uri).Some? ==> !Visible(config, identity, order[k].guard)
    decreases |order| - i
  {
    hide Bind, Visible;
    if Bind(unquote, order[i], uri).Some? && Visible(config, identity, order[i].guard) {
      at := i;
    } else {
      at := FoundAt(config, unquote, order, i + 1, uri, identity, hidden || Bind(unquote, order[i], uri).Some?);
    }
  }

  lemma {:induction false} ReachesAt<A>(config: Config, unquote: Unquote, order: seq<Template<A>>, i: nat, at: nat,
      uri: string,
                                        identity: Option<Identity>, hidden: bool)
    requires AllWellFormed(order) && i <= at < |order|
    requires Visible(config, identity, order[at].guard) && Bind(unquote, order[at], uri).Some?
    requires forall k :: i <= k < at ==> Bind(unquote, order[k], uri).None?
    ensures FirstVisible(config, unquote, order, i, uri, identity, hidden)
         == Resolution(Some(Templated(order[at])), Bind(unquote, order[at], uri).value, false)
    decreases at - i
  {
    hide Bind, Visible;
    if i < at { ReachesAt(config, unquote, order, i + 1, at, uri, identity, hidden); }
  }

  /** The template binds the URI and the caller sees it. */
  predicate Takes<A>(config: Config, unquote: Unquote, t: Template<A>, uri: string, identity: Option<Identity>)
    requires t.template.WellFormed()
  {
    Bind(unquote, t, uri).Some? && Visible(config, identity, t.guard)
  }

  /** Where the walk finds nothing, nothing takes the URI, and it says whether something only binds it. */
  lemma {:induction false} NoneFound<A>(config: Config, unquote: Unquote, order: seq<Template<A>>, i: nat, uri: string,
      identity: Option<Identity>, hidden: bool)
    requires AllWellFormed(order) && i <= |order|
    requires FirstVisible(config, unquote, order, i, uri, identity, hidden).definition.None?
    ensures forall k :: i <= k < |order| ==> !Takes(config, unquote, order[k], uri, identity)
    ensures FirstVisible(config, unquote, order, i, uri, identity, hidden) == Resolution(None, map[],
      hidden || exists k :: i <= k < |order| && Bind(unquote, order[k], uri).Some?)
    decreases |order| - i
  {
    hide Bind, Visible;
    if i < |order| {
      NoneFound(config, unquote, order, i + 1, uri, identity, hidden || Bind(unquote, order[i], uri).Some?);
    }
  }

  /** a is preferred to b: it has more literal characters, or as many and comes first by text. */
  ghost predicate Preferred<A>(a: Template<A>, b: Template<A>) {
    var la, lb := LiteralLength(a.template.literals), LiteralLength(b.template.literals);
    lb < la || (lb == la && TextBefore(a.uriTemplate, b.uriTemplate))
  }

  /** What the walk over the templates comes to. */
  ghost predicate WalkRuns<A>(config: Config, unquote: Unquote, registry: Registry<A>, order: seq<Template<A>>,
      uri: string, identity: Option<Identity>, r: Resolution<A>)
    requires AllWellFormed(order)
  {
    match r.definition
    case Some(Templated(t)) =>
      && t in order && Takes(config, unquote, t, uri, identity) && !r.hidden
      && Bind(unquote, t, uri) == Some(r.arguments)
      && (forall other :: other in order && Takes(config, unquote, other, uri, identity) && other != t ==>
            Preferred(t, other))
    case Some(Concrete(_)) => false
    case None =>
      && (forall t :: t in order ==> !Takes(config, unquote, t, uri, identity)) && r.arguments == map[]
      && (r.hidden <==> uri in registry.resources || exists t :: t in order && Bind(unquote, t, uri).Some?)
  }

  lemma WalkFinds<A>(config: Config, unquote: Unquote, registry: Registry<A>, order: seq<Template<A>>, uri: string,
      identity: Option<Identity>)
    requires BySpecificity(registry, order) && AllWellFormed(order)
    ensures WalkRuns(config, unquote, registry, order, uri, identity,
      FirstVisible(config, unquote, order, 0, uri, identity, uri in registry.resources))
  {
    hide Bind, Visible, TriedBefore, Preferred, WalkRuns;
    var hidden := uri in registry.resources;
    if FirstVisible(config, unquote, order, 0, uri, identity, hidden).definition.None? {
      WalkFindsNothing(config, unquote, registry, order, uri, identity);
    } else {
      var at := FoundAt(config, unquote, order, 0, uri, identity, hidden);
      WalkFindsOne(config, unquote, registry, order, uri, identity, at,
          FirstVisible(config, unquote, order, 0, uri, identity, hidden));
    }
  }

  lemma WalkFindsNothing<A>(config: Config, unquote: Unquote, registry: Registry<A>, order: seq<Template<A>>,
      uri: string, identity: Option<Identity>)
    requires AllWellFormed(order)
    requires FirstVisible(config, unquote, order, 0, uri, identity, uri in registry.resources).definition.None?
    ensures WalkRuns(config, unquote, registry, order, uri, identity,
      FirstVisible(config, unquote, order, 0, uri, identity, uri in registry.resources))
  {
    hide Bind, Visible, TriedBefore, Preferred;
    NoneFound(config, unquote, order, 0, uri, identity, uri in registry.resources);
    if exists t :: t in order && Bind(unquote, t, uri).Some? {
      var t :| t in order && Bind(unquote, t, uri).Some?;
      var k :| 0 <= k < |order| && order[k] == t;
    }
  }

  lemma WalkFindsOne<A>(config: Config, unquote: Unquote, registry: Registry<A>, order: seq<Template<A>>,
      uri: string, identity: Option<Identity>, at: nat, found: Resolution<A>)
    requires BySpecificity(registry, order) && AllWellFormed(order) && at < |order|
    requires Takes(config, unquote, order[at], uri, identity)
    requires found == Resolution(Some(Templated(order[at])), Bind(unquote, order[at], uri).value, false)
    requires forall k :: 0 <= k < at ==> !Takes(config, unquote, order[k], uri, identity)
    ensures WalkRuns(config, unquote, registry, order, uri, identity, found)
  {
    hide Bind, Visible, TextBefore, LiteralLength;
    forall other | other in order && Takes(config, unquote, other, uri, identity) && other != order[at]
      ensures Preferred(order[at], other)
    {
      var k :| 0 <= k < |order| && order[k] == other;
      assert TriedBefore(order[at], order[k]);
    }
  }

  /**
   * What a read runs: the resource of that very URI, if the caller sees it; else, of the templates that bind the URI
   * and that the caller sees, the preferred one with the arguments it binds; else nothing, and then hidden says
   * whether anything is there at all.  A URI over 2048 characters runs nothing.
   */
  lemma WhatAReadRuns<A>(config: Config, unquote: Unquote, registry: Registry<A>, order: seq<Template<A>>, uri: string,
      identity: Option<Identity>)
    requires registry.Valid() && BySpecificity(registry, order) && AllWellFormed(order)
    ensures var r := Resolve(config, unquote, registry, order, uri, identity);
      if |uri| > 2048 then r == Resolution(None, map[], false)
      else if uri in registry.resources && Visible(config, identity, registry.resources[uri].guard)
        then r == Resolution(Some(Concrete(registry.resources[uri])), map[], false)
      else WalkRuns(config, unquote, registry, order, uri, identity, r)
  {
    hide Bind, Visible, WalkRuns, FirstVisible, BySpecificity;
    WalkFinds(config, unquote, registry, order, uri, identity);
  }

  lemma SamePlace<A>(registry: Registry<A>, order: seq<Template<A>>, i: nat, j: nat)
    requires BySpecificity(registry, order) && i < |order| && j < |order| &&
      order[i].uriTemplate == order[j].uriTemplate
    ensures i == j
  {
    hide TriedBefore;
    assert order[i] == order[j];
    TriedOneWay(order[i], order[j]);
  }

  /** No text begins as both do, or none ends as both do. */
  ghost predicate Apart(t: UriTemplate, other: UriTemplate)
    requires t.WellFormed() && other.WellFormed()
  {
    !ShareAHead(t.literals[0], other.literals[0]) ||
    !ShareATail(t.literals[|t.variables|], other.literals[|other.variables|])
  }

  /** Nothing protected may answer for the template: no resource it binds, no template tried before that comes near. */
  ghost predicate Unrivalled<A>(unquote: Unquote, registry: Registry<A>, order: seq<Template<A>>, t: Template<A>)
    requires registry.Valid() && t.template.WellFormed() && AllWellFormed(order)
  {
    && (forall uri :: uri in registry.resources && registry.resources[uri].guard.requiresAuth ==>
          Bind(unquote, t, uri).None?)
    && (forall rival :: rival in order && rival.guard.requiresAuth && TriedBefore(rival, t) ==>
          Apart(rival.template, t.template))
  }

  lemma UnrivalledIs<A>(unquote: Unquote, registry: Registry<A>, order: seq<Template<A>>, i: nat)
    requires registry.Valid() && BySpecificity(registry, order) && AllWellFormed(order) && i < |order|
    ensures Unrivalled(unquote, registry, order, order[i]) <==>
      !EarlierOverlaps(order, i) && !HidesConcrete(unquote, registry.resources, order[i])
  {
    hide Bind, MayOverlap, TextBefore, LiteralLength, TriedBefore, ShareAHead, ShareATail;
    forall j | 0 <= j < |order| ensures TriedBefore(order[j], order[i]) <==> j < i {
      TriedOneWay(order[j], order[i]);
    }
    forall j | 0 <= j < |order| ensures MayOverlap(order[j].template, order[i].template) <==>
        !Apart(order[j].template, order[i].template)
    {
      OverlapIs(order[j].template, order[i].template);
    }
    if EarlierOverlaps(order, i) {
      var j :| 0 <= j < i && order[j].guard.requiresAuth && MayOverlap(order[j].template, order[i].template);
      assert order[j] in order;
    }
  }

  /**
   * Exactly when an answer may be cached for everyone: it is no retry, neither oauth nor request middleware is set,
   * the item is not protected, and nothing protected may answer for it where it is a template.
   */
  lemma WhenAReadIsPublic<A>(config: Config, unquote: Unquote, registry: Registry<A>, order: seq<Template<A>>,
      definition: Definition<A>, retry: bool)
    requires registry.Valid() && BySpecificity(registry, order) && AllWellFormed(order)
    requires definition.Templated? ==> definition.template in order
    ensures CacheScope(config, unquote, registry, order, definition, retry) == Public <==>
      && !retry && !config.oauth && !config.requestMiddleware && !definition.Guarded().requiresAuth
      && (definition.Templated? ==> Unrivalled(unquote, registry, order, definition.template))
  {
    hide Bind, MayOverlap, BySpecificity, Unrivalled;
    if definition.Templated? {
      var i :| 0 <= i < |order| && order[i] == definition.template;
      UnrivalledIs(unquote, registry, order, i);
      hide EarlierOverlaps, HidesConcrete;
      forall j | 0 <= j < |order| && order[j].uriTemplate == order[i].uriTemplate ensures j == i {
        SamePlace(registry, order, i, j);
      }
    }
  }

  /** When one caller's read may be cached for everyone, every caller's read of that URI runs the same thing. */
  lemma PublicReadIsEveryones<A>(config: Config, unquote: Unquote, registry: Registry<A>, order: seq<Template<A>>,
                                 uri: string, reader: Option<Identity>, retry: bool)
    requires registry.Valid() && BySpecificity(registry, order) && AllWellFormed(order)
    requires Resolve(config, unquote, registry, order, uri, reader).definition.Some?
    requires CacheScope(config, unquote, registry, order,
                        Resolve(config, unquote, registry, order, uri, reader).definition.value, retry) == Public
    ensures forall anyone :: Resolve(config, unquote, registry, order, uri, anyone)
                          == Resolve(config, unquote, registry, order, uri, reader)
  {
    hide Bind, ShadowedNames;
    var mine := Resolve(config, unquote, registry, order, uri, reader);
    if uri in registry.resources && Visible(config, reader, registry.resources[uri].guard) {
      assert !registry.resources[uri].guard.requiresAuth;
    } else {
      var at := FoundAt(config, unquote, order, 0, uri, reader, uri in registry.resources);
      NothingInTheWay(unquote, registry, order, at, uri);
      assert uri !in registry.resources;
      forall anyone ensures Resolve(config, unquote, registry, order, uri, anyone) == mine {
        forall k | 0 <= k < at ensures Bind(unquote, order[k], uri).None? {
          assert !order[k].guard.requiresAuth ==> Visible(config, reader, order[k].guard);
        }
        ReachesAt(config, unquote, order, 0, at, uri, anyone, false);
      }
    }
  }

  /** A template in the shadow of a concrete resource does answer two callers differently at its URI. */
  lemma ConcreteShadowIsReal<A>(config: Config, unquote: Unquote, registry: Registry<A>, order: seq<Template<A>>,
      t: Template<A>, uri: string)
    requires registry.Valid() && AllWellFormed(order) && t.template.WellFormed()
    requires uri in registry.resources && registry.resources[uri].guard.requiresAuth && |uri| <= MAX_URI_LENGTH
    requires t in order && !t.guard.requiresAuth && Bind(unquote, t, uri).Some?
    ensures var all := Some(Identity({"*"}, None));
            Resolve(config, unquote, registry, order, uri, all).definition == Some(Concrete(registry.resources[uri]))
    ensures var none := Resolve(config, unquote, registry, order, uri, None).definition;
            none.Some? && none.value.Templated? && !none.value.Guarded().requiresAuth
  {
    var i :| 0 <= i < |order| && order[i] == t;
    SomeoneAnswers(config, unquote, order, 0, i, uri, true);
  }

  lemma {:induction false} SomeoneAnswers<A>(config: Config, unquote: Unquote, order: seq<Template<A>>, i: nat,
      at: nat, uri: string, hidden: bool)
    requires AllWellFormed(order) && i <= at < |order| && !order[at].guard.requiresAuth &&
      Bind(unquote, order[at], uri).Some?
    ensures var r := FirstVisible(config, unquote, order, i, uri, None, hidden).definition;
            r.Some? && r.value.Templated? && !r.value.Guarded().requiresAuth
    decreases at - i
  {
    hide Bind;
    if i < at { SomeoneAnswers(config, unquote, order, i + 1, at, uri, hidden || Bind(unquote, order[i], uri).Some?); }
  }
}
