/** The function provider of the `model` package, on values: the options a
    builder accepts, the configuration snapshot they build up, the provider
    derived from a snapshot (its dependencies and components), validation of
    a snapshot, and structural equality of derived providers. The mutable
    builder object itself is `FuncProviders.FuncProvider`. */
module Model {
  import opened Types
  import V = Valuer

  // ---------------------------------------------------------------------
  // Per-parameter configuration and the options that change it

  /** What `Param(i, ...)` has configured for parameter `i`. */
  datatype ParamConfig = ParamConfig(name: string, tags: Option<set<Symbol>>, optional: bool, collector: bool)

  /** An unconfigured parameter: no name, nil tags, required, not a collector. */
  const DefaultParam: ParamConfig := ParamConfig("", None, false, false)

  /** `ByName`, `ByTags`, `Optional`, `AsCollector`, or a nil option. */
  datatype ParamOption =
    | ByName(name: string)
    | ByTags(tags: seq<Symbol>)
    | Optional(optional: bool)
    | AsCollector(collector: bool)
    | NilParamOption

  function ApplyParamOption(c: ParamConfig, o: ParamOption): ParamConfig {
    match o
    case ByName(n) => c.(name := n)
    case ByTags(ts) => c.(tags := AddAll(c.tags, ts))
    case Optional(b) => c.(optional := b)
    case AsCollector(b) => c.(collector := b)
    case NilParamOption => c
  }

  /** The options applied in order, the later ones last. */
  function ApplyParamOptions(c: ParamConfig, os: seq<ParamOption>): ParamConfig
    decreases |os|
  {
    if |os| == 0 then c else ApplyParamOption(ApplyParamOptions(c, os[..|os| - 1]), os[|os| - 1])
  }

  function RemoveNilParamOptions(os: seq<ParamOption>): (r: seq<ParamOption>)
    decreases |os|
  {
    if |os| == 0 then []
    else if os[|os| - 1] == NilParamOption then RemoveNilParamOptions(os[..|os| - 1])
    else RemoveNilParamOptions(os[..|os| - 1]) + [os[|os| - 1]]
  }

  /** A nil option is a no-op: the options around it still apply, as if it
      were not there. */
  lemma {:induction false} NilParamOptionsAreNoOps(c: ParamConfig, os: seq<ParamOption>)
    ensures ApplyParamOptions(c, os) == ApplyParamOptions(c, RemoveNilParamOptions(os))
  {
    if |os| > 0 {
      var init := os[..|os| - 1];
      NilParamOptionsAreNoOps(c, init);
      if os[|os| - 1] != NilParamOption {
        var r := RemoveNilParamOptions(init) + [os[|os| - 1]];
        assert r[..|r| - 1] == RemoveNilParamOptions(init);
      }
    }
  }

  // ---------------------------------------------------------------------
  // Per-return configuration and the options that change it

  /** What `Return(i, ...)` has configured for return position `i`. */
  datatype ReturnConfig = ReturnConfig(name: string, tags: Option<set<Symbol>>, hidden: bool, ignored: bool, exposedAs: Option<set<Type>>)

  /** An unconfigured return: no name, nil tags, visible, not ignored, nil `As` set. */
  const DefaultReturn: ReturnConfig := ReturnConfig("", None, false, false, None)

  /** `Name`, `Tags`, `Hide`, `Ignore`, `As`, or a nil option. */
  datatype ReturnOption =
    | Name(name: string)
    | Tags(tags: seq<Symbol>)
    | Hide
    | Ignore
    | As(types: seq<Type>)
    | NilReturnOption

  function ApplyReturnOption(c: ReturnConfig, o: ReturnOption): ReturnConfig {
    match o
    case Name(n) => c.(name := n)
    case Tags(ts) => c.(tags := AddAll(c.tags, ts))
    case Hide => c.(hidden := true)
    case Ignore => c.(ignored := true)
    case As(ts) => c.(exposedAs := AddAll(c.exposedAs, ts))
    case NilReturnOption => c
  }

  function ApplyReturnOptions(c: ReturnConfig, os: seq<ReturnOption>): ReturnConfig
    decreases |os|
  {
    if |os| == 0 then c else ApplyReturnOption(ApplyReturnOptions(c, os[..|os| - 1]), os[|os| - 1])
  }

  function RemoveNilReturnOptions(os: seq<ReturnOption>): (r: seq<ReturnOption>)
    decreases |os|
  {
    if |os| == 0 then []
    else if os[|os| - 1] == NilReturnOption then RemoveNilReturnOptions(os[..|os| - 1])
    else RemoveNilReturnOptions(os[..|os| - 1]) + [os[|os| - 1]]
  }

  /** A nil return option is a no-op (`Return(0, Name("r1"), nil)`). */
  lemma {:induction false} NilReturnOptionsAreNoOps(c: ReturnConfig, os: seq<ReturnOption>)
    ensures ApplyReturnOptions(c, os) == ApplyReturnOptions(c, RemoveNilReturnOptions(os))
  {
    if |os| > 0 {
      var init := os[..|os| - 1];
      NilReturnOptionsAreNoOps(c, init);
      if os[|os| - 1] != NilReturnOption {
        var r := RemoveNilReturnOptions(init) + [os[|os| - 1]];
        assert r[..|r| - 1] == RemoveNilReturnOptions(init);
      }
    }
  }

  // ---------------------------------------------------------------------
  // The builder's configuration snapshot and the options of `Func`

  /** Everything a function-provider builder holds: the value given to `Func`,
      the per-index parameter and return options, the scope and the location. */
  datatype Config = Config(
    callee: V.Callable,
    paramConfigs: map<int, ParamConfig>,
    returnConfigs: map<int, ReturnConfig>,
    scope: Scope,
    location: Option<Location>)

  /** A builder fresh from `funcProviderOf(callee)` with no options. */
  function Unconfigured(callee: V.Callable): Config {
    Config(callee, map[], map[], GlobalScope, None)
  }

  /** The options `Func` accepts: `InScope`, `Param`, `Return`, or nil. */
  datatype ProviderOption =
    | InScope(scope: Option<Scope>)
    | Param(index: int, paramOptions: seq<ParamOption>)
    | Return(index: int, returnOptions: seq<ReturnOption>)
    | NilOption

  function ParamAt(ps: map<int, ParamConfig>, i: int): ParamConfig {
    if i in ps then ps[i] else DefaultParam
  }

  function ReturnAt(rs: map<int, ReturnConfig>, i: int): ReturnConfig {
    if i in rs then rs[i] else DefaultReturn
  }

  /** `Param(i, os...)`: parameter `i` gets the options, on top of what it had.
      Any index is accepted here; `Validate` reports the ones out of range. */
  function ConfigureParam(c: Config, i: int, os: seq<ParamOption>): Config {
    c.(paramConfigs := c.paramConfigs[i := ApplyParamOptions(ParamAt(c.paramConfigs, i), os)])
  }

  /** `Return(i, os...)`, likewise for return position `i`. */
  function ConfigureReturn(c: Config, i: int, os: seq<ReturnOption>): Config {
    c.(returnConfigs := c.returnConfigs[i := ApplyReturnOptions(ReturnAt(c.returnConfigs, i), os)])
  }

  /** `SetScope(s)` and `InScope(s)`: nil resets to the global scope. */
  function WithScope(c: Config, s: Option<Scope>): (r: Config)
    ensures r.scope == (if s.Some? then s.value else GlobalScope)
    ensures r == c.(scope := r.scope)
  {
    c.(scope := s.GetOr(GlobalScope))
  }

  function ApplyOption(c: Config, o: ProviderOption): Config {
    match o
    case InScope(s) => WithScope(c, s)
    case Param(i, os) => ConfigureParam(c, i, os)
    case Return(i, os) => ConfigureReturn(c, i, os)
    case NilOption => c
  }

  function ApplyOptions(c: Config, os: seq<ProviderOption>): Config
    decreases |os|
  {
    if |os| == 0 then c else ApplyOption(ApplyOptions(c, os[..|os| - 1]), os[|os| - 1])
  }

  /** Options never change the configured value or the location. */
  lemma {:induction false} ApplyOptionsKeepLocation(c: Config, os: seq<ProviderOption>)
    ensures ApplyOptions(c, os).callee == c.callee
    ensures ApplyOptions(c, os).location == c.location
    decreases |os|
  {
    if |os| > 0 {
      ApplyOptionsKeepLocation(c, os[..|os| - 1]);
    }
  }

  function RemoveNilOptions(os: seq<ProviderOption>): (r: seq<ProviderOption>)
    decreases |os|
  {
    if |os| == 0 then []
    else if os[|os| - 1] == NilOption then RemoveNilOptions(os[..|os| - 1])
    else RemoveNilOptions(os[..|os| - 1]) + [os[|os| - 1]]
  }

  /** A nil option of `Func` is skipped: the options around it still apply,
      as if it were not there. */
  lemma {:induction false} NilOptionsAreNoOps(c: Config, os: seq<ProviderOption>)
    ensures ApplyOptions(c, os) == ApplyOptions(c, RemoveNilOptions(os))
  {
    if |os| > 0 {
      var init := os[..|os| - 1];
      NilOptionsAreNoOps(c, init);
      if os[|os| - 1] != NilOption {
        var r := RemoveNilOptions(init) + [os[|os| - 1]];
        assert r[..|r| - 1] == RemoveNilOptions(init);
      }
    }
  }

  // ---------------------------------------------------------------------
  // The signature of the configured value

  predicate IsFunc(f: V.Callable) {
    f.ValueOf? && f.typ.Fn?
  }

  /** The parameter types of a function value; none for anything else. */
  function ParamTypes(f: V.Callable): seq<Type> {
    if IsFunc(f) then f.typ.params else []
  }

  /** The return types of a function value; none for anything else. */
  function ReturnTypes(f: V.Callable): seq<Type> {
    if IsFunc(f) then f.typ.rets else []
  }

  /** Position `i` is the reserved final `error` return. */
  predicate IsErrorSlot(rets: seq<Type>, i: int) {
    |rets| > 0 && i == |rets| - 1 && rets[i] == ErrorType
  }

  /** The number of return positions that become components: all of them but
      a trailing `error`. Exactly the positions before it are eligible. */
  function OutputCount(rets: seq<Type>): (n: nat)
    ensures n <= |rets|
    ensures forall i :: 0 <= i < |rets| ==> (i < n <==> !IsErrorSlot(rets, i))
  {
    if |rets| > 0 && rets[|rets| - 1] == ErrorType then |rets| - 1 else |rets|
  }

  // ---------------------------------------------------------------------
  // Derivation of a provider

  /** A dependency; the owning provider back-reference is not modelled. */
  datatype Dependency = Dependency(typ: Type, name: string, tags: Option<set<Symbol>>, valuer: V.Valuer, optional: bool, collector: bool)

  /** A component; the owning provider back-reference is not modelled. */
  datatype Component = Component(typ: Type, name: string, tags: Option<set<Symbol>>, exposedAs: Option<set<Type>>, ignored: bool, hidden: bool, valuer: V.Valuer)

  /** A collector over a slice depends on the slice's element type. */
  function DependencyType(t: Type, collector: bool): Type {
    if collector && t.Slice? then t.elem else t
  }

  function MakeDependency(params: seq<Type>, cfgs: map<int, ParamConfig>, i: nat): Dependency
    requires i < |params|
  {
    var pc := ParamAt(cfgs, i);
    Dependency(DependencyType(params[i], pc.collector), pc.name, pc.tags, V.Param(i), pc.optional, pc.collector)
  }

  /** The dependencies of parameters `i..`, one per parameter, in order. */
  function DependenciesFrom(params: seq<Type>, cfgs: map<int, ParamConfig>, i: nat): (ds: seq<Dependency>)
    requires i <= |params|
    decreases |params| - i
    ensures |ds| == |params| - i
    ensures forall k :: 0 <= k < |ds| ==> ds[k] == MakeDependency(params, cfgs, i + k)
  {
    if i == |params| then [] else [MakeDependency(params, cfgs, i)] + DependenciesFrom(params, cfgs, i + 1)
  }

  function MakeComponent(rets: seq<Type>, cfgs: map<int, ReturnConfig>, i: nat): Component
    requires i < |rets|
  {
    var rc := ReturnAt(cfgs, i);
    Component(rets[i], rc.name, rc.tags, rc.exposedAs, rc.ignored, rc.hidden, V.Index(i))
  }

  /** The components of return positions `i..n-1`, one per position, in order. */
  function ComponentsFrom(rets: seq<Type>, cfgs: map<int, ReturnConfig>, i: nat, n: nat): (cs: seq<Component>)
    requires i <= n <= |rets|
    decreases n - i
    ensures |cs| == n - i
    ensures forall k :: 0 <= k < |cs| ==> cs[k] == MakeComponent(rets, cfgs, i + k)
  {
    if i == n then [] else [MakeComponent(rets, cfgs, i)] + ComponentsFrom(rets, cfgs, i + 1, n)
  }

  /** A derived provider snapshot. `source` is the configuration it was derived
      from, which `Validate` inspects. */
  datatype Provider = Provider(
    source: Config,
    valuer: V.Valuer,
    scope: Scope,
    location: Option<Location>,
    dependencies: seq<Dependency>,
    components: seq<Component>)

  /** `Provider()`: one dependency per parameter in parameter order with valuer
      `Param(k)`, and one component per return position but a trailing `error`,
      in order, with valuer `Index(k)`; unconfigured positions get the defaults.
      A value that is not a function yields neither. */
  function Derive(c: Config): (p: Provider)
    ensures p.source == c && p.valuer == V.Func(c.callee)
    ensures p.scope == c.scope && p.location == c.location
    ensures !IsFunc(c.callee) ==> p.dependencies == [] && p.components == []
    ensures |p.dependencies| == |ParamTypes(c.callee)|
    ensures forall k :: 0 <= k < |p.dependencies| ==>
      var d, pc, t := p.dependencies[k], ParamAt(c.paramConfigs, k), ParamTypes(c.callee)[k];
      && d.valuer == V.Param(k)
      && d.name == pc.name && d.tags == pc.tags
      && d.optional == pc.optional && d.collector == pc.collector
      && d.typ == (if pc.collector && t.Slice? then t.elem else t)
    ensures forall k :: 0 <= k < |p.dependencies| && k !in c.paramConfigs ==>
      p.dependencies[k] == Dependency(ParamTypes(c.callee)[k], "", None, V.Param(k), false, false)
    ensures |p.components| == OutputCount(ReturnTypes(c.callee))
    ensures forall k :: 0 <= k < |p.components| ==>
      var m, rc := p.components[k], ReturnAt(c.returnConfigs, k);
      && m.valuer == V.Index(k) && m.typ == ReturnTypes(c.callee)[k]
      && m.name == rc.name && m.tags == rc.tags && m.exposedAs == rc.exposedAs
      && m.ignored == rc.ignored && m.hidden == rc.hidden
    ensures forall k :: 0 <= k < |p.components| && k !in c.returnConfigs ==>
      p.components[k] == Component(ReturnTypes(c.callee)[k], "", None, None, false, false, V.Index(k))
  {
    var ps, rs := ParamTypes(c.callee), ReturnTypes(c.callee);
    Provider(c, V.Func(c.callee), c.scope, c.location,
             DependenciesFrom(ps, c.paramConfigs, 0),
             ComponentsFrom(rs, c.returnConfigs, 0, OutputCount(rs)))
  }

  // ---------------------------------------------------------------------
  // Validation

  /** One reason a configuration is unusable. */
  datatype Finding =
    | NotCallable
    | ParamIndexOutOfRange(index: int)
    | CollectorOnNonSlice(index: int)
    | ReturnIndexOutOfRange(index: int)
    | ReturnIndexReserved(index: int)
    | NoUsableOutput
    | ExposedTypeMismatch(index: int, exposed: Type)

  /** Configured parameter indexes outside the signature. */
  function ParamIndexFindings(c: Config): set<Finding>
  {
    set i | i in c.paramConfigs && !(0 <= i < |ParamTypes(c.callee)|) :: ParamIndexOutOfRange(i)
  }

  /** Collector parameters whose type is not a slice. */
  function CollectorFindings(c: Config): set<Finding>
  {
    var ps := ParamTypes(c.callee);
    set i | i in c.paramConfigs && 0 <= i < |ps| && c.paramConfigs[i].collector && !ps[i].Slice?
      :: CollectorOnNonSlice(i)
  }

  /** Configured return indexes past the last return. */
  function ReturnIndexFindings(c: Config): set<Finding>
  {
    set i | i in c.returnConfigs && !(0 <= i < |ReturnTypes(c.callee)|) :: ReturnIndexOutOfRange(i)
  }

  /** A configured return index on the reserved trailing `error`. */
  function ReservedFindings(c: Config): set<Finding>
  {
    set i | i in c.returnConfigs && IsErrorSlot(ReturnTypes(c.callee), i) :: ReturnIndexReserved(i)
  }

  /** `As` types that an output's type cannot be exposed as. */
  function ExposedFindings(c: Config): set<Finding>
  {
    var rs := ReturnTypes(c.callee);
    set i, t | i in c.returnConfigs && 0 <= i < OutputCount(rs) && c.returnConfigs[i].exposedAs.Some? &&
               t in c.returnConfigs[i].exposedAs.value && !AssignableTo(rs[i], t)
      :: ExposedTypeMismatch(i, t)
  }

  /** Every applicable finding, all categories checked independently (the
      category lemmas below say which findings each one contributes). For a
      value that is not a function (nil included) nothing else is checked. */
  function Findings(c: Config): (fs: set<Finding>)
    ensures NotCallable in fs <==> !IsFunc(c.callee)
    ensures !IsFunc(c.callee) ==> fs == {NotCallable}
    ensures NoUsableOutput in fs <==> IsFunc(c.callee) && OutputCount(ReturnTypes(c.callee)) == 0
  {
    if !IsFunc(c.callee) then {NotCallable}
    else
      ParamIndexFindings(c) + CollectorFindings(c) + ReturnIndexFindings(c) + ReservedFindings(c)
      + (if OutputCount(ReturnTypes(c.callee)) == 0 then {NoUsableOutput} else {})
      + ExposedFindings(c)
  }

  /** A configured parameter index outside the signature is reported. */
  lemma ParamIndexCategory(c: Config, i: int)
    ensures ParamIndexOutOfRange(i) in Findings(c) <==>
      IsFunc(c.callee) && i in c.paramConfigs && !(0 <= i < |ParamTypes(c.callee)|)
  {
  }

  /** A collector on a parameter that is not a slice is reported. */
  lemma CollectorCategory(c: Config, i: int)
    ensures CollectorOnNonSlice(i) in Findings(c) <==>
      IsFunc(c.callee) && i in c.paramConfigs && 0 <= i < |ParamTypes(c.callee)| &&
      c.paramConfigs[i].collector && !ParamTypes(c.callee)[i].Slice?
  {
  }

  /** A configured return index past the last return is reported. */
  lemma ReturnIndexCategory(c: Config, i: int)
    ensures ReturnIndexOutOfRange(i) in Findings(c) <==>
      IsFunc(c.callee) && i in c.returnConfigs && !(0 <= i < |ReturnTypes(c.callee)|)
  {
  }

  /** A configured return index on the trailing `error` is reported. */
  lemma ReservedCategory(c: Config, i: int)
    ensures ReturnIndexReserved(i) in Findings(c) <==>
      IsFunc(c.callee) && i in c.returnConfigs && IsErrorSlot(ReturnTypes(c.callee), i)
  {
  }

  /** An `As` type the output cannot be exposed as is reported. */
  lemma ExposedCategory(c: Config, i: int, t: Type)
    ensures ExposedTypeMismatch(i, t) in Findings(c) <==>
      IsFunc(c.callee) && i in c.returnConfigs && 0 <= i < OutputCount(ReturnTypes(c.callee)) &&
      c.returnConfigs[i].exposedAs.Some? && t in c.returnConfigs[i].exposedAs.value &&
      !AssignableTo(ReturnTypes(c.callee)[i], t)
  {
  }

  /** An independent statement of a usable configuration: a function value,
      every configured parameter index is a parameter and a collector only on a
      slice, every configured return index is an output position (in range and
      not the trailing `error`), there is at least one output, and every `As`
      type accepts the output's type. */
  predicate WellConfigured(c: Config) {
    var ps, rs := ParamTypes(c.callee), ReturnTypes(c.callee);
    && IsFunc(c.callee)
    && (forall i :: i in c.paramConfigs ==> 0 <= i < |ps|)
    && (forall i :: i in c.paramConfigs && 0 <= i < |ps| && c.paramConfigs[i].collector ==> ps[i].Slice?)
    && (forall i :: i in c.returnConfigs ==> 0 <= i < OutputCount(rs))
    && OutputCount(rs) > 0
    && (forall i, t :: i in c.returnConfigs && 0 <= i < OutputCount(rs) && c.returnConfigs[i].exposedAs.Some? &&
                       t in c.returnConfigs[i].exposedAs.value
                   ==> AssignableTo(rs[i], t))
  }

  /** No finding exactly when the configuration is well configured. */
  lemma FindingsEmptyIff(c: Config)
    ensures Findings(c) == {} <==> WellConfigured(c)
  {
    var fs := Findings(c);
    if IsFunc(c.callee) {
      var ps, rs := ParamTypes(c.callee), ReturnTypes(c.callee);
      if fs == {} {
        forall i | i in c.returnConfigs ensures 0 <= i < OutputCount(rs) {
          ReturnIndexCategory(c, i);
          ReservedCategory(c, i);
        }
        forall i | i in c.paramConfigs ensures 0 <= i < |ps| {
          ParamIndexCategory(c, i);
        }
        forall i | i in c.paramConfigs && 0 <= i < |ps| && c.paramConfigs[i].collector ensures ps[i].Slice? {
          CollectorCategory(c, i);
        }
        forall i, t | i in c.returnConfigs && 0 <= i < OutputCount(rs) && c.returnConfigs[i].exposedAs.Some? &&
                      t in c.returnConfigs[i].exposedAs.value
          ensures AssignableTo(rs[i], t)
        {
          ExposedCategory(c, i, t);
        }
      }
      if WellConfigured(c) {
        assert ParamIndexFindings(c) == {};
        assert CollectorFindings(c) == {};
        assert ReturnIndexFindings(c) == {} && ReservedFindings(c) == {};
        assert ExposedFindings(c) == {};
      }
    }
  }

  /** `Validate()`: nil (`None`) is the sole success signal; otherwise all
      findings are reported together. */
  function Validate(p: Provider): (err: Option<set<Finding>>)
    ensures err.None? <==> WellConfigured(p.source)
    ensures err.Some? ==> err.value == Findings(p.source) && err.value != {}
  {
    FindingsEmptyIff(p.source);
    var fs := Findings(p.source);
    if fs == {} then None else Some(fs)
  }

  // ---------------------------------------------------------------------
  // Structural equality

  /** Dependencies are alike when all but their valuers agree. */
  predicate SameDependency(a: Dependency, b: Dependency) {
    a.typ == b.typ && a.name == b.name && a.tags == b.tags &&
    a.optional == b.optional && a.collector == b.collector
  }

  /** Components are alike when all but their valuers agree. */
  predicate SameComponent(a: Component, b: Component) {
    a.typ == b.typ && a.name == b.name && a.tags == b.tags &&
    a.exposedAs == b.exposedAs && a.ignored == b.ignored && a.hidden == b.hidden
  }

  /** Provider equality: pairwise alike dependencies and components, in order,
      and the same scope. */
  predicate Equal(p: Provider, q: Provider) {
    && |p.dependencies| == |q.dependencies|
    && (forall k :: 0 <= k < |p.dependencies| ==> SameDependency(p.dependencies[k], q.dependencies[k]))
    && |p.components| == |q.components|
    && (forall k :: 0 <= k < |p.components| ==> SameComponent(p.components[k], q.components[k]))
    && p.scope == q.scope
  }

  lemma EqualIsEquivalence(p: Provider, q: Provider, r: Provider)
    ensures Equal(p, p)
    ensures Equal(p, q) ==> Equal(q, p)
    ensures Equal(p, q) && Equal(q, r) ==> Equal(p, r)
  {
  }

  /** Configuring a parameter index outside the signature changes nothing that
      is derived, so it does not affect equality either. */
  lemma OutOfRangeParamIsInert(c: Config, i: int, os: seq<ParamOption>)
    requires !(0 <= i < |ParamTypes(c.callee)|)
    ensures Derive(ConfigureParam(c, i, os)).dependencies == Derive(c).dependencies
    ensures Derive(ConfigureParam(c, i, os)).components == Derive(c).components
    ensures Equal(Derive(ConfigureParam(c, i, os)), Derive(c))
  {
    var c' := ConfigureParam(c, i, os);
    var ds, ds' := Derive(c).dependencies, Derive(c').dependencies;
    forall k | 0 <= k < |ds| ensures ds'[k] == ds[k] {
      assert ParamAt(c'.paramConfigs, k) == ParamAt(c.paramConfigs, k);
    }
  }

  /** Configuring a return index that is not an output position (out of range,
      or the trailing `error`) adds no component. */
  lemma NonOutputReturnIsInert(c: Config, i: int, os: seq<ReturnOption>)
    requires !(0 <= i < OutputCount(ReturnTypes(c.callee)))
    ensures Derive(ConfigureReturn(c, i, os)).components == Derive(c).components
    ensures Derive(ConfigureReturn(c, i, os)).dependencies == Derive(c).dependencies
    ensures Equal(Derive(ConfigureReturn(c, i, os)), Derive(c))
  {
    var c' := ConfigureReturn(c, i, os);
    var cs, cs' := Derive(c).components, Derive(c').components;
    forall k | 0 <= k < |cs| ensures cs'[k] == cs[k] {
      assert ReturnAt(c'.returnConfigs, k) == ReturnAt(c.returnConfigs, k);
    }
  }

  /** Renaming a parameter breaks equality, in both directions. */
  lemma ParamRenameBreaksEquality(c: Config, i: int, name: string)
    requires 0 <= i < |ParamTypes(c.callee)|
    requires ParamAt(c.paramConfigs, i).name != name
    ensures !Equal(Derive(ConfigureParam(c, i, [ByName(name)])), Derive(c))
    ensures !Equal(Derive(c), Derive(ConfigureParam(c, i, [ByName(name)])))
  {
    var c' := ConfigureParam(c, i, [ByName(name)]);
    assert [ByName(name)][..0] == [];
    assert ParamAt(c'.paramConfigs, i).name == name;
    var d, d' := Derive(c).dependencies, Derive(c').dependencies;
    assert d'[i].name == name && d[i].name != name;
    assert !SameDependency(d'[i], d[i]) && !SameDependency(d[i], d'[i]);
  }

  /** Renaming an output breaks equality, in both directions. */
  lemma ReturnRenameBreaksEquality(c: Config, i: int, name: string)
    requires 0 <= i < OutputCount(ReturnTypes(c.callee))
    requires ReturnAt(c.returnConfigs, i).name != name
    ensures !Equal(Derive(ConfigureReturn(c, i, [Name(name)])), Derive(c))
    ensures !Equal(Derive(c), Derive(ConfigureReturn(c, i, [Name(name)])))
  {
    var c' := ConfigureReturn(c, i, [Name(name)]);
    assert [Name(name)][..0] == [];
    assert ReturnAt(c'.returnConfigs, i).name == name;
    var m, m' := Derive(c).components, Derive(c').components;
    assert m'[i].name == name && m[i].name != name;
    assert !SameComponent(m'[i], m[i]) && !SameComponent(m[i], m'[i]);
  }

  /** Any configured parameter index outside the signature makes validation fail. */
  lemma OutOfRangeParamInvalid(c: Config, i: int, os: seq<ParamOption>)
    requires IsFunc(c.callee) && !(0 <= i < |ParamTypes(c.callee)|)
    ensures Validate(Derive(ConfigureParam(c, i, os))).Some?
    ensures ParamIndexOutOfRange(i) in Validate(Derive(ConfigureParam(c, i, os))).value
  {
    ParamIndexCategory(ConfigureParam(c, i, os), i);
  }

  /** Any configured return index that is not an output position makes
      validation fail: past the end, or the reserved `error` slot. */
  lemma NonOutputReturnInvalid(c: Config, i: int, os: seq<ReturnOption>)
    requires IsFunc(c.callee) && !(0 <= i < OutputCount(ReturnTypes(c.callee)))
    ensures Validate(Derive(ConfigureReturn(c, i, os))).Some?
    ensures 0 <= i < |ReturnTypes(c.callee)| ==> ReturnIndexReserved(i) in Validate(Derive(ConfigureReturn(c, i, os))).value
    ensures !(0 <= i < |ReturnTypes(c.callee)|) ==> ReturnIndexOutOfRange(i) in Validate(Derive(ConfigureReturn(c, i, os))).value
  {
    ReturnIndexCategory(ConfigureReturn(c, i, os), i);
    ReservedCategory(ConfigureReturn(c, i, os), i);
  }

  /** Renaming a parameter still breaks equality when a return index that is
      not an output position is configured as well ("fakeComponent"). */
  lemma RenameWithInertReturnBreaksEquality(c: Config, i: int, name: string, j: int, os: seq<ReturnOption>)
    requires 0 <= i < |ParamTypes(c.callee)|
    requires ParamAt(c.paramConfigs, i).name != name
    requires !(0 <= j < OutputCount(ReturnTypes(c.callee)))
    ensures !Equal(Derive(ConfigureReturn(ConfigureParam(c, i, [ByName(name)]), j, os)), Derive(c))
    ensures !Equal(Derive(c), Derive(ConfigureReturn(ConfigureParam(c, i, [ByName(name)]), j, os)))
  {
    var c1 := ConfigureParam(c, i, [ByName(name)]);
    var c2 := ConfigureReturn(c1, j, os);
    ParamRenameBreaksEquality(c, i, name);
    NonOutputReturnIsInert(c1, j, os);
    EqualIsEquivalence(Derive(c1), Derive(c2), Derive(c));
    EqualIsEquivalence(Derive(c), Derive(c2), Derive(c1));
    EqualIsEquivalence(Derive(c2), Derive(c1), Derive(c));
  }
}
