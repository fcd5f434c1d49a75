/** The mutable function-provider builder (`funcProvider`): options are applied
    to it in place, and every `Provider()` call derives a fresh snapshot from
    its current configuration. */
module FuncProviders {
  import opened Types
  import V = Valuer
  import M = Model

  class FuncProvider {
    var callee: V.Callable
    var paramConfigs: map<int, M.ParamConfig>
    var returnConfigs: map<int, M.ReturnConfig>
    var scope: Scope
    var location: Option<Location>

    /** The builder's configuration as a value. */
    function Snapshot(): M.Config
      reads this
    {
      M.Config(callee, paramConfigs, returnConfigs, scope, location)
    }

    /** `funcProviderOf(callee, opts...)`: the options are applied in order; a
        nil option is skipped. No location is recorded. */
    constructor Of(callee: V.Callable, opts: seq<M.ProviderOption>)
      ensures Snapshot() == M.ApplyOptions(M.Unconfigured(callee), opts)
      ensures location == None
    {
      this.callee := callee;
      paramConfigs := map[];
      returnConfigs := map[];
      scope := GlobalScope;
      location := None;
      new;
      var k := 0;
      while k < |opts|
        invariant 0 <= k <= |opts|
        invariant Snapshot() == M.ApplyOptions(M.Unconfigured(callee), opts[..k])
      {
        assert opts[..k + 1][..k] == opts[..k];
        ApplyOption(opts[k]);
        k := k + 1;
      }
      assert opts[..|opts|] == opts;
      M.ApplyOptionsKeepLocation(M.Unconfigured(callee), opts);
    }

    /** One option of `Func`, applied to this builder. */
    method ApplyOption(o: M.ProviderOption)
      modifies this
      ensures Snapshot() == M.ApplyOption(old(Snapshot()), o)
    {
      match o
      case InScope(s) => SetScope(s);
      case Param(i, os) => Param(i, os);
      case Return(i, os) => Return(i, os);
      case NilOption =>
    }

    /** `Param(index, opts...)`: the options are applied, in order, to the
        options parameter `index` already had (the defaults if none). */
    method Param(index: int, opts: seq<M.ParamOption>)
      modifies this
      ensures Snapshot() == M.ConfigureParam(old(Snapshot()), index, opts)
    {
      var po := M.ParamAt(paramConfigs, index);
      ghost var start := po;
      var k := 0;
      while k < |opts|
        invariant 0 <= k <= |opts|
        invariant po == M.ApplyParamOptions(start, opts[..k])
      {
        assert opts[..k + 1][..k] == opts[..k];
        po := M.ApplyParamOption(po, opts[k]);
        k := k + 1;
      }
      assert opts[..|opts|] == opts;
      paramConfigs := paramConfigs[index := po];
    }

    /** `Return(index, opts...)`, likewise for return position `index`. */
    method Return(index: int, opts: seq<M.ReturnOption>)
      modifies this
      ensures Snapshot() == M.ConfigureReturn(old(Snapshot()), index, opts)
    {
      var ro := M.ReturnAt(returnConfigs, index);
      ghost var start := ro;
      var k := 0;
      while k < |opts|
        invariant 0 <= k <= |opts|
        invariant ro == M.ApplyReturnOptions(start, opts[..k])
      {
        assert opts[..k + 1][..k] == opts[..k];
        ro := M.ApplyReturnOption(ro, opts[k]);
        k := k + 1;
      }
      assert opts[..|opts|] == opts;
      returnConfigs := returnConfigs[index := ro];
    }

    /** `SetScope(s)`: a nil scope resolves to the global scope. */
    method SetScope(s: Option<Scope>)
      modifies this
      ensures Snapshot() == M.WithScope(old(Snapshot()), s)
      ensures s.None? ==> scope == GlobalScope
    {
      scope := s.GetOr(GlobalScope);
    }

    /** `SetLocation(loc)`: an explicit override. */
    method SetLocation(loc: Option<Location>)
      modifies this
      ensures Snapshot() == old(Snapshot()).(location := loc)
    {
      location := loc;
    }

    /** `UpdateCallLocation(loc)`: only when no location is set yet, records
        `loc`, or when `loc` is nil the caller's position `caller`. */
    method UpdateCallLocation(loc: Option<Location>, caller: Location)
      modifies this
      ensures old(location).Some? ==> Snapshot() == old(Snapshot())
      ensures old(location).None? ==> Snapshot() == old(Snapshot()).(location := Some(loc.GetOr(caller)))
    {
      if location.None? {
        location := Some(loc.GetOr(caller));
      }
    }

    /** `Provider()`: a snapshot derived from the current configuration. */
    function Provider(): M.Provider
      reads this
    {
      M.Derive(Snapshot())
    }

    /** `Equal(other)`: the derived providers are alike. */
    predicate Equal(other: FuncProvider)
      reads this, other
    {
      M.Equal(Provider(), other.Provider())
    }

    /** `clone()`: a new builder with the same configuration; being a distinct
        object, nothing done to one is seen by the other. */
    method Clone() returns (c: FuncProvider)
      ensures fresh(c)
      ensures c.Snapshot() == Snapshot()
      ensures c.Equal(this) && Equal(c)
    {
      c := new FuncProvider.Of(callee, []);
      c.paramConfigs := paramConfigs;
      c.returnConfigs := returnConfigs;
      c.scope := scope;
      c.location := location;
      M.EqualIsEquivalence(Provider(), Provider(), Provider());
    }
  }

  /** `Func(callee, opts...)`: like `funcProviderOf`, and records the position
      of its caller, `caller`, as the location. */
  method Func(callee: V.Callable, opts: seq<M.ProviderOption>, caller: Location) returns (fp: FuncProvider)
    ensures fresh(fp)
    ensures fp.Snapshot() == M.ApplyOptions(M.Unconfigured(callee), opts).(location := Some(caller))
  {
    fp := new FuncProvider.Of(callee, opts);
    fp.UpdateCallLocation(None, caller);
  }

  /** Reconfiguring every part of a clone leaves the original's derived
      provider as it was. */
  method UpdateIsolation(fp: FuncProvider, i: int, pos: seq<M.ParamOption>, j: int, ros: seq<M.ReturnOption>,
                         s: Option<Scope>, loc: Option<Location>)
    returns (copy: FuncProvider)
    ensures fresh(copy)
    ensures fp.Snapshot() == old(fp.Snapshot()) && fp.Provider() == old(fp.Provider())
    ensures copy.Snapshot() ==
      M.WithScope(M.ConfigureReturn(M.ConfigureParam(old(fp.Snapshot()), i, pos), j, ros), s).(location := loc)
  {
    copy := fp.Clone();
    copy.Param(i, pos);
    copy.Return(j, ros);
    copy.SetScope(s);
    copy.SetLocation(loc);
  }

  /** A clone of a clone is isolated too: reconfiguring the middle builder
      changes neither the original nor the second clone. */
  method CloneOfCloneIsolation(fp: FuncProvider, i: int, pos: seq<M.ParamOption>, j: int, ros: seq<M.ReturnOption>,
                               s: Option<Scope>, loc: Option<Location>)
    returns (second: FuncProvider, third: FuncProvider)
    ensures fresh(second) && fresh(third) && second != third
    ensures fp.Provider() == old(fp.Provider())
    ensures third.Provider() == old(fp.Provider())
  {
    second := fp.Clone();
    third := second.Clone();
    second.Param(i, pos);
    second.Return(j, ros);
    second.SetScope(s);
    second.SetLocation(loc);
  }

  /** Renaming a parameter of a clone makes the two builders unequal, both ways. */
  method RenamedCloneIsUnequal(fp: FuncProvider, i: int, name: string) returns (copy: FuncProvider)
    requires 0 <= i < |M.ParamTypes(fp.callee)|
    requires M.ParamAt(fp.paramConfigs, i).name != name
    ensures fresh(copy)
    ensures !copy.Equal(fp) && !fp.Equal(copy)
  {
    copy := fp.Clone();
    copy.Param(i, [M.ByName(name)]);
    M.ParamRenameBreaksEquality(fp.Snapshot(), i, name);
  }

  /** Renaming an output of a clone makes the two builders unequal, both ways. */
  method RenamedReturnCloneIsUnequal(fp: FuncProvider, i: int, name: string) returns (copy: FuncProvider)
    requires 0 <= i < M.OutputCount(M.ReturnTypes(fp.callee))
    requires M.ReturnAt(fp.returnConfigs, i).name != name
    ensures fresh(copy)
    ensures !copy.Equal(fp) && !fp.Equal(copy)
  {
    copy := fp.Clone();
    copy.Return(i, [M.Name(name)]);
    M.ReturnRenameBreaksEquality(fp.Snapshot(), i, name);
  }

  /** Renaming a parameter of a clone and configuring a return index that is
      no output position still leaves the two builders unequal, both ways. */
  method FakeComponentCloneIsUnequal(fp: FuncProvider, i: int, name: string, j: int, ros: seq<M.ReturnOption>)
    returns (copy: FuncProvider)
    requires 0 <= i < |M.ParamTypes(fp.callee)|
    requires M.ParamAt(fp.paramConfigs, i).name != name
    requires !(0 <= j < M.OutputCount(M.ReturnTypes(fp.callee)))
    ensures fresh(copy)
    ensures !copy.Equal(fp) && !fp.Equal(copy)
  {
    copy := fp.Clone();
    copy.Param(i, [M.ByName(name)]);
    copy.Return(j, ros);
    M.RenameWithInertReturnBreaksEquality(fp.Snapshot(), i, name, j, ros);
  }
}
