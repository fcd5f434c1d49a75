/** The configurations exercised by the function-provider tests, and what
    derivation and validation make of them. The function under test is
    `func(a int, b string, c []int, d rune) (*testStruct, int, error)`. */
module ProviderScenarios {
  import opened Types
  import V = Valuer
  import opened Model

  const TestStruct: Type := Ptr(Struct("testStructForFuncProviderTest", {}))
  const TestFunc: V.Callable := V.ValueOf(Fn([Int, Str, Slice(Int), Rune], [TestStruct, Int, ErrorType]))
  const TestInterface: Type := Iface("testInterface", {})
  const Tag1: Symbol := Symbol(1, "tag1")
  const Tag2: Symbol := Symbol(2, "tag2")
  const Scope1: Scope := NamedScope(1, "scope1")

  /** The options of the "normal value" test, a trailing nil one included. */
  const TestOptions: seq<ProviderOption> := [
    InScope(Some(Scope1)),
    Param(0, [ByName("a1"), ByTags([Tag1]), Optional(true)]),
    Param(1, [ByName("b1")]),
    Param(2, [ByName("c1"), AsCollector(true)]),
    Param(3, []),
    Return(0, [Name("r1"), Tags([Tag2]), Hide, Ignore, As([TestInterface])]),
    Return(1, []),
    NilOption
  ]

  /** The configuration those options build, written out. */
  function TestConfig(): Config {
    Config(TestFunc,
      map[0 := ParamConfig("a1", Some({Tag1}), true, false),
          1 := ParamConfig("b1", None, false, false),
          2 := ParamConfig("c1", None, false, true),
          3 := DefaultParam],
      map[0 := ReturnConfig("r1", Some({Tag2}), true, true, Some({TestInterface})),
          1 := DefaultReturn],
      Scope1, None)
  }

  lemma TestParamOptions()
    ensures ApplyParamOptions(DefaultParam, [ByName("a1"), ByTags([Tag1]), Optional(true)]) == ParamConfig("a1", Some({Tag1}), true, false)
    ensures ApplyParamOptions(DefaultParam, [ByName("b1")]) == ParamConfig("b1", None, false, false)
    ensures ApplyParamOptions(DefaultParam, [ByName("c1"), AsCollector(true)]) == ParamConfig("c1", None, false, true)
    ensures ApplyParamOptions(DefaultParam, []) == DefaultParam
  {
    var a := [ByName("a1"), ByTags([Tag1]), Optional(true)];
    assert a[..2] == [ByName("a1"), ByTags([Tag1])] && a[..2][..1] == [ByName("a1")] && a[..1][..0] == [];
    AddOneToNil(Tag1);
    assert ApplyParamOptions(DefaultParam, a[..1]) == DefaultParam.(name := "a1");
    assert ApplyParamOptions(DefaultParam, a[..2]) == ParamConfig("a1", Some({Tag1}), false, false);
    assert [ByName("b1")][..0] == [];
    var c := [ByName("c1"), AsCollector(true)];
    assert c[..1] == [ByName("c1")] && c[..1][..0] == [];
  }

  lemma TestReturnOptions()
    ensures ApplyReturnOptions(DefaultReturn, [Name("r1"), Tags([Tag2]), Hide, Ignore, As([TestInterface])])
         == ReturnConfig("r1", Some({Tag2}), true, true, Some({TestInterface}))
  {
    var r := [Name("r1"), Tags([Tag2]), Hide, Ignore, As([TestInterface])];
    assert r[..4] == [Name("r1"), Tags([Tag2]), Hide, Ignore];
    assert r[..4][..3] == r[..3] == [Name("r1"), Tags([Tag2]), Hide];
    assert r[..3][..2] == r[..2] == [Name("r1"), Tags([Tag2])];
    assert r[..2][..1] == r[..1] == [Name("r1")];
    assert r[..1][..0] == [];
    AddOneToNil(Tag2);
    AddOneToNil(TestInterface);
    assert ApplyReturnOptions(DefaultReturn, r[..1]) == DefaultReturn.(name := "r1");
    assert ApplyReturnOptions(DefaultReturn, r[..2]) == DefaultReturn.(name := "r1", tags := Some({Tag2}));
    assert ApplyReturnOptions(DefaultReturn, r[..3]) == DefaultReturn.(name := "r1", tags := Some({Tag2}), hidden := true);
    assert ApplyReturnOptions(DefaultReturn, r[..4]) == DefaultReturn.(name := "r1", tags := Some({Tag2}), hidden := true, ignored := true);
  }

  /** Applying one more option of the list. */
  lemma OptionStep(k: nat)
    requires k < |TestOptions|
    ensures ApplyOptions(Unconfigured(TestFunc), TestOptions[..k + 1])
         == ApplyOption(ApplyOptions(Unconfigured(TestFunc), TestOptions[..k]), TestOptions[k])
  {
    assert TestOptions[..k + 1][..k] == TestOptions[..k];
  }

  /** The configuration after the scope and the four parameter options. */
  function TestConfigParamsOnly(): Config {
    TestConfig().(returnConfigs := map[])
  }

  lemma FirstFiveOptions()
    ensures ApplyOptions(Unconfigured(TestFunc), TestOptions[..5]) == TestConfigParamsOnly()
  {
    var os, c0 := TestOptions, Unconfigured(TestFunc);
    TestParamOptions();
    assert os[..0] == [];
    OptionStep(0);
    var c1 := c0.(scope := Scope1);
    assert ApplyOptions(c0, os[..1]) == c1;
    OptionStep(1);
    var c2 := c1.(paramConfigs := map[0 := ParamConfig("a1", Some({Tag1}), true, false)]);
    assert ApplyOptions(c0, os[..2]) == c2;
    OptionStep(2);
    var c3 := c2.(paramConfigs := c2.paramConfigs[1 := ParamConfig("b1", None, false, false)]);
    assert ApplyOptions(c0, os[..3]) == c3;
    OptionStep(3);
    var c4 := c3.(paramConfigs := c3.paramConfigs[2 := ParamConfig("c1", None, false, true)]);
    assert ApplyOptions(c0, os[..4]) == c4;
    OptionStep(4);
    assert ApplyOptions(c0, os[..5]) == c4.(paramConfigs := c4.paramConfigs[3 := DefaultParam]);
  }

  lemma TestOptionsBuildTestConfig()
    ensures ApplyOptions(Unconfigured(TestFunc), TestOptions) == TestConfig()
  {
    var os, c0 := TestOptions, Unconfigured(TestFunc);
    FirstFiveOptions();
    TestReturnOptions();
    var c5 := TestConfigParamsOnly();
    OptionStep(5);
    var c6 := c5.(returnConfigs := map[0 := ReturnConfig("r1", Some({Tag2}), true, true, Some({TestInterface}))]);
    assert ApplyOptions(c0, os[..6]) == c6;
    OptionStep(6);
    var c7 := c6.(returnConfigs := c6.returnConfigs[1 := DefaultReturn]);
    assert ApplyOptions(c0, os[..7]) == c7;
    OptionStep(7);
    assert os[..8] == os;
  }

  lemma TestConfigIsValid()
    ensures Validate(Derive(TestConfig())).None?
  {
    var c := TestConfig();
    EmptyInterfaceAcceptsAll(TestStruct, "testInterface");
    assert forall i :: i in c.returnConfigs ==> 0 <= i < 2;
    assert WellConfigured(c);
  }

  lemma TestConfigDependencies()
    ensures Derive(TestConfig()).dependencies == [
      Dependency(Int, "a1", Some({Tag1}), V.Param(0), true, false),
      Dependency(Str, "b1", None, V.Param(1), false, false),
      Dependency(Int, "c1", None, V.Param(2), false, true),
      Dependency(Rune, "", None, V.Param(3), false, false)]
  {
    var c := TestConfig();
    var ps, cfgs := ParamTypes(c.callee), c.paramConfigs;
    assert ps == [Int, Str, Slice(Int), Rune];
    assert ParamAt(cfgs, 0) == ParamConfig("a1", Some({Tag1}), true, false);
    assert ParamAt(cfgs, 1) == ParamConfig("b1", None, false, false);
    assert ParamAt(cfgs, 2) == ParamConfig("c1", None, false, true);
    assert ParamAt(cfgs, 3) == DefaultParam;
    var ds := DependenciesFrom(ps, cfgs, 0);
    assert ds == [MakeDependency(ps, cfgs, 0), MakeDependency(ps, cfgs, 1),
                  MakeDependency(ps, cfgs, 2), MakeDependency(ps, cfgs, 3)];
  }

  lemma TestConfigComponents()
    ensures Derive(TestConfig()).components == [
      Component(TestStruct, "r1", Some({Tag2}), Some({TestInterface}), true, true, V.Index(0)),
      Component(Int, "", None, None, false, false, V.Index(1))]
  {
    var cs := Derive(TestConfig()).components;
    assert |cs| == 2;
    assert cs[0].typ == TestStruct && cs[1].typ == Int;
  }

  /** The "normal value" test, on the snapshot `Func` builds when called
      from `caller` (see `FuncProviders.Func`): the configuration is valid,
      the provider's valuer calls the function, scope and location are the
      configured ones, and there are four dependencies in parameter order and
      two components (the trailing `error` excluded). The collector over
      `[]int` depends on `int`. */
  lemma TestProviderIsValid(caller: Location)
    ensures var p := Derive(ApplyOptions(Unconfigured(TestFunc), TestOptions).(location := Some(caller)));
      && Validate(p).None?
      && p.valuer == V.Func(TestFunc)
      && p.scope == Scope1
      && p.location == Some(caller)
      && p.dependencies == [
           Dependency(Int, "a1", Some({Tag1}), V.Param(0), true, false),
           Dependency(Str, "b1", None, V.Param(1), false, false),
           Dependency(Int, "c1", None, V.Param(2), false, true),
           Dependency(Rune, "", None, V.Param(3), false, false)]
      && p.components == [
           Component(TestStruct, "r1", Some({Tag2}), Some({TestInterface}), true, true, V.Index(0)),
           Component(Int, "", None, None, false, false, V.Index(1))]
  {
    TestOptionsBuildTestConfig();
    TestConfigIsValid();
    TestConfigDependencies();
    TestConfigComponents();
    var c, c' := TestConfig(), TestConfig().(location := Some(caller));
    assert Derive(c').dependencies == Derive(c).dependencies;
    assert Derive(c').components == Derive(c).components;
    assert Findings(c') == Findings(c);
  }

  /** "fakeComponent": renaming parameter 0 and configuring the `error` slot
      leaves the provider unequal to the original, both ways. */
  lemma FakeComponentIsUnequal()
    ensures !Equal(Derive(ConfigureReturn(ConfigureParam(TestConfig(), 0, [ByName("a2")]), 2, [Name("r")])), Derive(TestConfig()))
    ensures !Equal(Derive(TestConfig()), Derive(ConfigureReturn(ConfigureParam(TestConfig(), 0, [ByName("a2")]), 2, [Name("r")])))
  {
    assert ParamAt(TestConfig().paramConfigs, 0).name == "a1";
    RenameWithInertReturnBreaksEquality(TestConfig(), 0, "a2", 2, [Name("r")]);
  }

  /** "nil function": a nil value fails validation, whatever the options. */
  lemma NilFunctionIsInvalid(os: seq<ProviderOption>)
    ensures Validate(Derive(ApplyOptions(Unconfigured(V.NilValue), os))).Some?
  {
    ApplyOptionsKeepLocation(Unconfigured(V.NilValue), os);
  }

  /** "val is not a function": any value of a non-function type fails validation. */
  lemma NonFunctionIsInvalid(t: Type)
    requires !t.Fn?
    ensures Validate(Derive(Unconfigured(V.ValueOf(t)))) == Some({NotCallable})
  {
  }

  /** "parameter not exist": `Param(4, ByName("p4"))`. */
  lemma ParamFourIsInvalid()
    ensures Validate(Derive(ConfigureParam(Unconfigured(TestFunc), 4, [ByName("p4")]))).Some?
  {
    OutOfRangeParamInvalid(Unconfigured(TestFunc), 4, [ByName("p4")]);
  }

  /** "error in parameters": `Param(0, AsCollector(true))` on the `int` parameter. */
  lemma CollectorOnIntIsInvalid()
    ensures Validate(Derive(ConfigureParam(Unconfigured(TestFunc), 0, [AsCollector(true)]))).Some?
  {
    var c := ConfigureParam(Unconfigured(TestFunc), 0, [AsCollector(true)]);
    assert [AsCollector(true)][..0] == [];
    assert c.paramConfigs[0].collector;
    CollectorCategory(c, 0);
  }

  /** "return index not exist": `Return(3, Name("p4"))`. */
  lemma ReturnThreeIsInvalid()
    ensures Validate(Derive(ConfigureReturn(Unconfigured(TestFunc), 3, [Name("p4")]))).Some?
  {
    NonOutputReturnInvalid(Unconfigured(TestFunc), 3, [Name("p4")]);
  }

  /** "return index invalid": `Return(2, Name("p2"))` targets the `error` slot. */
  lemma ReturnTwoIsReserved()
    ensures Validate(Derive(ConfigureReturn(Unconfigured(TestFunc), 2, [Name("p2")]))).Some?
  {
    NonOutputReturnInvalid(Unconfigured(TestFunc), 2, [Name("p2")]);
  }

  /** "no valid value return": `func() error` and `func()`. */
  lemma NoOutputIsInvalid()
    ensures Validate(Derive(Unconfigured(V.ValueOf(Fn([], [ErrorType]))))).Some?
    ensures Validate(Derive(Unconfigured(V.ValueOf(Fn([], []))))).Some?
  {
    assert NoUsableOutput in Findings(Unconfigured(V.ValueOf(Fn([], [ErrorType]))));
    assert NoUsableOutput in Findings(Unconfigured(V.ValueOf(Fn([], []))));
  }

  /** "error in components": exposing `*testStruct` as `error`. */
  lemma ExposedAsErrorIsInvalid()
    ensures Validate(Derive(ConfigureReturn(Unconfigured(TestFunc), 0, [As([ErrorType])]))).Some?
  {
    var c := ConfigureReturn(Unconfigured(TestFunc), 0, [As([ErrorType])]);
    assert [As([ErrorType])][..0] == [];
    assert ApplyReturnOptions(DefaultReturn, [As([ErrorType])]) == ApplyReturnOption(DefaultReturn, As([ErrorType]));
    AddOneToNil(ErrorType);
    assert ReturnAt(map[], 0) == DefaultReturn;
    assert c.returnConfigs[0].exposedAs == Some({ErrorType});
    assert OutputCount(ReturnTypes(c.callee)) == 2;
    ErrorNeedsErrorMethod(TestStruct);
    ExposedCategory(c, 0, ErrorType);
    assert Findings(c) != {};
  }
}
