/** Android build targets of the JPS builder: one DEX and one packaging
    target per Android application module, their dependencies on other
    targets, their value equality and hash code, and the loader that finds a
    target by its id.

    The JPS model is a value: a project is its list of modules and whether it
    holds an Android facet; a module carries its identity, name, identity hash
    code and Android extension. The target registry and the compile-only
    dependency enumerator are functions given as inputs. */
module AndroidBuilder {
  import opened Common

  /** The part of JpsAndroidModuleExtension the targets read. */
  datatype AndroidExtension = AndroidExtension(isLibrary: bool, isPackTestCode: bool)

  /** A JpsModule. `uid` stands for its object identity (JPS modules compare
      by identity), `hash` for its identity hash code. */
  datatype JpsModule = JpsModule(uid: nat, name: string, hash: Int32, extension: Option<AndroidExtension>)

  /** A JpsProject: its modules in order and whether it contains an Android
      facet. */
  datatype JpsProject = JpsProject(modules: seq<JpsModule>, containsAndroidFacet: bool)

  /** AndroidBuildTarget.TargetType: the two singleton target types. */
  datatype TargetType = Dex | Packaging
  {
    function PresentableName(): string
    {
      match this
      case Dex => "DEX"
      case Packaging => "Packaging"
    }
  }

  /** BuildTargetRegistry.ModuleTargetSelector. */
  datatype ModuleTargetSelector = Production | All

  /** An AndroidBuildTarget: a target type and a module, both final. */
  datatype AndroidBuildTarget = AndroidBuildTarget(targetType: TargetType, jpsModule: JpsModule)

  /** Any build target of JPS: an Android one, or one of another kind,
      identified by its type id and its id. */
  datatype BuildTarget = Android(target: AndroidBuildTarget) | OtherTarget(typeId: string, id: string)

  /** An argument of `equals`: null, an AndroidBuildTarget, or an object of
      another class. */
  datatype JavaObject = Null | AndroidTargetObject(target: AndroidBuildTarget) | OtherObject(className: string, id: nat)

  /** `getModuleBasedTargets(module, selector)` of the target registry. */
  type TargetRegistry = (JpsModule, ModuleTargetSelector) -> seq<BuildTarget>

  /** The modules `dependencies(module).compileOnly()` enumerates, in order. */
  type CompileOnlyDependencies = JpsModule -> seq<JpsModule>

  /** `getId()`: the module's name. */
  function Id(t: AndroidBuildTarget): (id: string)
    ensures id == t.jpsModule.name
  {
    t.jpsModule.name
  }

  /** `equals(o)`: true exactly for an AndroidBuildTarget with the same module
      and the same target type. */
  function Equals(t: AndroidBuildTarget, o: JavaObject): (r: bool)
    ensures r <==> o == AndroidTargetObject(t)
  {
    match o
    case AndroidTargetObject(other) => t.jpsModule == other.jpsModule && t.targetType == other.targetType
    case _ => false
  }

  /** `hashCode()`: `31 * module.hashCode() + type.hashCode()` in 32-bit
      arithmetic; `typeHash` gives the identity hash code of each target type. */
  function HashCode(t: AndroidBuildTarget, typeHash: TargetType -> Int32): (h: Int32)
    ensures (h - (31 * t.jpsModule.hash + typeHash(t.targetType))) % TWO_TO_THE_32 == 0
  {
    ToInt32(31 * t.jpsModule.hash + typeHash(t.targetType))
  }

  /** Equal targets have equal hash codes, whatever the types' hash codes. */
  lemma EqualTargetsHashAlike(t: AndroidBuildTarget, u: AndroidBuildTarget, typeHash: TargetType -> Int32)
    requires Equals(t, AndroidTargetObject(u))
    ensures HashCode(t, typeHash) == HashCode(u, typeHash)
  {
  }

  /** `getPresentableName()`: "Android " followed by the type's name. */
  function PresentableName(t: AndroidBuildTarget): (name: string)
    ensures |name| > 8 && name[..8] == "Android "
    ensures name[8..] == t.targetType.PresentableName()
  {
    "Android " + t.targetType.PresentableName()
  }

  /** A root descriptor of a target; Android targets have none. */
  datatype BuildRootDescriptor = BuildRootDescriptor(rootId: string)

  /** `computeRootDescriptors(...)`: always empty. */
  function RootDescriptors(t: AndroidBuildTarget): (roots: seq<BuildRootDescriptor>)
    ensures |roots| == 0
  {
    []
  }

  /** `findRootDescriptor(rootId, index)`: always null. */
  function FindRootDescriptor(t: AndroidBuildTarget, rootId: string): (root: Option<BuildRootDescriptor>)
    ensures root.None?
  {
    None
  }

  /** `getOutputDirs(context)`: always empty. */
  function OutputDirs(t: AndroidBuildTarget): (dirs: seq<string>)
    ensures |dirs| == 0
  {
    []
  }

  /** The selector `addModuleTargets` asks the registry with: ALL exactly
      when the module's Android extension packs test code. */
  function SelectorFor(m: JpsModule): (s: ModuleTargetSelector)
    ensures s == All <==> m.extension.Some? && m.extension.value.isPackTestCode
    ensures s == Production <==> m.extension.None? || !m.extension.value.isPackTestCode
  {
    if m.extension.Some? && m.extension.value.isPackTestCode then All else Production
  }

  /** What `addModuleTargets(m, ...)` appends. */
  function ModuleTargets(m: JpsModule, registry: TargetRegistry): seq<BuildTarget>
  {
    registry(m, SelectorFor(m))
  }

  /** The targets of the modules `ms`, module after module. */
  function DependencyTargets(ms: seq<JpsModule>, registry: TargetRegistry): seq<BuildTarget>
  {
    if ms == [] then []
    else DependencyTargets(ms[..|ms| - 1], registry) + ModuleTargets(ms[|ms| - 1], registry)
  }

  /** A target is among the dependency targets exactly when one of the
      modules contributes it. */
  lemma {:induction false} DependencyTargetsMembership(ms: seq<JpsModule>, registry: TargetRegistry, x: BuildTarget)
    ensures x in DependencyTargets(ms, registry)
        <==> exists j :: 0 <= j < |ms| && x in ModuleTargets(ms[j], registry)
  {
    if ms != [] {
      var init := ms[..|ms| - 1];
      DependencyTargetsMembership(init, registry, x);
      if x in DependencyTargets(ms, registry) && x !in ModuleTargets(ms[|ms| - 1], registry) {
        var j :| 0 <= j < |init| && x in ModuleTargets(init[j], registry);
        assert ms[j] == init[j];
      }
      if exists j :: 0 <= j < |ms| && x in ModuleTargets(ms[j], registry) {
        var j :| 0 <= j < |ms| && x in ModuleTargets(ms[j], registry);
        if j < |init| {
          assert init[j] == ms[j];
        }
      }
    }
  }

  /** The DEX target of the same module, first for a packaging target; none
      for a DEX target. */
  function DexPrefix(t: AndroidBuildTarget): seq<BuildTarget>
  {
    if t.targetType == Packaging then [Android(AndroidBuildTarget(Dex, t.jpsModule))] else []
  }

  /** `computeDependencies(registry)`: the optional DEX entry, the module's
      own targets, then those of each compile-only dependency in order. */
  method ComputeDependencies(t: AndroidBuildTarget, registry: TargetRegistry, dependencies: CompileOnlyDependencies)
    returns (result: seq<BuildTarget>)
    ensures result == DexPrefix(t) + ModuleTargets(t.jpsModule, registry)
                      + DependencyTargets(dependencies(t.jpsModule), registry)
    ensures t.targetType == Packaging ==> result[0] == Android(AndroidBuildTarget(Dex, t.jpsModule))
    ensures t.targetType == Dex ==>
      result[..|ModuleTargets(t.jpsModule, registry)|] == ModuleTargets(t.jpsModule, registry)
  {
    result := [];
    if t.targetType == Packaging {
      result := result + [Android(AndroidBuildTarget(Dex, t.jpsModule))];
    }
    result := result + ModuleTargets(t.jpsModule, registry);
    var own := result;
    var deps := dependencies(t.jpsModule);
    for i := 0 to |deps|
      invariant result == own + DependencyTargets(deps[..i], registry)
    {
      assert deps[..i + 1][..i] == deps[..i];
      result := result + ModuleTargets(deps[i], registry);
    }
    assert deps[..|deps|] == deps;
  }

  /** Every target `computeDependencies` reports comes from the DEX entry,
      the module itself or one of its compile-only dependencies, and each of
      those contributes all its targets. */
  lemma DependenciesMembership(t: AndroidBuildTarget, registry: TargetRegistry,
                               dependencies: CompileOnlyDependencies, x: BuildTarget)
    ensures x in DexPrefix(t) + ModuleTargets(t.jpsModule, registry)
                 + DependencyTargets(dependencies(t.jpsModule), registry)
        <==> (t.targetType == Packaging && x == Android(AndroidBuildTarget(Dex, t.jpsModule)))
             || x in ModuleTargets(t.jpsModule, registry)
             || exists j :: 0 <= j < |dependencies(t.jpsModule)|
                            && x in ModuleTargets(dependencies(t.jpsModule)[j], registry)
  {
    DependencyTargetsMembership(dependencies(t.jpsModule), registry, x);
  }

  /** The modules `computeAllTargets` makes targets for: those with an
      Android extension that is not a library. */
  predicate IsApplicationModule(m: JpsModule)
  {
    m.extension.Some? && !m.extension.value.isLibrary
  }

  /** The application modules of `ms`, in order. */
  function ApplicationModules(ms: seq<JpsModule>): seq<JpsModule>
  {
    if ms == [] then []
    else ApplicationModules(ms[..|ms| - 1]) + (if IsApplicationModule(ms[|ms| - 1]) then [ms[|ms| - 1]] else [])
  }

  /** A module is an application module of `ms` exactly when it is in `ms`
      and has a non-library Android extension. */
  lemma {:induction false} ApplicationModulesMembership(ms: seq<JpsModule>, m: JpsModule)
    ensures m in ApplicationModules(ms) <==> m in ms && IsApplicationModule(m)
  {
    if ms != [] {
      var init := ms[..|ms| - 1];
      ApplicationModulesMembership(init, m);
      assert ms == init + [ms[|ms| - 1]];
    }
  }

  /** Filtering keeps the modules' order: the application modules are a
      subsequence of `ms`. */
  lemma {:induction false} ApplicationModulesOrdered(ms: seq<JpsModule>)
    ensures |ApplicationModules(ms)| <= |ms|
    ensures exists pick: seq<int> :: IsOrderedPick(pick, ms, ApplicationModules(ms))
  {
    if ms == [] {
      assert IsOrderedPick([], ms, []);
    } else {
      var init := ms[..|ms| - 1];
      ApplicationModulesOrdered(init);
      var pick :| IsOrderedPick(pick, init, ApplicationModules(init));
      if IsApplicationModule(ms[|ms| - 1]) {
        var pick' := pick + [|ms| - 1];
        assert IsOrderedPick(pick', ms, ApplicationModules(ms));
      } else {
        assert IsOrderedPick(pick, ms, ApplicationModules(ms));
      }
    }
  }

  /** `sub` is `s` restricted to the strictly increasing positions `pick`. */
  ghost predicate IsOrderedPick(pick: seq<int>, s: seq<JpsModule>, sub: seq<JpsModule>)
  {
    && |pick| == |sub|
    && (forall k :: 0 <= k < |pick| ==> 0 <= pick[k] < |s| && s[pick[k]] == sub[k])
    && (forall k, l :: 0 <= k < l < |pick| ==> pick[k] < pick[l])
  }

  /** `computeAllTargets(model)` of target type `targetType`, as a value. */
  function AllTargets(targetType: TargetType, project: JpsProject): seq<AndroidBuildTarget>
  {
    if !project.containsAndroidFacet then []
    else
      var apps := ApplicationModules(project.modules);
      seq(|apps|, i requires 0 <= i < |apps| => AndroidBuildTarget(targetType, apps[i]))
  }

  /** `computeAllTargets(model)`: nothing without an Android facet, otherwise
      one target of this type per application module, in module order. */
  method ComputeAllTargets(targetType: TargetType, project: JpsProject)
    returns (targets: seq<AndroidBuildTarget>)
    ensures targets == AllTargets(targetType, project)
    ensures !project.containsAndroidFacet ==> targets == []
    ensures forall t :: t in targets ==>
              (t.targetType == targetType && t.jpsModule in project.modules && IsApplicationModule(t.jpsModule))
  {
    if !project.containsAndroidFacet {
      return [];
    }
    targets := [];
    var modules := project.modules;
    for i := 0 to |modules|
      invariant |targets| == |ApplicationModules(modules[..i])|
      invariant forall k :: 0 <= k < |targets| ==>
                  targets[k] == AndroidBuildTarget(targetType, ApplicationModules(modules[..i])[k])
    {
      assert modules[..i + 1][..i] == modules[..i];
      var m := modules[i];
      if m.extension.Some? && !m.extension.value.isLibrary {
        targets := targets + [AndroidBuildTarget(targetType, m)];
      }
    }
    assert modules[..|modules|] == modules;
    forall t | t in targets
      ensures t.jpsModule in project.modules && IsApplicationModule(t.jpsModule)
    {
      var k :| 0 <= k < |targets| && targets[k] == t;
      ApplicationModulesMembership(modules, t.jpsModule);
    }
  }

  /** Builds the loader's id -> target map: every id of `targets` maps to the
      last target carrying it, since a later `put` overwrites an earlier one. */
  method IndexById(targets: seq<AndroidBuildTarget>) returns (targetMap: map<string, AndroidBuildTarget>)
    ensures forall id :: id in targetMap <==> exists i :: 0 <= i < |targets| && Id(targets[i]) == id
    ensures forall id :: id in targetMap ==>
      exists i :: 0 <= i < |targets| && targets[i] == targetMap[id]
                  && Id(targets[i]) == id
                  && forall j :: i < j < |targets| ==> Id(targets[j]) != id
  {
    targetMap := map[];
    for n := 0 to |targets|
      invariant forall id :: id in targetMap <==> exists i :: 0 <= i < n && Id(targets[i]) == id
      invariant forall id :: id in targetMap ==>
        exists i :: 0 <= i < n && targets[i] == targetMap[id]
                    && Id(targets[i]) == id
                    && forall j :: i < j < n ==> Id(targets[j]) != id
    {
      targetMap := targetMap[Id(targets[n]) := targets[n]];
    }
  }

  /** `createTarget(targetId)` of a loader: the target with that id, or null. */
  function CreateTarget(targetMap: map<string, AndroidBuildTarget>, targetId: string): Option<AndroidBuildTarget>
  {
    if targetId in targetMap then Some(targetMap[targetId]) else None
  }

  /** `createLoader(model)`: index the computed targets by id. A lookup finds
      a computed target with that id, the last such one, and finds nothing
      exactly when no computed target has that id. */
  method CreateLoader(targetType: TargetType, project: JpsProject)
    returns (targetMap: map<string, AndroidBuildTarget>)
    ensures forall id :: (CreateTarget(targetMap, id).None?
                          <==> forall t :: t in AllTargets(targetType, project) ==> Id(t) != id)
    ensures forall id :: CreateTarget(targetMap, id).Some? ==>
      var all := AllTargets(targetType, project);
      exists i :: 0 <= i < |all| && all[i] == CreateTarget(targetMap, id).value
                  && Id(all[i]) == id
                  && forall j :: i < j < |all| ==> Id(all[j]) != id
  {
    var targets := ComputeAllTargets(targetType, project);
    targetMap := IndexById(targets);
  }
}
