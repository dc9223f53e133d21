/**
 * The component-scan post-processor: for every base package named by the
 * configuration class's `@ComponentScan`, resolve the package's class files
 * and register a generic bean definition for each class annotated with
 * `@Component`, directly or through an annotation that carries it.
 */
module ComponentScanPostProcessor {
  import opened Wrappers
  import opened ClassPath
  import opened BeanRegistry
  import opened Sequences

  const ComponentAnnotation := "org.springframework.stereotype.Component"
  const AllClassPathsPrefix := "classpath*:"
  const ClassFilesSuffix := "/**/*.class"

  /** The `@ComponentScan` found on the configuration class. */
  datatype ComponentScan = ComponentScan(basePackages: seq<string>)

  /** `String.replace` of one character by another, everywhere. */
  function Replace(s: string, from: char, to: char): (r: string)
    ensures |r| == |s|
    ensures forall i :: 0 <= i < |s| ==> r[i] == (if s[i] == from then to else s[i])
  {
    if s == [] then []
    else [if s[0] == from then to else s[0]] + Replace(s[1..], from, to)
  }

  /** The location pattern for all class files under a package, in every
      class-path root. */
  function ResourcePattern(basePackage: string): (pattern: string)
    ensures |pattern| == |AllClassPathsPrefix| + |basePackage| + |ClassFilesSuffix|
    ensures pattern[..|AllClassPathsPrefix|] == AllClassPathsPrefix
    ensures pattern[|pattern| - |ClassFilesSuffix|..] == ClassFilesSuffix
    ensures forall i :: |AllClassPathsPrefix| <= i < |pattern| - |ClassFilesSuffix| ==> pattern[i] != '.'
  {
    AllClassPathsPrefix + Replace(basePackage, '.', '/') + ClassFilesSuffix
  }

  /** The package a pattern of that shape was made from. */
  function PackageOf(pattern: string): Option<string>
  {
    var lo, hi := |AllClassPathsPrefix|, |pattern| - |ClassFilesSuffix|;
    if lo <= hi && pattern[..lo] == AllClassPathsPrefix && pattern[hi..] == ClassFilesSuffix
    then Some(Replace(pattern[lo..hi], '/', '.'))
    else None
  }

  /** A package name without '/' is recovered from its pattern. */
  lemma PatternRoundTrip(basePackage: string)
    requires '/' !in basePackage
    ensures PackageOf(ResourcePattern(basePackage)) == Some(basePackage)
  {
    var middle := Replace(basePackage, '.', '/');
    var pattern := ResourcePattern(basePackage);
    var lo, hi := |AllClassPathsPrefix|, |pattern| - |ClassFilesSuffix|;
    assert pattern == AllClassPathsPrefix + middle + ClassFilesSuffix;
    assert pattern[lo..hi] == middle;
    var back := Replace(middle, '/', '.');
    assert forall i :: 0 <= i < |basePackage| ==> back[i] == basePackage[i];
    assert back == basePackage;
  }

  /** So distinct such packages are scanned under distinct patterns. */
  lemma PatternInjective(p: string, q: string)
    requires '/' !in p && '/' !in q
    requires ResourcePattern(p) == ResourcePattern(q)
    ensures p == q
  {
    PatternRoundTrip(p);
    PatternRoundTrip(q);
  }

  /** The filter: `@Component` present on the class or on one of its annotations. */
  predicate IsComponent(c: ScannedClass)
  {
    ComponentAnnotation in c.annotationTypes || ComponentAnnotation in c.metaAnnotationTypes
  }

  /** The registration for a component class: a generic definition of the
      class, named by the generator. */
  function ComponentRegistration(c: ScannedClass, generator: BeanNameGenerator): (r: Registration)
    ensures r.definition.beanClassName == Some(c.className)
    ensures r.definition == GenericBeanDefinition(c.className)
    ensures r.name == generator(r.definition)
  {
    var bd := GenericBeanDefinition(c.className);
    Registration(generator(bd), bd)
  }

  /** The registrations for the component classes among `resources`, in
      order; an unreadable resource contributes none. */
  function Components(resources: seq<Resource>, generator: BeanNameGenerator): seq<Registration>
    decreases |resources|
  {
    if resources == [] then []
    else
      var last := resources[|resources| - 1];
      Components(resources[..|resources| - 1], generator)
        + (if last.ClassFile? && IsComponent(last.metadata)
           then [ComponentRegistration(last.metadata, generator)] else [])
  }

  /** One package: the components among the resources read before the
      first unreadable one, in order. */
  function ScanPackage(resources: seq<Resource>, generator: BeanNameGenerator): ScanOutcome
  {
    var n := ReadablePrefix(resources);
    ScanOutcome(Components(resources[..n], generator), n == |resources|)
  }

  /** One package: resolve its pattern, then scan what was found. */
  function ScanOne(basePackage: string, resolver: ResourceResolver, generator: BeanNameGenerator): ScanOutcome
  {
    match resolver(ResourcePattern(basePackage))
    case None => ScanOutcome([], false)
    case Some(resources) => ScanPackage(resources, generator)
  }

  /** Run `second` after `first`, unless `first` was cut short. */
  function AndThen(first: ScanOutcome, second: ScanOutcome): (o: ScanOutcome)
    ensures !first.completed ==> o == first
    ensures first.completed ==> o.registrations == first.registrations + second.registrations
                                && o.completed == second.completed
  {
    if !first.completed then first
    else ScanOutcome(first.registrations + second.registrations, second.completed)
  }

  lemma AndThenAssociative(a: ScanOutcome, b: ScanOutcome, c: ScanOutcome)
    ensures AndThen(AndThen(a, b), c) == AndThen(a, AndThen(b, c))
  {
    if a.completed && b.completed {
      assert (a.registrations + b.registrations) + c.registrations
          == a.registrations + (b.registrations + c.registrations);
    }
  }

  /** The packages in order; the first I/O failure ends the whole scan. */
  function ScanPackages(packages: seq<string>, resolver: ResourceResolver,
                        generator: BeanNameGenerator): ScanOutcome
    decreases |packages|
  {
    if packages == [] then ScanOutcome([], true)
    else AndThen(ScanPackages(packages[..|packages| - 1], resolver, generator),
                 ScanOne(packages[|packages| - 1], resolver, generator))
  }

  /** What the post-processor registers; nothing without `@ComponentScan`. */
  function Scan(componentScan: Option<ComponentScan>, resolver: ResourceResolver,
                generator: BeanNameGenerator): ScanOutcome
  {
    match componentScan
    case None => ScanOutcome([], true)
    case Some(cs) => ScanPackages(cs.basePackages, resolver, generator)
  }

  /**
   * Registers the components of every base package. An I/O failure while
   * resolving a package or reading a class file is caught: what was
   * registered before it stays, and nothing after it is scanned.
   */
  method PostProcessBeanDefinitionRegistry(componentScan: Option<ComponentScan>, resolver: ResourceResolver,
                                           generator: BeanNameGenerator, beanFactory: DefaultListableBeanFactory)
    requires beanFactory.Valid()
    modifies beanFactory
    ensures beanFactory.Valid()
    ensures beanFactory.registrations
         == old(beanFactory.registrations) + Scan(componentScan, resolver, generator).registrations
    ensures beanFactory.definitions
         == Apply(old(beanFactory.definitions), Scan(componentScan, resolver, generator).registrations)
  {
    ghost var regs0 := beanFactory.registrations;
    Replay(beanFactory.definitions, regs0);
    if componentScan.Some? {
      ScanBasePackages(componentScan.value.basePackages, resolver, generator, beanFactory);
    } else {
      assert regs0 + [] == regs0;
    }
    Replay(beanFactory.definitions, beanFactory.registrations);
    ApplyAppend(map[], regs0, Scan(componentScan, resolver, generator).registrations);
  }

  /** The outer loop: the base packages in order, until one fails. */
  method ScanBasePackages(packages: seq<string>, resolver: ResourceResolver, generator: BeanNameGenerator,
                          beanFactory: DefaultListableBeanFactory)
    requires beanFactory.Valid()
    modifies beanFactory
    ensures beanFactory.Valid()
    ensures beanFactory.registrations
         == old(beanFactory.registrations) + ScanPackages(packages, resolver, generator).registrations
  {
    ghost var regs0 := beanFactory.registrations;
    var i := 0;
    while i < |packages|
      invariant 0 <= i <= |packages|
      invariant beanFactory.Valid()
      invariant ScanPackages(packages[..i], resolver, generator).completed
      invariant beanFactory.registrations == regs0 + ScanPackages(packages[..i], resolver, generator).registrations
    {
      ghost var done := ScanPackages(packages[..i], resolver, generator).registrations;
      ghost var here := ScanOne(packages[i], resolver, generator);
      ScanPackagesStep(packages, i, resolver, generator);
      assert ScanPackages(packages[..i + 1], resolver, generator) == ScanOutcome(done + here.registrations, here.completed);
      var completed := ScanBasePackage(packages[i], resolver, generator, beanFactory);
      ConcatAssociative(regs0, done, here.registrations);
      if !completed {
        ScanStops(packages, i + 1, resolver, generator);
        return;
      }
      i := i + 1;
    }
    assert packages[..i] == packages;
  }

  /** The outer loop's body: resolve one base package's pattern and
      register its components. */
  method ScanBasePackage(basePackage: string, resolver: ResourceResolver, generator: BeanNameGenerator,
                         beanFactory: DefaultListableBeanFactory)
    returns (completed: bool)
    requires beanFactory.Valid()
    modifies beanFactory
    ensures beanFactory.Valid()
    ensures completed == ScanOne(basePackage, resolver, generator).completed
    ensures beanFactory.registrations
         == old(beanFactory.registrations) + ScanOne(basePackage, resolver, generator).registrations
  {
    var path := ResourcePattern(basePackage);
    var found := resolver(path);
    if found.None? {
      assert beanFactory.registrations + [] == beanFactory.registrations;
      return false;
    }
    completed := RegisterComponents(found.value, generator, beanFactory);
  }

  /** The inner loop: one package's resources, in order, until one cannot be read. */
  method RegisterComponents(resources: seq<Resource>, generator: BeanNameGenerator,
                            beanFactory: DefaultListableBeanFactory)
    returns (completed: bool)
    requires beanFactory.Valid()
    modifies beanFactory
    ensures beanFactory.Valid()
    ensures completed == ScanPackage(resources, generator).completed
    ensures beanFactory.registrations
         == old(beanFactory.registrations) + ScanPackage(resources, generator).registrations
  {
    ghost var regs0 := beanFactory.registrations;
    var j := 0;
    while j < |resources|
      invariant 0 <= j <= |resources|
      invariant beanFactory.Valid()
      invariant forall k :: 0 <= k < j ==> resources[k].ClassFile?
      invariant beanFactory.registrations == regs0 + Components(resources[..j], generator)
    {
      var resource := resources[j];
      if resource.Unreadable? {
        ReadablePrefixEnds(resources, j);
        return false;
      }
      ghost var before := Components(resources[..j], generator);
      ComponentsStep(resources, j, generator);
      ghost var added := RegisterIfComponent(resource.metadata, generator, beanFactory);
      ConcatAssociative(regs0, before, added);
      j := j + 1;
    }
    assert resources[..j] == resources;
    return true;
  }

  /** The inner loop's body for one readable class. */
  method RegisterIfComponent(c: ScannedClass, generator: BeanNameGenerator,
                             beanFactory: DefaultListableBeanFactory)
    returns (ghost added: seq<Registration>)
    requires beanFactory.Valid()
    modifies beanFactory
    ensures beanFactory.Valid()
    ensures added == (if IsComponent(c) then [ComponentRegistration(c, generator)] else [])
    ensures beanFactory.registrations == old(beanFactory.registrations) + added
  {
    if ComponentAnnotation in c.annotationTypes || ComponentAnnotation in c.metaAnnotationTypes {
      var bd := GenericBeanDefinition(c.className);
      var name := generator(bd);
      beanFactory.RegisterBeanDefinition(name, bd);
      added := [Registration(name, bd)];
    } else {
      added := [];
      assert beanFactory.registrations + [] == beanFactory.registrations;
    }
  }

  /** One more resource: the components so far, then that resource's. */
  lemma ComponentsStep(resources: seq<Resource>, j: int, generator: BeanNameGenerator)
    requires 0 <= j < |resources|
    ensures Components(resources[..j + 1], generator)
         == Components(resources[..j], generator)
            + (if resources[j].ClassFile? && IsComponent(resources[j].metadata)
               then [ComponentRegistration(resources[j].metadata, generator)] else [])
  {
    assert resources[..j + 1][..j] == resources[..j];
  }

  /** One more package: the scan so far, then that package. */
  lemma ScanPackagesStep(packages: seq<string>, i: int, resolver: ResourceResolver, generator: BeanNameGenerator)
    requires 0 <= i < |packages|
    ensures ScanPackages(packages[..i + 1], resolver, generator)
         == AndThen(ScanPackages(packages[..i], resolver, generator), ScanOne(packages[i], resolver, generator))
  {
    assert packages[..i + 1][..i] == packages[..i];
  }

  /** Once a prefix of the packages fails, the later packages add nothing. */
  lemma {:induction false} ScanStops(packages: seq<string>, k: nat, resolver: ResourceResolver,
                                     generator: BeanNameGenerator)
    requires k <= |packages|
    requires !ScanPackages(packages[..k], resolver, generator).completed
    ensures ScanPackages(packages, resolver, generator) == ScanPackages(packages[..k], resolver, generator)
    decreases |packages| - k
  {
    if k < |packages| {
      var init := packages[..|packages| - 1];
      assert init[..k] == packages[..k];
      ScanStops(init, k, resolver, generator);
    } else {
      assert packages[..k] == packages;
    }
  }

  /** Every registration is that of a component class among the resources. */
  lemma {:induction false} ComponentsSound(resources: seq<Resource>, generator: BeanNameGenerator, r: Registration)
    requires r in Components(resources, generator)
    ensures exists i :: 0 <= i < |resources| && resources[i].ClassFile? && IsComponent(resources[i].metadata)
                        && r == ComponentRegistration(resources[i].metadata, generator)
    decreases |resources|
  {
    var n := |resources| - 1;
    var init := resources[..n];
    if r in Components(init, generator) {
      ComponentsSound(init, generator, r);
      var i :| 0 <= i < |init| && init[i].ClassFile? && IsComponent(init[i].metadata)
               && r == ComponentRegistration(init[i].metadata, generator);
      assert resources[i] == init[i];
    } else {
      assert resources[n].ClassFile? && IsComponent(resources[n].metadata);
    }
  }

  /** Every component class among the resources is registered. */
  lemma {:induction false} ComponentsComplete(resources: seq<Resource>, generator: BeanNameGenerator, i: int)
    requires 0 <= i < |resources| && resources[i].ClassFile? && IsComponent(resources[i].metadata)
    ensures ComponentRegistration(resources[i].metadata, generator) in Components(resources, generator)
    decreases |resources|
  {
    var n := |resources| - 1;
    if i < n {
      var init := resources[..n];
      assert init[i] == resources[i];
      ComponentsComplete(init, generator, i);
    }
  }

  /** Every registration of a package scan is a component class read before
      any failure, registered as a generic definition of that class under
      its generated name. */
  lemma ScanPackageSound(resources: seq<Resource>, generator: BeanNameGenerator, r: Registration)
    requires r in ScanPackage(resources, generator).registrations
    ensures exists i :: 0 <= i < ReadablePrefix(resources) && IsComponent(resources[i].metadata)
                        && r == ComponentRegistration(resources[i].metadata, generator)
  {
    var n := ReadablePrefix(resources);
    ComponentsSound(resources[..n], generator, r);
    var i :| 0 <= i < n && resources[..n][i].ClassFile? && IsComponent(resources[..n][i].metadata)
             && r == ComponentRegistration(resources[..n][i].metadata, generator);
    assert resources[..n][i] == resources[i];
  }

  /** Every component class read before any failure is registered. */
  lemma ScanPackageComplete(resources: seq<Resource>, generator: BeanNameGenerator, i: int)
    requires 0 <= i < ReadablePrefix(resources) && IsComponent(resources[i].metadata)
    ensures ComponentRegistration(resources[i].metadata, generator) in ScanPackage(resources, generator).registrations
  {
    var n := ReadablePrefix(resources);
    assert resources[..n][i] == resources[i];
    ComponentsComplete(resources[..n], generator, i);
  }

  /** A package scan runs to the end exactly when every resource can be read. */
  lemma ScanPackageCompleted(resources: seq<Resource>, generator: BeanNameGenerator)
    ensures ScanPackage(resources, generator).completed
        <==> forall i :: 0 <= i < |resources| ==> resources[i].ClassFile?
  {
  }

  /** Every registration of the whole scan comes from one of the base packages. */
  lemma {:induction false} ScanPackagesSound(packages: seq<string>, resolver: ResourceResolver,
                                             generator: BeanNameGenerator, r: Registration)
    requires r in ScanPackages(packages, resolver, generator).registrations
    ensures exists k :: 0 <= k < |packages| && r in ScanOne(packages[k], resolver, generator).registrations
    decreases |packages|
  {
    var n := |packages| - 1;
    var init := packages[..n];
    var prev := ScanPackages(init, resolver, generator);
    if r in prev.registrations {
      ScanPackagesSound(init, resolver, generator, r);
      var k :| 0 <= k < |init| && r in ScanOne(init[k], resolver, generator).registrations;
      assert packages[k] == init[k];
    } else {
      assert r in ScanOne(packages[n], resolver, generator).registrations;
    }
  }

  /** Packages are scanned in order: scanning `ps + qs` is scanning `ps`,
      then, unless that failed, scanning `qs` and appending. */
  lemma {:induction false} ScanPackagesAppend(ps: seq<string>, qs: seq<string>, resolver: ResourceResolver,
                                              generator: BeanNameGenerator)
    ensures ScanPackages(ps + qs, resolver, generator)
         == AndThen(ScanPackages(ps, resolver, generator), ScanPackages(qs, resolver, generator))
    decreases |qs|
  {
    if qs == [] {
      assert ps + qs == ps;
    } else {
      var init, last := qs[..|qs| - 1], qs[|qs| - 1];
      assert (ps + qs)[..|ps + qs| - 1] == ps + init;
      assert (ps + qs)[|ps + qs| - 1] == last;
      ScanPackagesAppend(ps, init, resolver, generator);
      AndThenAssociative(ScanPackages(ps, resolver, generator), ScanPackages(init, resolver, generator),
                         ScanOne(last, resolver, generator));
    }
  }

  /** Does nothing once definitions are loaded. */
  method PostProcessBeanFactory(beanFactory: DefaultListableBeanFactory)
    ensures unchanged(beanFactory)
  {
  }
}
