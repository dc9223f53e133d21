/**
 * The mapper post-processor: every class file under the mapper package
 * whose class name ends in "Mapper" is registered as a MyBatis mapper
 * factory bean for that interface, under the name the generator gives the
 * interface itself.
 */
module MapperPostProcessor {
  import opened Wrappers
  import opened ClassPath
  import opened BeanRegistry
  import opened Sequences

  /** The mapper package's class files, in the first class-path root that has them. */
  const MapperResourcePattern := "classpath:com/itheima/a05/mapper/**/*.class"
  const MapperFactoryBeanClass := "org.mybatis.spring.mapper.MapperFactoryBean"
  const MapperSuffix := "Mapper"

  /** The filter: the class name ends in "Mapper". */
  predicate IsMapper(c: ScannedClass)
  {
    EndsWith(c.className, MapperSuffix)
  }

  /** The definition of the factory bean that produces the mapper's proxy:
      the factory-bean class, the interface name as its one constructor
      argument, and autowiring by type (which supplies the session factory). */
  function MapperDefinition(mapperInterface: string): (d: BeanDefinition)
    ensures d.beanClassName == Some(MapperFactoryBeanClass)
    ensures d.constructorArgs == [mapperInterface]
    ensures d.autowireMode == AutowireByType
    ensures d.factoryBeanName.None? && d.factoryMethodName.None? && d.initMethodName.None?
  {
    BlankDefinition.(beanClassName := Some(MapperFactoryBeanClass), constructorArgs := [mapperInterface],
                     autowireMode := AutowireByType)
  }

  /** The registration for a mapper interface: the factory-bean definition,
      named as a generic definition of the interface would be named. */
  function MapperRegistration(c: ScannedClass, generator: BeanNameGenerator): (r: Registration)
    ensures r.definition == MapperDefinition(c.className)
    ensures r.name == generator(GenericBeanDefinition(c.className))
  {
    Registration(generator(GenericBeanDefinition(c.className)), MapperDefinition(c.className))
  }

  /** The registrations for the mapper classes among `resources`, in order;
      an unreadable resource contributes none. */
  function Mappers(resources: seq<Resource>, generator: BeanNameGenerator): seq<Registration>
    decreases |resources|
  {
    if resources == [] then []
    else
      var last := resources[|resources| - 1];
      Mappers(resources[..|resources| - 1], generator)
        + (if last.ClassFile? && IsMapper(last.metadata) then [MapperRegistration(last.metadata, generator)] else [])
  }

  /** What the post-processor registers: the mappers among the resources read
      before the first failure; nothing when the pattern cannot be resolved. */
  function MapperScan(resolver: ResourceResolver, generator: BeanNameGenerator): ScanOutcome
  {
    match resolver(MapperResourcePattern)
    case None => ScanOutcome([], false)
    case Some(resources) =>
      var n := ReadablePrefix(resources);
      ScanOutcome(Mappers(resources[..n], generator), n == |resources|)
  }

  /**
   * Registers a mapper factory bean for every mapper interface found. An
   * I/O failure is caught: what was registered before it stays, and the
   * remaining resources are not visited.
   */
  method PostProcessBeanDefinitionRegistry(resolver: ResourceResolver, generator: BeanNameGenerator,
                                           beanFactory: DefaultListableBeanFactory)
    requires beanFactory.Valid()
    modifies beanFactory
    ensures beanFactory.Valid()
    ensures beanFactory.registrations
         == old(beanFactory.registrations) + MapperScan(resolver, generator).registrations
    ensures beanFactory.definitions
         == Apply(old(beanFactory.definitions), MapperScan(resolver, generator).registrations)
  {
    ghost var regs0 := beanFactory.registrations;
    Replay(beanFactory.definitions, regs0);
    var found := resolver(MapperResourcePattern);
    if found.Some? {
      RegisterMappers(found.value, generator, beanFactory);
    } else {
      assert regs0 + [] == regs0;
    }
    Replay(beanFactory.definitions, beanFactory.registrations);
    ApplyAppend(map[], regs0, MapperScan(resolver, generator).registrations);
  }

  /** The loop over the resources, in order, until one cannot be read. */
  method RegisterMappers(resources: seq<Resource>, generator: BeanNameGenerator,
                         beanFactory: DefaultListableBeanFactory)
    requires beanFactory.Valid()
    modifies beanFactory
    ensures beanFactory.Valid()
    ensures beanFactory.registrations
         == old(beanFactory.registrations) + Mappers(resources[..ReadablePrefix(resources)], generator)
  {
    ghost var regs0 := beanFactory.registrations;
    var j := 0;
    while j < |resources|
      invariant 0 <= j <= |resources|
      invariant beanFactory.Valid()
      invariant forall k :: 0 <= k < j ==> resources[k].ClassFile?
      invariant beanFactory.registrations == regs0 + Mappers(resources[..j], generator)
    {
      var resource := resources[j];
      if resource.Unreadable? {
        ReadablePrefixEnds(resources, j);
        return;
      }
      ghost var before := Mappers(resources[..j], generator);
      MappersStep(resources, j, generator);
      ghost var added := RegisterIfMapper(resource.metadata, generator, beanFactory);
      ConcatAssociative(regs0, before, added);
      j := j + 1;
    }
    assert resources[..j] == resources;
  }

  /** The loop body for one readable class. */
  method RegisterIfMapper(classMetadata: ScannedClass, generator: BeanNameGenerator,
                          beanFactory: DefaultListableBeanFactory)
    returns (ghost added: seq<Registration>)
    requires beanFactory.Valid()
    modifies beanFactory
    ensures beanFactory.Valid()
    ensures added == (if IsMapper(classMetadata) then [MapperRegistration(classMetadata, generator)] else [])
    ensures beanFactory.registrations == old(beanFactory.registrations) + added
  {
    if EndsWith(classMetadata.className, MapperSuffix) {
      var bd := MapperDefinition(classMetadata.className);
      var bd2 := GenericBeanDefinition(classMetadata.className);
      var name := generator(bd2);
      beanFactory.RegisterBeanDefinition(name, bd);
      added := [Registration(name, bd)];
    } else {
      added := [];
      assert beanFactory.registrations + [] == beanFactory.registrations;
    }
  }

  /** One more resource: the mappers so far, then that resource's. */
  lemma MappersStep(resources: seq<Resource>, j: int, generator: BeanNameGenerator)
    requires 0 <= j < |resources|
    ensures Mappers(resources[..j + 1], generator)
         == Mappers(resources[..j], generator)
            + (if resources[j].ClassFile? && IsMapper(resources[j].metadata)
               then [MapperRegistration(resources[j].metadata, generator)] else [])
  {
    assert resources[..j + 1][..j] == resources[..j];
  }

  /** Every registration is that of a mapper class among the resources. */
  lemma {:induction false} MappersSound(resources: seq<Resource>, generator: BeanNameGenerator, r: Registration)
    requires r in Mappers(resources, generator)
    ensures exists i :: 0 <= i < |resources| && resources[i].ClassFile? && IsMapper(resources[i].metadata)
                        && r == MapperRegistration(resources[i].metadata, generator)
    decreases |resources|
  {
    var n := |resources| - 1;
    var init := resources[..n];
    if r in Mappers(init, generator) {
      MappersSound(init, generator, r);
      var i :| 0 <= i < |init| && init[i].ClassFile? && IsMapper(init[i].metadata)
               && r == MapperRegistration(init[i].metadata, generator);
      assert resources[i] == init[i];
    } else {
      assert resources[n].ClassFile? && IsMapper(resources[n].metadata);
    }
  }

  /** Every mapper class among the resources is registered. */
  lemma {:induction false} MappersComplete(resources: seq<Resource>, generator: BeanNameGenerator, i: int)
    requires 0 <= i < |resources| && resources[i].ClassFile? && IsMapper(resources[i].metadata)
    ensures MapperRegistration(resources[i].metadata, generator) in Mappers(resources, generator)
    decreases |resources|
  {
    var n := |resources| - 1;
    if i < n {
      var init := resources[..n];
      assert init[i] == resources[i];
      MappersComplete(init, generator, i);
    }
  }

  /** Only mapper classes read before any failure are registered, each as a
      factory bean for its interface. */
  lemma MapperScanSound(resolver: ResourceResolver, generator: BeanNameGenerator, r: Registration)
    requires r in MapperScan(resolver, generator).registrations
    ensures resolver(MapperResourcePattern).Some?
    ensures var resources := resolver(MapperResourcePattern).value;
            exists i :: 0 <= i < ReadablePrefix(resources) && IsMapper(resources[i].metadata)
                        && r == MapperRegistration(resources[i].metadata, generator)
  {
    var resources := resolver(MapperResourcePattern).value;
    var n := ReadablePrefix(resources);
    MappersSound(resources[..n], generator, r);
    var i :| 0 <= i < n && resources[..n][i].ClassFile? && IsMapper(resources[..n][i].metadata)
             && r == MapperRegistration(resources[..n][i].metadata, generator);
    assert resources[..n][i] == resources[i];
  }

  /** Every mapper class read before any failure is registered. */
  lemma MapperScanComplete(resolver: ResourceResolver, generator: BeanNameGenerator, i: int)
    requires resolver(MapperResourcePattern).Some?
    requires var resources := resolver(MapperResourcePattern).value;
             0 <= i < ReadablePrefix(resources) && IsMapper(resources[i].metadata)
    ensures MapperRegistration(resolver(MapperResourcePattern).value[i].metadata, generator)
            in MapperScan(resolver, generator).registrations
  {
    var resources := resolver(MapperResourcePattern).value;
    var n := ReadablePrefix(resources);
    assert resources[..n][i] == resources[i];
    MappersComplete(resources[..n], generator, i);
  }

  /** Does nothing once definitions are loaded. */
  method PostProcessBeanFactory(beanFactory: DefaultListableBeanFactory)
    ensures unchanged(beanFactory)
  {
  }
}
