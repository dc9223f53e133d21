/**
 * The `@Bean` post-processor: reads the configuration class's metadata from
 * its class file and registers, for every method annotated with `@Bean`, a
 * definition that makes the bean by calling that method on the bean named
 * "config", under the method's name.
 */
module AtBeanPostProcessor {
  import opened Wrappers
  import opened BeanRegistry
  import opened Sequences

  const ConfigClassResource := "com/itheima/a05/Config.class"
  const ConfigBeanName := "config"

  /** A `@Bean` method of the configuration class: its name and the
      annotation's `initMethod` attribute ("" when not given). */
  datatype BeanMethod = BeanMethod(methodName: string, initMethod: string)

  /** Reads a class file and yields its `@Bean` methods in the order the
      metadata lists them, or `None` when the file cannot be read. */
  type BeanMethodReader = string -> Option<seq<BeanMethod>>

  /** The definition built for a `@Bean` method: a factory method on the
      configuration bean, autowired through the method's parameters, with
      an init method exactly when the annotation names a non-empty one. */
  function BeanMethodDefinition(m: BeanMethod): (d: BeanDefinition)
    ensures d.factoryMethodName == Some(m.methodName) && d.factoryBeanName == Some(ConfigBeanName)
    ensures d.autowireMode == AutowireConstructor
    ensures d.initMethodName.Some? <==> |m.initMethod| > 0
    ensures d.initMethodName.Some? ==> d.initMethodName.value == m.initMethod
    ensures d.beanClassName.None? && d.constructorArgs == []
  {
    BlankDefinition.(factoryMethodName := Some(m.methodName), factoryBeanName := Some(ConfigBeanName),
                     autowireMode := AutowireConstructor,
                     initMethodName := if |m.initMethod| > 0 then Some(m.initMethod) else None)
  }

  /** One registration per `@Bean` method, in order, under the method's name. */
  function BeanRegistrations(methods: seq<BeanMethod>): (regs: seq<Registration>)
    ensures |regs| == |methods|
    ensures forall i :: 0 <= i < |methods| ==>
              regs[i] == Registration(methods[i].methodName, BeanMethodDefinition(methods[i]))
    decreases |methods|
  {
    if methods == [] then []
    else
      var last := methods[|methods| - 1];
      BeanRegistrations(methods[..|methods| - 1]) + [Registration(last.methodName, BeanMethodDefinition(last))]
  }

  /** What the post-processor registers; nothing when the configuration
      class file cannot be read. */
  function AtBeanScan(reader: BeanMethodReader): seq<Registration>
  {
    match reader(ConfigClassResource)
    case None => []
    case Some(methods) => BeanRegistrations(methods)
  }

  /**
   * Registers a factory-method definition for every `@Bean` method. The
   * definition is assembled step by step, as the builder does. A failure
   * to read the class file is caught and nothing is registered.
   */
  method PostProcessBeanDefinitionRegistry(reader: BeanMethodReader, beanFactory: DefaultListableBeanFactory)
    requires beanFactory.Valid()
    modifies beanFactory
    ensures beanFactory.Valid()
    ensures beanFactory.registrations == old(beanFactory.registrations) + AtBeanScan(reader)
    ensures beanFactory.definitions == Apply(old(beanFactory.definitions), AtBeanScan(reader))
  {
    ghost var regs0 := beanFactory.registrations;
    Replay(beanFactory.definitions, regs0);
    var found := reader(ConfigClassResource);
    if found.Some? {
      RegisterBeanMethods(found.value, beanFactory);
    } else {
      assert regs0 + [] == regs0;
    }
    Replay(beanFactory.definitions, beanFactory.registrations);
    ApplyAppend(map[], regs0, AtBeanScan(reader));
  }

  /** The loop over the `@Bean` methods, in order. */
  method RegisterBeanMethods(methods: seq<BeanMethod>, beanFactory: DefaultListableBeanFactory)
    requires beanFactory.Valid()
    modifies beanFactory
    ensures beanFactory.Valid()
    ensures beanFactory.registrations == old(beanFactory.registrations) + BeanRegistrations(methods)
  {
    ghost var regs0 := beanFactory.registrations;
    var i := 0;
    while i < |methods|
      invariant 0 <= i <= |methods|
      invariant beanFactory.Valid()
      invariant beanFactory.registrations == regs0 + BeanRegistrations(methods[..i])
    {
      var m := methods[i];
      var initMethod := m.initMethod;
      var builder := BlankDefinition;
      builder := builder.(factoryMethodName := Some(m.methodName), factoryBeanName := Some(ConfigBeanName));
      builder := builder.(autowireMode := AutowireConstructor);
      if |initMethod| > 0 {
        builder := builder.(initMethodName := Some(initMethod));
      }
      var bd := builder;
      ghost var before := BeanRegistrations(methods[..i]);
      assert methods[..i + 1][..i] == methods[..i];
      assert BeanRegistrations(methods[..i + 1]) == before + [Registration(m.methodName, bd)];
      beanFactory.RegisterBeanDefinition(m.methodName, bd);
      ConcatAssociative(regs0, before, [Registration(m.methodName, bd)]);
      i := i + 1;
    }
    assert methods[..i] == methods;
  }

  /** The names registered are exactly the `@Bean` method names. */
  lemma AtBeanNames(methods: seq<BeanMethod>)
    ensures Names(BeanRegistrations(methods)) == set i | 0 <= i < |methods| :: methods[i].methodName
  {
  }

  /** The table gains exactly the `@Bean` method names, and every other
      entry is left as it was. */
  lemma AtBeanKeys(defs: map<string, BeanDefinition>, methods: seq<BeanMethod>, k: string)
    ensures Apply(defs, BeanRegistrations(methods)).Keys
         == defs.Keys + set i | 0 <= i < |methods| :: methods[i].methodName
    ensures (forall i :: 0 <= i < |methods| ==> methods[i].methodName != k) && k in defs
            ==> Apply(defs, BeanRegistrations(methods))[k] == defs[k]
  {
    ApplyKeys(defs, BeanRegistrations(methods));
    AtBeanNames(methods);
    if forall i :: 0 <= i < |methods| ==> methods[i].methodName != k {
      ApplyUntouched(defs, BeanRegistrations(methods), k);
    }
  }

  /** A `@Bean` method whose name no later method reuses ends up in the
      table with its own definition; of overloads sharing a name, the last
      one listed wins. */
  lemma AtBeanLookup(defs: map<string, BeanDefinition>, methods: seq<BeanMethod>, i: int)
    requires 0 <= i < |methods|
    requires forall j :: i < j < |methods| ==> methods[j].methodName != methods[i].methodName
    ensures methods[i].methodName in Apply(defs, BeanRegistrations(methods))
    ensures Apply(defs, BeanRegistrations(methods))[methods[i].methodName] == BeanMethodDefinition(methods[i])
  {
    ApplyLast(defs, BeanRegistrations(methods), i);
  }

  /** Does nothing once definitions are loaded. */
  method PostProcessBeanFactory(beanFactory: DefaultListableBeanFactory)
    ensures unchanged(beanFactory)
  {
  }
}
