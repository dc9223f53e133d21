/**
 * Bean definitions and the registry the post-processors write into. The
 * registry is the bean factory's table from bean name to definition;
 * registering a name that is already present replaces its definition.
 */
module BeanRegistry {
  import opened Wrappers

  datatype AutowireMode = AutowireNo | AutowireByName | AutowireByType | AutowireConstructor

  /** The parts of a bean definition the post-processors set. */
  datatype BeanDefinition = BeanDefinition(
    beanClassName: Option<string>,
    constructorArgs: seq<string>,
    autowireMode: AutowireMode,
    factoryBeanName: Option<string>,
    factoryMethodName: Option<string>,
    initMethodName: Option<string>)

  /** What a definition builder starts from: nothing set, no autowiring. */
  const BlankDefinition := BeanDefinition(None, [], AutowireNo, None, None, None)

  /** A builder started from a class name and finished at once. */
  function GenericBeanDefinition(className: string): (d: BeanDefinition)
    ensures d.beanClassName == Some(className)
    ensures d == BlankDefinition.(beanClassName := Some(className))
  {
    BlankDefinition.(beanClassName := Some(className))
  }

  /** The name generator: a bean name from a definition. Its naming rule
      (annotation value or decapitalised short class name) is not modelled. */
  type BeanNameGenerator = BeanDefinition -> string

  /** One call of `registerBeanDefinition`. */
  datatype Registration = Registration(name: string, definition: BeanDefinition)

  /** The result of a scanning post-processor: the registrations it made,
      in order, and whether it ran to the end (`false`: an I/O failure,
      caught and reported, cut it short). */
  datatype ScanOutcome = ScanOutcome(registrations: seq<Registration>, completed: bool)

  /** The table after the registrations `regs`, in order, applied to `defs`. */
  function Apply(defs: map<string, BeanDefinition>, regs: seq<Registration>): map<string, BeanDefinition>
    decreases |regs|
  {
    if regs == [] then defs
    else
      var last := regs[|regs| - 1];
      Apply(defs, regs[..|regs| - 1])[last.name := last.definition]
  }

  /** The names `regs` register under. */
  ghost function Names(regs: seq<Registration>): set<string>
  {
    set i | 0 <= i < |regs| :: regs[i].name
  }

  lemma ApplySnoc(defs: map<string, BeanDefinition>, regs: seq<Registration>, r: Registration)
    ensures Apply(defs, regs + [r]) == Apply(defs, regs)[r.name := r.definition]
  {
    assert (regs + [r])[..|regs|] == regs;
  }

  /** Applying two runs of registrations is applying them one after the other. */
  lemma {:induction false} ApplyAppend(defs: map<string, BeanDefinition>, a: seq<Registration>, b: seq<Registration>)
    ensures Apply(defs, a + b) == Apply(Apply(defs, a), b)
    decreases |b|
  {
    if b == [] {
      assert a + b == a;
    } else {
      var init, last := b[..|b| - 1], b[|b| - 1];
      assert b == init + [last];
      assert a + b == (a + init) + [last];
      ApplySnoc(defs, a + init, last);
      ApplyAppend(defs, a, init);
      ApplySnoc(Apply(defs, a), init, last);
    }
  }

  /** Registration adds exactly the registered names. */
  lemma {:induction false} ApplyKeys(defs: map<string, BeanDefinition>, regs: seq<Registration>)
    ensures Apply(defs, regs).Keys == defs.Keys + Names(regs)
    decreases |regs|
  {
    if regs != [] {
      var init := regs[..|regs| - 1];
      ApplyKeys(defs, init);
      assert Names(regs) == Names(init) + {regs[|regs| - 1].name} by {
        forall i | 0 <= i < |init| ensures init[i] == regs[i] { }
      }
    }
  }

  /** An entry no registration names is left as it was. */
  lemma {:induction false} ApplyUntouched(defs: map<string, BeanDefinition>, regs: seq<Registration>, k: string)
    requires forall i :: 0 <= i < |regs| ==> regs[i].name != k
    ensures k in Apply(defs, regs) <==> k in defs
    ensures k in defs ==> Apply(defs, regs)[k] == defs[k]
    decreases |regs|
  {
    if regs != [] {
      var init := regs[..|regs| - 1];
      ApplyUntouched(defs, init, k);
    }
  }

  /** The entry for a name is the definition of its last registration. */
  lemma {:induction false} ApplyLast(defs: map<string, BeanDefinition>, regs: seq<Registration>, i: int)
    requires 0 <= i < |regs|
    requires forall j :: i < j < |regs| ==> regs[j].name != regs[i].name
    ensures regs[i].name in Apply(defs, regs)
    ensures Apply(defs, regs)[regs[i].name] == regs[i].definition
    decreases |regs|
  {
    if i < |regs| - 1 {
      var init := regs[..|regs| - 1];
      ApplyLast(defs, init, i);
    }
  }

  /** The entry for `name`, if the table has one. */
  function Lookup(defs: map<string, BeanDefinition>, name: string): Option<BeanDefinition>
  {
    if name in defs then Some(defs[name]) else None
  }

  /** The definition of the last registration of `name`, if there is one. */
  function LastDefinition(regs: seq<Registration>, name: string): (d: Option<BeanDefinition>)
    ensures d.Some? ==> exists i :: 0 <= i < |regs| && regs[i] == Registration(name, d.value)
    decreases |regs|
  {
    if regs == [] then None
    else
      var last := regs[|regs| - 1];
      if last.name == name then Some(last.definition)
      else LastDefinition(regs[..|regs| - 1], name)
  }

  /** Replaying the registrations into an empty table leaves, for every
      name, the definition of its last registration. */
  lemma {:induction false} LookupApply(regs: seq<Registration>, name: string)
    ensures Lookup(Apply(map[], regs), name) == LastDefinition(regs, name)
    decreases |regs|
  {
    if regs != [] {
      LookupApply(regs[..|regs| - 1], name);
    }
  }

  /** A table that agrees with the registrations on every name is their replay. */
  lemma Replay(defs: map<string, BeanDefinition>, regs: seq<Registration>)
    requires forall name :: Lookup(defs, name) == LastDefinition(regs, name)
    ensures defs == Apply(map[], regs)
  {
    var replayed := Apply(map[], regs);
    forall name
      ensures Lookup(defs, name) == Lookup(replayed, name)
    {
      LookupApply(regs, name);
    }
    assert forall name :: name in defs <==> name in replayed by {
      forall name ensures name in defs <==> name in replayed {
        assert Lookup(defs, name) == Lookup(replayed, name);
      }
    }
    assert forall name :: name in defs ==> defs[name] == replayed[name] by {
      forall name | name in defs ensures defs[name] == replayed[name] {
        assert Lookup(defs, name) == Lookup(replayed, name);
      }
    }
  }

  /** The bean factory, seen as a definition registry. */
  class DefaultListableBeanFactory {
    var definitions: map<string, BeanDefinition>
    /** Every registration made so far, in order. */
    ghost var registrations: seq<Registration>

    /** Every name in the table was registered, every registered name is in
        it, and its entry is the definition of its last registration. */
    ghost predicate Valid()
      reads this
    {
      forall name :: Lookup(definitions, name) == LastDefinition(registrations, name)
    }

    constructor ()
      ensures Valid()
      ensures definitions == map[] && registrations == []
    {
      definitions := map[];
      registrations := [];
    }

    /** Adds the definition under the name, replacing any earlier one. */
    method RegisterBeanDefinition(name: string, definition: BeanDefinition)
      requires Valid()
      modifies this
      ensures Valid()
      ensures definitions == old(definitions)[name := definition]
      ensures registrations == old(registrations) + [Registration(name, definition)]
    {
      ghost var regs := registrations + [Registration(name, definition)];
      assert regs[..|regs| - 1] == registrations;
      definitions := definitions[name := definition];
      registrations := regs;
    }
  }
}
