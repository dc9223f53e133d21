/**
 * Turning an annotated aspect class into low-level advisors: every method
 * that carries `@Before`, `@AfterReturning` or `@Around` becomes one
 * advisor (a pointcut holding the annotation's expression, and an advice
 * of the matching kind that shares the single aspect-instance factory);
 * every other method, `@AfterThrowing` included, is dropped.
 */
module AspectAdvisors {
  import opened Wrappers
  import opened FilterMaps

  /** A declared method of the aspect class, with the `value` of each
      advice annotation it carries (`None` when that annotation is absent). */
  datatype AspectMethod = AspectMethod(
    name: string,
    before: Option<string>,
    afterReturning: Option<string>,
    afterThrowing: Option<string>,
    around: Option<string>)

  datatype AdviceKind = MethodBefore | AfterReturning | Around

  datatype Pointcut = AspectJExpressionPointcut(expression: string)

  /** A factory that always hands out the same aspect instance. */
  datatype AspectInstanceFactory = SingletonAspectInstanceFactory(aspectInstance: nat)

  /** The advice built from an aspect method: which method supplies the
      behaviour, its pointcut, and how the aspect object is obtained. */
  datatype Advice = AspectJAdvice(
    kind: AdviceKind,
    aspectMethod: AspectMethod,
    pointcut: Pointcut,
    factory: AspectInstanceFactory)

  datatype Advisor = DefaultPointcutAdvisor(pointcut: Pointcut, advice: Advice)

  function MakeAdvisor(kind: AdviceKind, m: AspectMethod, expression: string,
                       factory: AspectInstanceFactory): Advisor
  {
    var pointcut := AspectJExpressionPointcut(expression);
    DefaultPointcutAdvisor(pointcut, AspectJAdvice(kind, m, pointcut, factory))
  }

  /** The methods that yield an advisor. */
  predicate Advised(m: AspectMethod)
  {
    m.before.Some? || m.afterReturning.Some? || m.around.Some?
  }

  /**
   * The body of the classification loop for one method: the first
   * annotation present in the order Before, AfterReturning, Around decides
   * the kind, and its value becomes the pointcut expression.
   */
  function Classify(m: AspectMethod, factory: AspectInstanceFactory): (a: Option<Advisor>)
    ensures a.Some? <==> Advised(m)
    ensures a.Some? ==> a.value.advice.aspectMethod == m && a.value.advice.factory == factory
                        && a.value.advice.pointcut == a.value.pointcut
    ensures a.Some? ==> (a.value.advice.kind == MethodBefore <==> m.before.Some?)
    ensures a.Some? ==> (a.value.advice.kind == AfterReturning <==> m.before.None? && m.afterReturning.Some?)
    ensures a.Some? ==> (a.value.advice.kind == Around <==> m.before.None? && m.afterReturning.None?)
    ensures a.Some? ==> a.value.pointcut.expression
                        == (if m.before.Some? then m.before.value
                            else if m.afterReturning.Some? then m.afterReturning.value
                            else m.around.value)
  {
    if m.before.Some? then Some(MakeAdvisor(MethodBefore, m, m.before.value, factory))
    else if m.afterReturning.Some? then Some(MakeAdvisor(AfterReturning, m, m.afterReturning.value, factory))
    else if m.around.Some? then Some(MakeAdvisor(Around, m, m.around.value, factory))
    else None
  }

  /** `Classify` with the factory fixed, as one loop body. */
  function ClassifyWith(factory: AspectInstanceFactory): AspectMethod -> Option<Advisor>
  {
    (m: AspectMethod) => Classify(m, factory)
  }

  /** The advisor list the loop builds from `methods` in visiting order. */
  function Advisors(methods: seq<AspectMethod>, factory: AspectInstanceFactory): seq<Advisor>
  {
    FilterMap(methods, ClassifyWith(factory))
  }

  /** The classification loop: visits the methods in the given order and
      appends one advisor for each advised method. */
  method BuildAdvisors(methods: seq<AspectMethod>, factory: AspectInstanceFactory)
    returns (list: seq<Advisor>)
    ensures list == Advisors(methods, factory)
  {
    list := [];
    var i := 0;
    while i < |methods|
      invariant 0 <= i <= |methods|
      invariant list == Advisors(methods[..i], factory)
    {
      var m := methods[i];
      assert methods[..i + 1] == methods[..i] + [m];
      FilterMapSnoc(methods[..i], m, ClassifyWith(factory));
      if m.before.Some? {
        list := list + [MakeAdvisor(MethodBefore, m, m.before.value, factory)];
      } else if m.afterReturning.Some? {
        list := list + [MakeAdvisor(AfterReturning, m, m.afterReturning.value, factory)];
      } else if m.around.Some? {
        list := list + [MakeAdvisor(Around, m, m.around.value, factory)];
      }
      i := i + 1;
    }
    assert methods[..i] == methods;
  }

  /** Every advisor comes from an advised method of the list and uses the
      one shared factory. */
  lemma AdvisorsSound(methods: seq<AspectMethod>, factory: AspectInstanceFactory, a: Advisor)
    requires a in Advisors(methods, factory)
    ensures a.advice.factory == factory
    ensures exists i :: 0 <= i < |methods| && Advised(methods[i]) && Classify(methods[i], factory) == Some(a)
  {
    FilterMapSound(methods, ClassifyWith(factory), a);
  }

  /** Every advised method contributes its advisor. */
  lemma AdvisorsComplete(methods: seq<AspectMethod>, factory: AspectInstanceFactory, i: int)
    requires 0 <= i < |methods| && Advised(methods[i])
    ensures Classify(methods[i], factory).value in Advisors(methods, factory)
  {
    FilterMapComplete(methods, ClassifyWith(factory), i);
  }

  /** The list is exactly as long as the number of advised methods. */
  lemma AdvisorsLength(methods: seq<AspectMethod>, factory: AspectInstanceFactory)
    ensures |Advisors(methods, factory)| == |set i | 0 <= i < |methods| && Advised(methods[i])|
  {
    var f := ClassifyWith(factory);
    FilterMapLength(methods, f);
    assert Kept(methods, f) == set i | 0 <= i < |methods| && Advised(methods[i]);
  }

  /** Advisors keep the visiting order: those of an earlier stretch of
      methods come before those of a later one. */
  lemma AdvisorsInOrder(first: seq<AspectMethod>, rest: seq<AspectMethod>, factory: AspectInstanceFactory)
    ensures Advisors(first + rest, factory) == Advisors(first, factory) + Advisors(rest, factory)
  {
    FilterMapAppend(first, rest, ClassifyWith(factory));
  }

  const FooPointcut := "execution(* foo())"

  /** The demo aspect's methods in declaration order. */
  function DemoAspect(): seq<AspectMethod>
  {
    [ AspectMethod("before1", Some(FooPointcut), None, None, None),
      AspectMethod("before2", Some(FooPointcut), None, None, None),
      AspectMethod("after", None, None, None, None),
      AspectMethod("afterReturning", None, Some(FooPointcut), None, None),
      AspectMethod("afterThrowing", None, None, Some(FooPointcut), None),
      AspectMethod("around", None, None, None, Some(FooPointcut)) ]
  }

  /** On the demo aspect, visited in declaration order, the loop yields four
      advisors: `before1` and `before2` as before advice, `afterReturning`
      as after-returning advice and `around` as around advice, all on the
      same pointcut expression; `after` and `afterThrowing` yield none. */
  lemma DemoAspectAdvisors(factory: AspectInstanceFactory)
    ensures Advisors(DemoAspect(), factory)
         == [ MakeAdvisor(MethodBefore, DemoAspect()[0], FooPointcut, factory),
              MakeAdvisor(MethodBefore, DemoAspect()[1], FooPointcut, factory),
              MakeAdvisor(AfterReturning, DemoAspect()[3], FooPointcut, factory),
              MakeAdvisor(Around, DemoAspect()[5], FooPointcut, factory) ]
  {
    var ms := DemoAspect();
    var f := ClassifyWith(factory);
    var m0, m1, m2, m3, m4, m5 := ms[0], ms[1], ms[2], ms[3], ms[4], ms[5];
    assert ms == [m0, m1, m2] + [m3, m4, m5];
    FilterMapAppend([m0, m1, m2], [m3, m4, m5], f);
    FilterMapThree(m0, m1, m2, f);
    FilterMapThree(m3, m4, m5, f);
    assert f(m2) == None && f(m4) == None;
  }
}
