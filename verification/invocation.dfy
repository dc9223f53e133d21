/**
 * The hand-written method-interception chain: an invocation object that
 * holds a target, its method and arguments, a list of interceptors and a
 * cursor `count`. Each `Proceed` either hands control to the interceptor
 * under the cursor (advancing it) or, once the list is used up, calls the
 * target. Interceptors call back into the same invocation object.
 *
 * Console output is modelled as a `Console` object whose `lines` grow;
 * a Java exception is modelled as an `Outcome` that carries it.
 */
module Invocation {
  import opened Sequences

  /** A Java object reference: `null` or some object. */
  datatype Value = Null | Ref(id: nat)

  /** A `Throwable` raised by the target. */
  datatype Error = Error(className: string, message: string)

  /** How a call ended: it returned a value or it threw. */
  datatype Outcome = Returned(value: Value) | Threw(error: Error)

  /** What a call did: the lines it printed and how it ended. */
  datatype Effect = Effect(output: seq<string>, outcome: Outcome)

  /** A reflective method handle; `body` is what `invoke(target, args)` does. */
  datatype TargetMethod = TargetMethod(name: string, body: (Value, seq<Value>) -> Effect)

  /**
   * The interceptors a chain can hold: the two hand-written around advices,
   * the interceptors that before and after-returning advice are adapted
   * into (each runs its advice method, which prints `adviceOutput`), and the
   * aspect's own `around` method with its try/finally.
   */
  datatype Interceptor =
    | Advice1
    | Advice2
    | MethodBeforeAdviceInterceptor(adviceOutput: seq<string>)
    | AfterReturningAdviceInterceptor(adviceOutput: seq<string>)
    | AspectAround

  /** What an interceptor prints before it proceeds. */
  function BeforePart(ic: Interceptor): seq<string>
  {
    match ic
    case Advice1 => ["Advice1.before()"]
    case Advice2 => ["Advice2.before()"]
    case MethodBeforeAdviceInterceptor(body) => body
    case AfterReturningAdviceInterceptor(_) => []
    case AspectAround => ["around...before"]
  }

  /** What an interceptor prints after `proceed` ended with `o`. An exception
      skips the rest of a plain advice body; only a finally block still runs. */
  function AfterPart(ic: Interceptor, o: Outcome): seq<string>
  {
    match ic
    case Advice1 => if o.Returned? then ["Advice1.after()"] else []
    case Advice2 => if o.Returned? then ["Advice2.after()"] else []
    case MethodBeforeAdviceInterceptor(_) => []
    case AfterReturningAdviceInterceptor(body) => if o.Returned? then body else []
    case AspectAround => ["around...after"]
  }

  /** The effect of interceptor `ic` around a `proceed` whose effect is `inner`:
      every interceptor here passes on exactly what `proceed` produced. */
  function Wrap(ic: Interceptor, inner: Effect): Effect
  {
    Effect(BeforePart(ic) + inner.output + AfterPart(ic, inner.outcome), inner.outcome)
  }

  /** The effect of `proceed` with the cursor at 0-based index `k`. */
  function Chain(ics: seq<Interceptor>, k: nat, target: Effect): (e: Effect)
    requires k <= |ics|
    ensures e.outcome == target.outcome
    decreases |ics| - k
  {
    if k == |ics| then target else Wrap(ics[k], Chain(ics, k + 1, target))
  }

  /** The before-parts of `ics`, in chain order. */
  function Befores(ics: seq<Interceptor>): seq<string>
  {
    if ics == [] then [] else BeforePart(ics[0]) + Befores(ics[1..])
  }

  /** The after-parts of `ics`, in reverse chain order. */
  function Afters(ics: seq<Interceptor>, o: Outcome): seq<string>
  {
    if ics == [] then [] else Afters(ics[1..], o) + AfterPart(ics[0], o)
  }

  /** The indices lo, lo + 1, ..., hi - 1. */
  function Range(lo: nat, hi: nat): seq<nat>
    requires lo <= hi
    decreases hi - lo
  {
    if lo == hi then [] else [lo] + Range(lo + 1, hi)
  }

  /** `Range(lo, hi)` lists each index from lo up to hi - 1 once, in order. */
  lemma {:induction false} RangeIndices(lo: nat, hi: nat)
    requires lo <= hi
    ensures |Range(lo, hi)| == hi - lo
    ensures forall i :: 0 <= i < hi - lo ==> Range(lo, hi)[i] == lo + i
    decreases hi - lo
  {
    if lo < hi {
      RangeIndices(lo + 1, hi);
    }
  }

  /** One more visited index followed by the rest of the range is the range from that index. */
  lemma RangeStep(visits: seq<nat>, k: nat, hi: nat)
    requires k < hi
    ensures (visits + [k]) + Range(k + 1, hi) == visits + Range(k, hi)
  {
    ConcatAssociative(visits, [k], Range(k + 1, hi));
  }

  /** Standard output. */
  class Console {
    var lines: seq<string>

    constructor ()
      ensures lines == []
    {
      lines := [];
    }

    method Println(s: string)
      modifies this
      ensures lines == old(lines) + [s]
    {
      lines := lines + [s];
    }
  }

  class MyInvocation {
    // Set once by the constructor and never reassigned.
    const target: Value
    const targetMethod: TargetMethod
    const args: seq<Value>
    const interceptors: seq<Interceptor>
    /** 1-based position of the next interceptor to run. */
    var count: int
    /** The 0-based indices of the interceptors run so far, in order. */
    ghost var visits: seq<nat>
    /** How many times the target has been called. */
    ghost var targetCalls: nat

    /** The cursor never leaves 1 .. size + 1. */
    ghost predicate Valid()
      reads this
    {
      1 <= count <= |interceptors| + 1
    }

    constructor (target: Value, targetMethod: TargetMethod, args: seq<Value>, interceptors: seq<Interceptor>)
      ensures this.target == target && this.targetMethod == targetMethod
      ensures this.args == args && this.interceptors == interceptors
      ensures count == 1 && Valid()
      ensures visits == [] && targetCalls == 0
    {
      this.target := target;
      this.targetMethod := targetMethod;
      this.args := args;
      this.interceptors := interceptors;
      count := 1;
      visits := [];
      targetCalls := 0;
    }

    /** What calling the target method with the stored arguments does. */
    ghost function TargetEffect(): Effect
    {
      targetMethod.body(target, args)
    }

    method GetMethod() returns (m: TargetMethod)
      ensures m == targetMethod
    {
      m := targetMethod;
    }

    method GetArguments() returns (a: seq<Value>)
      ensures a == args
    {
      a := args;
    }

    method GetThis() returns (t: Value)
      ensures t == target
    {
      t := target;
    }

    method GetStaticPart() returns (m: TargetMethod)
      ensures m == targetMethod
    {
      m := targetMethod;
    }

    /**
     * Runs the rest of the chain from the cursor: interceptors at 0-based
     * indices count - 1 .. size - 1 in order, each exactly once, then the
     * target exactly once. Only the cursor, the ghost logs and the console
     * change.
     */
    method Proceed(out: Console) returns (r: Outcome)
      requires Valid()
      modifies this`count, this`visits, this`targetCalls, out
      decreases |interceptors| + 1 - count, 1
      ensures Valid() && count == |interceptors| + 1
      ensures visits == old(visits) + Range(old(count) - 1, |interceptors|)
      ensures targetCalls == old(targetCalls) + 1
      ensures out.lines == old(out.lines) + Chain(interceptors, old(count) - 1, TargetEffect()).output
      ensures r == Chain(interceptors, old(count) - 1, TargetEffect()).outcome
    {
      if count > |interceptors| {
        var e := targetMethod.body(target, args);
        assert Chain(interceptors, count - 1, TargetEffect()) == e;
        targetCalls := targetCalls + 1;
        out.lines := out.lines + e.output;
        r := e.outcome;
      } else {
        r := ProceedToNext(out);
      }
    }

    /** The interceptor branch of `Proceed`: advances the cursor past the
        interceptor under it and hands the invocation to that interceptor. */
    method ProceedToNext(out: Console) returns (r: Outcome)
      requires Valid() && count <= |interceptors|
      modifies this`count, this`visits, this`targetCalls, out
      decreases |interceptors| + 1 - count, 0
      ensures Valid() && count == |interceptors| + 1
      ensures visits == old(visits) + Range(old(count) - 1, |interceptors|)
      ensures targetCalls == old(targetCalls) + 1
      ensures out.lines == old(out.lines) + Chain(interceptors, old(count) - 1, TargetEffect()).output
      ensures r == Chain(interceptors, old(count) - 1, TargetEffect()).outcome
    {
      ghost var k := count - 1;
      ghost var visits0 := visits;
      var ic := interceptors[count - 1];
      visits := visits + [count - 1];
      count := count + 1;
      r := Invoke(ic, this, out);
      assert Chain(interceptors, k, TargetEffect()) == Wrap(ic, Chain(interceptors, k + 1, TargetEffect()));
      RangeStep(visits0, k, |interceptors|);
    }
  }

  /**
   * `MethodInterceptor.invoke`: dispatches to the code of the interceptor's
   * class, which calls `inv.Proceed` once.
   */
  method Invoke(ic: Interceptor, inv: MyInvocation, out: Console) returns (r: Outcome)
    requires inv.Valid()
    modifies inv`count, inv`visits, inv`targetCalls, out
    decreases |inv.interceptors| + 1 - inv.count, 3
    ensures inv.Valid() && inv.count == |inv.interceptors| + 1
    ensures inv.visits == old(inv.visits) + Range(old(inv.count) - 1, |inv.interceptors|)
    ensures inv.targetCalls == old(inv.targetCalls) + 1
    ensures out.lines == old(out.lines) + Wrap(ic, Chain(inv.interceptors, old(inv.count) - 1, inv.TargetEffect())).output
    ensures r == Chain(inv.interceptors, old(inv.count) - 1, inv.TargetEffect()).outcome
  {
    match ic {
      case Advice1 => r := Advice1Invoke(inv, out);
      case Advice2 => r := Advice2Invoke(inv, out);
      case MethodBeforeAdviceInterceptor(body) => r := BeforeInterceptorInvoke(body, inv, out);
      case AfterReturningAdviceInterceptor(body) => r := AfterReturningInterceptorInvoke(body, inv, out);
      case AspectAround => r := AspectAroundInvoke(inv, out);
    }
  }

  /** `Advice1.invoke`: prints before, proceeds, prints after and returns the result; an exception skips the after line. */
  method Advice1Invoke(inv: MyInvocation, out: Console) returns (r: Outcome)
    requires inv.Valid()
    modifies inv`count, inv`visits, inv`targetCalls, out
    decreases |inv.interceptors| + 1 - inv.count, 2
    ensures inv.Valid() && inv.count == |inv.interceptors| + 1
    ensures inv.visits == old(inv.visits) + Range(old(inv.count) - 1, |inv.interceptors|)
    ensures inv.targetCalls == old(inv.targetCalls) + 1
    ensures out.lines == old(out.lines) + Wrap(Advice1, Chain(inv.interceptors, old(inv.count) - 1, inv.TargetEffect())).output
    ensures r == Chain(inv.interceptors, old(inv.count) - 1, inv.TargetEffect()).outcome
  {
    ghost var start := out.lines;
    ghost var inner := Chain(inv.interceptors, inv.count - 1, inv.TargetEffect());
    ghost var passed := inv.visits + Range(inv.count - 1, |inv.interceptors|);
    out.Println("Advice1.before()");
    r := inv.Proceed(out);
    assert inv.visits == passed && r == inner.outcome;
    ConcatAssociative(start, ["Advice1.before()"], inner.output);
    if r.Returned? {
      out.Println("Advice1.after()");
      ConcatAssociative(start, ["Advice1.before()"] + inner.output, ["Advice1.after()"]);
    } else {
      ConcatEmpty(["Advice1.before()"] + inner.output);
    }
  }

  /** `Advice2.invoke`: the same shape as `Advice1.invoke`. */
  method Advice2Invoke(inv: MyInvocation, out: Console) returns (r: Outcome)
    requires inv.Valid()
    modifies inv`count, inv`visits, inv`targetCalls, out
    decreases |inv.interceptors| + 1 - inv.count, 2
    ensures inv.Valid() && inv.count == |inv.interceptors| + 1
    ensures inv.visits == old(inv.visits) + Range(old(inv.count) - 1, |inv.interceptors|)
    ensures inv.targetCalls == old(inv.targetCalls) + 1
    ensures out.lines == old(out.lines) + Wrap(Advice2, Chain(inv.interceptors, old(inv.count) - 1, inv.TargetEffect())).output
    ensures r == Chain(inv.interceptors, old(inv.count) - 1, inv.TargetEffect()).outcome
  {
    ghost var start := out.lines;
    ghost var inner := Chain(inv.interceptors, inv.count - 1, inv.TargetEffect());
    ghost var passed := inv.visits + Range(inv.count - 1, |inv.interceptors|);
    out.Println("Advice2.before()");
    r := inv.Proceed(out);
    assert inv.visits == passed && r == inner.outcome;
    ConcatAssociative(start, ["Advice2.before()"], inner.output);
    if r.Returned? {
      out.Println("Advice2.after()");
      ConcatAssociative(start, ["Advice2.before()"] + inner.output, ["Advice2.after()"]);
    } else {
      ConcatEmpty(["Advice2.before()"] + inner.output);
    }
  }

  /** The interceptor a before advice is adapted into: runs the advice, then proceeds. */
  method BeforeInterceptorInvoke(adviceOutput: seq<string>, inv: MyInvocation, out: Console) returns (r: Outcome)
    requires inv.Valid()
    modifies inv`count, inv`visits, inv`targetCalls, out
    decreases |inv.interceptors| + 1 - inv.count, 2
    ensures inv.Valid() && inv.count == |inv.interceptors| + 1
    ensures inv.visits == old(inv.visits) + Range(old(inv.count) - 1, |inv.interceptors|)
    ensures inv.targetCalls == old(inv.targetCalls) + 1
    ensures out.lines == old(out.lines) + Wrap(MethodBeforeAdviceInterceptor(adviceOutput), Chain(inv.interceptors, old(inv.count) - 1, inv.TargetEffect())).output
    ensures r == Chain(inv.interceptors, old(inv.count) - 1, inv.TargetEffect()).outcome
  {
    ghost var start := out.lines;
    ghost var inner := Chain(inv.interceptors, inv.count - 1, inv.TargetEffect());
    ghost var passed := inv.visits + Range(inv.count - 1, |inv.interceptors|);
    out.lines := out.lines + adviceOutput;
    r := inv.Proceed(out);
    assert inv.visits == passed && r == inner.outcome;
    ConcatAssociative(start, adviceOutput, inner.output);
    ConcatEmpty(adviceOutput + inner.output);
  }

  /** The interceptor an after-returning advice is adapted into: proceeds, then runs the advice only on a normal return. */
  method AfterReturningInterceptorInvoke(adviceOutput: seq<string>, inv: MyInvocation, out: Console) returns (r: Outcome)
    requires inv.Valid()
    modifies inv`count, inv`visits, inv`targetCalls, out
    decreases |inv.interceptors| + 1 - inv.count, 2
    ensures inv.Valid() && inv.count == |inv.interceptors| + 1
    ensures inv.visits == old(inv.visits) + Range(old(inv.count) - 1, |inv.interceptors|)
    ensures inv.targetCalls == old(inv.targetCalls) + 1
    ensures out.lines == old(out.lines) + Wrap(AfterReturningAdviceInterceptor(adviceOutput), Chain(inv.interceptors, old(inv.count) - 1, inv.TargetEffect())).output
    ensures r == Chain(inv.interceptors, old(inv.count) - 1, inv.TargetEffect()).outcome
  {
    ghost var start := out.lines;
    ghost var inner := Chain(inv.interceptors, inv.count - 1, inv.TargetEffect());
    ghost var passed := inv.visits + Range(inv.count - 1, |inv.interceptors|);
    r := inv.Proceed(out);
    assert inv.visits == passed && r == inner.outcome;
    ConcatEmpty(inner.output);
    if r.Returned? {
      out.lines := out.lines + adviceOutput;
      ConcatAssociative(start, inner.output, adviceOutput);
    } else {
      ConcatEmpty(inner.output);
    }
  }

  /** `Aspect.around`: a try/finally around `proceed`, so the after line is printed on a normal return and on an exception alike. */
  method AspectAroundInvoke(inv: MyInvocation, out: Console) returns (r: Outcome)
    requires inv.Valid()
    modifies inv`count, inv`visits, inv`targetCalls, out
    decreases |inv.interceptors| + 1 - inv.count, 2
    ensures inv.Valid() && inv.count == |inv.interceptors| + 1
    ensures inv.visits == old(inv.visits) + Range(old(inv.count) - 1, |inv.interceptors|)
    ensures inv.targetCalls == old(inv.targetCalls) + 1
    ensures out.lines == old(out.lines) + Wrap(AspectAround, Chain(inv.interceptors, old(inv.count) - 1, inv.TargetEffect())).output
    ensures r == Chain(inv.interceptors, old(inv.count) - 1, inv.TargetEffect()).outcome
  {
    ghost var start := out.lines;
    ghost var inner := Chain(inv.interceptors, inv.count - 1, inv.TargetEffect());
    ghost var passed := inv.visits + Range(inv.count - 1, |inv.interceptors|);
    out.Println("around...before");
    r := inv.Proceed(out);
    assert inv.visits == passed && r == inner.outcome;
    ConcatAssociative(start, ["around...before"], inner.output);
    out.Println("around...after");
    ConcatAssociative(start, ["around...before"] + inner.output, ["around...after"]);
  }

  /**
   * The documented nesting: before-parts run in chain order, the target runs
   * innermost, and after-parts unwind in reverse order.
   */
  lemma {:induction false} ChainNesting(ics: seq<Interceptor>, k: nat, target: Effect)
    requires k <= |ics|
    ensures Chain(ics, k, target).output
         == Befores(ics[k..]) + target.output + Afters(ics[k..], target.outcome)
    decreases |ics| - k
  {
    if k < |ics| {
      ChainNesting(ics, k + 1, target);
      assert ics[k..][0] == ics[k] && ics[k..][1..] == ics[k + 1..];
    } else {
      assert ics[k..] == [];
    }
  }

  /** An exception from the target suppresses every after-part except the
      `finally` of the aspect's `around`. */
  lemma {:induction false} ThrowSkipsAfterParts(ics: seq<Interceptor>, e: Error)
    requires forall i :: 0 <= i < |ics| ==> ics[i] != AspectAround
    ensures Afters(ics, Threw(e)) == []
  {
    if ics != [] {
      ThrowSkipsAfterParts(ics[1..], e);
    }
  }

  /** The target method of the demo: prints one line and returns `null`. */
  function Foo(): TargetMethod
  {
    TargetMethod("foo", (t: Value, a: seq<Value>) => Effect(["Target.foo()"], Returned(Null)))
  }

  /** The demo's `main`: the chain [Advice1, Advice2] around `Target.foo()`. */
  method RunDemo() returns (trace: seq<string>, r: Outcome)
    ensures trace == ["Advice1.before()", "Advice2.before()", "Target.foo()",
                      "Advice2.after()", "Advice1.after()"]
    ensures r == Returned(Null)
  {
    var out := new Console();
    var inv := new MyInvocation(Ref(0), Foo(), [], [Advice1, Advice2]);
    r := inv.Proceed(out);
    ChainNesting([Advice1, Advice2], 0, Foo().body(Ref(0), []));
    trace := out.lines;
  }

  /** With no interceptors the first `Proceed` calls the target directly. */
  method RunWithoutInterceptors() returns (trace: seq<string>, r: Outcome)
    ensures trace == ["Target.foo()"] && r == Returned(Null)
  {
    var out := new Console();
    var inv := new MyInvocation(Ref(0), Foo(), [], []);
    r := inv.Proceed(out);
    trace := out.lines;
  }
}
