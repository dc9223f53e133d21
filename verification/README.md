# Interception chains and definition-registering post-processors

This project is a Dafny model of two parts of a Spring teaching repository.

**The method-interception chain.** `MyInvocation` in `A18_1.java` holds:
- a target object, its reflective method and the arguments;
- a list of interceptors;
- a 1-based cursor `count`.

Each `proceed()` does one of two things:
- if the cursor is past the end of the list, it calls the target;
- otherwise it takes the interceptor under the cursor, advances the cursor, and calls that interceptor with the same invocation object. The interceptor calls `proceed()` again.

The model covers these interceptors:
- the two hand-written around advices `Advice1` and `Advice2`;
- the interceptors that `@Before` and `@AfterReturning` advice are adapted into;
- the aspect's own `@Around` method with its `try`/`finally` (`A18.java`).

The model also covers the loop in `A18.java` that turns an annotated aspect class into advisors: one advisor per `@Before`, `@AfterReturning` or `@Around` method, in visiting order.

**The registry post-processors of package `com.itheima.a05`.** Each one writes bean definitions into the bean factory:
- `ComponentScanPostProcessor`: for each base package of the configuration class's `@ComponentScan`, it resolves `classpath*:<package with / for .>/**/*.class`. Each class annotated, directly or through a meta-annotation, with `@Component` becomes a generic definition under its generated name.
- `MapperPostProcessor`: every class under the mapper package whose name ends in `Mapper` becomes a `MapperFactoryBean` definition. The interface name is its constructor argument, it autowires by type, and it is named as the interface itself would be.
- `AtBeanPostProcessor`: every `@Bean` method of `Config` becomes a factory-method definition on the bean `config`. It autowires by constructor and carries the `initMethod` when one is given. It is registered under the method name.

In all three, an `IOException` is caught. Registrations made before the failure stay, and nothing after it is visited.

Modules:
- `Invocation`: the chain, the invocation object and the interceptors.
- `AspectAdvisors` and `FilterMaps`: the advisor loop.
- `BeanRegistry`: definitions, and the factory as a registry.
- `ClassPath`: resources and class metadata.
- `ComponentScanPostProcessor`, `MapperPostProcessor` and `AtBeanPostProcessor`.
- `Wrappers` and `Sequences`: small shared pieces.

How things are modelled:
- Console output is a `Console` object whose `lines` grow.
- A Java exception is an `Outcome` value (`Returned` or `Threw`).
- The invocation object is a class. Its cursor is updated in place, and ghost logs record which interceptors ran and how often the target ran.
- The bean factory is a class. Its map of definitions is updated by `RegisterBeanDefinition`. A ghost log of registrations lets each post-processor be specified as "the old log plus exactly these registrations, in this order".

In-code comments describe some checks differently from what the code does. The model follows the code:
- `MapperPostProcessor.java:57` calls the test "is the class an interface". The code tests whether the class name ends in `Mapper`, and the model does the same.

## Model

| member | source | states |
|---|---|---|
| Invocation.Chain | src/main/java/org/springframework/aop/framework/A18_1.java:83-95 | The effect of `proceed()` with the cursor at a given index is each remaining interceptor wrapped around the next. Its outcome is always the target's outcome, because every interceptor passes on what `proceed()` returned. |
| Invocation.ChainNesting | src/main/java/org/springframework/aop/framework/A18.java:147-156 | The documented nesting: the chain's output is the before-parts in chain order, then the target's output, then the after-parts in reverse chain order. |
| Invocation.ThrowSkipsAfterParts | src/main/java/org/springframework/aop/framework/A18_1.java:26-50 | When the target throws, a chain with no `finally`-style interceptor prints no after-part at all. |
| Invocation.RangeIndices | src/main/java/org/springframework/aop/framework/A18_1.java:92 | The indices visited from cursor position `lo` are lo, lo + 1, …, each once and in increasing order. |
| Invocation.MyInvocation.constructor | src/main/java/org/springframework/aop/framework/A18_1.java:59-67 | Stores the target, method, arguments and interceptor list. The cursor starts at 1, nothing has run, and the target has not been called. |
| Invocation.MyInvocation.GetMethod | src/main/java/org/springframework/aop/framework/A18_1.java:71-73 | Returns the stored method. |
| Invocation.MyInvocation.GetArguments | src/main/java/org/springframework/aop/framework/A18_1.java:77-79 | Returns the stored arguments. |
| Invocation.MyInvocation.GetThis | src/main/java/org/springframework/aop/framework/A18_1.java:99-101 | Returns the stored target. |
| Invocation.MyInvocation.GetStaticPart | src/main/java/org/springframework/aop/framework/A18_1.java:105-107 | Returns the stored method. |
| Invocation.MyInvocation.Proceed | src/main/java/org/springframework/aop/framework/A18_1.java:83-95 | From any cursor position it runs the remaining interceptors exactly once each, in list order, and then the target exactly once. It leaves the cursor at size + 1. It prints exactly the chain's output and returns the target's outcome. |
| Invocation.MyInvocation.ProceedToNext | src/main/java/org/springframework/aop/framework/A18_1.java:90-94 | The interceptor branch: advances the cursor past index count - 1, hands the invocation to that interceptor, and ends with the same state and result that `Proceed` promises. |
| Invocation.Invoke | src/main/java/org/springframework/aop/framework/A18_1.java:94 | Calling an interceptor with the invocation prints its before-part, the rest of the chain and its after-part, and returns the rest of the chain's result. |
| Invocation.Advice1Invoke | src/main/java/org/springframework/aop/framework/A18_1.java:29-36 | Prints `Advice1.before()`, then the rest of the chain, then `Advice1.after()` only when `proceed()` returned normally. It returns what `proceed()` returned. |
| Invocation.Advice2Invoke | src/main/java/org/springframework/aop/framework/A18_1.java:43-50 | The same, with `Advice2`. |
| Invocation.BeforeInterceptorInvoke | src/main/java/org/springframework/aop/framework/A18.java:165 | The interceptor a before advice is adapted into runs the advice and then proceeds. It adds nothing afterwards, even on an exception. |
| Invocation.AfterReturningInterceptorInvoke | src/main/java/org/springframework/aop/framework/A18.java:166 | The interceptor an after-returning advice is adapted into proceeds, then runs the advice only when `proceed()` returned normally. |
| Invocation.AspectAroundInvoke | src/main/java/org/springframework/aop/framework/A18.java:53-61 | Prints `around...before`, then the rest of the chain, then `around...after` whether `proceed()` returned or threw (the `finally`). The result is passed on. |
| Invocation.RunDemo | src/main/java/org/springframework/aop/framework/A18_1.java:111-128 | The demo's `main` with `[Advice1, Advice2]` around `Target.foo()` prints `Advice1.before()`, `Advice2.before()`, `Target.foo()`, `Advice2.after()`, `Advice1.after()` and returns `null`. |
| Invocation.RunWithoutInterceptors | src/main/java/org/springframework/aop/framework/A18_1.java:86-89 | With an empty interceptor list the first `proceed()` calls the target directly. |
| AspectAdvisors.Classify | src/main/java/org/springframework/aop/framework/A18.java:83-120 | A method yields an advisor exactly when it carries `@Before`, `@AfterReturning` or `@Around`. The first of these, in that order, decides the advice kind and supplies the pointcut expression. The advisor and its advice share one pointcut, the method and the one factory. |
| AspectAdvisors.BuildAdvisors | src/main/java/org/springframework/aop/framework/A18.java:78-121 | The loop returns exactly the classified advisors of the methods, in visiting order. |
| AspectAdvisors.AdvisorsSound | src/main/java/org/springframework/aop/framework/A18.java:81-121 | Every advisor comes from an advised method of the list and uses the shared aspect-instance factory. |
| AspectAdvisors.AdvisorsComplete | src/main/java/org/springframework/aop/framework/A18.java:81-121 | Every advised method contributes its advisor. |
| AspectAdvisors.AdvisorsLength | src/main/java/org/springframework/aop/framework/A18.java:81-121 | There are exactly as many advisors as advised methods. |
| AspectAdvisors.AdvisorsInOrder | src/main/java/org/springframework/aop/framework/A18.java:81-121 | The advisors of an earlier run of methods come before those of a later run. |
| AspectAdvisors.DemoAspectAdvisors | src/main/java/org/springframework/aop/framework/A18.java:21-61 | On the demo aspect in declaration order there are four advisors: `before1`, `before2` (before), `afterReturning` and `around`. The plain `after` method and the `@AfterThrowing` method yield none. |
| FilterMaps.FilterMapSound | src/main/java/org/springframework/aop/framework/A18.java:81-121 | In the loop shape, every result comes from some input element. |
| FilterMaps.FilterMapComplete | src/main/java/org/springframework/aop/framework/A18.java:81-121 | In the loop shape, every element that yields a result contributes it. |
| FilterMaps.FilterMapLength | src/main/java/org/springframework/aop/framework/A18.java:81-121 | In the loop shape, the number of results is the number of elements kept. |
| FilterMaps.FilterMapAppend | src/main/java/org/springframework/aop/framework/A18.java:81-121 | In the loop shape, the results over a concatenation are the concatenated results. |
| BeanRegistry.GenericBeanDefinition | src/main/java/com/itheima/a05/ComponentScanPostProcessor.java:88-90 | A definition built from a class name has that class and nothing else set. |
| BeanRegistry.DefaultListableBeanFactory.RegisterBeanDefinition | src/main/java/com/itheima/a05/ComponentScanPostProcessor.java:96 | Registering puts the definition under the name, replacing any earlier one, and appends the call to the log. The table stays consistent with the log. |
| BeanRegistry.LastDefinition | src/main/java/com/itheima/a05/MapperPostProcessor.java:79 | The definition found for a name was registered under that name. |
| BeanRegistry.LookupApply | src/main/java/com/itheima/a05/MapperPostProcessor.java:79 | Replaying a log of registrations leaves, for every name, the definition of its last registration. |
| BeanRegistry.Replay | src/main/java/com/itheima/a05/MapperPostProcessor.java:79 | A table that agrees with a log on every name is exactly the replay of that log. |
| BeanRegistry.ApplyAppend | src/main/java/com/itheima/a05/ComponentScanPostProcessor.java:96 | Applying two runs of registrations is applying the first and then the second. |
| BeanRegistry.ApplyKeys | src/main/java/com/itheima/a05/ComponentScanPostProcessor.java:96 | Registrations add exactly the registered names to the table. |
| BeanRegistry.ApplyUntouched | src/main/java/com/itheima/a05/ComponentScanPostProcessor.java:96 | An entry no registration names is left as it was. |
| BeanRegistry.ApplyLast | src/main/java/com/itheima/a05/ComponentScanPostProcessor.java:96 | The entry for a name is the definition of its last registration. |
| ClassPath.ReadablePrefix | src/main/java/com/itheima/a05/ComponentScanPostProcessor.java:66-71 | The resources read before the first one whose metadata cannot be read: all of them are readable, and the next one, if any, is not. |
| ComponentScanPostProcessor.Replace | src/main/java/com/itheima/a05/ComponentScanPostProcessor.java:53 | `replace(".", "/")` keeps the length and changes exactly the `.` characters. |
| ComponentScanPostProcessor.ResourcePattern | src/main/java/com/itheima/a05/ComponentScanPostProcessor.java:53 | The pattern is `classpath*:`, then the package with no `.` left, then `/**/*.class`. |
| ComponentScanPostProcessor.PatternRoundTrip | src/main/java/com/itheima/a05/ComponentScanPostProcessor.java:53 | A package name without `/` is recovered from its pattern. |
| ComponentScanPostProcessor.PatternInjective | src/main/java/com/itheima/a05/ComponentScanPostProcessor.java:53 | Distinct such packages are scanned under distinct patterns. |
| ComponentScanPostProcessor.ComponentRegistration | src/main/java/com/itheima/a05/ComponentScanPostProcessor.java:88-96 | A component is registered as a generic definition of its class, under the name the generator gives that definition. |
| ComponentScanPostProcessor.AndThen | src/main/java/com/itheima/a05/ComponentScanPostProcessor.java:103-106 | A failed stage ends the scan with what it had. Otherwise the next stage's registrations are appended and its completion is reported. |
| ComponentScanPostProcessor.AndThenAssociative | src/main/java/com/itheima/a05/ComponentScanPostProcessor.java:48-101 | Chaining stages does not depend on grouping. |
| ComponentScanPostProcessor.PostProcessBeanDefinitionRegistry | src/main/java/com/itheima/a05/ComponentScanPostProcessor.java:39-107 | The factory's log gains exactly the scan's registrations, in order. Its table is the old table with them applied. Without `@ComponentScan` nothing changes. |
| ComponentScanPostProcessor.ScanBasePackages | src/main/java/com/itheima/a05/ComponentScanPostProcessor.java:48-101 | The base packages are scanned in order until one fails, and their registrations are appended. |
| ComponentScanPostProcessor.ScanBasePackage | src/main/java/com/itheima/a05/ComponentScanPostProcessor.java:53-100 | One package: an unresolvable pattern registers nothing and reports failure. Otherwise its components are registered. |
| ComponentScanPostProcessor.RegisterComponents | src/main/java/com/itheima/a05/ComponentScanPostProcessor.java:66-100 | The resources are visited in order until the first unreadable one. The components among them are registered, and completion is reported exactly when none failed. |
| ComponentScanPostProcessor.RegisterIfComponent | src/main/java/com/itheima/a05/ComponentScanPostProcessor.java:84-99 | One class is registered exactly when `@Component` is present on it or on one of its annotations. |
| ComponentScanPostProcessor.ScanStops | src/main/java/com/itheima/a05/ComponentScanPostProcessor.java:103-106 | Once the packages scanned so far have failed, the later packages add nothing. |
| ComponentScanPostProcessor.ComponentsSound | src/main/java/com/itheima/a05/ComponentScanPostProcessor.java:84-96 | Every registration is that of a component class among the resources. |
| ComponentScanPostProcessor.ComponentsComplete | src/main/java/com/itheima/a05/ComponentScanPostProcessor.java:84-96 | Every component class among the resources is registered. |
| ComponentScanPostProcessor.ScanPackageSound | src/main/java/com/itheima/a05/ComponentScanPostProcessor.java:66-100 | Only component classes read before any failure are registered. |
| ComponentScanPostProcessor.ScanPackageComplete | src/main/java/com/itheima/a05/ComponentScanPostProcessor.java:66-100 | Every component class read before any failure is registered. |
| ComponentScanPostProcessor.ScanPackageCompleted | src/main/java/com/itheima/a05/ComponentScanPostProcessor.java:66-106 | A package scan completes exactly when every resource can be read. |
| ComponentScanPostProcessor.ScanPackagesSound | src/main/java/com/itheima/a05/ComponentScanPostProcessor.java:48-101 | Every registration of the whole scan comes from one of the base packages. |
| ComponentScanPostProcessor.ScanPackagesAppend | src/main/java/com/itheima/a05/ComponentScanPostProcessor.java:48-101 | Scanning `ps + qs` is scanning `ps`, then, unless that failed, scanning `qs`. |
| ComponentScanPostProcessor.PostProcessBeanFactory | src/main/java/com/itheima/a05/ComponentScanPostProcessor.java:30-32 | Changes nothing. |
| MapperPostProcessor.MapperDefinition | src/main/java/com/itheima/a05/MapperPostProcessor.java:61-69 | The definition has class `MapperFactoryBean`, the interface name as its only constructor argument, autowiring by type, and no factory or init method. |
| MapperPostProcessor.MapperRegistration | src/main/java/com/itheima/a05/MapperPostProcessor.java:61-79 | A mapper is registered under the name generated for a generic definition of the interface, not of the factory bean. |
| MapperPostProcessor.PostProcessBeanDefinitionRegistry | src/main/java/com/itheima/a05/MapperPostProcessor.java:34-86 | The factory's log gains exactly the mapper registrations, in order. Its table is the old table with them applied. An unresolvable pattern registers nothing. |
| MapperPostProcessor.RegisterMappers | src/main/java/com/itheima/a05/MapperPostProcessor.java:50-81 | The resources are visited in order until the first unreadable one, and the mappers among them are registered. |
| MapperPostProcessor.RegisterIfMapper | src/main/java/com/itheima/a05/MapperPostProcessor.java:58-80 | One class is registered exactly when its name ends in `Mapper`. |
| MapperPostProcessor.MappersSound | src/main/java/com/itheima/a05/MapperPostProcessor.java:50-81 | Every registration is that of a mapper class among the resources. |
| MapperPostProcessor.MappersComplete | src/main/java/com/itheima/a05/MapperPostProcessor.java:50-81 | Every mapper class among the resources is registered. |
| MapperPostProcessor.MapperScanSound | src/main/java/com/itheima/a05/MapperPostProcessor.java:41-85 | Every registration is that of a mapper class read before any failure. |
| MapperPostProcessor.MapperScanComplete | src/main/java/com/itheima/a05/MapperPostProcessor.java:41-85 | Every mapper class read before any failure is registered. |
| MapperPostProcessor.PostProcessBeanFactory | src/main/java/com/itheima/a05/MapperPostProcessor.java:96-99 | Changes nothing. |
| AtBeanPostProcessor.BeanMethodDefinition | src/main/java/com/itheima/a05/AtBeanPostProcessor.java:62-81 | The definition has factory method = the method name on bean `config` and autowiring by constructor. It has an init method exactly when `initMethod` is non-empty, and then that one. It has no class and no constructor arguments. |
| AtBeanPostProcessor.BeanRegistrations | src/main/java/com/itheima/a05/AtBeanPostProcessor.java:54-86 | One registration per `@Bean` method, in order, under the method's name with its definition. |
| AtBeanPostProcessor.PostProcessBeanDefinitionRegistry | src/main/java/com/itheima/a05/AtBeanPostProcessor.java:40-90 | The factory's log gains exactly the `@Bean` registrations, in order. Its table is the old table with them applied. An unreadable `Config.class` registers nothing. |
| AtBeanPostProcessor.RegisterBeanMethods | src/main/java/com/itheima/a05/AtBeanPostProcessor.java:54-86 | The builder loop registers exactly the definitions above, in method order. |
| AtBeanPostProcessor.AtBeanNames | src/main/java/com/itheima/a05/AtBeanPostProcessor.java:85 | The names registered are exactly the `@Bean` method names. |
| AtBeanPostProcessor.AtBeanKeys | src/main/java/com/itheima/a05/AtBeanPostProcessor.java:85 | The table gains exactly the `@Bean` method names. Every other entry is unchanged. |
| AtBeanPostProcessor.AtBeanLookup | src/main/java/com/itheima/a05/AtBeanPostProcessor.java:85 | A method whose name no later method reuses ends up in the table with its own definition. Of methods sharing a name, the last one listed wins. |
| AtBeanPostProcessor.PostProcessBeanFactory | src/main/java/com/itheima/a05/AtBeanPostProcessor.java:29-32 | Changes nothing. |

## Left out

- The interceptor set is closed: `Advice1`, `Advice2`, the two adapted interceptors and the aspect's `around`. An arbitrary `MethodInterceptor`, for example one that calls `proceed()` twice or not at all, is not modelled.
- Reflection is not modelled. The target method is a function from target and arguments to what `Method.invoke` does, so any wrapping of the target's exception by reflection is part of that function.
- Spring's own chain machinery is not part of this model: `ProxyFactory`, advisor-to-interceptor adaptation, `ReflectiveMethodInvocation`, `ExposeInvocationInterceptor` and its thread-local.
- Pointcut matching, advisor sorting and the printing of advisors and interceptors in `A18.java` are not modelled.
- `getDeclaredMethods` has no defined order, so the advisor loop takes the method list, in visiting order, as input.
- Annotation lookup (`isAnnotationPresent`, `getAnnotation(...).value()`) is represented by one optional expression per advice annotation on each method.
- Class-path resolution, class-file reading, `findAnnotation` on `Config` and `getAnnotatedMethods` are I/O or library code. They are parameters: a resolver from pattern to resources, an `Unreadable` resource, an optional `@ComponentScan`, and a reader from class file to `@Bean` methods. A failure of any of them stands for the caught `IOException`.
- The bean-name generator is a function parameter from definition to name. Its rule (annotation value, or decapitalised short class name) and its registry argument are not modelled.
- The registry always replaces an existing definition under the same name. Spring's override policy, which can refuse, is not modelled.
- Bean definitions carry only the properties these post-processors set.
- Console output of the post-processors (package names, patterns, method metadata) and `printStackTrace` are not modelled. The failure is visible as the `completed` flag of the scan outcome.
- `Target.foo()` in the `A18.java` demo is not run through the model. Only the `A18_1.java` demo is, in `RunDemo`.
- Only the files of the chain and of the three post-processors are modelled. The rest of the repository is not part of this model.
