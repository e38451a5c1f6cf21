# Advisor resolution cache of Spring AOP's AspectJ support

A Dafny model of `BeanFactoryAspectJAdvisorsBuilder`, the helper that finds
the @AspectJ aspect beans of a bean factory and turns them into Spring AOP
advisors for auto-proxying.

The builder is a small state machine over three fields:

- `aspectBeanNames`: `None` (Java `null`) until a scan completes, then the discovered aspect bean names;
- `advisorsCache`: aspect bean name to its resolved advisor list;
- `aspectFactoryCache`: aspect bean name to its aspect instance factory.

`buildAspectJAdvisors` works in two phases.

- **First successful call.** It scans every bean name once, in order. It keeps the beans that are eligible, have a known type and are aspects.
  - A SINGLETON per-clause aspect on a singleton bean gets its advisor list cached.
  - A SINGLETON per-clause aspect on a non-singleton bean gets its `BeanFactoryAspectInstanceFactory` cached.
  - A non-SINGLETON per-clause aspect on a non-singleton bean gets its `PrototypeAspectInstanceFactory` cached.
  - A non-SINGLETON per-clause aspect on a singleton bean makes the call throw `IllegalArgumentException`. The names are then not published, so the next call scans again.
  - Every kept bean's advisors are appended to the result. The discovered names are published at the end.
- **Later calls.** They never rescan. They walk the published names and use each name's cached list, or else resolve advisors from its cached factory.

Files:

- `wrappers.dfy`: `Option` and `Result`.
- `aspect_model.dfy`: the entities, reduced to what the builder sees of them.
  - The bean factory is its bean names, `getType` and `isSingleton`.
  - The advisor factory is `isAspect` and a deterministic `getAdvisors`.
  - The per-clause kind is part of the bean class.
  - The exception is a `BuildError` carrying the offending bean name.
- `resolution.dfy`: what one scan computes, as functions of the scope. These are the discovered names, the concatenated advisors, where the scan throws, and the entries it puts into each cache. The lemmas about them are here too.
- `advisors_builder.dfy`: the builder class.
  - It has the three fields and an invariant `Valid()`.
  - `BuildAspectJAdvisors` is split into the scan (`ScanAspectBeans`, whose loop body is `ScanBean`) and the cached path (`AdvisorsFromCache`).
  - Each is proved against the functions of `resolution.dfy`.

The invariant `Valid()` has two parts:

- every cache entry is what a scan computes for its bean;
- when names are published, they are the scan's names, the scan did not throw, and every name has a cache entry.

Only a non-SINGLETON per-clause aspect on a singleton bean is an error (lines
129-134). A SINGLETON per-clause aspect on a non-singleton bean is accepted,
and its `BeanFactoryAspectInstanceFactory` is cached (lines 123-126).

## Model

| member | source | states |
|---|---|---|
| `AdvisorsBuilder.BeanFactoryAspectJAdvisorsBuilder.BuildAspectJAdvisors` | spring-aop/src/main/java/org/springframework/aop/aspectj/annotation/BeanFactoryAspectJAdvisorsBuilder.java:83-173 | When names are already published, nothing changes. The result is then the cached lists in name order: empty for no names, and equal to the first scan's result. Otherwise the call performs the scan and its outcome is `ScanOutcome`. The invariant `Valid()` is kept. |
| `AdvisorsBuilder.BeanFactoryAspectJAdvisorsBuilder.ScanAspectBeans` | spring-aop/src/main/java/org/springframework/aop/aspectj/annotation/BeanFactoryAspectJAdvisorsBuilder.java:90-148 | If no bean is misconfigured, the call publishes exactly the eligible, typed aspect beans in bean-name order. It returns their advisors concatenated in that order and adds exactly the scan's entries to the two caches. Otherwise it throws at the first misconfigured bean. It then leaves `aspectBeanNames` as `None` and adds to the caches only the entries of the beans before that one. |
| `AdvisorsBuilder.BeanFactoryAspectJAdvisorsBuilder.ScanBean` | spring-aop/src/main/java/org/springframework/aop/aspectj/annotation/BeanFactoryAspectJAdvisorsBuilder.java:96-143 | For one bean: an ineligible, untyped or non-aspect bean is skipped. A SINGLETON per-clause aspect caches its advisor list if its bean is a singleton, and its factory otherwise. A non-SINGLETON per-clause aspect on a non-singleton bean caches its prototype factory. Each such aspect appends its name and its advisors. It fails, changing nothing, exactly when a non-SINGLETON per-clause aspect is on a singleton bean. |
| `AdvisorsBuilder.BeanFactoryAspectJAdvisorsBuilder.AdvisorsFromCache` | spring-aop/src/main/java/org/springframework/aop/aspectj/annotation/BeanFactoryAspectJAdvisorsBuilder.java:157-172 | The result is, in name order, each name's cached advisor list, or else `getAdvisors` of its cached factory. Under the invariant, for the published names, this equals the first scan's result. |
| `AdvisorsBuilder.BeanFactoryAspectJAdvisorsBuilder.CachePartition` | spring-aop/src/main/java/org/springframework/aop/aspectj/annotation/BeanFactoryAspectJAdvisorsBuilder.java:119-138 | After a successful scan, every published name is in exactly one of the two caches. |
| `AdvisorsBuilder.AllEligible` | spring-aop/src/main/java/org/springframework/aop/aspectj/annotation/BeanFactoryAspectJAdvisorsBuilder.java:180-182 | The default `isEligibleBean` hook accepts every bean; the default constructor installs it. |
| `AdvisorsBuilder.BeanFactoryAspectJAdvisorsBuilder.constructor` | spring-aop/src/main/java/org/springframework/aop/aspectj/annotation/BeanFactoryAspectJAdvisorsBuilder.java:68-73 | A new builder has no published names and empty caches. Its eligibility hook is the default, which accepts every bean. |
| `AdvisorsBuilder.BeanFactoryAspectJAdvisorsBuilder.WithEligibilityHook` | spring-aop/src/main/java/org/springframework/aop/aspectj/annotation/BeanFactoryAspectJAdvisorsBuilder.java:175-182 | The same as the constructor, but with the eligibility hook replaced, as a subclass overriding `isEligibleBean` does. |
| `AdvisorsBuilder.RepeatedBuild` | spring-aop/src/main/java/org/springframework/aop/aspectj/annotation/BeanFactoryAspectJAdvisorsBuilder.java:84-172 | Two calls in a row return the same result, and the first call succeeds exactly when no bean is misconfigured. After the two calls the scan's names are published if the first call succeeded, and `aspectBeanNames` is still `None` if it failed, so a failing scan is repeated with the same error. |
| `Resolution.FirstMisconfigured` | spring-aop/src/main/java/org/springframework/aop/aspectj/annotation/BeanFactoryAspectJAdvisorsBuilder.java:129-134 | Returns the index of the first bean whose aspect is not SINGLETON per-clause while the bean is a singleton. It returns `None` exactly when no bean is like that. |
| `Resolution.FirstMisconfiguredAt` | spring-aop/src/main/java/org/springframework/aop/aspectj/annotation/BeanFactoryAspectJAdvisorsBuilder.java:96-134 | If no bean before index `i` is misconfigured and bean `i` is, the scan throws at `i`, whatever beans follow. |
| `Resolution.AspectNamesMembers` | spring-aop/src/main/java/org/springframework/aop/aspectj/annotation/BeanFactoryAspectJAdvisorsBuilder.java:96-110 | A name is discovered exactly when it is among the bean names, is eligible, has a type and is an aspect. Ineligible and untyped beans are skipped. |
| `Resolution.AspectNamesAppend` | spring-aop/src/main/java/org/springframework/aop/aspectj/annotation/BeanFactoryAspectJAdvisorsBuilder.java:96-110 | The discovered names of a concatenation are the discovered names of each part, concatenated. So discovery keeps bean-name order. |
| `Resolution.ScannedAdvisorsAppend` | spring-aop/src/main/java/org/springframework/aop/aspectj/annotation/BeanFactoryAspectJAdvisorsBuilder.java:113-142 | The scan's advisors over a concatenation are the advisors of each part, concatenated. So advisors are appended in bean-name order. |
| `Resolution.SingleBean` | spring-aop/src/main/java/org/springframework/aop/aspectj/annotation/BeanFactoryAspectJAdvisorsBuilder.java:108-142 | One bean contributes its name and its own advisors if it is an aspect bean, and nothing otherwise. |
| `Resolution.DefaultHookKeepsTypedAspects` | spring-aop/src/main/java/org/springframework/aop/aspectj/annotation/BeanFactoryAspectJAdvisorsBuilder.java:180-182 | With the default hook, the discovered names are exactly the typed aspect beans. |
| `Resolution.ScanStep` | spring-aop/src/main/java/org/springframework/aop/aspectj/annotation/BeanFactoryAspectJAdvisorsBuilder.java:96-142 | One more bean extends the discovered names and the advisors by that bean's contribution only. |
| `Resolution.FirstMisconfiguredExtend` | spring-aop/src/main/java/org/springframework/aop/aspectj/annotation/BeanFactoryAspectJAdvisorsBuilder.java:129-134 | A scan that has not thrown throws at the next bean exactly when that bean is misconfigured. |
| `Resolution.EntriesExtend` | spring-aop/src/main/java/org/springframework/aop/aspectj/annotation/BeanFactoryAspectJAdvisorsBuilder.java:119-138 | One more bean adds at most its own entry to each cache. It adds its advisors to `advisorsCache` and its factory to `aspectFactoryCache`, as its kind decides. |
| `Resolution.EntryClassification` | spring-aop/src/main/java/org/springframework/aop/aspectj/annotation/BeanFactoryAspectJAdvisorsBuilder.java:108-141 | A non-aspect or misconfigured bean gets no cache entry. A SINGLETON per-clause aspect on a singleton bean gets only an advisor-list entry, namely the advisors of its `BeanFactoryAspectInstanceFactory`. On a non-singleton bean it gets only a `BeanFactoryAspectInstanceFactory` entry. A non-SINGLETON per-clause aspect on a non-singleton bean gets only a `PrototypeAspectInstanceFactory` entry. |
| `Resolution.EntriesPartition` | spring-aop/src/main/java/org/springframework/aop/aspectj/annotation/BeanFactoryAspectJAdvisorsBuilder.java:119-146 | After a scan that does not throw, each discovered name has exactly one entry, and every entry belongs to a discovered name. |
| `Resolution.EntriesKeepConsistency` | spring-aop/src/main/java/org/springframework/aop/aspectj/annotation/BeanFactoryAspectJAdvisorsBuilder.java:119-138 | Adding a scan's entries to caches that agree with the scope keeps them in agreement. |
| `Resolution.ConsistentCachesDisjoint` | spring-aop/src/main/java/org/springframework/aop/aspectj/annotation/BeanFactoryAspectJAdvisorsBuilder.java:119-126 | Caches that agree with the scope never both hold the same name. |
| `Resolution.CachedAdvisorsMatchScan` | spring-aop/src/main/java/org/springframework/aop/aspectj/annotation/BeanFactoryAspectJAdvisorsBuilder.java:157-172 | For the discovered names, the cached path returns exactly what the scan returned. |
| `Resolution.SecondCallAgrees` | spring-aop/src/main/java/org/springframework/aop/aspectj/annotation/BeanFactoryAspectJAdvisorsBuilder.java:127-172 | After a scan that does not throw, its entries cover every discovered name. The cached path over them returns the scan's result. |

## Left out

- The `synchronized` block and the `volatile` double-checked read (lines 84-89) are concurrency. The call is modelled as one sequential state transition, and the re-read under the lock is dropped.
- Bean names, bean types and bean lifecycles are abstract inputs of a fixed bean-factory snapshot.
  - `BeanFactoryUtils.beanNamesForTypeIncludingAncestors`, `getType` and `isSingleton` are left abstract.
  - The model does not capture beans registered between calls, or the stale cache entries that a changed factory could leave after a failed scan.
- `AspectJAdvisorFactory.isAspect`, `getAdvisors` and the `AspectMetadata` per-clause extraction are reflection and library code. They are abstract functions, and `getAdvisors` is deterministic.
- The one-argument constructor (lines 59-61) creates a `ReflectiveAspectJAdvisorFactory`, which is not part of this model. The null checks of lines 69-70 are implied by the types.
- The exception's message text (lines 132-133) is not modelled; the error carries the bean name only.
- Results are modelled as values: list identity and the immutability of `Collections.emptyList()` are not modelled.
- `AdvisorsFromCache` requires every name to have a cache entry. The source would pass a null factory to `getAdvisors` otherwise, and the invariant rules that case out.
- `AopNamespaceUtils.java` only reads XML attributes and delegates to `AopConfigUtils`, which is not part of this model. The capability escalation lives there.
- `AspectJAroundAdvice.java` delegates to `AbstractAspectJAdvice` and `MethodInvocationProceedingJoinPoint`, which are not part of this model. Interception-chain execution, proxy creation and expose-proxy re-entrancy are not in the modelled files at all.
