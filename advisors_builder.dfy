/** The advisor-resolution cache: a builder that scans the bean factory for
    aspect beans once, caches what it resolved, and answers later calls from
    the caches. */
module AdvisorsBuilder {
  import opened Wrappers
  import opened AspectModel
  import opened Resolution

  /** The eligibility hook's default: every bean is eligible. */
  function AllEligible(beanName: string): (eligible: bool)
    ensures eligible
  {
    true
  }

  class BeanFactoryAspectJAdvisorsBuilder {
    const beanFactory: ListableBeanFactory
    const advisorFactory: AspectJAdvisorFactory
    /** The overridable isEligibleBean hook. */
    const isEligibleBean: string -> bool

    /** None until a scan completes; then the discovered aspect bean names. */
    var aspectBeanNames: Option<seq<string>>
    var advisorsCache: map<string, seq<Advisor>>
    var aspectFactoryCache: map<string, AspectInstanceFactory>

    function Env(): Scope {
      Scope(beanFactory, advisorFactory, isEligibleBean)
    }

    /** The builder's invariant: cache entries are what a scan computes for
        their bean, and the published names are the result of a scan that
        did not throw, each with a cache entry. */
    ghost predicate Valid()
      reads this
    {
      && CachesConsistent(Env(), advisorsCache, aspectFactoryCache)
      && (aspectBeanNames.Some? ==>
            && aspectBeanNames.value == AspectNames(Env(), beanFactory.beanNames)
            && FirstMisconfigured(Env(), beanFactory.beanNames).None?
            && Covered(aspectBeanNames.value, advisorsCache, aspectFactoryCache))
    }

    /** Once names are published, each has exactly one cache entry: an
        advisor list or an instance factory, never both. */
    lemma CachePartition()
      requires Valid() && aspectBeanNames.Some?
      ensures forall n :: n in aspectBeanNames.value ==> (n in advisorsCache <==> n !in aspectFactoryCache)
    {
      ConsistentCachesDisjoint(Env(), advisorsCache, aspectFactoryCache);
    }

    /** A builder with the default eligibility hook. */
    constructor (beanFactory: ListableBeanFactory, advisorFactory: AspectJAdvisorFactory)
      ensures Valid()
      ensures this.beanFactory == beanFactory && this.advisorFactory == advisorFactory
      ensures this.isEligibleBean == AllEligible
      ensures aspectBeanNames == None && advisorsCache == map[] && aspectFactoryCache == map[]
    {
      this.beanFactory := beanFactory;
      this.advisorFactory := advisorFactory;
      this.isEligibleBean := AllEligible;
      aspectBeanNames := None;
      advisorsCache := map[];
      aspectFactoryCache := map[];
    }

    /** A builder whose subclass overrides isEligibleBean with `eligible`. */
    constructor WithEligibilityHook(beanFactory: ListableBeanFactory, advisorFactory: AspectJAdvisorFactory,
                                    eligible: string -> bool)
      ensures Valid()
      ensures this.beanFactory == beanFactory && this.advisorFactory == advisorFactory
      ensures this.isEligibleBean == eligible
      ensures aspectBeanNames == None && advisorsCache == map[] && aspectFactoryCache == map[]
    {
      this.beanFactory := beanFactory;
      this.advisorFactory := advisorFactory;
      this.isEligibleBean := eligible;
      aspectBeanNames := None;
      advisorsCache := map[];
      aspectFactoryCache := map[];
    }

    /** buildAspectJAdvisors: scan on the first successful call, answer from
        the caches afterwards. */
    method BuildAspectJAdvisors() returns (r: Result<seq<Advisor>, BuildError>)
      requires Valid()
      modifies this
      ensures Valid()
      // Later calls: no scan, no change, the cached lists in name order.
      ensures old(aspectBeanNames).Some? ==>
        && aspectBeanNames == old(aspectBeanNames)
        && advisorsCache == old(advisorsCache)
        && aspectFactoryCache == old(aspectFactoryCache)
        && Covered(aspectBeanNames.value, advisorsCache, aspectFactoryCache)
        && r == Ok(CachedAdvisors(advisorFactory, aspectBeanNames.value, advisorsCache, aspectFactoryCache))
        && r == Ok(ScannedAdvisors(Env(), beanFactory.beanNames))
      // First call: the scan.
      ensures old(aspectBeanNames).None? ==> ScanOutcome(old(advisorsCache), old(aspectFactoryCache), r)
    {
      var aspectNames := aspectBeanNames;
      if aspectNames.None? {
        r := ScanAspectBeans();
        return;
      }
      if |aspectNames.value| == 0 {
        CachedAdvisorsMatchScan(Env(), beanFactory.beanNames, advisorsCache, aspectFactoryCache);
        return Ok([]);
      }
      var advisors := AdvisorsFromCache(aspectNames.value);
      r := Ok(advisors);
    }

    /** The state and result a scan leaves, starting from caches `ac` and `fc`. */
    ghost predicate ScanOutcome(ac: map<string, seq<Advisor>>, fc: map<string, AspectInstanceFactory>,
                                r: Result<seq<Advisor>, BuildError>)
      reads this
    {
      var names := beanFactory.beanNames;
      match FirstMisconfigured(Env(), names)
      case None =>
        && aspectBeanNames == Some(AspectNames(Env(), names))
        && r == Ok(ScannedAdvisors(Env(), names))
        && advisorsCache == ac + AdvisorEntries(Env(), names)
        && aspectFactoryCache == fc + FactoryEntries(Env(), names)
      case Some(k) =>
        && aspectBeanNames == None
        && r == Err(NonSingletonAspectOnSingletonBean(names[k]))
        && advisorsCache == ac + AdvisorEntries(Env(), names[..k])
        && aspectFactoryCache == fc + FactoryEntries(Env(), names[..k])
    }

    /** The scan phase: one pass over the bean names, in order. */
    method ScanAspectBeans() returns (r: Result<seq<Advisor>, BuildError>)
      requires Valid() && aspectBeanNames.None?
      modifies this
      ensures Valid()
      ensures ScanOutcome(old(advisorsCache), old(aspectFactoryCache), r)
    {
      ghost var s := Env();
      var advisors: seq<Advisor> := [];
      var aspectNames: seq<string> := [];
      var beanNames := beanFactory.beanNames;
      for i := 0 to |beanNames|
        invariant aspectNames == AspectNames(s, beanNames[..i])
        invariant advisors == ScannedAdvisors(s, beanNames[..i])
        invariant FirstMisconfigured(s, beanNames[..i]).None?
        invariant advisorsCache == old(advisorsCache) + AdvisorEntries(s, beanNames[..i])
        invariant aspectFactoryCache == old(aspectFactoryCache) + FactoryEntries(s, beanNames[..i])
        invariant aspectBeanNames == None
      {
        var beanName := beanNames[i];
        ghost var prefix := beanNames[..i];
        assert beanNames[..i + 1] == prefix + [beanName];
        ScanStep(s, prefix, beanName);
        EntriesExtend(s, prefix, beanName);
        FirstMisconfiguredExtend(s, prefix, beanName);
        if CachesAdvisors(s, beanName) {
          UnionThenPut(old(advisorsCache), AdvisorEntries(s, prefix), beanName, AdvisorsOf(s, beanName));
        }
        if CachesFactory(s, beanName) {
          UnionThenPut(old(aspectFactoryCache), FactoryEntries(s, prefix), beanName, FactoryFor(s, beanName));
        }
        var failed;
        aspectNames, advisors, failed := ScanBean(beanName, aspectNames, advisors);
        if failed {
          FirstMisconfiguredAt(s, beanNames, i);
          EntriesKeepConsistency(s, old(advisorsCache), old(aspectFactoryCache), prefix);
          return Err(NonSingletonAspectOnSingletonBean(beanName));
        }
      }
      assert beanNames[..|beanNames|] == beanNames;
      aspectBeanNames := Some(aspectNames);
      EntriesKeepConsistency(s, old(advisorsCache), old(aspectFactoryCache), beanNames);
      SecondCallAgrees(s, old(advisorsCache), old(aspectFactoryCache), beanNames);
      r := Ok(advisors);
    }

    /** One iteration of the scan: skip an ineligible or untyped bean or one
        that is not an aspect; otherwise record the name, cache the advisor
        list or the factory, and append the advisors, unless the bean is a
        singleton whose aspect is not singleton-instantiated (`failed`). */
    method ScanBean(beanName: string, aspectNames: seq<string>, advisors: seq<Advisor>)
      returns (aspectNames': seq<string>, advisors': seq<Advisor>, failed: bool)
      modifies this
      ensures aspectBeanNames == old(aspectBeanNames)
      ensures failed == Misconfigured(Env(), beanName)
      ensures failed ==> advisorsCache == old(advisorsCache) && aspectFactoryCache == old(aspectFactoryCache)
      ensures !failed ==>
        && aspectNames' == aspectNames + (if IsAspectBean(Env(), beanName) then [beanName] else [])
        && advisors' == advisors + (if IsAspectBean(Env(), beanName) then AdvisorsOf(Env(), beanName) else [])
        && advisorsCache == (if CachesAdvisors(Env(), beanName)
                             then old(advisorsCache)[beanName := AdvisorsOf(Env(), beanName)]
                             else old(advisorsCache))
        && aspectFactoryCache == (if CachesFactory(Env(), beanName)
                                  then old(aspectFactoryCache)[beanName := FactoryFor(Env(), beanName)]
                                  else old(aspectFactoryCache))
    {
      aspectNames', advisors', failed := aspectNames, advisors, false;
      if !isEligibleBean(beanName) {
        return;
      }
      var beanType := beanFactory.getType(beanName);
      if beanType.None? {
        return;
      }
      if advisorFactory.isAspect(beanType.value) {
        aspectNames' := aspectNames + [beanName];
        if beanType.value.perClause == Singleton {
          var factory := BeanFactoryAspectInstanceFactory(beanName);
          var classAdvisors := advisorFactory.getAdvisors(factory);
          if beanFactory.isSingleton(beanName) {
            advisorsCache := advisorsCache[beanName := classAdvisors];
          } else {
            aspectFactoryCache := aspectFactoryCache[beanName := factory];
          }
          advisors' := advisors + classAdvisors;
        } else {
          if beanFactory.isSingleton(beanName) {
            aspectNames' := aspectNames;
            failed := true;
            return;
          }
          var factory := PrototypeAspectInstanceFactory(beanName);
          aspectFactoryCache := aspectFactoryCache[beanName := factory];
          advisors' := advisors + advisorFactory.getAdvisors(factory);
        }
      }
    }

    /** The cached phase: each name's cached advisor list, or else the
        advisors resolved from its cached factory, in name order. */
    method AdvisorsFromCache(aspectNames: seq<string>) returns (advisors: seq<Advisor>)
      requires Covered(aspectNames, advisorsCache, aspectFactoryCache)
      ensures advisors == CachedAdvisors(advisorFactory, aspectNames, advisorsCache, aspectFactoryCache)
      ensures Valid() && aspectBeanNames == Some(aspectNames) ==>
        advisors == ScannedAdvisors(Env(), beanFactory.beanNames)
    {
      advisors := [];
      for i := 0 to |aspectNames|
        invariant advisors == CachedAdvisors(advisorFactory, aspectNames[..i], advisorsCache, aspectFactoryCache)
      {
        var aspectName := aspectNames[i];
        assert aspectNames[..i + 1][..i] == aspectNames[..i];
        if aspectName in advisorsCache {
          advisors := advisors + advisorsCache[aspectName];
        } else {
          var factory := aspectFactoryCache[aspectName];
          advisors := advisors + advisorFactory.getAdvisors(factory);
        }
      }
      assert aspectNames[..|aspectNames|] == aspectNames;
      if Valid() && aspectBeanNames == Some(aspectNames) {
        CachedAdvisorsMatchScan(Env(), beanFactory.beanNames, advisorsCache, aspectFactoryCache);
      }
    }
  }

  /** Two calls in a row: a successful first call is answered identically by
      the second, and a failing first call fails again the same way. */
  method RepeatedBuild(b: BeanFactoryAspectJAdvisorsBuilder)
    returns (first: Result<seq<Advisor>, BuildError>, second: Result<seq<Advisor>, BuildError>)
    requires b.Valid()
    modifies b
    ensures b.Valid()
    ensures second == first
    ensures first.Ok? <==> FirstMisconfigured(b.Env(), b.beanFactory.beanNames).None?
    ensures first.Ok? ==> b.aspectBeanNames == Some(AspectNames(b.Env(), b.beanFactory.beanNames))
    ensures first.Err? ==> b.aspectBeanNames == None
  {
    first := b.BuildAspectJAdvisors();
    second := b.BuildAspectJAdvisors();
  }
}
