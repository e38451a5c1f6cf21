/** What one scan of the bean factory computes, stated as functions of the
    scope, and the properties of the two caches the scan fills. */
module Resolution {
  import opened Wrappers
  import opened AspectModel

  /** A bean the scan keeps: eligible, with a known type, and an aspect. */
  predicate IsAspectBean(s: Scope, name: string) {
    && s.isEligibleBean(name)
    && s.beanFactory.getType(name).Some?
    && s.advisorFactory.isAspect(s.beanFactory.getType(name).value)
  }

  function PerClauseOf(s: Scope, name: string): PerClauseKind
    requires s.beanFactory.getType(name).Some?
  {
    s.beanFactory.getType(name).value.perClause
  }

  /** The instance factory the scan creates for an aspect bean. */
  function FactoryFor(s: Scope, name: string): AspectInstanceFactory
    requires s.beanFactory.getType(name).Some?
  {
    if PerClauseOf(s, name) == Singleton then BeanFactoryAspectInstanceFactory(name)
    else PrototypeAspectInstanceFactory(name)
  }

  /** The advisors the scan resolves for an aspect bean. */
  function AdvisorsOf(s: Scope, name: string): seq<Advisor>
    requires s.beanFactory.getType(name).Some?
  {
    s.advisorFactory.getAdvisors(FactoryFor(s, name))
  }

  /** The configuration error: a non-singleton aspect on a singleton bean. */
  predicate Misconfigured(s: Scope, name: string) {
    IsAspectBean(s, name) && PerClauseOf(s, name) != Singleton && s.beanFactory.isSingleton(name)
  }

  /** The beans whose resolved advisors the scan caches. */
  predicate CachesAdvisors(s: Scope, name: string) {
    IsAspectBean(s, name) && PerClauseOf(s, name) == Singleton && s.beanFactory.isSingleton(name)
  }

  /** The beans whose instance factory the scan caches. */
  predicate CachesFactory(s: Scope, name: string) {
    IsAspectBean(s, name) && !s.beanFactory.isSingleton(name)
  }

  /** The aspect bean names among `names`, in their order. */
  function AspectNames(s: Scope, names: seq<string>): seq<string>
    decreases |names|
  {
    if |names| == 0 then []
    else
      var last := names[|names| - 1];
      AspectNames(s, names[..|names| - 1]) + (if IsAspectBean(s, last) then [last] else [])
  }

  /** The advisors of the aspect beans among `names`, concatenated in order. */
  function ScannedAdvisors(s: Scope, names: seq<string>): seq<Advisor>
    decreases |names|
  {
    if |names| == 0 then []
    else
      var last := names[|names| - 1];
      ScannedAdvisors(s, names[..|names| - 1]) + (if IsAspectBean(s, last) then AdvisorsOf(s, last) else [])
  }

  /** The index of the first misconfigured bean, which is where the scan throws. */
  function FirstMisconfigured(s: Scope, names: seq<string>): (k: Option<nat>)
    ensures k.Some? ==> k.value < |names| && Misconfigured(s, names[k.value])
    ensures k.Some? ==> forall j :: 0 <= j < k.value ==> !Misconfigured(s, names[j])
    ensures k.None? <==> forall j :: 0 <= j < |names| ==> !Misconfigured(s, names[j])
    decreases |names|
  {
    if |names| == 0 then None
    else if Misconfigured(s, names[0]) then Some(0)
    else
      match FirstMisconfigured(s, names[1..])
      case None => None
      case Some(k) => Some(k + 1)
  }

  /** The advisor-list entries a scan over `names` puts into advisorsCache. */
  function AdvisorEntries(s: Scope, names: seq<string>): map<string, seq<Advisor>> {
    map n | n in names && CachesAdvisors(s, n) :: AdvisorsOf(s, n)
  }

  /** The factory entries a scan over `names` puts into aspectFactoryCache. */
  function FactoryEntries(s: Scope, names: seq<string>): map<string, AspectInstanceFactory> {
    map n | n in names && CachesFactory(s, n) :: FactoryFor(s, n)
  }

  /** Every cache entry is what a scan computes for that bean. */
  predicate CachesConsistent(s: Scope, advisorsCache: map<string, seq<Advisor>>,
                             factoryCache: map<string, AspectInstanceFactory>)
  {
    && (forall n :: n in advisorsCache ==> CachesAdvisors(s, n) && advisorsCache[n] == AdvisorsOf(s, n))
    && (forall n :: n in factoryCache ==> CachesFactory(s, n) && factoryCache[n] == FactoryFor(s, n))
  }

  /** Every name has an entry in one of the caches. */
  predicate Covered(names: seq<string>, advisorsCache: map<string, seq<Advisor>>,
                    factoryCache: map<string, AspectInstanceFactory>)
  {
    forall n :: n in names ==> n in advisorsCache || n in factoryCache
  }

  /** The cached path's result: each name's cached advisor list, or else the
      advisors resolved from its cached factory, concatenated in order. */
  function CachedAdvisors(af: AspectJAdvisorFactory, names: seq<string>,
                          advisorsCache: map<string, seq<Advisor>>,
                          factoryCache: map<string, AspectInstanceFactory>): seq<Advisor>
    requires Covered(names, advisorsCache, factoryCache)
    decreases |names|
  {
    if |names| == 0 then []
    else
      var last := names[|names| - 1];
      CachedAdvisors(af, names[..|names| - 1], advisorsCache, factoryCache)
        + (if last in advisorsCache then advisorsCache[last] else af.getAdvisors(factoryCache[last]))
  }

  // ---------------------------------------------------------------------
  // Discovery: which names are kept, and in which order.

  lemma {:induction false} AspectNamesMembers(s: Scope, names: seq<string>)
    ensures forall n :: n in AspectNames(s, names) <==> n in names && IsAspectBean(s, n)
    decreases |names|
  {
    if |names| > 0 {
      var init := names[..|names| - 1];
      AspectNamesMembers(s, init);
      assert names == init + [names[|names| - 1]];
    }
  }

  lemma {:induction false} AspectNamesAppend(s: Scope, a: seq<string>, b: seq<string>)
    ensures AspectNames(s, a + b) == AspectNames(s, a) + AspectNames(s, b)
    decreases |b|
  {
    if |b| == 0 {
      assert a + b == a;
    } else {
      var init := b[..|b| - 1];
      assert (a + b)[..|a + b| - 1] == a + init;
      AspectNamesAppend(s, a, init);
    }
  }

  lemma {:induction false} ScannedAdvisorsAppend(s: Scope, a: seq<string>, b: seq<string>)
    ensures ScannedAdvisors(s, a + b) == ScannedAdvisors(s, a) + ScannedAdvisors(s, b)
    decreases |b|
  {
    if |b| == 0 {
      assert a + b == a;
    } else {
      var init := b[..|b| - 1];
      assert (a + b)[..|a + b| - 1] == a + init;
      ScannedAdvisorsAppend(s, a, init);
    }
  }

  /** A single bean contributes its own name and advisors if it is an aspect
      bean, and nothing otherwise; with the two append lemmas this fixes the
      scan's result as the per-aspect lists in bean-name order. */
  lemma SingleBean(s: Scope, name: string)
    ensures AspectNames(s, [name]) == if IsAspectBean(s, name) then [name] else []
    ensures ScannedAdvisors(s, [name]) == if IsAspectBean(s, name) then AdvisorsOf(s, name) else []
  {
    assert [name] == [] + [name];
    ScanStep(s, [], name);
  }

  /** The default hook (every bean eligible) keeps exactly the typed aspect beans. */
  lemma DefaultHookKeepsTypedAspects(s: Scope, names: seq<string>)
    requires forall n :: s.isEligibleBean(n)
    ensures forall n :: n in AspectNames(s, names) <==>
      n in names && s.beanFactory.getType(n).Some? && s.advisorFactory.isAspect(s.beanFactory.getType(n).value)
  {
    AspectNamesMembers(s, names);
  }

  // ---------------------------------------------------------------------
  // The two caches.

  /** What one more bean adds to the discovered names and the advisors. */
  lemma ScanStep(s: Scope, names: seq<string>, name: string)
    ensures AspectNames(s, names + [name]) ==
      AspectNames(s, names) + (if IsAspectBean(s, name) then [name] else [])
    ensures ScannedAdvisors(s, names + [name]) ==
      ScannedAdvisors(s, names) + (if IsAspectBean(s, name) then AdvisorsOf(s, name) else [])
  {
    assert (names + [name])[..|names|] == names;
  }

  /** A scan that has not thrown so far throws at the next bean exactly when
      that bean is misconfigured. */
  lemma FirstMisconfiguredExtend(s: Scope, names: seq<string>, name: string)
    requires FirstMisconfigured(s, names).None?
    ensures FirstMisconfigured(s, names + [name]) ==
      if Misconfigured(s, name) then Some(|names|) else None
  {
    var all := names + [name];
    assert forall j :: 0 <= j < |names| ==> all[j] == names[j];
    assert all[|names|] == name;
  }

  /** A scan that has not thrown before index `i` throws at `i` when that
      bean is misconfigured, whatever follows it. */
  lemma FirstMisconfiguredAt(s: Scope, names: seq<string>, i: nat)
    requires i < |names| && FirstMisconfigured(s, names[..i]).None?
    requires Misconfigured(s, names[i])
    ensures FirstMisconfigured(s, names) == Some(i)
  {
    var init := names[..i];
    assert forall j :: 0 <= j < i ==> init[j] == names[j];
  }

  /** The entries a scan adds for one more bean. */
  lemma EntriesExtend(s: Scope, names: seq<string>, name: string)
    ensures AdvisorEntries(s, names + [name]) ==
      if CachesAdvisors(s, name) then AdvisorEntries(s, names)[name := AdvisorsOf(s, name)]
      else AdvisorEntries(s, names)
    ensures FactoryEntries(s, names + [name]) ==
      if CachesFactory(s, name) then FactoryEntries(s, names)[name := FactoryFor(s, name)]
      else FactoryEntries(s, names)
  {
    assert forall n :: n in names + [name] <==> n in names || n == name;
  }

  /** Putting a key after a union is putting it into the right operand. */
  lemma UnionThenPut<V>(m: map<string, V>, entries: map<string, V>, key: string, value: V)
    ensures (m + entries)[key := value] == m + entries[key := value]
  {
  }

  /** How one bean is cached, by its per-clause kind and its lifecycle. */
  lemma EntryClassification(s: Scope, names: seq<string>, name: string)
    requires name in names
    ensures !IsAspectBean(s, name) ==>
      name !in AdvisorEntries(s, names) && name !in FactoryEntries(s, names)
    ensures IsAspectBean(s, name) && PerClauseOf(s, name) == Singleton && s.beanFactory.isSingleton(name) ==>
      && name in AdvisorEntries(s, names)
      && AdvisorEntries(s, names)[name] == s.advisorFactory.getAdvisors(BeanFactoryAspectInstanceFactory(name))
      && name !in FactoryEntries(s, names)
    ensures IsAspectBean(s, name) && PerClauseOf(s, name) == Singleton && !s.beanFactory.isSingleton(name) ==>
      && name in FactoryEntries(s, names)
      && FactoryEntries(s, names)[name] == BeanFactoryAspectInstanceFactory(name)
      && name !in AdvisorEntries(s, names)
    ensures IsAspectBean(s, name) && PerClauseOf(s, name) != Singleton && !s.beanFactory.isSingleton(name) ==>
      && name in FactoryEntries(s, names)
      && FactoryEntries(s, names)[name] == PrototypeAspectInstanceFactory(name)
      && name !in AdvisorEntries(s, names)
    ensures Misconfigured(s, name) ==>
      name !in AdvisorEntries(s, names) && name !in FactoryEntries(s, names)
  {
  }

  /** After a scan that did not throw, every discovered name has exactly one
      entry, and the entries are for discovered names only. */
  lemma EntriesPartition(s: Scope, names: seq<string>)
    requires FirstMisconfigured(s, names).None?
    ensures forall n :: n in AspectNames(s, names) ==>
      (n in AdvisorEntries(s, names) <==> n !in FactoryEntries(s, names))
    ensures forall n :: n in AdvisorEntries(s, names) ==> n in AspectNames(s, names)
    ensures forall n :: n in FactoryEntries(s, names) ==> n in AspectNames(s, names)
  {
    AspectNamesMembers(s, names);
    forall n | n in AspectNames(s, names)
      ensures n in AdvisorEntries(s, names) <==> n !in FactoryEntries(s, names)
    {
      var j :| 0 <= j < |names| && names[j] == n;
      assert !Misconfigured(s, names[j]);
    }
  }

  /** Cache entries consistent with the scope stay consistent when a scan
      adds its entries. */
  lemma EntriesKeepConsistency(s: Scope, ac: map<string, seq<Advisor>>,
                               fc: map<string, AspectInstanceFactory>, names: seq<string>)
    requires CachesConsistent(s, ac, fc)
    ensures CachesConsistent(s, ac + AdvisorEntries(s, names), fc + FactoryEntries(s, names))
  {
  }

  /** Two caches consistent with the scope never hold the same name. */
  lemma ConsistentCachesDisjoint(s: Scope, ac: map<string, seq<Advisor>>,
                                 fc: map<string, AspectInstanceFactory>)
    requires CachesConsistent(s, ac, fc)
    ensures ac.Keys !! fc.Keys
  {
    forall n | n in ac ensures n !in fc {
      assert CachesAdvisors(s, n);
    }
  }

  // ---------------------------------------------------------------------
  // The cached path agrees with the scan.

  lemma {:induction false} CachedAdvisorsMatchScan(s: Scope, names: seq<string>,
                                                   ac: map<string, seq<Advisor>>,
                                                   fc: map<string, AspectInstanceFactory>)
    requires CachesConsistent(s, ac, fc)
    requires Covered(AspectNames(s, names), ac, fc)
    ensures CachedAdvisors(s.advisorFactory, AspectNames(s, names), ac, fc) == ScannedAdvisors(s, names)
    decreases |names|
  {
    if |names| > 0 {
      var init := names[..|names| - 1];
      var last := names[|names| - 1];
      var an := AspectNames(s, init);
      assert Covered(an, ac, fc) by {
        forall n | n in an ensures n in ac || n in fc {
          assert n in AspectNames(s, names);
        }
      }
      CachedAdvisorsMatchScan(s, init, ac, fc);
      if IsAspectBean(s, last) {
        var all := an + [last];
        assert AspectNames(s, names) == all;
        assert all[..|all| - 1] == an;
        assert last in all;
        var step := if last in ac then ac[last] else s.advisorFactory.getAdvisors(fc[last]);
        assert step == AdvisorsOf(s, last);
        assert CachedAdvisors(s.advisorFactory, all, ac, fc)
          == CachedAdvisors(s.advisorFactory, an, ac, fc) + step;
      } else {
        assert AspectNames(s, names) == an;
      }
    }
  }

  /** A call after a successful scan returns exactly what the scan returned. */
  lemma SecondCallAgrees(s: Scope, ac: map<string, seq<Advisor>>,
                         fc: map<string, AspectInstanceFactory>, names: seq<string>)
    requires CachesConsistent(s, ac, fc)
    requires FirstMisconfigured(s, names).None?
    ensures Covered(AspectNames(s, names), ac + AdvisorEntries(s, names), fc + FactoryEntries(s, names))
    ensures CachedAdvisors(s.advisorFactory, AspectNames(s, names),
                           ac + AdvisorEntries(s, names), fc + FactoryEntries(s, names))
            == ScannedAdvisors(s, names)
  {
    EntriesPartition(s, names);
    EntriesKeepConsistency(s, ac, fc, names);
    CachedAdvisorsMatchScan(s, names, ac + AdvisorEntries(s, names), fc + FactoryEntries(s, names));
  }
}
