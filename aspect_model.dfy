/** The entities the advisor builder works with, reduced to what the builder
    itself observes of them. */
module AspectModel {
  import opened Wrappers

  /** AspectJ's per-clause kinds. Only SINGLETON is treated specially. */
  datatype PerClauseKind =
    | Singleton
    | PerThis
    | PerTarget
    | PerCflow
    | PerCflowBelow
    | PerTypeWithin

  /** A bean's class, seen through its aspect declaration's per-clause kind,
      which is what AspectMetadata reads from the class. */
  datatype BeanClass = BeanClass(perClause: PerClauseKind)

  /** One Spring AOP advisor built from an advice method of an aspect. */
  datatype Advisor = Advisor(aspectName: string, adviceMethod: string)

  /** The two instance-factory kinds the builder creates, each bound to an
      aspect bean name. */
  datatype AspectInstanceFactory =
    | BeanFactoryAspectInstanceFactory(beanName: string)
    | PrototypeAspectInstanceFactory(beanName: string)

  /** The view of the ListableBeanFactory the builder consults:
      the names returned by the type lookup for Object (ancestors included),
      the declared type of a bean (null when unknown), and whether a bean is
      a singleton. */
  datatype ListableBeanFactory = ListableBeanFactory(
    beanNames: seq<string>,
    getType: string -> Option<BeanClass>,
    isSingleton: string -> bool)

  /** The AspectJAdvisorFactory: which classes are aspects, and the advisors
      resolved from an aspect instance factory (a deterministic function). */
  datatype AspectJAdvisorFactory = AspectJAdvisorFactory(
    isAspect: BeanClass -> bool,
    getAdvisors: AspectInstanceFactory -> seq<Advisor>)

  /** Everything a scan depends on: both factories and the eligibility hook
      (which a subclass may override). */
  datatype Scope = Scope(
    beanFactory: ListableBeanFactory,
    advisorFactory: AspectJAdvisorFactory,
    isEligibleBean: string -> bool)

  /** The IllegalArgumentException thrown for a singleton bean whose aspect
      is not singleton-instantiated. */
  datatype BuildError = NonSingletonAspectOnSingletonBean(beanName: string)
}
