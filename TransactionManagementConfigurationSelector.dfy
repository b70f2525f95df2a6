/**
 * The import decision of Spring's TransactionManagementConfigurationSelector:
 * from the advice mode of @EnableTransactionManagement to the ordered list of
 * configuration class names the container imports.
 *
 * The selector keeps no state, so it is modelled by functions of the advice
 * mode and of the answer of the classpath probe for the JTA
 * `javax.transaction.Transactional` annotation type.
 */
module TransactionManagementConfigurationSelector {
  import opened Basics

  /** The advice mode; `Unrecognized` stands for the `default` branch of the switch. */
  datatype AdviceMode = Proxy | AspectJ | Unrecognized

  /** Fully qualified class names, as `Class.getName()` reports them. */
  const AutoProxyRegistrarName: string :=
    "org.springframework.context.annotation.AutoProxyRegistrar"
  const ProxyTransactionManagementConfigurationName: string :=
    "org.springframework.transaction.annotation.ProxyTransactionManagementConfiguration"

  /** TransactionManagementConfigUtils.TRANSACTION_ASPECT_CONFIGURATION_CLASS_NAME */
  const TransactionAspectConfigurationClassName: string :=
    "org.springframework.transaction.aspectj.AspectJTransactionManagementConfiguration"
  /** TransactionManagementConfigUtils.JTA_TRANSACTION_ASPECT_CONFIGURATION_CLASS_NAME */
  const JtaTransactionAspectConfigurationClassName: string :=
    "org.springframework.transaction.aspectj.AspectJJtaTransactionManagementConfiguration"

  /** The four configuration classes the selector can ever name. */
  const ConfigurationClassNames: set<string> :=
    {AutoProxyRegistrarName, ProxyTransactionManagementConfigurationName,
     TransactionAspectConfigurationClassName, JtaTransactionAspectConfigurationClassName}

  /**
   * The AspectJ configuration to import: the JTA variant exactly when
   * `jtaPresent` (the outcome of probing the class loader for the JTA
   * annotation type `javax.transaction.Transactional`) holds, and the plain one otherwise.
   */
  function DetermineTransactionAspectClass(jtaPresent: bool): (name: string)
    ensures name == JtaTransactionAspectConfigurationClassName <==> jtaPresent
    ensures name == TransactionAspectConfigurationClassName <==> !jtaPresent
  {
    if jtaPresent then JtaTransactionAspectConfigurationClassName
    else TransactionAspectConfigurationClassName
  }

  /**
   * The configuration class names to import for `mode`, in order; `None` is
   * the `null` of the default branch.
   */
  function SelectImports(mode: AdviceMode, jtaPresent: bool): (imports: Option<seq<string>>)
    ensures imports.Some? <==> mode == Proxy || mode == AspectJ
    ensures mode == Proxy ==>
      imports == Some([AutoProxyRegistrarName, ProxyTransactionManagementConfigurationName])
    ensures mode == AspectJ ==>
      |imports.value| == 1 && imports.value[0] == DetermineTransactionAspectClass(jtaPresent)
  {
    match mode
    case Proxy => Some([AutoProxyRegistrarName, ProxyTransactionManagementConfigurationName])
    case AspectJ => Some([DetermineTransactionAspectClass(jtaPresent)])
    case Unrecognized => None
  }

  /**
   * Whatever the mode and the probe, every imported name is one of the four
   * configuration classes, no name is imported twice, and the proxy-based
   * and the AspectJ-based configurations never appear together.
   */
  lemma ImportsAreDistinctKnownClasses(mode: AdviceMode, jtaPresent: bool)
    ensures SelectImports(mode, jtaPresent).Some? ==>
      var imports := SelectImports(mode, jtaPresent).value;
      && Distinct(imports)
      && (forall n :: n in imports ==> n in ConfigurationClassNames)
      && (ProxyTransactionManagementConfigurationName in imports <==> mode == Proxy)
      && (AutoProxyRegistrarName in imports <==> mode == Proxy)
  {
  }

  /** The probe decides the AspectJ import and nothing else: PROXY ignores it. */
  lemma ProbeOnlyAffectsAspectJ(mode: AdviceMode)
    ensures SelectImports(mode, true) != SelectImports(mode, false) <==> mode == AspectJ
  {
  }
}
