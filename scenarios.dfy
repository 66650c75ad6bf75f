/** Call sequences on a locator, proved from the operations' contracts alone. */
module Scenarios {
  import opened Wrappers
  import opened KubernetesDns

  /** Switching a default locator to environment lookups. Narrowing the
      allowed list to ENV first is refused, because the preferred DNS would
      drop out of it; setting the preferred source first and narrowing the
      list afterwards succeeds, and a lookup without a source then reads the
      service's environment key. */
  method SwitchDefaultToEnv(serviceName: string, resolve: string -> string, env: map<string, string>)
    returns (narrowFirst: Result<ServiceLocator, Error>, host: Result<Option<string>, Error>)
    ensures narrowFirst == Failure(InvalidPreferredSource(SourceDns, [SourceEnv]))
    ensures host == Success(if EnvName(serviceName) in env then Some(env[EnvName(serviceName)]) else None)
  {
    var created := ServiceLocator.Create(NoOverrides);
    DefaultConstruction();
    var locator := created.value;
    narrowFirst := locator.ChangeAllowedSources([SourceEnv]);
    var _ := locator.ChangePreferredSource(Some(SourceEnv));
    var _ := locator.ChangeAllowedSources([SourceEnv]);
    host := locator.ServiceHost(serviceName, None, resolve, env);
  }

  /** The allowed list may be widened to a source the lookup does not know;
      asking for that source then fails as unrecognised rather than as not allowed. */
  method UnknownSourceReachesLookup(serviceName: string, resolve: string -> string, env: map<string, string>)
    returns (host: Result<Option<string>, Error>)
    ensures host == Failure(UnrecognizedSource("consul"))
  {
    var created := ServiceLocator.Create(NoOverrides);
    DefaultConstruction();
    var locator := created.value;
    var _ := locator.ChangeAllowedSources([SourceDns, SourceEnv, "consul"]);
    host := locator.ServiceHost(serviceName, Some("consul"), resolve, env);
  }

  /** Clearing the preferred source always succeeds, whatever the allowed
      list holds, and afterwards a lookup that names no source fails for want
      of one. */
  method ClearedPreferredNeedsExplicitSource(locator: ServiceLocator, serviceName: string,
                                             resolve: string -> string, env: map<string, string>)
    returns (cleared: Result<ServiceLocator, Error>, host: Result<Option<string>, Error>)
    modifies locator
    ensures cleared == Success(locator) && locator.config == Config(None, old(locator.config.allowed))
    ensures host == Failure(NoSourceConfigured)
  {
    cleared := locator.ChangePreferredSource(None);
    host := locator.ServiceHost(serviceName, None, resolve, env);
  }

  /** An unresolvable name (the resolver echoes it back) is "not found", not an error. */
  method UnresolvedDnsIsNotFound(serviceName: string, env: map<string, string>)
    returns (host: Result<Option<string>, Error>)
    ensures host == Success(None)
  {
    var created := ServiceLocator.Create(NoOverrides);
    DefaultConstruction();
    var locator := created.value;
    host := locator.ServiceHost(serviceName, Some(SourceDns), (name: string) => name, env);
  }
}
