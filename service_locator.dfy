/** The service locator: a small mutable configuration (a preferred source,
    possibly unset, and the list of allowed sources) and a lookup that turns a
    service name into a host through DNS or through an environment variable.

    Sources are plain strings, as in the PHP class: only "dns" and "env" are
    recognised, but `ChangeAllowedSources` accepts any string, so an
    unrecognised source can reach the lookup. */
module KubernetesDns {
  import opened Wrappers
  import opened Text

  const SourceDns: string := "dns"
  const SourceEnv: string := "env"

  /** The sources the lookup knows how to use, in the order of the PHP class's list. */
  const RecognizedSources: seq<string> := [SourceDns, SourceEnv]

  /** Appended to the translated service name to form the environment key. */
  const EnvSuffix: string := "_SERVICE_HOST"

  /** The locator's state: `preferred` is `None` when no default source is set;
      `allowed` keeps the caller's order and duplicates. */
  datatype Config = Config(preferred: Option<string>, allowed: seq<string>)

  /** The configuration used for every key the caller does not supply. */
  const DefaultConfig: Config := Config(Some(SourceDns), [SourceDns, SourceEnv])

  /** One construction key: left out by the caller, or supplied with a value
      (for the preferred source that value may itself be `None`, an explicit null). */
  datatype Override<+T> = Absent | Supplied(value: T)

  /** The array given to the constructor, one optional entry per key. */
  datatype Overrides = Overrides(preferredSource: Override<Option<string>>, allowedSources: Override<seq<string>>)

  /** The constructor's default argument `[]`: no key supplied. */
  const NoOverrides: Overrides := Overrides(Absent, Absent)

  /** The failures the PHP class throws as `\InvalidArgumentException`, told
      apart by what their messages report. */
  datatype Error =
    | InvalidPreferredSource(source: string, allowed: seq<string>)  // preferred source not in the allowed list
    | UnrecognizedSources(sources: seq<string>)                     // construction: every allowed value outside {dns, env}
    | NoSourceConfigured                                            // lookup without a source and without a preferred one
    | SourceNotAllowed(source: string, allowed: seq<string>)        // lookup source not in the allowed list
    | UnrecognizedSource(source: string)                            // lookup source allowed but neither dns nor env

  predicate IsRecognized(s: string) {
    s in RecognizedSources
  }

  predicate AllRecognized(sources: seq<string>) {
    forall i :: 0 <= i < |sources| ==> IsRecognized(sources[i])
  }

  /** The configuration invariant: a set preferred source is one of the allowed ones. */
  predicate PreferredAllowed(c: Config) {
    c.preferred.None? || c.preferred.value in c.allowed
  }

  /** The elements of `s` that do not occur in `excluded`, with their
      repetitions (the values of `array_diff`). */
  function Diff(s: seq<string>, excluded: seq<string>): (r: seq<string>)
    ensures forall x :: multiset(r)[x] == if x in excluded then 0 else multiset(s)[x]
    ensures forall x :: x in r <==> x in s && x !in excluded
    ensures |r| <= |s|
  {
    if s == [] then []
    else
      var rest := Diff(s[1..], excluded);
      assert s == [s[0]] + s[1..];
      if s[0] in excluded then rest else [s[0]] + rest
  }

  /** The shallow merge of the caller's keys over `DefaultConfig`: a supplied
      key replaces its default wholesale (an explicit null included, and the
      allowed list is never merged element by element); an absent key keeps it. */
  function Merge(o: Overrides): (c: Config)
    ensures o.preferredSource.Supplied? ==> c.preferred == o.preferredSource.value
    ensures o.preferredSource.Absent? ==> c.preferred == DefaultConfig.preferred
    ensures o.allowedSources.Supplied? ==> c.allowed == o.allowedSources.value
    ensures o.allowedSources.Absent? ==> c.allowed == DefaultConfig.allowed
  {
    var preferred := match o.preferredSource
      case Absent => DefaultConfig.preferred
      case Supplied(p) => p;
    var allowed := match o.allowedSources
      case Absent => DefaultConfig.allowed
      case Supplied(a) => a;
    Config(preferred, allowed)
  }

  /** The constructor's two checks on the merged configuration, in the
      PHP class's order: preferred-source membership first, then unrecognised
      values. `None` means the configuration is accepted. */
  function Validate(c: Config): (e: Option<Error>)
    ensures e.None? <==> PreferredAllowed(c) && AllRecognized(c.allowed)
    ensures !PreferredAllowed(c) ==> e == Some(InvalidPreferredSource(c.preferred.value, c.allowed))
    ensures e.Some? && e.value.UnrecognizedSources? ==>
              PreferredAllowed(c) && e.value.sources != [] &&
              forall x :: x in e.value.sources <==> x in c.allowed && !IsRecognized(x)
    ensures PreferredAllowed(c) && !AllRecognized(c.allowed) ==>
              e.Some? && e.value == UnrecognizedSources(Diff(c.allowed, RecognizedSources))
    ensures e.Some? ==> e.value.InvalidPreferredSource? || e.value.UnrecognizedSources?
  {
    if c.preferred.Some? && c.preferred.value !in c.allowed then
      Some(InvalidPreferredSource(c.preferred.value, c.allowed))
    else
      var unrecognized := Diff(c.allowed, RecognizedSources);
      if unrecognized != [] then
        Some(UnrecognizedSources(unrecognized))
      else
        assert forall i :: 0 <= i < |c.allowed| ==> c.allowed[i] !in unrecognized;
        None
  }

  /** A character of a service name as it appears in its environment key. */
  function EnvChar(c: char): (k: char)
    ensures c == '-' ==> k == '_'
    ensures c != '-' ==> k == UpperChar(c)
    ensures k != '-' && !IsLowerAscii(k)
  {
    if c == '-' then '_' else UpperChar(c)
  }

  /** The environment key for a service: the name ASCII upper-cased with every
      `-` turned into `_`, followed by `_SERVICE_HOST`. */
  function EnvName(serviceName: string): (key: string)
    ensures |key| == |serviceName| + |EnvSuffix|
    ensures forall i :: 0 <= i < |serviceName| ==> key[i] == EnvChar(serviceName[i])
    ensures key[|serviceName|..] == EnvSuffix
    ensures '-' !in key
    ensures forall i :: 0 <= i < |key| ==> !IsLowerAscii(key[i])
  {
    var base := ReplaceChar(ToUpperAscii(serviceName), '-', '_');
    assert forall i :: 0 <= i < |base| ==> !IsLowerAscii(base[i]);
    assert forall i :: 0 <= i < |EnvSuffix| ==> EnvSuffix[i] != '-' && !IsLowerAscii(EnvSuffix[i]);
    base + EnvSuffix
  }

  /** Two service names share an environment key exactly when they agree
      character by character once case and the `-`/`_` distinction are erased. */
  lemma {:induction false} EnvNameCollides(a: string, b: string)
    ensures EnvName(a) == EnvName(b) <==>
              |a| == |b| && forall i :: 0 <= i < |a| ==> EnvChar(a[i]) == EnvChar(b[i])
  {
    if EnvName(a) == EnvName(b) {
      assert |a| == |b|;
      forall i | 0 <= i < |a| ensures EnvChar(a[i]) == EnvChar(b[i]) {
        assert EnvName(a)[i] == EnvName(b)[i];
      }
    }
  }

  /** The key read for the service "my-service", proved character by
      character on a parameter equal to the literal; `EnvNameMyService`
      states it on the literal itself. */
  lemma EnvNameExample(name: string)
    requires name == "my-service"
    ensures EnvName(name) == "MY_SERVICE_SERVICE_HOST"
  {
    var key := EnvName(name);
    forall i | 0 <= i < |name| ensures key[i] == "MY_SERVICE"[i] {
      assert key[i] == EnvChar(name[i]);
    }
    assert key == key[..|name|] + key[|name|..];
  }

  /** The same example, stated on the literal. */
  lemma EnvNameMyService()
    ensures EnvName("my-service") == "MY_SERVICE_SERVICE_HOST"
  {
    EnvNameExample("my-service");
  }

  /** The translation may equally replace `-` first and upper-case afterwards. */
  lemma EnvNameReplaceFirst(serviceName: string)
    ensures EnvName(serviceName) == ToUpperAscii(ReplaceChar(serviceName, '-', '_')) + EnvSuffix
  {
    ReplaceCommutesWithUpper(serviceName, '-', '_');
  }

  class ServiceLocator {
    var config: Config

    /** What the constructor and both mutators maintain. */
    ghost predicate Valid()
      reads this
    {
      PreferredAllowed(config)
    }

    /** Stores an already validated configuration; `Create` is the public entry. */
    constructor FromConfig(c: Config)
      requires Validate(c).None?
      ensures config == c && Valid()
    {
      config := c;
    }

    /** Construction: merge the caller's keys over the defaults, run both
        checks, and store the merged configuration only when they pass. */
    static method Create(o: Overrides) returns (r: Result<ServiceLocator, Error>)
      ensures Validate(Merge(o)).Some? ==> r == Failure(Validate(Merge(o)).value)
      ensures Validate(Merge(o)).None? ==>
                r.Success? && fresh(r.value) && r.value.config == Merge(o) &&
                r.value.Valid() && AllRecognized(r.value.config.allowed)
    {
      var complete := Merge(o);
      var problem := Validate(complete);
      if problem.Some? {
        return Failure(problem.value);
      }
      var locator := new ServiceLocator.FromConfig(complete);
      return Success(locator);
    }

    /** Replaces the allowed list wholesale, unless the current preferred
        source would drop out of it. The new values are not checked against
        the recognised sources. */
    method ChangeAllowedSources(allowed: seq<string>) returns (r: Result<ServiceLocator, Error>)
      modifies this
      ensures old(config.preferred).Some? && old(config.preferred).value !in allowed ==>
                r == Failure(InvalidPreferredSource(old(config.preferred).value, allowed)) &&
                config == old(config)
      ensures old(config.preferred).None? || old(config.preferred).value in allowed ==>
                r == Success(this) && config == Config(old(config.preferred), allowed)
      ensures r.Success? ==> Valid()
      ensures old(Valid()) ==> Valid()
    {
      if config.preferred.Some? && config.preferred.value !in allowed {
        return Failure(InvalidPreferredSource(config.preferred.value, allowed));
      }
      config := config.(allowed := allowed);
      return Success(this);
    }

    /** Clears the preferred source (always possible), or sets it to an
        allowed source; a source outside the allowed list changes nothing. */
    method ChangePreferredSource(preferred: Option<string>) returns (r: Result<ServiceLocator, Error>)
      modifies this
      ensures preferred.None? ==> r == Success(this) && config == Config(None, old(config.allowed))
      ensures preferred.Some? && preferred.value !in old(config.allowed) ==>
                r == Failure(InvalidPreferredSource(preferred.value, old(config.allowed))) &&
                config == old(config)
      ensures preferred.Some? && preferred.value in old(config.allowed) ==>
                r == Success(this) && config == Config(preferred, old(config.allowed))
      ensures r.Success? ==> Valid()
      ensures old(Valid()) ==> Valid()
    {
      if preferred.None? {
        config := config.(preferred := None);
        return Success(this);
      }
      if preferred.value !in config.allowed {
        return Failure(InvalidPreferredSource(preferred.value, config.allowed));
      }
      config := config.(preferred := preferred);
      return Success(this);
    }

    /** Looks a service up. An explicit `source` wins over the preferred one;
        the source used must be allowed. "dns" asks `resolve`, which answers
        with the name itself when it cannot resolve it; "env" reads the
        service's key from `env`. `Success(None)` means "not found". The
        configuration is only read. */
    method ServiceHost(serviceName: string, source: Option<string>,
                       resolve: string -> string, env: map<string, string>)
      returns (r: Result<Option<string>, Error>)
      ensures source.None? && config.preferred.None? <==> r == Failure(NoSourceConfigured)
      ensures source.Some? || config.preferred.Some? ==>
                var used := if source.Some? then source.value else config.preferred.value;
                (used !in config.allowed ==> r == Failure(SourceNotAllowed(used, config.allowed))) &&
                (used in config.allowed && !IsRecognized(used) ==> r == Failure(UnrecognizedSource(used))) &&
                (used in config.allowed && used == SourceDns ==>
                   r.Success? && (r.value.None? <==> resolve(serviceName) == serviceName) &&
                   (r.value.Some? ==> r.value.value == resolve(serviceName))) &&
                (used in config.allowed && used == SourceEnv ==>
                   r.Success? && (r.value.None? <==> EnvName(serviceName) !in env) &&
                   (r.value.Some? ==> r.value.value == env[EnvName(serviceName)]))
      ensures Valid() && source.None? ==> !(r.Failure? && r.error.SourceNotAllowed?)
    {
      var used: string;
      if source.None? {
        if config.preferred.None? {
          return Failure(NoSourceConfigured);
        }
        used := config.preferred.value;
      } else {
        used := source.value;
      }
      if used !in config.allowed {
        return Failure(SourceNotAllowed(used, config.allowed));
      }
      if used == SourceDns {
        var hostName := resolve(serviceName);
        return Success(if hostName != serviceName then Some(hostName) else None);
      }
      if used == SourceEnv {
        var key := EnvName(serviceName);
        return Success(if key in env then Some(env[key]) else None);
      }
      return Failure(UnrecognizedSource(used));
    }
  }

  /** Without overrides the locator prefers DNS and allows DNS and ENV, and
      that configuration passes both checks. */
  lemma DefaultConstruction()
    ensures Merge(NoOverrides) == Config(Some(SourceDns), [SourceDns, SourceEnv])
    ensures Validate(Merge(NoOverrides)) == None
  {
  }

  /** An explicit null preferred source overrides the default: the locator
      then has no preferred source. */
  lemma ExplicitNullPreferred()
    ensures Merge(Overrides(Supplied(None), Absent)) == Config(None, [SourceDns, SourceEnv])
    ensures Validate(Merge(Overrides(Supplied(None), Absent))) == None
  {
  }

  /** Keeping the default preferred DNS while allowing only ENV is refused. */
  lemma PreferredOutsideAllowedRejected()
    ensures Validate(Merge(Overrides(Absent, Supplied([SourceEnv])))) ==
              Some(InvalidPreferredSource(SourceDns, [SourceEnv]))
  {
  }

  /** A list with an unknown source is refused, and the error names it; the
      membership check runs first, so a list lacking the preferred source is
      refused for that even when it also holds unknown values. */
  lemma UnknownSourceRejected()
    ensures Validate(Merge(Overrides(Absent, Supplied([SourceDns, "weird"])))) ==
              Some(UnrecognizedSources(["weird"]))
    ensures Validate(Merge(Overrides(Absent, Supplied(["weird", "odd"])))) ==
              Some(InvalidPreferredSource(SourceDns, ["weird", "odd"]))
  {
    var allowed := [SourceDns, "weird"];
    assert allowed[1..] == ["weird"] && allowed[1..][1..] == [];
    assert Diff(allowed, RecognizedSources) == ["weird"];
  }
}
