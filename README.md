# ServiceLocator: a verified model

A model of the `ServiceLocator` class of the kubernetes-dns library. The
class turns a logical service name into a host. It can ask DNS, or it can
read an environment variable named after the service. Its small mutable
configuration has two parts: a preferred source, which may be null, and a
list of allowed sources.

The model is split into four modules:

- `Wrappers`: `Option` (PHP's `null`) and `Result` (a return value or a thrown
  `\InvalidArgumentException`).
- `Text`: ASCII upper-casing and one-character replacement, the two string
  steps of the environment-key translation.
- `KubernetesDns`: the configuration (`Config`), the construction overrides,
  the error kinds, and the pure parts of the class: the default merge, the
  constructor's two checks, and the environment-key translation. It also
  holds the `ServiceLocator` class. The class has one `config` field. Its
  methods are `Create` (the throwing constructor), `ChangeAllowedSources`,
  `ChangePreferredSource` and `ServiceHost`.
- `Scenarios`: call sequences on a locator, proved from the methods'
  contracts alone.

Sources are strings, not a two-value enumeration. The allowed sources are a
`seq<string>`, which keeps order and duplicates. A construction key is either
`Absent` or `Supplied(v)`, so an explicitly supplied null preferred source is
told apart from a missing key. The DNS resolver is a parameter
`resolve: string -> string`, and the process environment is a parameter
`env: map<string, string>`.

The class invariant `Valid()` says that a set preferred source is one of the
allowed ones. `Create` establishes it. Each mutator either fails and leaves
`config` exactly as it was, or applies its change, and both keep `Valid()`.
Only construction checks that sources are recognised. `ChangeAllowedSources`
accepts any string, so `ServiceHost` can be handed an allowed source that is
neither `"dns"` nor `"env"`. `Scenarios.UnknownSourceReachesLookup` shows that
final error being reached.

Two consequences of the code are worth stating:

- Sources are strings, and `changeAllowedSources` does not check that the
  new values are recognised; only the constructor does.
- From a default locator, narrowing the allowed list to `[env]` before
  setting the preferred source to `env` fails, because the preferred `dns`
  is not in `[env]`; the opposite order succeeds
  (`Scenarios.SwitchDefaultToEnv`).

## Model

| member | source | states |
|---|---|---|
| `Text.UpperChar` | src/ServiceLocator.php:155 | A lower-case ASCII letter maps to its upper-case letter (code 32 lower); every other character is unchanged; no result is a lower-case letter |
| `Text.ToUpperAscii` | src/ServiceLocator.php:155 | Same length as the input; each character is upper-cased in place; no lower-case ASCII letter is left |
| `Text.ReplaceChar` | src/ServiceLocator.php:155 | Same length; every `from` becomes `to`; all other characters are kept; no `from` is left when `from != to` |
| `Text.ReplaceCommutesWithUpper` | src/ServiceLocator.php:155 | Replacing a non-letter by a character upper-casing leaves alone commutes with upper-casing, so the order of the two steps does not matter for `-` to `_` |
| `KubernetesDns.Diff` | src/ServiceLocator.php:44 | The elements of the list not in the excluded list, each with its full multiplicity, and nothing else (the values of `array_diff`) |
| `KubernetesDns.Merge` | src/ServiceLocator.php:12-33 | A supplied key replaces its default wholesale, an explicit null preferred source included; an absent key keeps the default (preferred `dns`, allowed `[dns, env]`) |
| `KubernetesDns.Validate` | src/ServiceLocator.php:34-49 | Accepts exactly when the preferred source is null or allowed AND every allowed value is `dns` or `env`; the preferred-source check comes first; a configuration that passes it but holds unrecognised values fails with the unrecognised-sources error, which names every offending value (with its repetitions) and only those |
| `KubernetesDns.EnvChar` | src/ServiceLocator.php:155 | `-` becomes `_`; any other character is upper-cased; the result is never `-` or a lower-case letter |
| `KubernetesDns.EnvName` | src/ServiceLocator.php:153-156 | The key is the name translated character by character (upper-case, `-` to `_`), followed by `_SERVICE_HOST`; it holds no `-` and no lower-case letter |
| `KubernetesDns.EnvNameCollides` | src/ServiceLocator.php:153-156 | Two names share a key if and only if they have the same length and agree at every position after case and `-`/`_` are erased |
| `KubernetesDns.EnvNameReplaceFirst` | src/ServiceLocator.php:155 | The key is the same when `-` is replaced before upper-casing, so the two steps may run in either order |
| `KubernetesDns.EnvNameExample` | src/ServiceLocator.php:155 | `my-service` is read from the key `MY_SERVICE_SERVICE_HOST` |
| `KubernetesDns.EnvNameMyService` | src/ServiceLocator.php:155 | The same example stated on the literal: `EnvName("my-service")` is `MY_SERVICE_SERVICE_HOST` |
| `KubernetesDns.DefaultConstruction` | src/ServiceLocator.php:12-15 | Without overrides the configuration is preferred `dns`, allowed `[dns, env]`, and it passes both checks |
| `KubernetesDns.ExplicitNullPreferred` | src/ServiceLocator.php:33 | A supplied null preferred source overrides the default `dns`, and the result is accepted |
| `KubernetesDns.PreferredOutsideAllowedRejected` | src/ServiceLocator.php:34-42 | Keeping the default preferred `dns` with allowed `[env]` fails as an invalid preferred source naming `dns` and `[env]` |
| `KubernetesDns.UnknownSourceRejected` | src/ServiceLocator.php:34-49 | `[dns, weird]` fails naming exactly `weird`; `[weird, odd]` fails on the preferred source first |
| `KubernetesDns.ServiceLocator.FromConfig` | src/ServiceLocator.php:51 | Stores a configuration that passed both checks; the invariant holds |
| `KubernetesDns.ServiceLocator.Create` | src/ServiceLocator.php:31-52 | Fails with the first check's error when the merged configuration is refused; otherwise a fresh locator holds exactly the merged configuration, which satisfies the invariant and has only recognised sources |
| `KubernetesDns.ServiceLocator.ChangeAllowedSources` | src/ServiceLocator.php:77-91 | If the preferred source is set and missing from the new list: fails naming both, configuration unchanged. Otherwise the allowed list becomes exactly the argument, preferred is kept, and the locator itself is returned. The invariant holds on success and is preserved in every case |
| `KubernetesDns.ServiceLocator.ChangePreferredSource` | src/ServiceLocator.php:96-109 | Null always succeeds and clears the preferred source; a non-null source not in the allowed list fails with nothing changed; an allowed one becomes the preferred source. Allowed is never changed; the invariant holds on success and is preserved in every case |
| `KubernetesDns.ServiceLocator.ServiceHost` | src/ServiceLocator.php:117-151 | Fails for want of a source exactly when none is given and none is preferred. The source used is the given one, else the preferred one. It must be allowed, else the call fails naming it and the list. `dns` answers not-found exactly when the resolver echoes the name, else the resolved host. `env` answers not-found exactly when the service's key is unset, else its value. Any other allowed source fails as unrecognised. When the invariant holds, a lookup without a source never fails as not allowed. The configuration is only read |
| `Scenarios.SwitchDefaultToEnv` | src/ServiceLocator.php:77-109 | On a default locator, narrowing the allowed list to `[env]` first fails; setting the preferred source to `env` first and narrowing afterwards makes a lookup without a source read the environment |
| `Scenarios.UnknownSourceReachesLookup` | src/ServiceLocator.php:150 | After widening the allowed list with `consul`, looking up through `consul` fails as an unrecognised source |
| `Scenarios.ClearedPreferredNeedsExplicitSource` | src/ServiceLocator.php:98-124 | Clearing the preferred source succeeds on any locator and keeps its allowed list; a lookup without a source then fails for want of one |
| `Scenarios.UnresolvedDnsIsNotFound` | src/ServiceLocator.php:140-142 | With a resolver that echoes every name, a DNS lookup on a default locator answers not-found rather than an error |

## Left out

- `gethostbyname` and `getenv` (src/ServiceLocator.php:141, 146) are system resolver and process-environment I/O. They are replaced by the parameters `resolve` and `env`; `getenv`'s `false` for an unset variable is a missing map key.
- The exception message text built with `sprintf` and `implode` (including `throwNotAllowedPreferred`, src/ServiceLocator.php:59-71). Each error is an `Error` value that carries what its message names: the rejected source, the allowed list, or the offending values.
- `strtoupper` is modelled as ASCII upper-casing on characters. PHP works on bytes, and older PHP versions upper-case by locale.
- PHP array keys: `array_diff` keeps the original keys of the values it returns, and `array_merge` would also carry over any extra keys a caller supplies. Neither affects any check or answer, so the model keeps only the values and the two known keys.
- Values of a type other than string inside the configuration arrays are not modelled; the class's documented types allow only strings.
- The `return $this` of both mutators is modelled as `Success(this)`; chaining itself is not a separate operation.
- Concurrent or shared use of one locator is not modelled; the class assumes a single owner.
