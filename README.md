# Berserker: HTTP worker, constant-rate configuration and subset rule

Berserker is a load generator. It emits work items at a configured rate and
hands each item to a worker, which performs the action and reports success or
failure. This project models three sequential pieces of it in Dafny and proves
properties about them:

- **The HTTP worker** (`HttpWorker.java`). `accept` receives one item's request
  metadata as a loosely typed `Map<String, Object>`. It either throws, or builds
  one request from the metadata:
  - the method type (GET, POST, PUT, DELETE or HEAD);
  - the URL, taken from `url`, or built from the configured base URL plus `url-sufix`;
  - the configured headers merged with the item's headers, where the item's value wins;
  - a body, for POST and PUT only.

  When the request completes, exactly one of the two commit callbacks runs: a
  throwable or a status code in the configured error codes runs `commitFailure`,
  and any other status code runs `commitSuccess`.
- **The constant-rate generator configuration**
  (`ConstantRateGeneratorConfiguration.java`). It has the fixed name
  `ConstantRateGenerator`. It reads the mandatory `rate` key, widens an
  `Integer` to a `long`, takes a `Long` as it is, and passes that value to the
  generator.
- **The subset rule** of the data generator (`SubSetRule.java`). Its two
  factories store the allowed values as a set, so duplicates collapse, and set
  the exclusivity flag. `getRandomAllowedValue` returns every stored value
  exactly once, in random order.

Files:
- `wrappers.dfy`: `Option` (standing for Java `null`) and `Result` (standing for a thrown exception).
- `java_values.dfy`: `Value`, the Java objects found in the maps: `null`, `String`, `Integer`, `Long`, a nested map, or any other object. `Int32` and `Int64` are the ranges of Java's `int` and `long`.
- `http_worker.dfy`: module `HttpWorker`.
- `rate_configuration.dfy`: module `RateConfiguration`.
- `sub_set_rule.dfy`: module `DataLoader`.

How the source's forms are modelled:
- The branch-only helpers become functions: the casts, `getMethodType`,
  `getBodyIfNeeded`, `getCalculatedUrl` and the status-code classification.
- The helpers that fill a fresh `HashMap` entry by entry become methods with
  loops: `getHeaders` and `getCalculatedHeaders`, which calls `putAll` twice.
  Each loop method is proved equal to a function that states what it computes.
- `createRequest` drives a mutable `RequestBuilder` class.
- The commit callbacks are a `Commits` class that counts how often each one ran.
- `SubSetRule` is a class whose `values` and `exclusive` fields the factories
  update.
- `Collections.shuffle` is the JDK's backward swap loop over an array. Each swap
  index is a nondeterministic choice, and the loop is proved to permute the array.

Two behaviours of the source worth knowing:
- **Malformed items.** The validation in `accept`
  (`HttpWorker.java` lines 97-103) throws a `RuntimeException` or a
  `ClassCastException` before any request is sent. The exception escapes
  `accept`, and no commit runs. `HttpWorker.Accept` models this: on an error,
  both commit counters stay unchanged.
- **Rate validation.** The doc comment of `ConstantRateGeneratorConfiguration`
  (line 11) asks for a positive `long`. `getRateGenerator` (lines 27-34)
  checks neither the sign nor the range: an `Integer` or `Long` of any value is
  accepted. Any other value fails with a `ClassCastException`, or with a
  `NullPointerException` for `null`. The only `ConfigurationParseException` is
  for a missing key.

## Model

| member | source | states |
|---|---|---|
| `HttpWorker.StringEntry` | berserker-http/src/main/java/io/smartcat/berserker/http/worker/HttpWorker.java:97-98 | `(String) map.get(key)` yields null exactly when the key is absent or null, and the string exactly when the value is a string. Any other value is a `ClassCastException` naming that key. |
| `HttpWorker.HeadersOf` | berserker-http/src/main/java/io/smartcat/berserker/http/worker/HttpWorker.java:134-148 | Missing or null `headers` gives an empty map. A `headers` value that is not a map is a cast error. A map is accepted exactly when all of its values are strings, and the result then has the same names with the same string values. Otherwise the item is rejected. |
| `HttpWorker.GetHeaders` | berserker-http/src/main/java/io/smartcat/berserker/http/worker/HttpWorker.java:134-148 | The entry-by-entry copy loop returns exactly `HeadersOf` of the metadata, including the rejection of any non-string value. |
| `HttpWorker.GetMethodType` | berserker-http/src/main/java/io/smartcat/berserker/http/worker/HttpWorker.java:150-160 | A method type is accepted exactly when it is a string among GET, POST, PUT, DELETE and HEAD, and it is then returned unchanged. A missing or null one fails with "mandatory", a non-string fails with a `ClassCastException`, and any other string fails as unsupported. |
| `HttpWorker.GetBodyIfNeeded` | berserker-http/src/main/java/io/smartcat/berserker/http/worker/HttpWorker.java:162-167 | The body is read only for POST and PUT. For every other method it is absent, whatever the metadata holds. A body that is present is the string stored under `body`. |
| `HttpWorker.GetCalculatedUrl` | berserker-http/src/main/java/io/smartcat/berserker/http/worker/HttpWorker.java:169-187 | Neither URL key fails, and both URL keys fail. `url` alone gives exactly `url`. `url-sufix` alone gives base URL + suffix, and fails when no base URL is configured. |
| `HttpWorker.MergeHeaders` | berserker-http/src/main/java/io/smartcat/berserker/http/worker/HttpWorker.java:189-194 | The merged keys are the union of the configured and request header names. A request header's value wins, and every other name keeps its configured value. |
| `HttpWorker.PutAll` | berserker-http/src/main/java/io/smartcat/berserker/http/worker/HttpWorker.java:191-192 | Copying `source` into `target` entry by entry gives exactly `MergeHeaders(target, source)`: the union of the keys, with `source` winning where both have a key. |
| `HttpWorker.GetCalculatedHeaders` | berserker-http/src/main/java/io/smartcat/berserker/http/worker/HttpWorker.java:189-194 | The two `putAll`s into a fresh map give exactly `MergeHeaders(configured, request)`. |
| `HttpWorker.RequestBuilder.constructor` | berserker-http/src/main/java/io/smartcat/berserker/http/worker/HttpWorker.java:199-220 | A builder made by `get`, `post`, `put`, `delete` or `head` has that method and URL, no headers and no body. |
| `HttpWorker.RequestBuilder.SetBody` | berserker-http/src/main/java/io/smartcat/berserker/http/worker/HttpWorker.java:205-207 | Setting the body changes the body and nothing else. |
| `HttpWorker.RequestBuilder.SetHeader` | berserker-http/src/main/java/io/smartcat/berserker/http/worker/HttpWorker.java:224 | Setting a header maps that name to the value, replacing any earlier value, and keeps the body. |
| `HttpWorker.RequestBuilder.Build` | berserker-http/src/main/java/io/smartcat/berserker/http/worker/HttpWorker.java:225 | The built request carries exactly the builder's method, URL, headers and body. |
| `HttpWorker.RequestOf` | berserker-http/src/main/java/io/smartcat/berserker/http/worker/HttpWorker.java:196-226 | A request is built exactly for the five supported method types, and any other fails as unsupported. It has the given method, URL and all given headers. It has the body only for POST and PUT. |
| `HttpWorker.CreateRequest` | berserker-http/src/main/java/io/smartcat/berserker/http/worker/HttpWorker.java:196-226 | Driving the builder (pick the method, set a non-null body for POST and PUT, set every header) yields exactly `RequestOf`. |
| `HttpWorker.RequestFor` | berserker-http/src/main/java/io/smartcat/berserker/http/worker/HttpWorker.java:97-107 | An item is sent exactly when every check passes. `url` and `url-sufix` must each be null or a string, and the headers must be readable. The method type must be one of the five, and for POST and PUT the body must be null or a string. Exactly one of `url` and `url-sufix` must be given, and a base URL must exist when the suffix is used. Otherwise the first failing step in source order decides the error: the `url` cast, then the `url-sufix` cast, then the headers, then the method type, then the `body` cast, then no URL, both URLs, or a suffix without a base URL. A built request's method type is taken unchanged from the item. Its header names are the union of the configured and the item's header names, and it has a body only for POST and PUT. |
| `HttpWorker.Classify` | berserker-http/src/main/java/io/smartcat/berserker/http/worker/HttpWorker.java:110-122 | A completion fails exactly when it threw or its status code is among the error codes. It succeeds exactly when it has a status code that is not among them. |
| `HttpWorker.Commits.constructor` | berserker-http/src/main/java/io/smartcat/berserker/http/worker/HttpWorker.java:96 | Neither commit callback has run yet. |
| `HttpWorker.Commits.CommitSuccess` | berserker-http/src/main/java/io/smartcat/berserker/http/worker/HttpWorker.java:114 | Running `commitSuccess` counts one success and no failure. |
| `HttpWorker.Commits.CommitFailure` | berserker-http/src/main/java/io/smartcat/berserker/http/worker/HttpWorker.java:112 | Running `commitFailure` counts one failure and no success. |
| `HttpWorker.OnCompleted` | berserker-http/src/main/java/io/smartcat/berserker/http/worker/HttpWorker.java:110-117 | A status code among the error codes runs `commitFailure` once and `commitSuccess` never. Any other code runs the reverse. |
| `HttpWorker.OnThrowable` | berserker-http/src/main/java/io/smartcat/berserker/http/worker/HttpWorker.java:119-122 | A throwable runs `commitFailure` once and `commitSuccess` never. |
| `HttpWorker.Accept` | berserker-http/src/main/java/io/smartcat/berserker/http/worker/HttpWorker.java:96-131 | The outcome is `RequestFor`: the request sent, or the first exception in source order. After an exception no commit runs. After a request is sent, exactly one commit runs, and it is the one `Classify` names. |
| `HttpWorker.RejectsBadMethodType` | berserker-http/src/main/java/io/smartcat/berserker/http/worker/HttpWorker.java:150-159 | No request is ever sent for an item with a missing, non-string or unsupported method type. |
| `HttpWorker.RejectsUrlChoice` | berserker-http/src/main/java/io/smartcat/berserker/http/worker/HttpWorker.java:169-175 | No request is ever sent for an item with neither or both of `url` and `url-sufix`. |
| `HttpWorker.SentRequest` | berserker-http/src/main/java/io/smartcat/berserker/http/worker/HttpWorker.java:96-107 | A sent request has the item's method type, one of the five. It carries a body only for POST and PUT, and then it is the item's `body`. Its URL is `url`, or the base URL + `url-sufix`. Its headers are the merge of the configured and the item's headers. |
| `RateConfiguration.GetName` | berserker-core/src/main/java/io/smartcat/berserker/configuration/ConstantRateGeneratorConfiguration.java:17-20 | The name is always "ConstantRateGenerator". |
| `RateConfiguration.GetRateGenerator` | berserker-core/src/main/java/io/smartcat/berserker/configuration/ConstantRateGeneratorConfiguration.java:22-35 | A missing `rate` fails with `ConfigurationParseException`. The call succeeds exactly when `rate` holds an Integer or a Long, and the generator then gets exactly that value. A null `rate` fails with `NullPointerException`, and any other value with `ClassCastException`. |
| `RateConfiguration.AcceptsEveryLong` | berserker-core/src/main/java/io/smartcat/berserker/configuration/ConstantRateGeneratorConfiguration.java:27-34 | Every Long rate, zero and negative ones included, is accepted unchanged. The doc comment's "positive" is not enforced here. |
| `RateConfiguration.OnlyRateMatters` | berserker-core/src/main/java/io/smartcat/berserker/configuration/ConstantRateGeneratorConfiguration.java:24-33 | Two bags that agree on `rate` resolve to the same generator or the same error. |
| `DataLoader.SubSetRule.constructor` | data-gen/src/main/java/io/smartcat/data/loader/SubSetRule.java:17-21 | A new rule is not exclusive and has no values. |
| `DataLoader.SubSetRule.AddAll` | data-gen/src/main/java/io/smartcat/data/loader/SubSetRule.java:25 | `values.addAll` adds exactly the distinct allowed values and leaves the flag alone. |
| `DataLoader.SubSetRule.WithValues` | data-gen/src/main/java/io/smartcat/data/loader/SubSetRule.java:23-27 | The new rule's values are the set of the allowed values, so duplicates collapse, and `IsExclusive()` is false. |
| `DataLoader.SubSetRule.WithValuesX` | data-gen/src/main/java/io/smartcat/data/loader/SubSetRule.java:29-34 | The new rule's values are the set of the allowed values, and `IsExclusive()` is true. |
| `DataLoader.SubSetRule.IsExclusive` | data-gen/src/main/java/io/smartcat/data/loader/SubSetRule.java:36-39 | The result is the rule's exclusivity flag: false after `withValues`, true after `withValuesX`. |
| `DataLoader.SubSetRule.RecalculatePrecedance` | data-gen/src/main/java/io/smartcat/data/loader/SubSetRule.java:41-44 | The result is null whatever the argument. |
| `DataLoader.SubSetRule.GetRandomAllowedValue` | data-gen/src/main/java/io/smartcat/data/loader/SubSetRule.java:46-49 | The call fails exactly when there are no values. Otherwise the result is a permutation of the stored values: the same elements, each once, and as many as the set holds. The stored values are not changed. |
| `DataLoader.ToList` | data-gen/src/main/java/io/smartcat/data/loader/SubSetRule.java:54 | Copying the set into a list gives each element exactly once. |
| `DataLoader.Shuffle` | data-gen/src/main/java/io/smartcat/data/loader/SubSetRule.java:55 | Shuffling leaves the array a permutation of what it was, for every choice of the random swap indices. |
| `DataLoader.GetRandomSubset` | data-gen/src/main/java/io/smartcat/data/loader/SubSetRule.java:51-60 | `nextInt(0, size)` fails on an empty set, although the drawn size is never used. Otherwise the shuffled list is a permutation of the set, with no duplicates and with the set's size. |
| `DataLoader.SetPermutation` | data-gen/src/main/java/io/smartcat/data/loader/SubSetRule.java:54-59 | A sequence with the same multiset as a set has the set's size and elements, and no element twice. |

## Left out

- The `HttpWorker` constructor and its `AsyncHttpClient` configuration (connections, timeouts, redirects, retries) are not modelled: they configure a third-party client. The settings the worker keeps are modelled as `WorkerSettings`: base URL, headers and error codes.
- Sending the request is not modelled, because it is network I/O. Its result is an input to `Accept`: a status code or a throwable.
- The synchronous wait on the response future is not modelled. With `async` false, `accept` blocks on it and rethrows its failure as a `RuntimeException`. The `async` flag is therefore not part of `WorkerSettings`.
- `HttpWorker.HeadersOf`: a rejected header is reported without its name. The source names the first bad entry in `HashMap` iteration order, which is unspecified. A null header value (a `NullPointerException` while building the message) and a non-string value (a `RuntimeException`) are the same error here.
- `HttpWorker.RequestBuilder`: the client's `get`, `post`, `put`, `delete` and `head` parse the URL and throw an `IllegalArgumentException` for one without a scheme or host. That parsing is not modelled, so the constructor is total. As a result, `HttpWorker.Accept` and `HttpWorker.RequestFor` accept such a URL, and `Accept` runs a commit, where the source throws out of `accept` with no commit.
- `HttpWorker.RequestBuilder`: only the part of the client's builder that `createRequest` uses is modelled. The client treats header names case-insensitively, and the model does not. The body is kept as a string; its conversion by `getBytes()` in the platform's default charset is not modelled.
- `DataLoader.SubSetRule.RecalculatePrecedance`: the source's argument is any `Rule`. Rules other than subset rules are not part of this model, so the argument is a subset rule or null.
- `ThreadLocalRandom` and the random source of `Collections.shuffle` are nondeterministic choices in the model. No distribution is stated.
- The `ConstantRateGenerator` class is not part of this model. Any check it makes on its rate is therefore not modelled, nor is the period it derives from the rate.
- `BaseConfiguration` only declares `getName()`, which `RateConfiguration.GetName` covers.
- `DiscreteRuleBooleanTest` is a statistical test of an object generator that is not part of this model.
- The dispatch loop, rate pacing, concurrency limits and outcome accounting of the engine are not part of this model. Their code is not among the modelled files.
