# DNS service discovery for Fluentd, modelled in Dafny

This project models the reconciliation core of the `dns` service-discovery
plugin of Fluentd (`Fluent::Plugin::DnsServiceDiscovery`). The plugin
resolves a list of configured `<entry>` hosts and turns every resolved
address into a `Service`. It keeps the current list in `@services`. On every
refresh it pushes a `service_in` event for each service that appeared and
then a `service_out` event for each service that vanished onto the queue it
was started with. A refresh whose build raises, or finds no service at all,
changes nothing.

Layout, one module per file:

- `optional.dfy` (`Optional`): Ruby's `nil` as `Option`.
- `address_family.dfy` (`AddressFamily`): the `address_family` conversion block (`ipv4`/`ipv6` in any letter case, anything else a configuration error, absent means unspecified).
- `service.dfy` (`ServiceModel`): the records: `Service` with structural equality, join/drain `Event`s, parsed and raw entries, the resolver's answer per entry (`Resolution`), and the `"#{i}-#{host}"` name.
- `array_diff.dfy` (`ArrayDiff`): Ruby's `Array#-`, which keeps the left operand's order and duplicates.
- `builder.dfy` (`Builder`): `fetch_services_from_dns` as a function, with the error policy of `ignore_dns_error` proved against a policy-free reference definition.
- `reconcile.dfy` (`Reconcile`): `refresh_service_list` as a function from the old list and the build outcome to the new list and the events. It also models what a consumer sees when it applies those events, and several refreshes in a row.
- `sd_dns.dfy` (`SdDns`): the plugin as a class. `configure`, `start`, `refresh_service_list` and `fetch_services_from_dns` are methods with the source's loops, each proved against the functions above. The consumer's queue is a class of its own.
- `scenarios.dfy` (`Scenarios`): the behaviours of the repository's tests, stated through the class's methods.

The resolver (`Socket.getaddrinfo`) is not called. Each build instead receives
one `Resolution` per entry, in entry order: either the list of
`(port, address)` pairs the resolver returned (`ai[1]`, `ai[3]`) or the error
it raised. The repeating timer is modelled as an explicit
`TimerFires(rounds)` that runs one refresh per round of answers, onto the
queue that `start` registered it with (the queue the timer block captures).

Three behaviours of the code that the model keeps:

- The code works on Ruby Arrays, not sets. Duplicate services are kept and can produce duplicate events.
- The port of a service is the resolver's port, not the configured one.
- `configure` adopts the first build even when it is empty. Only later refreshes ignore an empty build.

## Model

| member | source | states |
|---|---|---|
| AddressFamily.Downcase | lib/fluent/plugin/sd_dns.rb:43 | lower-casing keeps the length and lowers each character on its own |
| AddressFamily.ParseFamilyText | lib/fluent/plugin/sd_dns.rb:42-51 | the `address_family` conversion of a given value: lowered, `ipv4` is AF_INET, `ipv6` is AF_INET6, anything else a configuration error quoting the value; specified by ParseFamilyTextCases, CaseInsensitive and UpperCaseAccepted |
| AddressFamily.ParseFamily | lib/fluent/plugin/sd_dns.rb:42-51 | an absent value is unspecified, a given one converts as ParseFamilyText; specified by UpperCaseAccepted and, per entry, SdDns.ParseEntries |
| AddressFamily.DowncaseIdempotent | lib/fluent/plugin/sd_dns.rb:43 | lowering an already lowered value changes nothing |
| AddressFamily.ParseFamilyTextCases | lib/fluent/plugin/sd_dns.rb:42-51 | a value is accepted as AF_INET exactly when it spells `ipv4` and as AF_INET6 exactly when it spells `ipv6`, ignoring case; every other value is a configuration error whose message quotes the value as written |
| AddressFamily.CaseInsensitive | lib/fluent/plugin/sd_dns.rb:43-47 | a value and its lower-case form are accepted alike and convert to the same family |
| AddressFamily.UpperCaseAccepted | lib/fluent/plugin/sd_dns.rb:42-51 | `IPv4` gives AF_INET, `IPV6` gives AF_INET6, `ipv5` is rejected, and an absent value is unspecified |
| ServiceModel.Decimal | lib/fluent/plugin/sd_dns.rb:127 | the printed index is a non-empty string of decimal digits |
| ServiceModel.DecimalValue | lib/fluent/plugin/sd_dns.rb:127 | the printed index spells the index in base 10 and has no leading zero unless it is 0: the canonical form `"#{i}"` prints |
| ServiceModel.ServiceName | lib/fluent/plugin/sd_dns.rb:127 | the name `"#{i}-#{host}"` of the i-th answer; specified by ServiceNameInjective |
| ServiceModel.ServiceFor | lib/fluent/plugin/sd_dns.rb:128 | the service made from one answer of an entry; specified by EntryServiceFields |
| ServiceModel.EntryServices | lib/fluent/plugin/sd_dns.rb:126-129 | the services of one resolved entry, one per answer in the resolver's order; specified by EntryServiceFields and EntryServicesDistinct |
| ServiceModel.DecimalInjective | lib/fluent/plugin/sd_dns.rb:127 | distinct indices print differently |
| ServiceModel.ServiceNameInjective | lib/fluent/plugin/sd_dns.rb:127 | two names `"i-host"` for the same host are equal only for the same index |
| ServiceModel.EntryServiceFields | lib/fluent/plugin/sd_dns.rb:126-129 | an entry gives one service per answer; the i-th has the answer's address and port, name `"i-host"`, kind `:dns`, `shared` false, and the entry's weight, username, password and shared key |
| ServiceModel.EntryServicesDistinct | lib/fluent/plugin/sd_dns.rb:126-129 | the services of one entry are pairwise distinct |
| ArrayDiff.MinusMembers | lib/fluent/plugin/sd_dns.rb:95 | `left - right` holds exactly the elements of `left` that are not in `right`, and is no longer than `left` |
| ArrayDiff.Minus | lib/fluent/plugin/sd_dns.rb:95-101 | Ruby's `Array#-` as a filter over the left operand; specified by MinusMembers, MinusCounts, MinusAppend, MinusCovered, MinusNothing and MinusSelf |
| ArrayDiff.MinusCounts | lib/fluent/plugin/sd_dns.rb:101 | each element of `left` not in `right` keeps all of its occurrences; each element in `right` keeps none |
| ArrayDiff.MinusNothing | lib/fluent/plugin/sd_dns.rb:95 | removing an empty list leaves the list as it was |
| ArrayDiff.MinusCovered | lib/fluent/plugin/sd_dns.rb:101 | a list minus a list containing all its elements is empty |
| ArrayDiff.MinusSelf | lib/fluent/plugin/sd_dns.rb:95 | `a - a` is empty |
| ArrayDiff.MinusAppend | lib/fluent/plugin/sd_dns.rb:95 | the difference distributes over concatenation on the left, so order is kept |
| Builder.RaisedPrefix | lib/fluent/plugin/sd_dns.rb:116-124 | once a failure has raised, later entries are not looked at and the whole build raises that error |
| Builder.BuildServiceList | lib/fluent/plugin/sd_dns.rb:113-132 | the build in the loop's order, entry after entry, with the skip-or-raise of a failed entry; specified by RaisedPrefix, BuildIgnoringErrors, BuildStrict and StrictRaisesIffFailed against the policy-free Contributions |
| Builder.BuildIgnoringErrors | lib/fluent/plugin/sd_dns.rb:115-131 | with `ignore_dns_error` the build never raises and returns the services of every resolved entry, failed entries skipped, in entry then answer order |
| Builder.BuildStrict | lib/fluent/plugin/sd_dns.rb:115-131 | without `ignore_dns_error` the build raises the error of the first failing entry, with no partial list, and otherwise returns every entry's services in order |
| Builder.AnyFailedFirst | lib/fluent/plugin/sd_dns.rb:116-124 | some entry failed exactly when the first-failure position lies inside the entry list |
| Builder.StrictRaisesIffFailed | lib/fluent/plugin/sd_dns.rb:116-124 | without `ignore_dns_error` the build raises exactly when some entry failed |
| Builder.ContributionsMembers | lib/fluent/plugin/sd_dns.rb:126-129 | a service is in the built list exactly when it is made from some answer of some resolved entry |
| Builder.ContributionsEmpty | lib/fluent/plugin/sd_dns.rb:119-121 | the built list is empty exactly when every entry failed or resolved to no address |
| Builder.ContributionsLength | lib/fluent/plugin/sd_dns.rb:126-129 | the list has one service per answer of the resolved entries |
| Reconcile.DiffEvents | lib/fluent/plugin/sd_dns.rb:94-104 | a join is emitted exactly for a service that is new, a drain exactly for one that vanished, and no join follows a drain |
| Reconcile.Diff | lib/fluent/plugin/sd_dns.rb:94-104 | the joins for `new - old`, then the drains for `old - new`; specified by DiffEvents, DiffSameMembers, DiffPrefix, ApplyDiff and AlwaysLive |
| Reconcile.DiffSameMembers | lib/fluent/plugin/sd_dns.rb:94-104 | two lists with the same members produce no event |
| Reconcile.DiffPrefix | lib/fluent/plugin/sd_dns.rb:96-104 | at each point while a refresh's events are applied, the live set is the old services plus the joins so far, minus the drains so far |
| Reconcile.ApplyDiff | lib/fluent/plugin/sd_dns.rb:94-110 | a consumer that applies a refresh's events to the old services ends with exactly the new services |
| Reconcile.AlwaysLive | lib/fluent/plugin/sd_dns.rb:96 | during the events of a refresh every old or every new service is live, so the live set never becomes empty when the new list is not empty |
| Reconcile.RefreshOutcome | lib/fluent/plugin/sd_dns.rb:81-111 | a build that raised or is empty leaves the list and pushes nothing; a non-empty one is adopted with its diff; one with unchanged members pushes nothing |
| Reconcile.Refresh | lib/fluent/plugin/sd_dns.rb:81-111 | one `refresh_service_list` as a value: the list kept and the events pushed; specified by RefreshOutcome, and its loop form SdDns.DnsServiceDiscovery.RefreshOnce is proved equal to it |
| Reconcile.RunServices | lib/fluent/plugin/sd_dns.rb:69-71 | after several refreshes the list is the last non-empty successful build, or the starting list if there was none |
| Reconcile.Run | lib/fluent/plugin/sd_dns.rb:69-71 | the refreshes the timer runs, one per firing, in order; specified by RunServices, RunKeepsServices and RunReplay, and SdDns.DnsServiceDiscovery.TimerFires is proved equal to it |
| Reconcile.RunKeepsServices | lib/fluent/plugin/sd_dns.rb:90-92 | a known non-empty list never becomes empty through refreshes |
| Reconcile.RunReplay | lib/fluent/plugin/sd_dns.rb:106-110 | applying every event pushed over several refreshes to the starting services gives the final services |
| SdDns.ParseEntries | lib/fluent/plugin/sd_dns.rb:36-60 | the entry sections are accepted exactly when every address family converts; each entry keeps its fields with its family converted; a rejection carries the message of the first failing value, every entry before it converting |
| SdDns.EventQueue.Push | lib/fluent/plugin/sd_dns.rb:109 | a push appends one event and keeps everything already queued |
| SdDns.DnsServiceDiscovery.Configure | lib/fluent/plugin/sd_dns.rb:62-65 | no entry or a bad address family is a configuration error that changes nothing; otherwise the parameters are taken and the first build is adopted, or its error is returned with `services` unchanged |
| SdDns.DnsServiceDiscovery.Start | lib/fluent/plugin/sd_dns.rb:67-77 | without an interval exactly one refresh runs; with one, the timer is registered with the queue `start` was given and nothing else changes |
| SdDns.DnsServiceDiscovery.TimerFires | lib/fluent/plugin/sd_dns.rb:69-71 | each firing runs one whole refresh in turn onto the queue registered by `start`; the list and that queue end as the sequence of refreshes defines |
| SdDns.DnsServiceDiscovery.RefreshOnce | lib/fluent/plugin/sd_dns.rb:81-111 | the list and the queue after one refresh: unchanged on a raised or empty build, else the new list with the old queue followed by the joins and then the drains |
| SdDns.DnsServiceDiscovery.FetchServices | lib/fluent/plugin/sd_dns.rb:113-132 | the nested loops with their early `next` and `raise` compute exactly the build function |
| Scenarios.ConfigureOneEntry | test/plugin/test_sd_dns.rb:44-47 | localhost:80 resolving to 127.0.0.1 gives the single service `0-localhost` with weight 60 and no credentials |
| Scenarios.ConfigureWithAuth | test/plugin/test_sd_dns.rb:49-56 | the entry's shared key, username and password are copied into the service |
| Scenarios.ConfigureThreeEntries | test/plugin/test_sd_dns.rb:58-81 | three entries on ports 80, 81, 82 give three services named `0-localhost` that differ by port |
| Scenarios.ConfigureUnspecifiedFamily | test/plugin/test_sd_dns.rb:98-111 | an entry without a family that resolves to ::1 and 127.0.0.1 gives `0-localhost` and `1-localhost` in that order |
| Scenarios.ConfigureNoEntry | test/plugin/test_sd_dns.rb:83-87 | a configuration without entries is rejected |
| Scenarios.ConfigureResolverRaises | test/plugin/test_sd_dns.rb:115-122 | a resolver failure fails `configure` with its error and leaves no service |
| Scenarios.ConfigureResolverRaisesIgnored | test/plugin/test_sd_dns.rb:124-140 | with `ignore_dns_error` the same failure is skipped and leaves no service |
| Scenarios.SkipWhenUnchanged | test/plugin/test_sd_dns.rb:196-206 | with an interval, timer firings that find the same service push nothing |
| Scenarios.AddressChanged | test/plugin/test_sd_dns.rb:208-230 | a move from 127.0.0.1:80 to 192.168.0.1:90 pushes the join of the new service, then the drain of the old one |

## Left out

- `Socket.getaddrinfo` and real name resolution: every build is given the resolver's answers, one per entry. The family, port and socket type passed to the resolver do not constrain those answers in the model.
- The timer helper (`timer_execute`) and the interval: only its registration and its firings, one complete refresh each, are modelled. The wall-clock schedule, `stop` and shutdown are not.
- Logging (`@log.error`, `@log.warn`): the warning naming a failing host and the error line of a failed refresh are not recorded.
- The configuration framework (`config_param`, `config_section`, `Plugin.register_sd`, `helpers`, the `super` calls): entries arrive with their host, port, weight and credentials already typed. The wording of the "no entry" error is the model's own.
- SdDns.DnsServiceDiscovery.Configure: on a configuration error the model leaves the whole object unchanged, because how far the framework had got in setting parameters is not part of this model.
- AddressFamily.Downcase: lowers ASCII letters only, where Ruby lowers every Unicode letter. No non-ASCII character lowers to a single character of `ipv4` or `ipv6`, so the accepted values are the same; the error message quotes the value as written either way.
- The broad `rescue` in `refresh_service_list` also swallows errors other than the resolver's (programming errors). The model's build can fail only by a resolver error.
- `new_services.nil?`: the build never returns `nil`, so only the empty case is modelled.
- The base-class `Service` struct and `service_in_msg`/`service_out_msg` are modelled as the `Service` and `Event` datatypes. Anything else the base class does is not part of this model.
- The consumer taking events off the queue (`queue.shift` in the tests) is not modelled. The source only ever appends to the queue.
