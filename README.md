# DogTrainer reconciler, modelled in Dafny

DogTrainer keeps Datadog monitors, timeboards and screenboards in step with
definitions written in code. Each resource is named, and DogTrainer compares
the desired state with what is on the remote account:

- a missing resource is created;
- a drifted resource is updated;
- a resource that is already right is left alone.

This project models the reconciler class `DogTrainer::API` and the
`DogTrainer::DogApiException` error. It proves what each operation does to:

- its result;
- its in-process caches;
- the sequence of calls it makes into the Datadog client.

The caches are filled once per `DogTrainer::API` object and never refreshed.
So a second `upsert_monitor` on the same object, for a monitor the first one
created, misses again and creates the monitor a second time
(`Reconcile.SecondUpsertRepeatsVerdict`). A monitor that is already right is
left alone on every call.

## Layout

- `values.dfy` (`Values`): how Ruby values are represented.
  - `nil`, booleans, numbers, strings, arrays and string-keyed hashes make up one `Value` datatype.
  - A Hash is a `map`, so equality is Ruby's order-insensitive Hash equality.
  - `Opt` separates an options key that is left out from one given as nil.
- `messages.dfy` (`Messages`): the alert and escalation texts of `generate_messages`.
- `monitor_params.dfy` (`MonitorParams`): the monitor document of `params_for_monitor`.
  - Defaults are filled only for missing keys.
  - Thresholds are normalised.
  - The escalation key is optional.
  - It also models how `upsert_monitor` resolves its message and escalation options.
- `diff.dfy` (`Diff`): the monitor diff loop of `upsert_monitor`.
  - The desired keys are walked in the document's key order, and the walk stops at the first missing or unequal key.
  - It is proved against the predicate `InSync`.
- `lookup.dfy` (`Lookup`): the find-first-by-name scan over a cached list.
  - It is proved against the recursive `FirstIndex`.
- `client.dfy` (`Remote`): the Datadog client as DogTrainer calls it.
  - The client answers from a fixed script of replies.
  - It records every call in a ghost log.
  - The module also holds the failures the reconciler raises or exits with, and their texts.
- `reconcile.dfy` (`Reconcile`): what every reconciler operation does, as pure functions.
  - Each function maps the cache value and the script to a result, a new cache value and a list of calls.
  - The lemmas here hold the reconciler's properties.
- `api.dfy` (`Api.API`): the reconciler class.
  - Its fields are `@monitors`, `@timeboards` and `@screenboards`, plus the notification target and the repository path.
  - Every public lookup and upsert is proved equal to its `Reconcile` function on result, cache and log.
  - `CreateMonitor`, `SyncMonitor`, the by-id mute and unmute calls and the loops `MuteEach` and `UnmuteEach` have direct contracts on their result and log.
- `graphs.dfy` (`Graphs`): `graphdef`, which builds a timeseries graph definition with loops over queries and markers.
- `api_exception.dfy` (`ApiException`): the exception's constructor and its message builder.
  - The message loop is proved against `ErrorLines`.
  - A hash, string or array body is handled as Ruby's `include?` and `[]` handle it.
- `scenarios.dfy` (`Scenarios`): the end-to-end upsert of a new monitor, proved from the pieces above.

## Model

| member | source | states |
|---|---|---|
| Messages.GenerateMessages | lib/dogtrainer/api.rb:102-132 | the message and escalation texts; no contract of its own, its properties are the lemmas MessageEndsWithProvenance to OtherTypesShareThresholdTexts below |
| Messages.MessageEndsWithProvenance | lib/dogtrainer/api.rb:102-128 | every generated message, service check or threshold, ends with "(monitor and threshold configuration for this alert is managed by <repo path>) <notify to>" |
| Messages.EscalationNamesMetric | lib/dogtrainer/api.rb:117-130 | every escalation text begins with the quoted metric followed by " is still in error state" |
| Messages.MessageNamesMetric | lib/dogtrainer/api.rb:104-127 | every generated message contains the metric description in single quotes |
| Messages.ThresholdMessageUsesComparator | lib/dogtrainer/api.rb:120-128 | a non-service-check message contains " should be " followed by the comparator |
| Messages.ThresholdEscalationUsesComparator | lib/dogtrainer/api.rb:129-130 | a non-service-check escalation contains " (current value {{value}} is " followed by the comparator |
| Messages.ServiceCheckIgnoresComparator | lib/dogtrainer/api.rb:103-119 | for the type 'service check' both texts are the same whatever the comparator |
| Messages.OtherTypesShareThresholdTexts | lib/dogtrainer/api.rb:103-131 | only the literal type 'service check' is special: every other type gets the texts of 'metric alert' |
| MonitorParams.ParamsForMonitor | lib/dogtrainer/api.rb:157-201 | the monitor document; no contract of its own, its properties are the lemmas ParamsKeys to EscalationKeyIffGiven below |
| MonitorParams.ParamsKeys | lib/dogtrainer/api.rb:180-197 | the document has exactly the keys name, type, query, message, tags and options |
| MonitorParams.BareThresholdIsCritical | lib/dogtrainer/api.rb:174-178 | a threshold that is not a hash becomes the thresholds hash {'critical' => threshold} |
| MonitorParams.ThresholdHashPassesThrough | lib/dogtrainer/api.rb:174-178 | a threshold hash is stored as the thresholds unchanged |
| MonitorParams.ParamsFixedFields | lib/dogtrainer/api.rb:180-185 | name, query and message are stored as given and tags is the empty list |
| MonitorParams.OptionsFixedFields | lib/dogtrainer/api.rb:186-196 | notify_audit and locked are false, timeout_h is 0, silenced is {}, require_full_window is false and no_data_timeframe is 20 for every monitor |
| MonitorParams.ParamsDefaults | lib/dogtrainer/api.rb:169-171 | a missing alert_no_data, mon_type or renotify_interval becomes true, 'metric alert' or 60; a key that is given, even as nil, is used as given |
| MonitorParams.EscalationKeyIffGiven | lib/dogtrainer/api.rb:198-199 | the options carry escalation_message exactly when a non-nil escalation is supplied, and then hold it |
| MonitorParams.UpsertParams | lib/dogtrainer/api.rb:252-273 | the document upsert_monitor builds; no contract of its own, its properties are the lemmas UpsertParamsKeys to UpsertEscalationTriState below |
| MonitorParams.UpsertParamsKeys | lib/dogtrainer/api.rb:269-273 | the document upsert_monitor builds has the six keys that its diff walks |
| MonitorParams.UpsertParamsHeader | lib/dogtrainer/api.rb:252-273 | the upsert document holds the name, the query, the resolved monitor type (default 'metric alert') and the normalised thresholds |
| MonitorParams.UpsertMessageResolution | lib/dogtrainer/api.rb:256-261 | the message is options[:message] when that is non-nil, and otherwise the generated message for the resolved type |
| MonitorParams.UpsertEscalationTriState | lib/dogtrainer/api.rb:262-266 | with no escalation_message key the generated escalation is used; a key given as nil leaves escalation_message out of the document; any other given value is used as it is |
| Diff.NeedsUpdate | lib/dogtrainer/api.rb:278-290 | the first-mismatch loop over the desired keys reports an update exactly when some desired key is missing from the existing monitor or holds a different value |
| Diff.MissingKeyForcesUpdate | lib/dogtrainer/api.rb:279-283 | a desired key that the existing monitor lacks forces an update, whatever the other keys hold |
| Diff.ExtraKeysIgnored | lib/dogtrainer/api.rb:278-290 | keys that only the existing monitor has never affect the verdict |
| Diff.UpdateConverges | lib/dogtrainer/api.rb:278-295 | a monitor that holds the desired document, whatever it holds besides, is in sync |
| Lookup.FirstIndexIsFirstMatch | lib/dogtrainer/api.rb:324-329 | the scan finds the first record whose field equals the target, and finds none exactly when no record matches |
| Lookup.FindFirst | lib/dogtrainer/api.rb:325-327 | the early-return loop returns the index the first-match definition gives |
| Reconcile.FillsOnce | lib/dogtrainer/api.rb:332-342 | the list call is made only while the cache is nil; after that, every later call returns the cached list and makes no call, whatever the remote would now answer |
| Reconcile.EmptyFirstFetchIsFatal | lib/dogtrainer/api.rb:334-338 | an empty first fetch fails; the empty list is stored first, so the next call returns it with no error and no call |
| Reconcile.MonitorByNameFindsFirst | lib/dogtrainer/api.rb:324-329 | get_existing_monitor_by_name returns the first monitor with that name, and nil exactly when no monitor has it |
| Reconcile.TwoLookupsOneListCall | lib/dogtrainer/api.rb:324-342 | two lookups by different names, starting from an empty cache, make exactly one list call between them |
| Reconcile.UpsertCreatesOnMiss | lib/dogtrainer/api.rb:274-276 | when no monitor has the name, the only call after the listing is one create of the desired document, and the create's id is returned |
| Reconcile.UpsertFoundMonitor | lib/dogtrainer/api.rb:277-301 | for the first monitor with the name: in sync gives its id and no call; drifted gives one update with the document's query, then the id on status '200' and nil otherwise |
| Reconcile.SecondUpsertRepeatsVerdict | lib/dogtrainer/api.rb:240-302 | a second upsert, whatever the remote now answers, makes no list call, keeps the cache and looks in the same cached list; a monitor found in sync gives the same id and no call; a drifted one is updated again, with the verdict of the new update's status; a monitor the first upsert created is missed again and created a second time, returning the new create's id |
| Reconcile.ByNameMissRaises | lib/dogtrainer/api.rb:386-399 | mute and unmute by a name no monitor has raise "ERROR: Could not find monitor with name <name>" and make no mute or unmute call |
| Reconcile.MatchingIdsAppend | lib/dogtrainer/api.rb:432-438 | the ids matched in a list are those of its front followed by those of its back, so the calls follow cache order |
| Reconcile.NoMatchNoIds | lib/dogtrainer/api.rb:432-438 | no id is selected exactly when no monitor name matches |
| Reconcile.MuteCallsAt | lib/dogtrainer/api.rb:359-368 | there is one mute per selected id, in order, each with the same end argument, and no end argument when the end timestamp is nil |
| Reconcile.UnmuteCallsAt | lib/dogtrainer/api.rb:444-447 | there is one all-scopes unmute per selected id, in order |
| Reconcile.RegexNoMatchIsSilent | lib/dogtrainer/api.rb:420-476 | when no name matches, mute and unmute by regex succeed and make no call beyond the listing |
| Reconcile.DescriptionEmbedsRepoPath | lib/dogtrainer/api.rb:528 | the board description is "created by DogTrainer RubyGem via " followed by exactly the repository path, so different paths give different descriptions |
| Reconcile.BoardMissCreatesOnce | lib/dogtrainer/api.rb:529-534 | when no board summary has the title, the only call after the listing is one create with the name, the description and the content |
| Reconcile.BoardFoundUpdatesIffDrifted | lib/dogtrainer/api.rb:535-558 | for the first board with the title, the board is fetched by id and one full update follows exactly when its description, title or content differs |
| Reconcile.CurrentBoardNotUpdated | lib/dogtrainer/api.rb:535-558 | a found board whose title, description and content are already the desired ones gets no create and no update: the only calls are the lookup's |
| Api.API.constructor | lib/dogtrainer/api.rb:24-37 | the caches start empty; the repository path is the one given, or the detected one when none is given |
| Api.API.GetMonitors | lib/dogtrainer/api.rb:332-342 | result, monitor cache and calls are those of Reconcile.GetMonitors |
| Api.API.GetExistingMonitorByName | lib/dogtrainer/api.rb:324-329 | result, monitor cache and calls are those of Reconcile.MonitorByName |
| Api.API.CreateMonitor | lib/dogtrainer/api.rb:309-317 | one create call with the document's type and query; the result is the reply's id on status '200' and nil otherwise |
| Api.API.UpsertMonitor | lib/dogtrainer/api.rb:240-302 | with the upsert document, result, cache and calls are those of Reconcile.UpsertMonitor |
| Api.API.SyncMonitor | lib/dogtrainer/api.rb:278-301 | an in-sync monitor gives its id and no call; a drifted one gives one update call, then the id on status '200' and nil otherwise |
| Api.API.MuteMonitorById | lib/dogtrainer/api.rb:359-368 | one mute call, with an end argument only when the end timestamp is non-nil; the reply is returned |
| Api.API.MuteMonitorByName | lib/dogtrainer/api.rb:386-399 | result, cache and calls are those of Reconcile.MuteMonitorByName |
| Api.API.MuteEach | lib/dogtrainer/api.rb:432-438 | the loop makes exactly the mute calls for the matching monitors, in cache order |
| Api.API.MuteMonitorsByRegex | lib/dogtrainer/api.rb:420-439 | result, cache and calls are those of Reconcile.MuteMonitorsByRegex |
| Api.API.UnmuteMonitorById | lib/dogtrainer/api.rb:444-447 | one unmute call with all_scopes true; the reply is returned |
| Api.API.UnmuteMonitorByName | lib/dogtrainer/api.rb:453-460 | result, cache and calls are those of Reconcile.UnmuteMonitorByName |
| Api.API.UnmuteEach | lib/dogtrainer/api.rb:470-475 | the loop makes exactly the unmute calls for the matching monitors, in cache order |
| Api.API.UnmuteMonitorsByRegex | lib/dogtrainer/api.rb:465-476 | result, cache and calls are those of Reconcile.UnmuteMonitorsByRegex |
| Api.API.BoardByName | lib/dogtrainer/api.rb:609-643 | the lookup shared by both board kinds: result, new cache and calls are those of Reconcile.BoardByName |
| Api.API.GetExistingTimeboardByName | lib/dogtrainer/api.rb:609-624 | result, timeboard cache and calls are those of Reconcile.BoardByName for timeboards |
| Api.API.GetExistingScreenboardByName | lib/dogtrainer/api.rb:628-643 | result, screenboard cache and calls are those of Reconcile.BoardByName for screenboards |
| Api.API.UpsertBoard | lib/dogtrainer/api.rb:526-605 | the upsert shared by both board kinds: result, new cache and calls are those of Reconcile.UpsertBoard |
| Api.API.UpsertTimeboard | lib/dogtrainer/api.rb:526-559 | result, timeboard cache and calls are those of Reconcile.UpsertBoard for timeboards |
| Api.API.UpsertScreenboard | lib/dogtrainer/api.rb:570-605 | result, screenboard cache and calls are those of Reconcile.UpsertBoard for screenboards |
| Graphs.Graphdef | lib/dogtrainer/api.rb:490-518 | the graph definition has one line request per query, in order (a single query counts as one); it has a 'markers' key exactly when markers are given, with one 'error dashed' marker per entry, in order; and it has viz 'timeseries' and the title |
| Graphs.MarkerLabel | lib/dogtrainer/api.rb:509-514 | a marker is labelled "name==value", its value line is "y = value" and its type is 'error dashed' |
| ApiException.AppendErrorLines | lib/dogtrainer/dogapiexception.rb:18 | the append loop adds every error followed by a newline, in list order |
| ApiException.Message | lib/dogtrainer/dogapiexception.rb:14-22 | the exception message for a hash, string or array body; no contract of its own, its properties are the `ApiException` lemmas below |
| ApiException.DogApiException.constructor | lib/dogtrainer/dogapiexception.rb:7-24 | statuscode is response[0]; content is response[1] when there is one, else {}; for every body the source does not raise on (a hash, a string, an array without the element 'errors'), the message is the one Message defines |
| ApiException.MessageStartsWithStatus | lib/dogtrainer/dogapiexception.rb:14 | the message always begins with "Datadog API call returned status " followed by the status code |
| ApiException.NoErrorsBareMessage | lib/dogtrainer/dogapiexception.rb:14-15 | a hash body without an errors key gives exactly the status line |
| ApiException.StringBodyMessage | lib/dogtrainer/dogapiexception.rb:14-21 | a string body that contains the substring 'errors' gives the status line, ":\n" and the line "errors\n"; any other string body gives the bare status line |
| ApiException.ArrayBodyBareMessage | lib/dogtrainer/dogapiexception.rb:14-15 | an array body without the element 'errors' gives the bare status line |
| ApiException.ExampleSubstringMessage | lib/dogtrainer/dogapiexception.rb:14-21 | the response ['500', 'no errors here'] gives "Datadog API call returned status 500:\nerrors\n" |
| Values.HasSubstringIffContains | lib/dogtrainer/dogapiexception.rb:15 | the offset-by-offset substring test of `String#include?` holds exactly when the text occurs somewhere in the string |
| ApiException.ErrorLinesAppend | lib/dogtrainer/dogapiexception.rb:17-18 | the lines of a list of errors are the lines of its parts, in order |
| ApiException.ExampleListMessage | lib/dogtrainer/dogapiexception.rb:14-18 | the errors ['foo', "bar\nbaz"] with status '500' give "Datadog API call returned status 500:\nfoo\nbar\nbaz\n" |
| ApiException.ExampleStringMessage | lib/dogtrainer/dogapiexception.rb:19-21 | the single error 'foo' with status '500' gives "Datadog API call returned status 500:\nfoo\n" |
| Scenarios.ScenarioDocumentMessage | lib/dogtrainer/api.rb:256-261 | upsert_monitor("mname", query, 123.4, ">=") with no options uses the generated message, which names 'mname' and says " should be >=" |
| Scenarios.ScenarioDocumentThresholds | lib/dogtrainer/api.rb:174-178 | in that scenario the thresholds are {'critical' => 123.4} |
| Scenarios.UpsertNewMonitorScenario | lib/dogtrainer/api.rb:274-276 | in that scenario, against a remote with no monitor named "mname", the calls are one listing and one create of a 'metric alert' with the query, and the result is the created id |

## Left out

- Logging and console output (`logger.*`, `puts`) are not modelled. They do not affect the results, except where noted below.
- Repository path detection (`get_repo_path`, `get_git_url_for_directory`) reads the environment and the call stack and runs git. The constructor instead takes the detected path as a parameter.
- The Datadog client (`Dogapi::Client`) does network I/O in a library outside this repository.
  - It is modelled as a fixed script of replies with a ghost log of calls.
  - The list replies are reduced to their bodies, so the status of the list calls is ignored.
  - A `get_dashboard`/`get_screenboard` for an id the script does not know reads as nil.
- Regular expressions (`Regexp.new`, `=~`) are modelled as a name matcher passed in as a parameter of type `string -> bool`. The compilation of a string pattern is not modelled.
- `to_s` of numbers and other values is a parameter `show`.
  - The one fact the proofs rely on is that `show` leaves strings as they are (`ShowsStringsVerbatim`).
  - Thresholds are reals that are only stored and compared; floating-point formatting is not modelled.
- `raise RuntimeError` and `exit 1` are both an `Err` result.
  - `ExitsProcess` records which failures end the process: the empty board lists do, and the other failures are raised.
  - Process termination itself is not modelled.
- Api.API.CreateMonitor: a create or update answered with a status other than '200' gives nil. In the source the method returns the value of its `logger.error` call. The model follows the documented promise of nil.
- Api.API.SyncMonitor: an update answered with a status other than '200' gives nil, for the same reason as the create.
- Reading a field of a value that is not a hash gives nil in the model. In the source, indexing nil raises `NoMethodError`, for example after a create whose reply has no body, when the source logs `d[1]['dash']['id']`.
- ApiException.DogApiException.constructor: requires a body the source does not raise on (`Raises`). A body of nil, a boolean or a number raises `NoMethodError` on `include?`. An array holding the element 'errors' raises `TypeError` on `['errors']`. Those raising paths are not modelled.
- The in-place mutation of the `options` hash by `params_for_monitor` and `upsert_monitor` is a pure function of the options. The caller's hash is not shown to change.
- The hash `mon_params` is walked in insertion order, which the model passes as the key sequence `MonitorKeyOrder`. Graph markers are given as a sequence of pairs in insertion order.
