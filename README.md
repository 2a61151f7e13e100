# Centralized tag compliance: the policy evaluator

This project models the core of a scheduled job (`source/main.py`) that checks cloud resources against a required-tag policy.

- **Policy.** A policy is a list of rules. Each rule names a tag key and the values allowed for it; the allowed list may hold the wildcard `"*"`.
- **Resources.** Each resource (EC2 instance, S3 bucket, DynamoDB table, ElastiCache node, load balancer, RDS cluster, SQS queue, Elasticsearch cluster) carries an ordered list of key/value tags, or no list at all.
- **Evaluation.** The evaluator walks every rule in order. It records one human-readable reason per failed rule, writes the list onto the resource record, and returns whether all rules passed.
- **Notification.** Non-compliant resources are rendered as a Slack message. The message is handed to the transport only when the Slack switch is on.
- **Switches.** Every kind of resource has its own environment switch, parsed by `str2bool`. The kinds are scanned in a fixed order.

The modules follow the program's structure:

- `TagMatcher`: `check_if_tag_exists` and `check_if_tag_is_compliant`. The second is a loop that returns at the first tag carrying the key, proved against a recursive specification.
- `PolicyEvaluator`: the `Resource` record and `verify_tags_on_resource`.
  - The record is a class. Its reasons entry is a mutable field, and `None` means the record has no `compliant_reasons` entry yet.
  - The evaluator is a method that modifies the record.
  - Its result and the stored reasons are tied to `Compliant` and `Reasons`. `Reasons` renders each failed rule's `Failure` in policy order.
- `Config`: `str2bool`, `os.getenv` with its default, and the `ENABLE_*` switches over an environment given as a map.
- `SlackNotifier`: the payload `notify_slack` builds (tag lines, fallback text, the four fields), and whether it is sent.
- `Scanner`: `main`.
  - The eight copy-pasted blocks are one loop over the fixed kind order.
  - What each adapter would list is given as an `Inventory`.
  - The scan returns the notified resources and the messages handed to the transport.
- `Adapters`: the one non-cloud piece of the fetch adapters, the SQS reshaping of a tag dictionary into key/value records.
- `Strings` and `Lists`: `join`, `split`, ASCII `lower`, and filter/map over sequences with their lemmas.

## Model

| member | source | states |
|---|---|---|
| TagMatcher.Keys | source/main.py:197 | the key list has one entry per tag, in tag order, each that tag's key |
| TagMatcher.TagExists | source/main.py:188-200 | defines `check_if_tag_exists`: tags present and the key among their keys; `TagExistsIff` states what that means tag by tag |
| TagMatcher.TagExistsIff | source/main.py:188-200 | a tag "exists" iff the tag list is present and some tag's key equals the key exactly; `None` never has it |
| TagMatcher.FirstWithKey | source/main.py:215-216 | the position found is the first tag carrying the key; none found means no tag carries it |
| TagMatcher.IsAllowed | source/main.py:217 | defines the value test: listed among the allowed values, or the wildcard allowed |
| TagMatcher.TagIsCompliant | source/main.py:212-221 | defines `check_if_tag_is_compliant` by the first tag with the key; `CheckIfTagIsCompliant` ties the loop to it and to the first-occurrence characterisation, `LaterDuplicatesIgnored` and `CompliantImpliesExists` state its promises |
| TagMatcher.CheckIfTagIsCompliant | source/main.py:202-221 | the loop returns true iff tags are present and the first tag with the key has a listed value or the wildcard is allowed; false for `None` and for a missing key |
| TagMatcher.CompliantImpliesExists | source/main.py:176-177 | a compliant key is always present, so the "not compliant" branch only sees present keys |
| TagMatcher.WildcardAcceptsAnyValue | source/main.py:217 | with `"*"` allowed, compliance is exactly existence |
| TagMatcher.LaterDuplicatesIgnored | source/main.py:215-221 | once a key is present, tags appended after it never change the verdict |
| TagMatcher.MatcherWildcardExamples | source/test_main.py:21-33 | the two wildcard cases of the matcher tests: a tag whose value is `*` exists; `dev` passes against `["*", "dev"]` |
| TagMatcher.MatcherExamples | source/test_main.py:17-41 | the other matcher test cases (lines 20, 22-23, 32, 34-37): a present key, an absent key and `None` tags for existence; a listed value, the wildcard, a rejected value, a missing key and `None` tags for compliance |
| PolicyEvaluator.Resource.constructor | source/main.py:141 | a record as an adapter builds it: the given service, id and tags, and no `compliant_reasons` entry yet |
| PolicyEvaluator.RulePasses | source/main.py:176-177 | defines a passing rule: the key exists and its value is compliant; `RulePassesIff` shows the existence test adds nothing |
| PolicyEvaluator.Compliant | source/main.py:172-182 | defines the evaluator's outcome: every rule passes; `VerifyTagsOnResource` returns it, `ReasonsEmptyIffCompliant` and `CompliantOrderIndependent` state its promises |
| PolicyEvaluator.FailureOf | source/main.py:176-184 | defines which failure a failed rule reports: missing when the key is absent, not compliant otherwise; `FailureOfForms` states it |
| PolicyEvaluator.Message | source/main.py:180-184 | defines the two reason texts: `tag '<key>' does not exist` and `tag '<key>' is not compliant with '<values joined by ,>'` |
| PolicyEvaluator.Reasons | source/main.py:173-185 | defines the stored reasons: each failed rule's message in policy order; `ReasonsFollowFailedRules`, `ReasonsEmptyIffCompliant` and `NoTagsAllMissing` state its promises |
| PolicyEvaluator.FailedRules | source/main.py:175-184 | defines the positions of the failed rules, the independent account of which rules `Reasons` speaks of (`ReasonsFollowFailedRules`) |
| PolicyEvaluator.VerifyTagsOnResource | source/main.py:162-186 | the result is true iff every rule passes, and the record's reasons become exactly the failed rules' messages in rule order |
| PolicyEvaluator.VerifyTagsTwice | source/main.py:173-185 | evaluating twice gives the same outcome both times and leaves the same reasons: they are replaced, not appended |
| PolicyEvaluator.ReasonsSnoc | source/main.py:175-184 | one more rule adds nothing if it passes, or exactly its own message at the end |
| PolicyEvaluator.CompliantSnoc | source/main.py:172-182 | one more rule keeps the outcome iff that rule passes |
| PolicyEvaluator.ReasonsEmptyIffCompliant | source/main.py:172-186 | the outcome is false iff the stored reasons are non-empty |
| PolicyEvaluator.ReasonsFollowFailedRules | source/main.py:175-184 | reason j is the message of the j-th failed rule in rule order; there are as many reasons as failed rules |
| PolicyEvaluator.FailureOfForms | source/main.py:176-184 | a failed rule with an absent key says "does not exist"; with a present key, the value was rejected and the message lists the allowed values |
| PolicyEvaluator.RulePassesIff | source/main.py:176-177 | a rule passes iff its key's value is compliant; the existence test adds nothing to the outcome |
| PolicyEvaluator.CompliantOrderIndependent | source/main.py:175-186 | two policies holding the same rules give the same outcome, whatever their order |
| PolicyEvaluator.NoTagsAllMissing | source/main.py:176-184 | without a tag list every rule fails as missing: one "does not exist" reason per rule |
| PolicyEvaluator.CompliantExample | source/test_main.py:46-55 | both compliant test resources pass, with listed values and with the wildcard, and get no reason |
| PolicyEvaluator.CompliantExampleRules | source/test_main.py:46-55 | each rule of those cases passes on its own |
| PolicyEvaluator.BothRulesPass | source/main.py:175-186 | a two-rule policy whose rules both pass is met and gives no reason |
| PolicyEvaluator.MissingTagExample | source/test_main.py:66-70 | a resource without `Project` fails, with the single reason that `Project` does not exist |
| PolicyEvaluator.MissingTagExampleRules | source/test_main.py:66-70 | in that case `Project` is absent and the `environment` rule passes |
| PolicyEvaluator.FirstRuleFails | source/main.py:175-186 | a two-rule policy whose first rule alone fails is not met, and gives that rule's message only |
| PolicyEvaluator.UntaggedExample | source/test_main.py:71-75 | an untagged resource gets "does not exist" for `Project` and then for `environment` |
| Lists.Indices | source/main.py:175-184 | the failed-rule positions are valid, strictly increasing, and include every failing position |
| Lists.FilterAtIndices | source/main.py:175-184 | the kept elements are exactly the elements at those positions, in order |
| Strings.Join | source/main.py:247-248 | Python's `sep.join`, used with `"\n"` here and with `","` for the allowed values on line 180; `SplitJoin` is its inverse |
| Strings.Split | source/main.py:247-248 | splitting always gives at least one part, and no part holds the separator |
| Strings.SplitJoin | source/main.py:247-248 | a non-empty list joined with newlines splits back into that list, provided no element holds a newline |
| Strings.Lower | source/main.py:33 | `lower()` on ASCII: same length, each letter lowered in place, no upper-case letter left |
| Config.Str2BoolAccepts | source/main.py:32-33 | a flag is true iff its lower-cased text is `yes`, `true`, `t` or `1`; the tuple's `"True"` entry can never match |
| Config.Str2BoolIgnoresCase | source/main.py:32-33 | two texts that lower to the same string parse to the same flag |
| Config.Str2Bool | source/main.py:32-33 | defines `str2bool` as membership of the lowered text in the tuple; `Str2BoolAccepts` states which texts pass |
| Config.Str2BoolTrueExamples | source/main.py:32-33 | `True`, `YES`, `t`, `1` are true |
| Config.Str2BoolFalseExamples | source/main.py:32-33 | `False`, the empty text, `y`, `0` are false |
| Config.Enabled | source/main.py:19-28 | defines an `ENABLE_*` switch: the variable's text, default `"True"`, through `str2bool`; `EnabledByDefault` states its promise |
| Config.EnabledByDefault | source/main.py:19-28 | an unset switch is on; a set one is on iff `str2bool` accepts it |
| SlackNotifier.TagLines | source/main.py:229-231 | one `Key - Value` line per tag, in the resource's tag order |
| SlackNotifier.TagLine | source/main.py:231 | defines one tag's display line, `Key - Value` |
| SlackNotifier.FormatTags | source/main.py:229-231 | defines `tags_formated`: the tag lines, or none without a tag list; `PayloadReadBack` states what the Tags field then holds |
| SlackNotifier.Fallback | source/main.py:242 | defines the fallback text `Resource <service> <id> is not compliant with tag policy` |
| SlackNotifier.BuildPayload | source/main.py:233-253 | defines the payload record; `PayloadReadBack` and `TwoReasonsTwoTags` state what a reader gets back from it |
| SlackNotifier.PayloadReadBack | source/main.py:229-253 | the payload: identity as configured, text "Tag Compliance", one warning attachment, the fallback, fields titled Service, ID, Reason, Tags in that order; Reason and Tags split back into the reasons and the tag lines, and Tags is empty without tags |
| SlackNotifier.TwoReasonsTwoTags | source/main.py:247-248 | two reasons and two tags render as two newline-separated lines each |
| SlackNotifier.NotifySlack | source/main.py:258 | a payload is handed to the transport iff the Slack switch is on |
| Adapters.QueueTags | source/main.py:132-139 | a failed tag lookup leaves an empty list; otherwise one `{Key, Value}` record per dictionary entry, in the dictionary's order |
| Adapters.QueueTagsFaithful | source/main.py:139 | with the reshaped list, the matcher finds each dictionary key at its own entry, with its value, and no other key |
| Scanner.ScanOrderCoversEachKindOnce | source/main.py:267-314 | the scan order lists each of the eight kinds exactly once |
| Scanner.Switch | source/main.py:19-26 | defines the `ENABLE_*` variable of each kind |
| Scanner.KindEnabled | source/main.py:269-311 | defines the switch test guarding each block; `ReadSwitches` collects it |
| Scanner.ReadSwitches | source/main.py:19-28 | a kind is scanned iff its `ENABLE_*` switch is on; Slack delivery follows its own switch |
| Scanner.DefaultsScanEverything | source/main.py:19-28 | with no switch set, every kind is scanned and messages are sent |
| Scanner.Scanned | source/main.py:269-314 | defines the records the scan evaluates: the enabled kinds' lists in scan order; `ScannedMembership` and `DisabledKindsIgnored` state its promises |
| Scanner.Flagged | source/main.py:271-272 | defines the notified records of a list: its non-compliant ones in order; `FlaggedMembership` states it |
| Scanner.Render | source/main.py:272 | defines the message `notify_slack` builds for an evaluated record |
| Scanner.Payloads | source/main.py:272 | defines the messages of a list of records, in order; `PayloadsMatchResources` states it |
| Scanner.ScanOne | source/main.py:271-272 | one iteration of a block: the record gets its reasons, is flagged iff not compliant, and a flagged record's message is sent iff Slack is on |
| Scanner.ScanKind | source/main.py:269-272 | one block's loop evaluates every listed resource, stores its reasons, and notifies exactly the non-compliant ones in list order, sending their messages only when Slack is on |
| Scanner.ScanBlock | source/main.py:268-272 | one block: a disabled kind changes nothing and may write nothing; an enabled kind's list is scanned and its results appended to those of the kinds before it |
| Scanner.ScanEnabledBlock | source/main.py:269-272 | a block whose switch is on: it writes only its kind's records, leaves every one of them holding its reasons, and appends its notifications and messages to those of the earlier kinds |
| Scanner.EnabledBlockAppends | source/main.py:269-272 | an enabled kind appends its list to the scanned records and its non-compliant records to the notified ones |
| Scanner.Scan | source/main.py:267-314 | the notified resources are the non-compliant resources of the enabled kinds, kind after kind in scan order; the messages sent are their payloads when Slack is on, otherwise none; every scanned resource holds its reasons; it may write only the records of the enabled kinds, and every other listed record keeps the reasons it held |
| Scanner.PayloadsMatchResources | source/main.py:233-253 | one message per notified resource, in order, built from that resource's service, id, tags and reasons |
| Scanner.FlaggedMembership | source/main.py:271-272 | a resource is notified iff it is listed and is not compliant |
| Scanner.ScannedMembership | source/main.py:269-314 | the scanned resources are exactly those listed for an enabled kind |
| Scanner.NotifiesExactlyNonCompliant | source/main.py:267-314 | the scan notifies a resource iff it is listed for an enabled kind and is not compliant |
| Scanner.DisabledKindsIgnored | source/main.py:269-311 | what a disabled kind's adapter would list changes nothing the scan evaluates |

## Left out

- The boto3 fetch adapters (`source/main.py:35-160`) are cloud calls. Each kind's resource list is an input (`Inventory`). A listing call that raises and aborts the whole run is not modelled.
- Adapters.QueueTags: the `QueueUrls`-absent case and the queue records around the reshaping are part of the cloud adapter and are not modelled. A `ClientError` from `list_queue_tags` is the `None` response.
- Environment and policy loading (`source/main.py:12-30`) are inputs: the environment is a map, and the policy is a list of `Rule`s. A `KeyError` for a missing required variable and JSON decoding are not modelled.
- The source reads every `ENABLE_*` variable once, at import (`source/main.py:19-28`), and applies `str2bool` to the stored text again in each block and in each notification. The model applies it once per switch, in `ReadSwitches`, and scans with the resulting `Switches`. The two agree because `str2bool` is a function of the stored text.
- The Slack transport (`source/main.py:255-265`) is not modelled: URL encoding, `json.dumps`, the HTTP request, `HTTPError`, and the JSON returned to the caller. `NotifySlack` returns the payload it would send, and the scan collects these payloads in order.
- A notification that aborts the whole run is not modelled; the model's scan always finishes. Two such faults exist in the source. A fault of `urlopen` other than `HTTPError` (a `URLError`, say) is not caught (`source/main.py:260-265`). `urllib.request.Request(SLACK_URL)` (`source/main.py:256`) runs before the switch test on line 258, so a malformed webhook URL raises at the first non-compliant resource even with Slack off.
- Logging calls are output only and are not modelled.
- The `short` flags and `mrkdwn_in` are carried in the payload record, but no property is stated about them.
- Records are typed. A tag or rule missing its `Key`/`key` entry is not modelled; it raises `KeyError` in the source. A `",".join` over non-string values is not modelled either; it raises `TypeError`.
- Strings.Lower: lowers ASCII letters only. Python's `str.lower()` also lowers non-ASCII letters; switch values holding such letters may parse differently there.
- The JSON file of the policy, and `source/test_main.py:81-90`, the Slack test that needs a live webhook, are not modelled. The test cases on `source/test_main.py:56-65` are covered by the general lemmas (`ReasonsFollowFailedRules`, `ReasonsEmptyIffCompliant`) rather than stated one by one.
