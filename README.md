# IIB web API and bundle customization core, in Dafny

This project models two parts of IIB, the service that builds operator index images and bundle
images, and proves properties of them:

- **The web API core** (iib/web/api_v1.py):
  - which Celery queue a request goes to, and when "overwrite_from_index" is forced for privileged
    callers;
  - the argument lists of the Celery tasks and their redacted copies (`safe_args`), with the
    registry tokens masked;
  - the single-request submission endpoints: add, rm and regenerate-bundle;
  - the two batch endpoints. Each rejects the whole batch at its first invalid member. Each then
    dispatches its members, handling a broker outage in its own way;
  - the worker-only PATCH of a request: its checks, the state update with its duplicate guard, and
    the image, architecture and bundle-mapping updates;
  - the build-log response.
- **The bundle customization core of the regenerate-bundle worker**
  (iib/workers/tasks/build_regenerate_bundle.py). An organization's list of customizations is
  applied in order to a bundle's ClusterServiceVersion (CSV) files and to its
  `metadata/annotations.yaml`. The customizations are:
  - the package name suffix;
  - registry replacements;
  - CSV annotations;
  - image names from labels;
  - repository enclosure;
  - related bundles, with the early return of a recursive related-bundles request;
  - digest pinning;
  - bundle replacements.

## Modules

| module | what it holds |
|---|---|
| `Wrappers` | `Option`, `Result` and the error kinds. An exception the source does not catch is `Crash(name)`. |
| `Json` | Parsed JSON and YAML values. A dict is an association list, so Python's insertion order is kept. Also `dict.get`, item assignment and truthiness. |
| `Text` | The string operations the source uses: `endswith`, `split`, `join`, `rstrip`, `str(int)`. |
| `Routing` | Forcing "overwrite_from_index" and choosing the user's queue. |
| `Redaction` | The display copy of a task's arguments. It is an array edited in place at `list.index` positions. |
| `Tasks` | The three task argument lists, and the work item of one submission. |
| `Submission` | The three single-request endpoints. |
| `Batch` | The two batch endpoints: the build loop and the two dispatch loops. |
| `Requests` | The `Request` and `Registry` classes that PATCH updates in place, and the state history. |
| `Patch` | `patch_request`. |
| `Logs` | `get_build_logs`. |
| `PullSpecs` | Pull specs, the found pull specs of a bundle, and the replacement maps each customization builds. |
| `Annotations` | `_get_package_annotations`, the package name suffix, and the CSV annotation templates. |
| `Customize` | `_adjust_operator_bundle`: a specification (`Step`, `Run`), and the in-place `Bundle` class with the loop over the customizations. |

## Effects and foreign code as parameters

- The database, the broker and the message bus are not modelled as services:
  - the ids the database assigns are parameters;
  - whether `apply_async` raises is a parameter (`brokerDown`, or the set `failing` of batch
    positions);
  - each notification, submission and broker-error handling is recorded as an `Event`.
- The file system of `get_build_logs` is a map from path to contents. The clock is a parameter.
- The request models' `from_json` checks, `validate_architecture_json`, `get_mutable_keys` and
  `RequestStateMapping` are parameters:
  - `Validator`;
  - `ArchCheck`;
  - the `mutableKeys` set;
  - `StateMapping`.
- Four kinds of foreign or networked code are fields of `PullSpecs.Lookups`:
  - `get_resolved_image` and `get_image_labels`;
  - `str.format` with labels;
  - `ImageName.parse` and `to_str`;
  - `_is_bundle_image`.
- A CSV is the sequence of pull specs it mentions, whether it has `spec.relatedImages`, and its
  data. `replace_pullspecs_everywhere` maps each mentioned pull spec through the replacement map.
- `write_related_bundles_file` is recorded in `Bundle.relatedBundleFiles` instead of being written.

## Behaviour worth noting

- **State dedup.** The duplicate-state guard of `patch_request` compares the numeric state with
  the reported state name (see Findings). The model captures the check as written, and uses the check
  as evidently intended.
- **add_rm_batch broker errors.** On a broker error, add_rm_batch hands every request not yet
  processed to `handle_broker_batch_error`: the failing member and all later ones. The loop then
  goes on submitting those later members (`Batch.AddRmRefusalReportsLaterMembers`).
- **Redaction.** The display copy masks the first argument EQUAL to each token, found with
  `list.index`. So a token that equals an earlier argument masks that argument and stays visible
  in its own slot (`Redaction.EarlierEqualArgumentLeaksToken`). In add_rm_batch, a remove member
  that carries a truthy `cnr_token` equal to none of its arguments makes `list.index` raise ValueError
  (`Tasks.RmMemberWithCnrTokenCrashes`).
- **State transitions.** `patch_request` accepts any known state name, including a move out of a
  final state, and the model does the same.

## Model

| member | source | states |
|---|---|---|
| Routing.QueueLabel | iib/web/api_v1.py:184-188 | The labelled name looked up first: "SERIAL:" or "PARALLEL:" in front of the user name. |
| Routing.QueueLabelsDistinct | iib/web/api_v1.py:184-188 | Two labelled names are equal only for the same user and the same kind of queue. |
| Routing.ShouldForceOverwrite | iib/web/api_v1.py:147-169 | The overwrite is forced exactly when the caller is authenticated, is a privileged user, and the force flag is on. |
| Routing.UserQueue | iib/web/api_v1.py:172-193 | Gives no queue for an unauthenticated caller. Otherwise it gives the labelled user's queue when that is mapped to a non-empty name, else the bare user's queue when mapped, else none. |
| Routing.OverwriteFromIndex | iib/web/api_v1.py:214 | Python's `or`: `True` when the overwrite is forced, else the payload's own value (None when absent). It is truthy exactly when forced or requested. |
| Routing.OverwriteQueue | iib/web/api_v1.py:214-215 | An add or rm request is routed serially exactly when the overwrite is forced or the payload asks for it. |
| Routing.ForcedCallerRoutedSerially | iib/web/api_v1.py:158-193 | With the force flag on, a privileged caller with a serial queue is routed there whatever the payload says. |
| Redaction.FirstIndex | iib/web/api_v1.py:231 | `list.index`: the first position holding the value. No earlier position holds it, and a value absent from the list gives the length. |
| Redaction.MaskFirst | iib/web/api_v1.py:231 | Masks exactly the first occurrence and keeps every other element. Raises ValueError exactly when the value is absent. |
| Redaction.Redacted | iib/web/api_v1.py:229-233 | The display copy has the arguments' length, and each slot is either the argument or the mask. It equals the arguments when neither token is truthy. A truthy CNR token is masked at its first occurrence, and a missing one raises. For two different tokens, neither equal to the mask: each truthy token is masked at its own first occurrence and every other slot shows its argument. The copy then exists exactly when every truthy token is among the arguments. |
| Redaction.IndexOf | iib/web/api_v1.py:231 | The array search finds the first equal element. It reports none exactly when the value is absent. |
| Redaction.RedactTokens | iib/web/api_v1.py:229-233 | The in-place edit of the copied array gives the display copy `Redacted` describes, including the ValueError cases. |
| Redaction.EarlierEqualArgumentLeaksToken | iib/web/api_v1.py:229-233 | A token equal to an earlier argument masks that argument, and its own slot still shows the secret. |
| Tasks.Required | iib/web/api_v1.py:217-218 | `payload[key]` succeeds exactly when the key is present, with its value, and raises KeyError otherwise. |
| Tasks.GreenwaveFor | iib/web/api_v1.py:227 | The Greenwave config is the one mapped to the queue, and null when the queue is unmapped. The default queue (None) gets the config stored under a `None` key, if there is one. Also models 559. |
| Tasks.AddArgs | iib/web/api_v1.py:216-228 | The 11 arguments of the add task. They exist exactly when "bundles" and "binary_image" are present. The request id is in slot 2, the overwrite value in slot 8, the CNR token in slot 5 and the overwrite token in slot 9. |
| Tasks.RmArgs | iib/web/api_v1.py:370-378 | The 7 arguments of the rm task. They exist exactly when "operators", "binary_image" and "from_index" are present. The id is in slot 2, the overwrite value in slot 5 and the overwrite token in slot 6. |
| Tasks.RegenerateArgs | iib/web/api_v1.py:420 | The regenerate task's arguments: the bundle image, the organization and the id. They exist exactly when "from_bundle_image" is present. |
| Tasks.AddArgsRedactable | iib/web/api_v1.py:216-233 | The add task's display copy can always be built, and the submitted list keeps both secrets. |
| Tasks.RmArgsRedactable | iib/web/api_v1.py:370-382 | rm_operators' display copy, which masks only the overwrite token, can always be built. |
| Tasks.RmMemberWithCnrTokenCrashes | iib/web/api_v1.py:561-576 | In add_rm_batch, a remove member with a truthy CNR token that equals none of its arguments raises ValueError. |
| Tasks.IsolatedTokensMaskedInDisplay | iib/web/api_v1.py:216-233 | For any add request, a truthy token that equals no other argument and is not the mask is shown masked in its own slot (5 for the CNR token, 9 for the overwrite token) and appears nowhere in the display copy. Either token or both may be set. |
| Tasks.Work | iib/web/api_v1.py:214-233 | An add or rm work item goes to the overwrite-aware queue. It submits the task's own argument list (`AddArgs` with the queue's Greenwave config, or `RmArgs`) and displays `Redacted` of that list. In a batch, a remove member's CNR token is masked too, and the item exists exactly when the arguments exist and can be redacted. A regenerate item submits `RegenerateArgs` to the parallel queue without a display copy. Add, rm outside a batch, and regenerate succeed exactly when their arguments exist. Also models 370-390 and 420-422. |
| Tasks.Prepare | iib/web/api_v1.py:558-576 | Building the arguments and the in-place display copy gives the work item `Work` describes, and the same exceptions. |
| Submission.SubmitRequest | iib/web/api_v1.py:198-245 | Rejects a non-object or invalid payload with no effect. Otherwise the request is announced and then submitted, with the broker error handled after the submit; an exception raised building the arguments fails after the announcement. Add and rm are created exactly when their required keys are present. Also models 353-396 and 401-428. |
| Batch.Classify | iib/web/api_v1.py:515-524 | An add/rm member is a removal exactly when "operators" is truthy, and otherwise an addition exactly when "bundles" is truthy. A member that is neither gets the "not a valid Add/Rm request" error, and a non-object raises AttributeError. A member of the chosen kind (a regenerate member always) builds exactly when its `from_json` validation accepts it, and is otherwise rejected with the validator's message. Also models 449-458. |
| Batch.FirstRejected | iib/web/api_v1.py:449-458 | The position of the first member that does not build. Every earlier member builds. |
| Batch.Build | iib/web/api_v1.py:512-534 | The batch builds exactly when every member builds, giving each member's kind. Otherwise the first failing member's error is re-raised with its position. Also models 446-460. |
| Batch.BuildRequests | iib/web/api_v1.py:446-460 | The build loop gives what `Build` describes. The position found by `build_requests.index(member)` is the failing member's own position. |
| Batch.Reported | iib/web/api_v1.py:455-458 | A ValidationError is re-raised as a ValidationError whose message ends with " in index N." for the member's position N. Any other error passes through unchanged. |
| Batch.ReportedNamesIndex | iib/web/api_v1.py:455-458 | The re-raised validation message ends with "index N.", where N is the failing member's position. |
| Batch.LabelAt | iib/web/api_v1.py:484 | Each printed processed id is the decimal form of the member's id at the same position. |
| Batch.UnprocessedIsSuffix | iib/web/api_v1.py:484-486 | Filtering the requests by the printed ids of a prefix leaves exactly the members from the first unprocessed one on. The ids must be distinct. |
| Batch.UnprocessedRequests | iib/web/api_v1.py:595 | The list handed to the broker-error handler is the suffix of the members after those processed. |
| Batch.PlanOf | iib/web/api_v1.py:540-576 | Each member's work item in a committed batch is the one `Work` gives for its payload, kind and id. |
| Batch.PrepareMember | iib/web/api_v1.py:544-576 | The dispatch loop builds member i's planned work item. |
| Batch.RegenerateOutcome | iib/web/api_v1.py:470-487 | The response and events of regenerate_bundle_batch; the definition has no contract. Its cases are stated by `RegenerateCrashedAt`, `RegenerateRefusedAt`, `RegenerateCompleted` and `RegenerateStopsAtRefusal`. |
| Batch.AddRmOutcome | iib/web/api_v1.py:540-598 | The response and events of add_rm_batch; the definition has no contract. Its behaviour is stated by `AddRmSubmitsInOrder` and `AddRmRefusalReportsLaterMembers`. |
| Batch.RegenerateCrashedAt | iib/web/api_v1.py:470-487 | In regenerate_bundle_batch, a work item that raises before any refusal ends the request with that exception, after the earlier members were submitted. |
| Batch.RegenerateRefusedAt | iib/web/api_v1.py:470-487 | The first refusal, at position i, reports members 0 to i-1 as created. It submits members 0 to i, then hands members i onward to the broker-error handler. |
| Batch.RegenerateCompleted | iib/web/api_v1.py:470-494 | With no refusal and no exception, every member is submitted and listed. |
| Batch.DispatchRegenerate | iib/web/api_v1.py:468-487 | The regenerate dispatch loop's response and events are `RegenerateOutcome`: it stops at the first refusal or exception. |
| Batch.DispatchAddRm | iib/web/api_v1.py:540-598 | The add/rm dispatch loop's response and events are `AddRmOutcome`. Each refusal is followed by the broker-error handling of the members from it on, and the loop goes on. |
| Batch.SubmitBatch | iib/web/api_v1.py:433-494 | A batch that does not build is answered by its validation error (or fails on another exception), with no event. A batch that builds is announced, then dispatched as its kind prescribes. Also models 499-605. |
| Batch.SubmitsInOrder | iib/web/api_v1.py:471-484 | The submissions of the first k members are those of members 0 to k-1, in order. |
| Batch.RegenerateStopsAtRefusal | iib/web/api_v1.py:470-487 | After a refusal at f, the response lists the members before f. The submitted ids are those of members 0 to f, nothing after f is submitted, and the last event hands members f onward to the handler. |
| Batch.AddRmSubmitsInOrder | iib/web/api_v1.py:540-598 | Whatever the broker does, add_rm_batch submits its members in order. |
| Batch.AddRmRefusalReportsLaterMembers | iib/web/api_v1.py:593-598 | A refusal at j hands member j and every later member to the broker-error handler. Without an exception, every member is still submitted and listed as created. |
| Requests.Request.AddState | iib/web/api_v1.py:309 | `add_state` appends one history entry and leaves the images and architectures alone. |
| Requests.Request.SetImage | iib/web/api_v1.py:325 | Setting an image attribute changes only that attribute. |
| Requests.Request.AddArchitecture | iib/web/api_v1.py:328 | Adds the architecture to the request's set and changes nothing else. |
| Requests.Registry.GetOrCreateImage | iib/web/api_v1.py:323 | `Image.get_or_create` makes the image exist and changes nothing else. |
| Requests.Registry.GetOrCreateOperator | iib/web/api_v1.py:331 | `Operator.get_or_create` makes the operator exist and changes nothing else. |
| Requests.Registry.SetBundleOperator | iib/web/api_v1.py:334 | Assigns the bundle's operator and changes nothing else. |
| Requests.SameState | iib/web/api_v1.py:306 | The intended duplicate check: the current state's name and reason equal the reported ones. A plain definition; `RepeatedReportIsNoOp` states its effect. |
| Requests.SameStateAsWritten | iib/web/api_v1.py:306 | The check as written: the numeric state compared with the payload's state value. A plain definition; `AsWrittenNeverMatches` states that it never holds. |
| Requests.AsWrittenNeverMatches | iib/web/api_v1.py:306 | As written, the duplicate check never holds for a string state name. |
| Requests.NextHistory | iib/web/api_v1.py:299-310 | A report matching the current state's name and reason leaves the history alone. Any other report appends exactly one entry after the history. |
| Requests.RepeatedReportIsNoOp | iib/web/api_v1.py:304-310 | With the intended check, reporting a state twice is the same as reporting it once. |
| Requests.NextHistoryAsWritten | iib/web/api_v1.py:306-309 | With the check as written, every report appends exactly one entry, duplicate or not. |
| Requests.RepeatedReportAppendsAsWritten | iib/web/api_v1.py:306-309 | With the check as written, a repeated report appends a second, identical entry. |
| Requests.AssignAllEffect | iib/web/api_v1.py:332-334 | Assigning a list of bundles gives each of them the operator, keeps the other bundles' operators, and adds exactly those bundles. |
| Requests.LastOperatorNamed | iib/web/api_v1.py:330-334 | A bundle has a last listing operator exactly when the mapping names it. |
| Requests.MapBundlesEffect | iib/web/api_v1.py:330-334 | After the mapping loop, every bundle named in the mapping belongs to the last operator whose list names it (`LastOperator`), since a later entry overwrites an earlier one. Unnamed bundles keep their operator, and exactly the named bundles are added. |
| Patch.FieldError | iib/web/api_v1.py:281-292 | "arches" passes iff the architecture check does. "bundle_mapping" passes iff it is an object of lists of strings, else the object error. Any other key passes iff it holds a non-empty string, else the non-empty-string error naming it. |
| Patch.FirstBadField | iib/web/api_v1.py:281-292 | The first key, in payload order, that fails its check. Every earlier key passes. |
| Patch.Check | iib/web/api_v1.py:261-301 | Checks in order: Forbidden for an authenticated non-worker; a non-object; an empty payload; NotFound. A payload is accepted iff its keys are all mutable, every key passes its check, "state" and "state_reason" come together, and the reported state is known. Disallowed keys are reported as the set difference. |
| Patch.AcceptedStateIsString | iib/web/api_v1.py:286-303 | An accepted report's state and reason are the payload's own non-empty strings. |
| Patch.AcceptedImageIsString | iib/web/api_v1.py:291-292 | An accepted image key holds a non-empty string. |
| Patch.UpdatedMeaning | iib/web/api_v1.py:319-325 | Each listed image key the payload carries gets the payload's pull spec. Every other attribute keeps its image. |
| Patch.UpdatedImagesFollowPayload | iib/web/api_v1.py:312-325 | After an accepted PATCH, every image attribute the payload carries holds the payload's own value. Every other attribute is unchanged. |
| Patch.ApplyImages | iib/web/api_v1.py:319-325 | The image loop sets exactly the carried image attributes and creates their images. The history, the architectures and the bundle mapping are unchanged. |
| Patch.ApplyArches | iib/web/api_v1.py:327-328 | Adds every listed architecture, and nothing else changes. |
| Patch.AssignBundles | iib/web/api_v1.py:332-334 | The inner loop assigns the operator to every bundle and creates their images. |
| Patch.ApplyBundleMapping | iib/web/api_v1.py:330-334 | The mapping loop creates every operator and bundle image of the mapping and gives the mapping's assignments. |
| Patch.PatchRequest | iib/web/api_v1.py:250-348 | The verdict is `Check`, and any refusal changes nothing and sends nothing. An accepted PATCH gives the new history, the images, the architectures, the operators and the bundle mapping. One state-change message is sent exactly when the state changes. |
| Patch.DuplicateReportIsSilent | iib/web/api_v1.py:304-310 | With the intended check, a worker re-reporting the current state and reason leaves the history alone and sends no message. |
| Patch.NewReportAppendsOne | iib/web/api_v1.py:308-310 | A new state or reason appends exactly one entry, which becomes the current state, and keeps the history before it. |
| Logs.BuildLogs | iib/web/api_v1.py:56-82 | NotFound without a log directory or request. An existing file gives its contents. A missing file gives Gone when the logs expired, NotFound for a final request, and otherwise empty logs. |
| Logs.LogPath | iib/web/api_v1.py:70 | The log path starts with the log directory and ends with "<id>.log". Under a non-empty directory, a "/" comes before the file name. |
| Logs.LogPathsDistinct | iib/web/api_v1.py:70 | Different request ids have different log paths. |
| Logs.MissingLogsByState | iib/web/api_v1.py:71-79 | With the file missing, the response is a body exactly when the logs have not expired and the request is not final. The body is then empty. |
| PullSpecs.Dedup | iib/workers/tasks/build_regenerate_bundle.py:368-383 | The found pull specs hold exactly the pull specs of the input, each once. |
| PullSpecs.Found | iib/workers/tasks/build_regenerate_bundle.py:368-383 | `found_pullspecs` has no repeats. |
| PullSpecs.FoundMeaning | iib/workers/tasks/build_regenerate_bundle.py:368-383 | A pull spec is found exactly when some CSV mentions it. |
| PullSpecs.ReplaceAll | iib/workers/tasks/build_regenerate_bundle.py:541 | Each pull spec that is a key of the map becomes its value. The others stay, in place. |
| PullSpecs.ReplaceInCsv | iib/workers/tasks/build_regenerate_bundle.py:538-551 | A CSV's pull specs are replaced and it has a relatedImages section afterwards. Its other data is unchanged. |
| PullSpecs.ReplaceInCsvs | iib/workers/tasks/build_regenerate_bundle.py:538-551 | Every CSV of the bundle is replaced as `ReplaceInCsv` says. |
| PullSpecs.RegistryRewrite | iib/workers/tasks/build_regenerate_bundle.py:470-478 | A pull spec is rewritten exactly when its registry maps to a non-empty replacement. Then only its registry changes. |
| PullSpecs.RegistryReplacements | iib/workers/tasks/build_regenerate_bundle.py:468-478 | The loop builds the map of every found pull spec with a mapped registry to its rewrite. |
| PullSpecs.RegistryReplacementOnlyChangesRegistry | iib/workers/tasks/build_regenerate_bundle.py:468-478 | Only found pull specs with a mapped, non-empty registry are replaced, and their namespace, repository and tag are kept. |
| PullSpecs.EncloseRewrite | iib/workers/tasks/build_regenerate_bundle.py:594-602 | The namespace becomes the target, and the registry and tag are kept. The repository is its "/" parts joined with the glue, with a non-empty other namespace put in front. |
| PullSpecs.EncloseReplacements | iib/workers/tasks/build_regenerate_bundle.py:592-602 | The loop maps every found pull spec to its enclosed form. |
| PullSpecs.EnclosedRepoIsFlat | iib/workers/tasks/build_regenerate_bundle.py:596-601 | When neither the glue nor the namespace contains "/", the enclosed repository has no "/". |
| PullSpecs.EncloseWithSlashKeepsRepo | iib/workers/tasks/build_regenerate_bundle.py:596-601 | With "/" as the glue and the namespace already the target (or empty), the repository is unchanged. |
| PullSpecs.ResolveRewrite | iib/workers/tasks/build_regenerate_bundle.py:444-450 | A pull spec is pinned to its resolved image exactly when its tag has no ":". |
| PullSpecs.ResolveReplacements | iib/workers/tasks/build_regenerate_bundle.py:436-450 | The loop builds the map of every unpinned found pull spec to its resolved image. The pinned label is set exactly when some found pull spec was unpinned. |
| PullSpecs.PinnedLabelIffRewrites | iib/workers/tasks/build_regenerate_bundle.py:444-454 | The pinned label is set exactly when the replacement map is non-empty. |
| PullSpecs.NamespaceRepo | iib/workers/tasks/build_regenerate_bundle.py:506-511 | Without "/", there is no namespace and the whole string is the repository. Otherwise the namespace is the part before the first "/" and the repository is the rest. |
| PullSpecs.NamespaceRepoSplitsAtFirstSlash | iib/workers/tasks/build_regenerate_bundle.py:506-511 | For any namespace without "/" and any repository, which may hold further slashes, splitting their join recovers exactly that namespace and repository. |
| PullSpecs.MissingLabelsError | iib/workers/tasks/build_regenerate_bundle.py:500-504 | The IIBError naming the pull spec, the template and the labels it has; a plain definition. |
| PullSpecs.LabelsRewrite | iib/workers/tasks/build_regenerate_bundle.py:495-512 | Fails with the missing-labels IIBError exactly when the template cannot be formatted with the pull spec's labels. Otherwise it sets the namespace and repository from the formatted text. |
| PullSpecs.FirstUnlabelled | iib/workers/tasks/build_regenerate_bundle.py:494-504 | The first found pull spec whose labels do not fill the template. Every earlier one does. |
| PullSpecs.FirstUnlabelledAt | iib/workers/tasks/build_regenerate_bundle.py:494-504 | The loop's failing position is the first one. |
| PullSpecs.LabelsReplacements | iib/workers/tasks/build_regenerate_bundle.py:492-512 | Gives a map exactly when every found pull spec's labels fill the template. |
| PullSpecs.LabelReplacements | iib/workers/tasks/build_regenerate_bundle.py:492-512 | The loop gives `LabelsReplacements`, including the error of the first pull spec that lacks a label. |
| PullSpecs.RelatedBundleImages | iib/workers/tasks/build_regenerate_bundle.py:607-620 | The list holds exactly the string forms of the found pull specs that are bundle images. |
| PullSpecs.GetRelatedBundleImages | iib/workers/tasks/build_regenerate_bundle.py:615-620 | The loop gives `RelatedBundleImages`. |
| PullSpecs.BundleReplacementMap | iib/workers/tasks/build_regenerate_bundle.py:340-344 | The replacement map of perform_bundle_replacements, a later entry winning; a plain definition, whose meaning `BundleReplacementsOnlyBundles` states. |
| PullSpecs.BundleReplacementsOnlyBundles | iib/workers/tasks/build_regenerate_bundle.py:340-344 | A pull spec is replaced exactly when some replacement's old image is a bundle image that parses to it. |
| Annotations.PackageAnnotations | iib/workers/tasks/build_regenerate_bundle.py:387-419 | Every error: no file, invalid YAML, AttributeError on a non-mapping, annotations not a dictionary, package not set, package not a string. Success iff the document is valid, giving the document itself. |
| Annotations.WithPackageNameValid | iib/workers/tasks/build_regenerate_bundle.py:185 | Setting a non-empty package name keeps the document valid, and the document then carries that name. |
| Annotations.SuffixedName | iib/workers/tasks/build_regenerate_bundle.py:181-200 | A name that already ends with the suffix is returned with no labels. Otherwise the name and the package label become name plus suffix. The returned name always ends with the suffix. |
| Annotations.SuffixIdempotent | iib/workers/tasks/build_regenerate_bundle.py:181-183 | Suffixing an already-suffixed name changes nothing and gives no labels. |
| Annotations.ApplySuffix | iib/workers/tasks/build_regenerate_bundle.py:159-200 | Fails exactly as `_get_package_annotations` does. Otherwise it gives `SuffixedName`, and the file is rewritten only when the suffix was missing. |
| Annotations.ApplySuffixTwice | iib/workers/tasks/build_regenerate_bundle.py:177-200 | Applying the suffix to its own result leaves the file alone and sets no label. |
| Annotations.AnnotateCsv | iib/workers/tasks/build_regenerate_bundle.py:570-573 | A CSV document, or an existing `metadata`, that is not a mapping raises AttributeError. With no templates a document with a mapping (or no) `metadata` succeeds. An unformattable first template raises KeyError, even when `annotations` is not a mapping. A formattable first template and an existing `annotations` that is not a mapping raise TypeError. |
| Annotations.NullAnnotationsFormatFirst | iib/workers/tasks/build_regenerate_bundle.py:570-573 | A null `annotations` is kept by `setdefault`: with no templates the document is unchanged. With templates the call fails, with KeyError when the first template cannot be formatted and with TypeError otherwise. |
| Annotations.SetAnnotationsEffect | iib/workers/tasks/build_regenerate_bundle.py:571-573 | With no templates the annotations are returned as they are. With some, they were a mapping. On a mapping every configured annotation gets its last template, formatted, and the others keep their value. |
| Annotations.AnnotateCsvEffect | iib/workers/tasks/build_regenerate_bundle.py:570-573 | `metadata` and `metadata.annotations` exist afterwards. The document's other keys and the other keys of `metadata` keep their values. With no templates, `annotations` is what it was (or an empty mapping when missing). With templates it is a mapping, each configured key holds its formatted template, and the other annotations keep their values. |
| Customize.Plan | iib/workers/tasks/build_regenerate_bundle.py:248-259 | The organization's non-empty configured list, otherwise the eight default customizations. |
| Customize.AnnotateAll | iib/workers/tasks/build_regenerate_bundle.py:566-575 | On success each CSV's data is annotated as `AnnotateCsv` says, and its pull specs and related-images flag are kept. |
| Customize.Step | iib/workers/tasks/build_regenerate_bundle.py:268-345 | A customization returns early exactly when it is related_bundles in a recursive request. |
| Customize.Run | iib/workers/tasks/build_regenerate_bundle.py:267-345 | The loop over the customizations. When it succeeds having returned early, the request is recursive and the list holds related_bundles (or the run had already stopped). A non-recursive request never returns early. |
| Customize.RunAppend | iib/workers/tasks/build_regenerate_bundle.py:267-345 | The customizations take effect in list order: running a concatenation is running one list, then the other. |
| Customize.RecursiveStopsAtRelatedBundles | iib/workers/tasks/build_regenerate_bundle.py:309-323 | In a recursive request, the loop returns at the first related_bundles entry with what the earlier entries did. The later entries never run. |
| Customize.CsvAnnotationsNeedOrganization | iib/workers/tasks/build_regenerate_bundle.py:284 | Without an organization, csv_annotations does nothing. |
| Customize.PinnedBundleNotResolved | iib/workers/tasks/build_regenerate_bundle.py:440-450 | A bundle IIB already pinned is not resolved again and gets no pinned label. |
| Customize.ResolveSetsPinnedLabel | iib/workers/tasks/build_regenerate_bundle.py:333-336 | Resolution sets the pinned label when some found pull spec was unpinned. Otherwise it changes neither the labels nor the bundle. |
| Customize.SuffixStepIdempotent | iib/workers/tasks/build_regenerate_bundle.py:270-277 | The suffix step applied to its own outcome changes nothing. |
| Customize.SuffixTwiceIsOnce | iib/workers/tasks/build_regenerate_bundle.py:270-277 | A package_name_suffix listed twice has the effect of listing it once. |
| Customize.DefaultsInRecursiveRequest | iib/workers/tasks/build_regenerate_bundle.py:248-259 | With the default list in a recursive request, only pull-spec resolution runs before the loop returns. |
| Customize.Bundle.ReplaceCsvPullspecs | iib/workers/tasks/build_regenerate_bundle.py:518-551 | The CSV loop leaves the bundle as `Replaced` says, and nothing else changes. |
| Customize.Bundle.AnnotateCsvs | iib/workers/tasks/build_regenerate_bundle.py:554-575 | Annotating the CSVs in place gives the error of the first failing CSV, or the CSVs `AnnotateAll` gives. After a failure, the CSVs before the failing one are annotated and it and the later ones are unchanged. The annotations file and related bundles never change. |
| Customize.Bundle.WriteRelatedBundles | iib/workers/tasks/build_regenerate_bundle.py:326-331 | The related bundle list is recorded after the earlier ones, and nothing else changes. |
| Customize.Bundle.ApplyPackageNameSuffix | iib/workers/tasks/build_regenerate_bundle.py:159-200 | In place, gives what `ApplySuffix` gives. The annotations file changes only on success. |
| Customize.SetCsvAnnotations | iib/workers/tasks/build_regenerate_bundle.py:570-573 | The nested `setdefault` and the template loop give `AnnotateCsv`, including the AttributeError, TypeError and KeyError cases. |
| Customize.SetEachAnnotation | iib/workers/tasks/build_regenerate_bundle.py:571-573 | The template loop gives `SetAnnotations`. It fails with KeyError at the first template that cannot be formatted, and with TypeError at the first assignment into annotations that are not a mapping. |
| Customize.ApplyCustomization | iib/workers/tasks/build_regenerate_bundle.py:268-345 | One pass of the loop, in place, does what `Step` says. On success the bundle is the step's bundle. |
| Customize.AdjustOperatorBundle | iib/workers/tasks/build_regenerate_bundle.py:203-347 | An invalid annotations file fails with no change. Otherwise the plan runs in order from the package name, and the method returns the labels and leaves the bundle as `Run` says, or gives the first failure. |

## Left out

- Tracing, the WSGI entry point, logging and the read-only endpoints `get_build`, `get_builds` and
  the health check are outside the modelled core.
- The database session, the Celery broker and the message bus are replaced by parameters and
  recorded events. Commit, rollback and the JSON rendering of requests (`to_json`) are not modelled.
- The request models' `from_json`, `Batch.validate_batch_request_params`,
  `Architecture.validate_architecture_json`, `get_mutable_keys` and `RequestStateMapping` are not
  modelled. They are parameters (`Validator`, `ArchCheck`, `mutableKeys`, `StateMapping`).
- `handle_regenerate_bundle_request`, which prepares the bundle around `_adjust_operator_bundle`,
  and the image build that follows are not modelled.
- YAML parsing, `OperatorManifest.from_directory` and its invalid-YAML IIBError, `ImageName` and
  `OperatorCSV`, registry lookups and `_is_bundle_image` are foreign code. They are fields of
  `Lookups` or the files' parsed forms. A failed registry lookup is not modelled.
- `write_related_bundles_file` and its S3 upload are recorded as a list in
  `Bundle.relatedBundleFiles`, not written.
- Python's `set` of found pull specs is iterated in order of first occurrence. The source's
  iteration order is unspecified, and the replacement maps do not depend on it.
- The first-occurrence order of the found pull specs also decides which pull spec the
  missing-labels IIBError of `PullSpecs.LabelsReplacements` names, and the order of the related
  bundle list of `PullSpecs.RelatedBundleImages`. The source's set order may name another one.
- A CSV's `data` and its mentioned pull specs are two independent fields of `PullSpecs.CsvDoc`.
  In the source they are one document: `replace_pullspecs_everywhere` edits the data, and an
  annotation value that holds a pull spec would be found by a later `get_pullspecs`. The model
  does not capture this interplay.
- Each rewrite starts from the found pull spec itself, where the source starts from
  `ImageName.parse(pullspec.to_str())`. The model takes `Lookups.parse(Lookups.show(p)) == p` for
  granted.
- Python equality is structural equality of `Json.Value`, so `True == 1` is not modelled.
- Python dicts compare equal whatever their key order, while two `Json.Value` objects with the same
  items in another order differ. This matters for `build_requests.index(member)` in
  `Batch.BuildRequests`, which could find an earlier member whose keys are ordered differently.
- JSON and YAML floating-point numbers have no `Json.Value` constructor.
- A "type" key missing from a customization entry raises KeyError in the source;
  `Customize.Customization` always has a kind. A missing optional key is the empty string, map or
  list, which the code treats as falsy exactly as it treats `None`.
- Patch.ApplyArches: an "arches" value that passed the architecture check but is not a list adds
  nothing, and an item of the list that is not a string is skipped. The source would iterate over
  the value and pass every item to `add_architecture`. `ArchCheck` is taken to accept only lists
  of strings, as `validate_architecture_json` does.
- PullSpecs.LabelsRewrite: only the KeyError failure of `str.format` is modelled. `Lookups.format`
  gives None for it. An IndexError (a positional field such as "{0}") or a ValueError (an
  unbalanced brace), which the source does not catch, is not modelled.
- Annotations.AnnotateCsv: as for `LabelsRewrite`, a template whose formatting raises IndexError
  or ValueError is not modelled; only the KeyError is.
- Customize.ApplyCustomization: after a failure the bundle may be partly changed (by the CSVs
  already annotated). The contract does not say how.
- Customize.AdjustOperatorBundle: the state of the bundle after a failing customization is left
  unspecified, as in `ApplyCustomization`.
- Customize.Bundle: a CSV is a value inside the bundle, so the source's aliasing between
  `operator_manifest.files` and `bundle_metadata['operator_csvs']` (the same objects) is not
  modelled. Both are the bundle's `csvs`.
- Logs.BuildLogs: `logs_expiration` is compared as an integer time, and the reading of a file is
  its contents in the map.

## Findings

| source | as written | input that shows it | evidently intended | confidence | as-written member | corrected member |
|---|---|---|---|---|---|---|
| iib/web/api_v1.py:306 | `request.state.state == new_state` compares the numeric state code of the current state with the state NAME string of the payload, so the guard never holds | a worker re-sends `{"state": "in_progress", "state_reason": "Building"}` while the request is already in_progress with that reason: a second identical history entry is appended and a second state-change message is sent | compare the current state's name (`state_name`) and reason with the payload's, so that a repeated report is a no-op | not executed | Requests.SameStateAsWritten, Requests.RepeatedReportAppendsAsWritten | Requests.SameState, Requests.RepeatedReportIsNoOp |
