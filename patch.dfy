/** `patch_request` of iib/web/api_v1.py: the checks a worker's update must pass, all
    made before anything changes, then the update of the request's state history,
    images, architectures and bundle-to-operator mapping. */
module Patch {
  import opened Wrappers
  import opened Json
  import opened Text
  import opened Routing
  import opened Tasks
  import opened Requests

  const NoKeys := "At least one key must be specified to update the request"
  const ReasonRequired := "The \"state_reason\" key is required when \"state\" is supplied"
  const StateRequired := "The \"state\" key is required when \"state_reason\" is supplied"
  const BundleMappingShape := "The \"bundle_mapping\" key must be an object with the values as lists of strings"

  /** The message for a key whose value must be a non-empty string. */
  function NonEmptyString(key: string): (msg: string)
    ensures msg == "The value for \"" + key + "\" must be a non-empty string"
  {
    "The value for \"" + key + "\" must be a non-empty string"
  }

  /** The image attributes a worker may set, in the order they are set. */
  const ImageKeys: seq<string> :=
    ["binary_image_resolved", "bundle_image", "from_bundle_image_resolved", "from_index_resolved", "index_image"]

  /** `Architecture.validate_architecture_json`, which is not part of this model: the
      message of the ValidationError it raises, or None. */
  type ArchCheck = Value -> Option<string>

  /** The check one key of the payload must pass: None when it passes. */
  function FieldError(key: string, value: Value, archCheck: ArchCheck): (r: Option<Error>)
    ensures key == "arches" ==> (r.None? <==> archCheck(value).None?)
    ensures key == "bundle_mapping" ==>
      (r.None? <==> value.Object? && ListsOfStrings(value.fields))
      && (r.Some? ==> r == Some(ValidationError(BundleMappingShape)))
    ensures key != "arches" && key != "bundle_mapping" ==>
      (r.None? <==> value.Str? && value.s != "")
      && (r.Some? ==> r == Some(ValidationError(NonEmptyString(key))))
  {
    if key == "arches" then
      match archCheck(value)
      case Some(msg) => Some(ValidationError(msg))
      case None => None
    else if key == "bundle_mapping" then
      if value.Object? && ListsOfStrings(value.fields) then None
      else Some(ValidationError(BundleMappingShape))
    else if !Truthy(value) || !value.Str? then Some(ValidationError(NonEmptyString(key)))
    else None
  }

  /** The position of the first key, in payload order, whose check fails, or `|fields|`. */
  function FirstBadField(fields: Fields, archCheck: ArchCheck): (k: nat)
    ensures k <= |fields|
    ensures k < |fields| ==> FieldError(fields[k].0, fields[k].1, archCheck).Some?
    ensures forall j :: 0 <= j < k ==> FieldError(fields[j].0, fields[j].1, archCheck).None?
  {
    if fields == [] then 0
    else if FieldError(fields[0].0, fields[0].1, archCheck).Some? then 0
    else 1 + FirstBadField(fields[1..], archCheck)
  }

  /** Every key passes its check. */
  predicate FieldsPass(fields: Fields, archCheck: ArchCheck) {
    forall p :: p in fields ==> FieldError(p.0, p.1, archCheck).None?
  }

  /** The verdict of the checks, in the order the handler makes them. */
  datatype Verdict = Accepted | Refused(error: Error) | Missing | Forbidden

  /** `current_user.is_authenticated and current_user.username not in allowed_users` */
  predicate ForbiddenCaller(ctx: CallerContext, workers: set<string>) {
    ctx.authenticated && ctx.username !in workers
  }

  /** The state name a payload reports. */
  function ReportedState(fields: Fields): string {
    match Lookup(fields, "state")
    case Some(Str(s)) => s
    case _ => ""
  }

  /** The reason a payload reports. */
  function ReportedReason(fields: Fields): string {
    match Lookup(fields, "state_reason")
    case Some(Str(s)) => s
    case _ => ""
  }

  /** Everything `patch_request` checks before it changes anything. */
  function Check(ctx: CallerContext, workers: set<string>, payload: Value, found: bool,
                 mutableKeys: set<string>, sm: StateMapping, archCheck: ArchCheck): (v: Verdict)
    ensures ForbiddenCaller(ctx, workers) ==> v == Forbidden
    ensures !ForbiddenCaller(ctx, workers) && !payload.Object? ==> v == Refused(ValidationError(NotAnObject))
    ensures !ForbiddenCaller(ctx, workers) && payload == Object([]) ==> v == Refused(ValidationError(NoKeys))
    ensures v == Missing <==> !ForbiddenCaller(ctx, workers) && payload.Object? && payload.fields != [] && !found
    ensures v == Accepted <==>
      && !ForbiddenCaller(ctx, workers) && payload.Object? && payload.fields != [] && found
      && Keys(payload.fields) <= mutableKeys
      && FieldsPass(payload.fields, archCheck)
      && ("state" in Keys(payload.fields) <==> "state_reason" in Keys(payload.fields))
      && ("state" in Keys(payload.fields) ==> ReportedState(payload.fields) in sm.codes)
    ensures payload.Object? && found && v.Refused? && !(Keys(payload.fields) <= mutableKeys) ==>
      v.error == DisallowedKeys(Keys(payload.fields) - mutableKeys)
  {
    if ForbiddenCaller(ctx, workers) then Forbidden
    else if !payload.Object? then Refused(ValidationError(NotAnObject))
    else if payload.fields == [] then Refused(ValidationError(NoKeys))
    else if !found then Missing
    else
      var fields := payload.fields;
      var invalid := Keys(fields) - mutableKeys;
      if invalid != {} then Refused(DisallowedKeys(invalid))
      else
        assert Keys(fields) <= mutableKeys by {
          forall key | key in Keys(fields) ensures key in mutableKeys {
            assert key !in invalid;
          }
        }
        var k := FirstBadField(fields, archCheck);
        if k < |fields| then
          assert !FieldsPass(fields, archCheck) by { assert fields[k] in fields; }
          Refused(FieldError(fields[k].0, fields[k].1, archCheck).value)
        else
          assert FieldsPass(fields, archCheck) by {
            forall p | p in fields ensures FieldError(p.0, p.1, archCheck).None? {
              var j :| 0 <= j < |fields| && fields[j] == p;
            }
          }
          if "state" in Keys(fields) && "state_reason" !in Keys(fields) then Refused(ValidationError(ReasonRequired))
          else if "state_reason" in Keys(fields) && "state" !in Keys(fields) then Refused(ValidationError(StateRequired))
          else if "state" in Keys(fields) && ReportedState(fields) !in sm.codes then
            Refused(InvalidState(ReportedState(fields)))
          else Accepted
  }

  /** Once the checks pass, a reported state and reason are non-empty strings, so the
      payload's own values are the ones recorded. */
  lemma AcceptedStateIsString(fields: Fields, archCheck: ArchCheck)
    requires FieldsPass(fields, archCheck) && "state" in Keys(fields) && "state_reason" in Keys(fields)
    ensures Lookup(fields, "state") == Some(Str(ReportedState(fields))) && ReportedState(fields) != ""
    ensures Lookup(fields, "state_reason") == Some(Str(ReportedReason(fields))) && ReportedReason(fields) != ""
  {
    LookupFindsKeys(fields, "state");
    LookupFindsKeys(fields, "state_reason");
    assert ("state", Lookup(fields, "state").value) in fields;
    assert ("state_reason", Lookup(fields, "state_reason").value) in fields;
  }

  /** A key the checks accepted, other than `arches` and `bundle_mapping`, holds a
      non-empty string. */
  lemma AcceptedImageIsString(fields: Fields, archCheck: ArchCheck, key: string)
    requires FieldsPass(fields, archCheck) && key in Keys(fields)
    requires key != "arches" && key != "bundle_mapping"
    ensures Lookup(fields, key).Some? && Lookup(fields, key).value.Str? && Lookup(fields, key).value.s != ""
  {
    LookupFindsKeys(fields, key);
    assert (key, Lookup(fields, key).value) in fields;
  }

  /** The pull spec a payload gives for an image key. */
  function PullSpecFor(fields: Fields, key: string): string {
    match Lookup(fields, key)
    case Some(Str(s)) => s
    case _ => ""
  }

  /** The image attributes after setting, in order, those of `keys` the payload carries. */
  function Updated(images: map<string, string>, fields: Fields, keys: seq<string>): map<string, string>
    decreases |keys|
  {
    if keys == [] then images
    else
      var previous := Updated(images, fields, keys[..|keys| - 1]);
      var key := keys[|keys| - 1];
      if key in Keys(fields) then previous[key := PullSpecFor(fields, key)] else previous
  }

  /** The pull specs of the image attributes of `keys` the payload carries. */
  function SuppliedImages(fields: Fields, keys: seq<string>): set<string>
    decreases |keys|
  {
    if keys == [] then {}
    else
      var key := keys[|keys| - 1];
      SuppliedImages(fields, keys[..|keys| - 1]) + (if key in Keys(fields) then {PullSpecFor(fields, key)} else {})
  }

  /** Each listed key the payload carries gets the payload's pull spec; every other
      attribute keeps its image. */
  lemma {:induction false} UpdatedMeaning(images: map<string, string>, fields: Fields, keys: seq<string>)
    decreases |keys|
    ensures forall k :: k in keys && k in Keys(fields) ==>
      k in Updated(images, fields, keys) && Updated(images, fields, keys)[k] == PullSpecFor(fields, k)
    ensures forall k :: (k !in keys || k !in Keys(fields)) ==>
      (k in Updated(images, fields, keys) <==> k in images)
      && (k in images ==> Updated(images, fields, keys)[k] == images[k])
  {
    if keys != [] {
      var init := keys[..|keys| - 1];
      UpdatedMeaning(images, fields, init);
      assert keys == init + [keys[|keys| - 1]];
    }
  }

  /** Every image attribute the payload carries is recorded with the payload's own
      value, and every other attribute keeps its image. */
  lemma UpdatedImagesFollowPayload(images: map<string, string>, fields: Fields, archCheck: ArchCheck)
    requires FieldsPass(fields, archCheck)
    ensures forall k :: k in ImageKeys && k in Keys(fields) ==>
      k in Updated(images, fields, ImageKeys) && Lookup(fields, k) == Some(Str(Updated(images, fields, ImageKeys)[k]))
    ensures forall k :: k in images && (k !in ImageKeys || k !in Keys(fields)) ==>
      k in Updated(images, fields, ImageKeys) && Updated(images, fields, ImageKeys)[k] == images[k]
  {
    UpdatedMeaning(images, fields, ImageKeys);
    forall k | k in ImageKeys && k in Keys(fields)
      ensures Lookup(fields, k) == Some(Str(PullSpecFor(fields, k)))
    {
      AcceptedImageIsString(fields, archCheck, k);
    }
  }

  /** The loop over the image keys: `Image.get_or_create` and `setattr` for each key
      the payload carries. */
  method ApplyImages(req: Request, reg: Registry, fields: Fields)
    modifies req, reg
    ensures req.images == Updated(old(req.images), fields, ImageKeys)
    ensures reg.images == old(reg.images) + SuppliedImages(fields, ImageKeys)
    ensures req.states == old(req.states) && req.arches == old(req.arches)
    ensures reg.operators == old(reg.operators) && reg.bundleOperator == old(reg.bundleOperator)
  {
    var i := 0;
    while i < |ImageKeys|
      invariant 0 <= i <= |ImageKeys|
      invariant req.images == Updated(old(req.images), fields, ImageKeys[..i])
      invariant reg.images == old(reg.images) + SuppliedImages(fields, ImageKeys[..i])
      invariant req.states == old(req.states) && req.arches == old(req.arches)
      invariant reg.operators == old(reg.operators) && reg.bundleOperator == old(reg.bundleOperator)
    {
      var key := ImageKeys[i];
      assert ImageKeys[..i + 1][..i] == ImageKeys[..i];
      if key in Keys(fields) {
        var pullspec := PullSpecFor(fields, key);
        reg.GetOrCreateImage(pullspec);
        req.SetImage(key, pullspec);
      }
      i := i + 1;
    }
    assert ImageKeys[..i] == ImageKeys;
  }

  /** The architectures a value lists. */
  function ArchNames(arches: Value): set<string> {
    if arches.List? then Names(arches.items) else {}
  }

  /** `for arch in payload.get('arches', []): request.add_architecture(arch)` */
  method ApplyArches(req: Request, arches: Value)
    modifies req
    ensures req.arches == old(req.arches) + ArchNames(arches)
    ensures req.states == old(req.states) && req.images == old(req.images)
  {
    if !arches.List? {
      return;
    }
    var items := arches.items;
    var i := 0;
    while i < |items|
      invariant 0 <= i <= |items|
      invariant req.arches == old(req.arches) + Names(items[..i])
      invariant req.states == old(req.states) && req.images == old(req.images)
    {
      assert items[..i + 1] == items[..i] + [items[i]];
      if items[i].Str? {
        req.AddArchitecture(items[i].s);
      }
      i := i + 1;
    }
    assert items[..i] == items;
  }

  /** `for bundle in bundles`: each bundle image gets the operator. */
  method AssignBundles(reg: Registry, bundles: seq<Value>, operator: string)
    requires forall x :: x in bundles ==> x.Str?
    modifies reg
    ensures reg.bundleOperator == AssignAll(old(reg.bundleOperator), bundles, operator)
    ensures reg.images == old(reg.images) + Names(bundles)
    ensures reg.operators == old(reg.operators)
  {
    var i := 0;
    while i < |bundles|
      invariant 0 <= i <= |bundles|
      invariant AssignAll(reg.bundleOperator, bundles[i..], operator) == AssignAll(old(reg.bundleOperator), bundles, operator)
      invariant reg.images == old(reg.images) + Names(bundles[..i])
      invariant reg.operators == old(reg.operators)
    {
      assert bundles[i..][1..] == bundles[i + 1..];
      assert bundles[..i + 1] == bundles[..i] + [bundles[i]];
      reg.GetOrCreateImage(bundles[i].s);
      reg.SetBundleOperator(bundles[i].s, operator);
      i := i + 1;
    }
    assert bundles[..i] == bundles;
  }

  /** `for operator, bundles in payload.get('bundle_mapping', {}).items()` */
  method ApplyBundleMapping(reg: Registry, mapping: Fields)
    requires ListsOfStrings(mapping)
    modifies reg
    ensures reg.bundleOperator == MapBundles(old(reg.bundleOperator), mapping)
    ensures reg.operators == old(reg.operators) + Keys(mapping)
    ensures reg.images == old(reg.images) + MappedBundles(mapping)
  {
    var i := 0;
    while i < |mapping|
      invariant 0 <= i <= |mapping|
      invariant MapBundles(reg.bundleOperator, mapping[i..]) == MapBundles(old(reg.bundleOperator), mapping)
      invariant reg.operators == old(reg.operators) + Keys(mapping[..i])
      invariant reg.images == old(reg.images) + MappedBundles(mapping[..i])
    {
      var operator := mapping[i].0;
      var bundles := mapping[i].1.items;
      assert mapping[i] in mapping;
      assert mapping[i..][1..] == mapping[i + 1..];
      assert mapping[..i + 1] == mapping[..i] + [mapping[i]];
      assert Keys(mapping[..i + 1]) == Keys(mapping[..i]) + {operator};
      assert MappedBundles(mapping[..i + 1]) == MappedBundles(mapping[..i]) + Names(bundles);
      reg.GetOrCreateOperator(operator);
      AssignBundles(reg, bundles, operator);
      i := i + 1;
    }
    assert mapping[..i] == mapping;
  }

  /** The bundle mapping a payload carries, `{}` when it has none. */
  function BundleMapping(fields: Fields): Fields {
    match Lookup(fields, "bundle_mapping")
    case Some(Object(m)) => m
    case _ => []
  }

  /** The architectures a payload carries, `[]` when it has none. */
  function Arches(fields: Fields): Value {
    match Lookup(fields, "arches")
    case Some(v) => v
    case None => List([])
  }

  /** Whether an accepted payload changes the state: it reports one, and not the
      current one. */
  predicate ChangesState(current: StateEntry, fields: Fields) {
    "state" in Keys(fields) && !SameState(current, ReportedState(fields), ReportedReason(fields))
  }

  /** `patch_request(request_id)`.  `req` is the request with that id, null when there
      is none; `now` is the time `add_state` records. */
  method PatchRequest(ctx: CallerContext, workers: set<string>, req: Request?, reg: Registry, payload: Value,
                      mutableKeys: set<string>, sm: StateMapping, archCheck: ArchCheck, now: int)
    returns (v: Verdict, events: seq<Event>)
    requires req != null ==> req.Valid()
    modifies req, reg
    ensures v == Check(ctx, workers, payload, req != null, mutableKeys, sm, archCheck)
    ensures v != Accepted ==> events == [] && unchanged(reg) && (req != null ==> unchanged(req))
    ensures v == Accepted ==> req != null && payload.Object? && req.Valid()
    ensures v == Accepted ==> var fields := payload.fields;
      && req.states == (if "state" in Keys(fields)
                        then NextHistory(old(req.states), sm.codes[ReportedState(fields)], ReportedState(fields), ReportedReason(fields), now)
                        else old(req.states))
      && req.images == Updated(old(req.images), fields, ImageKeys)
      && req.arches == old(req.arches) + ArchNames(Arches(fields))
      && reg.bundleOperator == MapBundles(old(reg.bundleOperator), BundleMapping(fields))
      && reg.operators == old(reg.operators) + Keys(BundleMapping(fields))
      && reg.images == old(reg.images) + SuppliedImages(fields, ImageKeys) + MappedBundles(BundleMapping(fields))
      && events == (if ChangesState(old(req.Current()), fields) then [StateChangeMessage(req.id)] else [])
  {
    v := Check(ctx, workers, payload, req != null, mutableKeys, sm, archCheck);
    if v != Accepted {
      return v, [];
    }
    var fields := payload.fields;
    var stateUpdated := false;
    if "state" in Keys(fields) {
      var newState, newReason := ReportedState(fields), ReportedReason(fields);
      if !SameState(req.Current(), newState, newReason) {
        req.AddState(sm.codes[newState], newState, newReason, now);
        stateUpdated := true;
      }
    }
    ghost var imagesBefore := reg.images;
    ApplyImages(req, reg, fields);
    ApplyArches(req, Arches(fields));
    var mapping := BundleMapping(fields);
    assert ListsOfStrings(mapping) by {
      if "bundle_mapping" in Keys(fields) {
        LookupFindsKeys(fields, "bundle_mapping");
        assert ("bundle_mapping", Lookup(fields, "bundle_mapping").value) in fields;
      }
    }
    ApplyBundleMapping(reg, mapping);
    events := if stateUpdated then [StateChangeMessage(req.id)] else [];
  }

  /** A worker reporting the state the request is already in, with the same reason,
      leaves the history as it is and sends no message. */
  lemma DuplicateReportIsSilent(current: StateEntry, history: seq<StateEntry>, fields: Fields, code: int, now: int)
    requires |history| > 0 && history[|history| - 1] == current
    requires "state" in Keys(fields) && current.name == ReportedState(fields) && current.reason == ReportedReason(fields)
    ensures !ChangesState(current, fields)
    ensures NextHistory(history, code, ReportedState(fields), ReportedReason(fields), now) == history
  {
  }

  /** A new state or reason appends exactly one entry, which becomes the current state. */
  lemma NewReportAppendsOne(history: seq<StateEntry>, fields: Fields, code: int, now: int)
    requires |history| > 0 && ChangesState(history[|history| - 1], fields)
    ensures var h := NextHistory(history, code, ReportedState(fields), ReportedReason(fields), now);
      && |h| == |history| + 1 && h[..|history|] == history
      && h[|history|] == StateEntry(code, ReportedState(fields), ReportedReason(fields), now)
  {
  }
}
