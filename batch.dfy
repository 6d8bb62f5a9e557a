/** The two batch endpoints of iib/web/api_v1.py: regenerate_bundle_batch and add_rm_batch.
    Both build every member first and reject the whole batch on the first invalid one,
    then commit, announce the batch, and submit the members one by one.  They differ in
    how a broker outage is handled: the regenerate batch stops at the first failure,
    while the add/rm batch reports the failure and goes on with the next member. */
module Batch {
  import opened Wrappers
  import opened Json
  import opened Text
  import opened Routing
  import opened Redaction
  import opened Tasks

  datatype BatchKind = RegenerateBatch | AddRmBatch

  /** Rejected: a 400 before anything is committed.  Created: the 201 with the listed
      requests.  Failed: an uncaught exception (a 500). */
  datatype BatchResponse = Rejected(error: Error) | Created(ids: seq<nat>) | Failed(error: Error)

  const NotAddRm := "Build request is not a valid Add/Rm request."

  predicate Distinct(ids: seq<nat>) {
    forall i, j :: 0 <= i < j < |ids| ==> ids[i] != ids[j]
  }

  /** The request kind a member builds, or the error building it raises.  An add/rm
      member is a removal when its "operators" is truthy, else an addition when its
      "bundles" is truthy; `.get` on a member that is not an object raises AttributeError. */
  function Classify(b: BatchKind, m: Value, fromJson: Validator): (r: Result<Kind, Error>)
    ensures b == RegenerateBatch ==> (r.Success? ==> r.value == RegenerateBundle) && (r.Failure? ==> r.error.ValidationError?)
    ensures b == AddRmBatch && !m.Object? ==> r == Failure(Crash("AttributeError"))
    ensures b == AddRmBatch && r == Success(Rm) ==> Truthy(GetOrNull(m, "operators"))
    ensures b == AddRmBatch && r == Success(Add) ==> !Truthy(GetOrNull(m, "operators")) && Truthy(GetOrNull(m, "bundles"))
    ensures b == AddRmBatch && m.Object? && !Truthy(GetOrNull(m, "operators")) ==>
              (!Truthy(GetOrNull(m, "bundles")) ==> r == Failure(ValidationError(NotAddRm)))
    // A member of the chosen kind builds exactly when its `from_json` accepts it, and is
    // otherwise rejected with the validator's own message.
    ensures b == RegenerateBatch ==>
      && (r.Success? <==> fromJson(RegenerateBundle, m).None?)
      && (r.Failure? ==> r.error == ValidationError(fromJson(RegenerateBundle, m).value))
    ensures b == AddRmBatch && m.Object? && Truthy(GetOrNull(m, "operators")) ==>
      && (r.Success? <==> fromJson(Rm, m).None?)
      && (r.Success? ==> r.value == Rm)
      && (r.Failure? ==> r.error == ValidationError(fromJson(Rm, m).value))
    ensures b == AddRmBatch && m.Object? && !Truthy(GetOrNull(m, "operators")) && Truthy(GetOrNull(m, "bundles")) ==>
      && (r.Success? <==> fromJson(Add, m).None?)
      && (r.Success? ==> r.value == Add)
      && (r.Failure? ==> r.error == ValidationError(fromJson(Add, m).value))
  {
    match b
    case RegenerateBatch =>
      (match fromJson(RegenerateBundle, m)
       case Some(msg) => Failure(ValidationError(msg))
       case None => Success(RegenerateBundle))
    case AddRmBatch =>
      if !m.Object? then Failure(Crash("AttributeError"))
      else
        var kind := if Truthy(GetOrNull(m, "operators")) then Some(Rm)
                    else if Truthy(GetOrNull(m, "bundles")) then Some(Add)
                    else None;
        match kind
        case None => Failure(ValidationError(NotAddRm))
        case Some(k) =>
          match fromJson(k, m)
          case Some(msg) => Failure(ValidationError(msg))
          case None => Success(k)
  }

  /** The position of the first member that does not build, or the number of members. */
  function FirstRejected(b: BatchKind, payloads: seq<Value>, fromJson: Validator): (k: nat)
    ensures k <= |payloads|
    ensures k < |payloads| ==> Classify(b, payloads[k], fromJson).Failure?
    ensures forall j :: 0 <= j < k ==> Classify(b, payloads[j], fromJson).Success?
  {
    if payloads == [] then 0
    else if Classify(b, payloads[0], fromJson).Failure? then 0
    else 1 + FirstRejected(b, payloads[1..], fromJson)
  }

  /** A ValidationError is re-raised with the member's position appended; any other
      exception passes through unchanged. */
  function Reported(e: Error, index: nat): (r: Error)
    ensures r.ValidationError? <==> e.ValidationError?
    ensures !e.ValidationError? ==> r == e
    ensures e.ValidationError? ==> EndsWith(r.message, " in index " + NatToString(index) + ".")
  {
    if e.ValidationError? then
      var head := RStrip(e.message, '.') + ". This occurred on the build request";
      assert head + " in index " + NatToString(index) + "." == head + (" in index " + NatToString(index) + ".");
      AppendedEndsWith(head, " in index " + NatToString(index) + ".");
      ValidationError(head + " in index " + NatToString(index) + ".")
    else e
  }

  /** The outcome of building the members: the kinds of all of them, or the error of the
      first one that does not build. */
  function Build(b: BatchKind, payloads: seq<Value>, fromJson: Validator): (r: Result<seq<Kind>, Error>)
    ensures r.Success? <==> forall j :: 0 <= j < |payloads| ==> Classify(b, payloads[j], fromJson).Success?
    ensures r.Success? ==> |r.value| == |payloads|
    ensures r.Success? ==> forall j :: 0 <= j < |payloads| ==> Classify(b, payloads[j], fromJson) == Success(r.value[j])
    ensures r.Failure? ==>
      var k := FirstRejected(b, payloads, fromJson);
      k < |payloads| && r.error == Reported(Classify(b, payloads[k], fromJson).error, k)
  {
    var k := FirstRejected(b, payloads, fromJson);
    if k < |payloads| then Failure(Reported(Classify(b, payloads[k], fromJson).error, k))
    else Success(seq(|payloads|, j requires 0 <= j < |payloads| => Classify(b, payloads[j], fromJson).value))
  }

  /** The build loop.  The position in a re-raised message comes from
      `payload["build_requests"].index(build_request)`, the first member EQUAL to the
      failing one; it is the failing member's own position, because an equal member
      builds the same way and every earlier member built. */
  method BuildRequests(b: BatchKind, payloads: seq<Value>, fromJson: Validator)
    returns (r: Result<seq<Kind>, Error>)
    ensures r == Build(b, payloads, fromJson)
  {
    var kinds: seq<Kind> := [];
    var i := 0;
    while i < |payloads|
      invariant 0 <= i <= |payloads|
      invariant i <= FirstRejected(b, payloads, fromJson)
      invariant |kinds| == i
      invariant forall j :: 0 <= j < i ==> Classify(b, payloads[j], fromJson) == Success(kinds[j])
    {
      var built := Classify(b, payloads[i], fromJson);
      if built.Failure? {
        var index := FirstIndex(payloads, payloads[i]);
        assert index == i;
        return Failure(Reported(built.error, index));
      }
      kinds := kinds + [built.value];
      i := i + 1;
    }
    assert kinds == Build(b, payloads, fromJson).value;
    r := Success(kinds);
  }

  /** What the dispatch loop will meet at each member of a committed batch: its kind,
      the id the database gave it and its work item (or the exception building the work
      item raises). */
  datatype Plan = Plan(kinds: seq<Kind>, ids: seq<nat>, items: seq<Result<WorkItem, Error>>) {
    predicate WellFormed() {
      |ids| == |kinds| && |items| == |kinds| && Distinct(ids)
    }
  }

  /** `plan` is what the dispatch loop meets on these payloads: member `j`'s work item
      is `Work` of its payload.  (The trigger keeps the link from being unfolded where
      no work item is built.) */
  predicate Describes(plan: Plan, payloads: seq<Value>, ctx: CallerContext, cfg: WebConfig) {
    && plan.WellFormed() && |payloads| == |plan.ids|
    && forall j {:trigger Work(plan.kinds[j], payloads[j], plan.ids[j], ctx, cfg, true)} ::
         0 <= j < |payloads| ==> plan.items[j] == Work(plan.kinds[j], payloads[j], plan.ids[j], ctx, cfg, true)
  }

  /** The plan of the members of a committed batch. */
  function PlanOf(payloads: seq<Value>, kinds: seq<Kind>, ids: seq<nat>, ctx: CallerContext, cfg: WebConfig)
    : (plan: Plan)
    requires |kinds| == |payloads| && |ids| == |payloads| && Distinct(ids)
    ensures plan.kinds == kinds && plan.ids == ids
    ensures Describes(plan, payloads, ctx, cfg)
  {
    Plan(kinds, ids, seq(|payloads|, j requires 0 <= j < |payloads| => Work(kinds[j], payloads[j], ids[j], ctx, cfg, true)))
  }

  /** Building member `i`'s work item in the dispatch loop. */
  method PrepareMember(ghost plan: Plan, payloads: seq<Value>, kinds: seq<Kind>, ids: seq<nat>,
                       ctx: CallerContext, cfg: WebConfig, i: nat)
    returns (work: Result<WorkItem, Error>)
    requires Describes(plan, payloads, ctx, cfg) && plan.kinds == kinds && plan.ids == ids && i < |payloads|
    ensures work == plan.items[i]
  {
    work := Prepare(kinds[i], payloads[i], ids[i], ctx, cfg, true);
  }

  /** The position of the first member whose work item raises, or the number of members. */
  function FirstCrash(plan: Plan, from: nat): (c: nat)
    requires plan.WellFormed() && from <= |plan.ids|
    ensures from <= c <= |plan.ids|
    ensures c < |plan.ids| ==> plan.items[c].Failure?
    ensures forall j :: from <= j < c ==> plan.items[j].Success?
    decreases |plan.ids| - from
  {
    if from == |plan.ids| || plan.items[from].Failure? then from
    else FirstCrash(plan, from + 1)
  }

  /** The first position below `n` at which the broker refuses a submission, or `n`. */
  function FirstRefused(failing: set<nat>, n: nat, from: nat): (f: nat)
    requires from <= n
    ensures from <= f <= n
    ensures f < n ==> f in failing
    ensures forall j :: from <= j < f ==> j !in failing
    decreases n - from
  {
    if from == n || from in failing then from else FirstRefused(failing, n, from + 1)
  }

  /** The submission of member `j`. */
  function SubmitOf(plan: Plan, j: nat): (e: Event)
    requires plan.WellFormed() && j < FirstCrash(plan, 0)
    ensures e.Submit? && e.id == plan.ids[j]
  {
    var w := plan.items[j].value;
    Submit(plan.kinds[j], plan.ids[j], w.args, w.display, w.queue)
  }

  /** The submissions of the first `k` members, in order. */
  function Submits(plan: Plan, k: nat): (s: seq<Event>)
    requires plan.WellFormed() && k <= FirstCrash(plan, 0)
    ensures |s| == k
  {
    if k == 0 then [] else Submits(plan, k - 1) + [SubmitOf(plan, k - 1)]
  }

  /** `[str(r.id) for r in requests]`, the `processed_request_ids` of a prefix. */
  function Labels(ids: seq<nat>): (r: seq<string>)
    ensures |r| == |ids|
  {
    if ids == [] then [] else [NatToString(ids[0])] + Labels(ids[1..])
  }

  lemma {:induction false} LabelAt(ids: seq<nat>, j: nat)
    requires j < |ids|
    ensures Labels(ids)[j] == NatToString(ids[j])
  {
    if j > 0 {
      LabelAt(ids[1..], j - 1);
    }
  }

  /** `[r for r in requests if str(r.id) not in processed_request_ids]` */
  function Unprocessed(ids: seq<nat>, processed: seq<string>): seq<nat> {
    if ids == [] then []
    else (if NatToString(ids[0]) in processed then [] else [ids[0]]) + Unprocessed(ids[1..], processed)
  }

  /** Filtering by the printed ids of a prefix of distinct ids leaves exactly the suffix:
      the broker-error handler is given the members from the failing one on. */
  lemma UnprocessedIsSuffix(ids: seq<nat>, i: nat)
    requires Distinct(ids) && i <= |ids|
    ensures Unprocessed(ids, Labels(ids[..i])) == ids[i..]
  {
    UnprocessedFrom(ids, i, 0);
  }

  lemma {:induction false} UnprocessedFrom(ids: seq<nat>, i: nat, k: nat)
    requires Distinct(ids) && i <= |ids| && k <= |ids|
    ensures Unprocessed(ids[k..], Labels(ids[..i])) == ids[if k < i then i else k..]
    decreases |ids| - k
  {
    var processed := Labels(ids[..i]);
    if k < |ids| {
      UnprocessedFrom(ids, i, k + 1);
      assert ids[k..][1..] == ids[k + 1..];
      if k < i {
        LabelAt(ids[..i], k);
      } else {
        forall j | 0 <= j < i
          ensures processed[j] != NatToString(ids[k])
        {
          LabelAt(ids[..i], j);
          if processed[j] == NatToString(ids[k]) {
            NatToStringInjective(ids[j], ids[k]);
          }
        }
        assert ids[k..] == [ids[k]] + ids[k + 1..];
      }
    }
  }

  /** The requests handed to `handle_broker_batch_error`: those whose printed id is not
      among the printed ids of the processed ones, which are the members from the first
      unprocessed one on. */
  method UnprocessedRequests(ids: seq<nat>, processed: seq<nat>) returns (unprocessed: seq<nat>)
    requires Distinct(ids) && |processed| <= |ids| && processed == ids[..|processed|]
    ensures unprocessed == ids[|processed|..]
  {
    var processedRequestIds := Labels(processed);
    unprocessed := Unprocessed(ids, processedRequestIds);
    UnprocessedIsSuffix(ids, |processed|);
  }

  /** A re-raised validation message ends with the position of the failing member. */
  lemma ReportedNamesIndex(e: Error, index: nat)
    requires e.ValidationError?
    ensures Reported(e, index).ValidationError?
    ensures EndsWith(Reported(e, index).message, "index " + NatToString(index) + ".")
  {
    var stem := RStrip(e.message, '.') + ". This occurred on the build request in ";
    assert Reported(e, index).message == stem + ("index " + NatToString(index) + ".");
    AppendedEndsWith(stem, "index " + NatToString(index) + ".");
  }

  /** The ids of the requests submitted, in submission order. */
  function SubmittedIds(events: seq<Event>): seq<nat> {
    if events == [] then []
    else
      var last := events[|events| - 1];
      SubmittedIds(events[..|events| - 1]) + (if last.Submit? then [last.id] else [])
  }

  lemma {:induction false} SubmittedIdsAppend(a: seq<Event>, b: seq<Event>)
    ensures SubmittedIds(a + b) == SubmittedIds(a) + SubmittedIds(b)
    decreases |b|
  {
    if b == [] {
      assert a + b == a;
    } else {
      var b' := b[..|b| - 1];
      assert (a + b)[..|a + b| - 1] == a + b';
      assert (a + b)[|a + b| - 1] == b[|b| - 1];
      SubmittedIdsAppend(a, b');
    }
  }


  /** regenerate_bundle_batch after the commit: the members are submitted in order until
      the broker refuses one (at `f`) or a work item raises (at `c`).  On a refusal the
      members before it are reported as created, the refused one and all later ones go
      to the broker-error handler, and nothing after it is submitted. */
  function RegenerateOutcome(plan: Plan, failing: set<nat>): (BatchResponse, seq<Event>)
    requires plan.WellFormed()
  {
    var n := |plan.ids|;
    var c := FirstCrash(plan, 0);
    var f := FirstRefused(failing, n, 0);
    if f < c then (Created(plan.ids[..f]), Submits(plan, f + 1) + [BrokerBatchError(plan.ids[f..])])
    else if c < n then (Failed(plan.items[c].error), Submits(plan, c))
    else (Created(plan.ids), Submits(plan, n))
  }

  /** The events of the first `k` members of an add/rm batch: each member is submitted,
      and a refused one is followed by the broker-error handling of every member from it
      on, including those that are submitted afterwards. */
  function AddRmEvents(plan: Plan, failing: set<nat>, k: nat): seq<Event>
    requires plan.WellFormed() && k <= FirstCrash(plan, 0)
  {
    if k == 0 then []
    else
      AddRmEvents(plan, failing, k - 1) + [SubmitOf(plan, k - 1)]
      + (if k - 1 in failing then [BrokerBatchError(plan.ids[k - 1..])] else [])
  }

  /** add_rm_batch after the commit: every member is submitted whatever the broker does,
      until a work item raises. */
  function AddRmOutcome(plan: Plan, failing: set<nat>): (BatchResponse, seq<Event>)
    requires plan.WellFormed()
  {
    var c := FirstCrash(plan, 0);
    (if c < |plan.ids| then Failed(plan.items[c].error) else Created(plan.ids), AddRmEvents(plan, failing, c))
  }

  lemma RegenerateCrashedAt(plan: Plan, failing: set<nat>, i: nat)
    requires plan.WellFormed() && i == FirstCrash(plan, 0) && i < |plan.ids|
    requires forall j :: 0 <= j < i ==> j !in failing
    ensures RegenerateOutcome(plan, failing) == (Failed(plan.items[i].error), Submits(plan, i))
  {
    assert FirstRefused(failing, |plan.ids|, 0) >= i;
  }

  lemma RegenerateRefusedAt(plan: Plan, failing: set<nat>, i: nat)
    requires plan.WellFormed() && i < FirstCrash(plan, 0) && i in failing
    requires forall j :: 0 <= j < i ==> j !in failing
    ensures RegenerateOutcome(plan, failing)
            == (Created(plan.ids[..i]), Submits(plan, i + 1) + [BrokerBatchError(plan.ids[i..])])
  {
    assert FirstRefused(failing, |plan.ids|, 0) == i;
  }

  lemma RegenerateCompleted(plan: Plan, failing: set<nat>)
    requires plan.WellFormed() && FirstCrash(plan, 0) == |plan.ids|
    requires forall j :: 0 <= j < |plan.ids| ==> j !in failing
    ensures RegenerateOutcome(plan, failing) == (Created(plan.ids), Submits(plan, |plan.ids|))
  {
    assert FirstRefused(failing, |plan.ids|, 0) == |plan.ids|;
  }

  /** The dispatch loop of regenerate_bundle_batch; `failing` holds the positions at
      which `apply_async` raises OperationalError. */
  method DispatchRegenerate(ghost plan: Plan, payloads: seq<Value>, kinds: seq<Kind>, ids: seq<nat>,
                            ctx: CallerContext, cfg: WebConfig,
                            failing: set<nat>)
    returns (resp: BatchResponse, events: seq<Event>)
    requires Describes(plan, payloads, ctx, cfg) && plan.kinds == kinds && plan.ids == ids
    ensures (resp, events) == RegenerateOutcome(plan, failing)
  {
    var requestJsons: seq<nat> := [];
    var processed: seq<nat> := [];
    events := [];
    var i := 0;
    while i < |ids|
      invariant 0 <= i <= |ids|
      invariant i <= FirstCrash(plan, 0)
      invariant forall j :: 0 <= j < i ==> j !in failing
      invariant requestJsons == ids[..i] && processed == ids[..i]
      invariant events == Submits(plan, i)
    {
      var work := PrepareMember(plan, payloads, kinds, ids, ctx, cfg, i);
      if work.Failure? {
        RegenerateCrashedAt(plan, failing, i);
        return Failed(work.error), events;
      }
      var w := work.value;
      events := events + [Submit(kinds[i], ids[i], w.args, w.display, w.queue)];
      if i in failing {
        RegenerateRefusedAt(plan, failing, i);
        var unprocessed := UnprocessedRequests(ids, processed);
        events := events + [BrokerBatchError(unprocessed)];
        return Created(requestJsons), events;
      }
      requestJsons := requestJsons + [ids[i]];
      processed := processed + [ids[i]];
      assert ids[..i + 1] == ids[..i] + [ids[i]];
      i := i + 1;
    }
    assert ids[..i] == ids;
    RegenerateCompleted(plan, failing);
    resp := Created(requestJsons);
  }

  /** The dispatch loop of add_rm_batch. */
  method DispatchAddRm(ghost plan: Plan, payloads: seq<Value>, kinds: seq<Kind>, ids: seq<nat>,
                            ctx: CallerContext, cfg: WebConfig,
                       failing: set<nat>)
    returns (resp: BatchResponse, events: seq<Event>)
    requires Describes(plan, payloads, ctx, cfg) && plan.kinds == kinds && plan.ids == ids
    ensures (resp, events) == AddRmOutcome(plan, failing)
  {
    var requestJsons: seq<nat> := [];
    var processed: seq<nat> := [];
    events := [];
    var i := 0;
    while i < |ids|
      invariant 0 <= i <= |ids|
      invariant i <= FirstCrash(plan, 0)
      invariant requestJsons == ids[..i] && processed == ids[..i]
      invariant events == AddRmEvents(plan, failing, i)
    {
      requestJsons := requestJsons + [ids[i]];
      var work := PrepareMember(plan, payloads, kinds, ids, ctx, cfg, i);
      if work.Failure? {
        return Failed(work.error), events;
      }
      var w := work.value;
      events := events + [Submit(kinds[i], ids[i], w.args, w.display, w.queue)];
      if i in failing {
        var unprocessed := UnprocessedRequests(ids, processed);
        events := events + [BrokerBatchError(unprocessed)];
      }
      processed := processed + [ids[i]];
      assert ids[..i + 1] == ids[..i] + [ids[i]];
      i := i + 1;
    }
    assert ids[..i] == ids;
    resp := Created(requestJsons);
  }

  /** POST /builds/regenerate-bundle-batch or /builds/add-rm-batch, given the members of
      `build_requests` (the checks of `validate_batch_request_params` are not part of this
      model) and the ids the commit assigns.  Nothing is committed, announced or submitted
      unless every member builds. */
  method SubmitBatch(b: BatchKind, payloads: seq<Value>, ids: seq<nat>, ctx: CallerContext, cfg: WebConfig,
                     fromJson: Validator, failing: set<nat>)
    returns (resp: BatchResponse, events: seq<Event>)
    requires |ids| == |payloads| && Distinct(ids)
    ensures Build(b, payloads, fromJson).Failure? ==>
      var e := Build(b, payloads, fromJson).error;
      events == [] && resp == (if e.ValidationError? then Rejected(e) else Failed(e))
    ensures Build(b, payloads, fromJson).Success? ==>
      var plan := PlanOf(payloads, Build(b, payloads, fromJson).value, ids, ctx, cfg);
      && |events| >= 1 && events[0] == NewBatchMessage(ids)
      && (resp, events[1..]) == (if b == RegenerateBatch then RegenerateOutcome(plan, failing)
                                 else AddRmOutcome(plan, failing))
  {
    var built := BuildRequests(b, payloads, fromJson);
    if built.Failure? {
      var e := built.error;
      return if e.ValidationError? then Rejected(e) else Failed(e), [];
    }
    ghost var plan := PlanOf(payloads, built.value, ids, ctx, cfg);
    var rest;
    if b == RegenerateBatch {
      resp, rest := DispatchRegenerate(plan, payloads, built.value, ids, ctx, cfg, failing);
    } else {
      resp, rest := DispatchAddRm(plan, payloads, built.value, ids, ctx, cfg, failing);
    }
    events := [NewBatchMessage(ids)] + rest;
  }

  /** The first `k` submissions are those of the first `k` members, in order. */
  lemma {:induction false} SubmitsInOrder(plan: Plan, k: nat)
    requires plan.WellFormed() && k <= FirstCrash(plan, 0)
    ensures SubmittedIds(Submits(plan, k)) == plan.ids[..k]
  {
    if k > 0 {
      SubmitsInOrder(plan, k - 1);
      SubmittedIdsAppend(Submits(plan, k - 1), [SubmitOf(plan, k - 1)]);
      assert [SubmitOf(plan, k - 1)][..0] == [];
      assert plan.ids[..k] == plan.ids[..k - 1] + [plan.ids[k - 1]];
    }
  }

  /** regenerate_bundle_batch on a broker refusal at position `f`: the members before it
      are reported as created, it and every later member go to the broker-error handler,
      and no member after it is submitted. */
  lemma RegenerateStopsAtRefusal(plan: Plan, failing: set<nat>, f: nat)
    requires plan.WellFormed() && f < FirstCrash(plan, 0)
    requires f in failing && forall j :: 0 <= j < f ==> j !in failing
    ensures var (resp, events) := RegenerateOutcome(plan, failing);
      && resp == Created(plan.ids[..f])
      && SubmittedIds(events) == plan.ids[..f + 1]
      && events[|events| - 1] == BrokerBatchError(plan.ids[f..])
  {
    RegenerateRefusedAt(plan, failing, f);
    SubmitsInOrder(plan, f + 1);
    SubmittedIdsAppend(Submits(plan, f + 1), [BrokerBatchError(plan.ids[f..])]);
    assert [BrokerBatchError(plan.ids[f..])][..0] == [];
  }

  /** The submissions of an add/rm batch are those of its members in order, whatever the
      broker does: a refusal does not stop the loop. */
  lemma {:induction false} AddRmSubmitsInOrder(plan: Plan, failing: set<nat>, k: nat)
    requires plan.WellFormed() && k <= FirstCrash(plan, 0)
    ensures SubmittedIds(AddRmEvents(plan, failing, k)) == plan.ids[..k]
  {
    if k > 0 {
      AddRmSubmitsInOrder(plan, failing, k - 1);
      var before := AddRmEvents(plan, failing, k - 1);
      var tail := if k - 1 in failing then [BrokerBatchError(plan.ids[k - 1..])] else [];
      SubmittedIdsAppend(before, [SubmitOf(plan, k - 1)]);
      SubmittedIdsAppend(before + [SubmitOf(plan, k - 1)], tail);
      assert [SubmitOf(plan, k - 1)][..0] == [];
      if tail != [] {
        assert tail[..0] == [];
      }
      assert plan.ids[..k] == plan.ids[..k - 1] + [plan.ids[k - 1]];
    }
  }

  /** An event of an earlier prefix of the add/rm events is still there later. */
  lemma {:induction false} AddRmEventsGrow(plan: Plan, failing: set<nat>, m: nat, k: nat, e: Event)
    requires plan.WellFormed() && m <= k <= FirstCrash(plan, 0)
    requires e in AddRmEvents(plan, failing, m)
    ensures e in AddRmEvents(plan, failing, k)
    decreases k - m
  {
    if m < k {
      AddRmEventsGrow(plan, failing, m, k - 1, e);
    }
  }

  /** In add_rm_batch a refusal at `j` hands every member from `j` on to the broker-error
      handler, and each later member is submitted all the same: without a crash the
      response lists every member. */
  lemma AddRmRefusalReportsLaterMembers(plan: Plan, failing: set<nat>, j: nat, k: nat)
    requires plan.WellFormed() && FirstCrash(plan, 0) == |plan.ids|
    requires j in failing && j < k < |plan.ids|
    ensures var (resp, events) := AddRmOutcome(plan, failing);
      && resp == Created(plan.ids)
      && BrokerBatchError(plan.ids[j..]) in events && plan.ids[k] in plan.ids[j..]
      && SubmittedIds(events) == plan.ids
  {
    var n := |plan.ids|;
    assert BrokerBatchError(plan.ids[j..]) in AddRmEvents(plan, failing, j + 1);
    AddRmEventsGrow(plan, failing, j + 1, n, BrokerBatchError(plan.ids[j..]));
    AddRmSubmitsInOrder(plan, failing, n);
    assert plan.ids[k] == plan.ids[j..][k - j];
    assert plan.ids[..n] == plan.ids;
  }
}
