/** The Celery work items the web core submits: the three request kinds, the positional
    argument lists of their tasks, and the observable effects of a submission handler
    (notifications, broker submissions, broker-error handling) recorded as events. */
module Tasks {
  import opened Wrappers
  import opened Json
  import opened Routing
  import opened Redaction

  /** RequestAdd, RequestRm and RequestRegenerateBundle. */
  datatype Kind = Add | Rm | RegenerateBundle

  datatype Event =
    | NewRequestMessage(id: nat)      // send_message_for_state_change(request, new_batch_msg=True)
    | NewBatchMessage(ids: seq<nat>)  // send_messages_for_new_batch_of_requests(requests)
    | Submit(kind: Kind, id: nat, args: seq<Value>, display: Option<seq<Value>>, queue: Option<string>)
                                      // handle_*_request.apply_async(args, link_error, argsrepr, queue)
    | BrokerError(id: nat)            // handle_broker_error(request)
    | BrokerBatchError(ids: seq<nat>) // handle_broker_batch_error(requests)
    | StateChangeMessage(id: nat)     // send_message_for_state_change(request)

  /** `payload[key]`, which raises KeyError when the key is absent. */
  function Required(payload: Value, key: string): (r: Result<Value, Error>)
    ensures r.Success? <==> Get(payload, key).Some?
    ensures r.Success? ==> Get(payload, key) == Some(r.value)
    ensures r.Failure? ==> r.error == Crash("KeyError")
  {
    match Get(payload, key)
    case Some(v) => Success(v)
    case None => Failure(Crash("KeyError"))
  }

  /** `config['IIB_GREENWAVE_CONFIG'].get(celery_queue)` */
  function GreenwaveFor(cfg: WebConfig, queue: Option<string>): (r: Value)
    ensures r != Null ==> queue in cfg.greenwaveConfig && r == cfg.greenwaveConfig[queue]
    ensures queue in cfg.greenwaveConfig ==> r == cfg.greenwaveConfig[queue]
  {
    if queue in cfg.greenwaveConfig then cfg.greenwaveConfig[queue] else Null
  }

  const NotAnObject := "The input data must be a JSON object"

  /** The checks `from_json` of the request models applies to a payload, which are not
      part of this model: the message of the ValidationError it raises, or None. */
  type Validator = (Kind, Value) -> Option<string>

  const CnrToken := "cnr_token"
  const OverwriteToken := "overwrite_from_index_token"

  /** Arguments of handle_add_request. */
  function AddArgs(p: Value, id: nat, overwrite: Value, greenwave: Value): (r: Result<seq<Value>, Error>)
    ensures r.Success? <==> Get(p, "bundles").Some? && Get(p, "binary_image").Some?
    ensures r.Success? ==> |r.value| == 11 && r.value[2] == Int(id) && r.value[8] == overwrite
    ensures r.Success? ==> r.value[5] == GetOrNull(p, CnrToken) && r.value[9] == GetOrNull(p, OverwriteToken)
  {
    match (Required(p, "bundles"), Required(p, "binary_image"))
    case (Success(bundles), Success(binaryImage)) =>
      Success([bundles, binaryImage, Int(id), GetOrNull(p, "from_index"), GetOrNull(p, "add_arches"),
               GetOrNull(p, CnrToken), GetOrNull(p, "organization"), GetOrNull(p, "force_backport"),
               overwrite, GetOrNull(p, OverwriteToken), greenwave])
    case (Failure(e), _) => Failure(e)
    case (_, Failure(e)) => Failure(e)
  }

  /** Arguments of handle_rm_request. */
  function RmArgs(p: Value, id: nat, overwrite: Value): (r: Result<seq<Value>, Error>)
    ensures r.Success? <==> Get(p, "operators").Some? && Get(p, "binary_image").Some? && Get(p, "from_index").Some?
    ensures r.Success? ==> |r.value| == 7 && r.value[2] == Int(id) && r.value[5] == overwrite
    ensures r.Success? ==> r.value[6] == GetOrNull(p, OverwriteToken)
  {
    match (Required(p, "operators"), Required(p, "binary_image"), Required(p, "from_index"))
    case (Success(operators), Success(binaryImage), Success(fromIndex)) =>
      Success([operators, binaryImage, Int(id), fromIndex, GetOrNull(p, "add_arches"),
               overwrite, GetOrNull(p, OverwriteToken)])
    case (Failure(e), _, _) => Failure(e)
    case (_, Failure(e), _) => Failure(e)
    case (_, _, Failure(e)) => Failure(e)
  }

  /** Arguments of handle_regenerate_bundle_request. */
  function RegenerateArgs(p: Value, id: nat): (r: Result<seq<Value>, Error>)
    ensures r.Success? <==> Get(p, "from_bundle_image").Some?
    ensures r.Success? ==> r.value == [Get(p, "from_bundle_image").value, GetOrNull(p, "organization"), Int(id)]
  {
    match Required(p, "from_bundle_image")
    case Success(fromBundleImage) => Success([fromBundleImage, GetOrNull(p, "organization"), Int(id)])
    case Failure(e) => Failure(e)
  }

  /** The add task's display copy can always be built: each token sits in its own slot
      (5 and 9), so `index` finds it, and masking the CNR token never hides slot 9.
      The submitted list keeps both secrets. */
  lemma AddArgsRedactable(p: Value, id: nat, overwrite: Value, greenwave: Value)
    requires AddArgs(p, id, overwrite, greenwave).Success?
    ensures var args := AddArgs(p, id, overwrite, greenwave).value;
      && args[5] == GetOrNull(p, CnrToken) && args[9] == GetOrNull(p, OverwriteToken)
      && Redacted(args, GetOrNull(p, CnrToken), GetOrNull(p, OverwriteToken)).Success?
  {
    var args := AddArgs(p, id, overwrite, greenwave).value;
    var cnr, ow := GetOrNull(p, CnrToken), GetOrNull(p, OverwriteToken);
    if Truthy(cnr) {
      var i := FirstIndex(args, cnr);
      assert i <= 5;
      var s := MaskFirst(args, cnr).value;
      assert s[9] == args[9];
    }
  }

  /** The rm task's display copy with only the overwrite token (rm_operators) can always
      be built: the token has its own slot 6. */
  lemma RmArgsRedactable(p: Value, id: nat, overwrite: Value)
    requires RmArgs(p, id, overwrite).Success?
    ensures Redacted(RmArgs(p, id, overwrite).value, Null, GetOrNull(p, OverwriteToken)).Success?
  {
  }

  /** add_rm_batch also masks a truthy `cnr_token` of a remove member, whose arguments
      have no slot for it: unless it happens to equal another argument, `index` raises
      ValueError. */
  lemma RmMemberWithCnrTokenCrashes(p: Value, id: nat, overwrite: Value)
    requires RmArgs(p, id, overwrite).Success?
    requires Truthy(GetOrNull(p, CnrToken)) && GetOrNull(p, CnrToken) !in RmArgs(p, id, overwrite).value
    ensures Redacted(RmArgs(p, id, overwrite).value, GetOrNull(p, CnrToken), GetOrNull(p, OverwriteToken))
            == Failure(Crash("ValueError"))
  {
  }

  /** A token that no other argument of an add request equals, and that is not the mask
      itself, is shown masked in its own slot (5 for `cnr_token`, 9 for `overwrite_from_index_token`)
      and appears nowhere in the display copy; either token may be set, or both. */
  lemma IsolatedTokensMaskedInDisplay(p: Value, id: nat, overwrite: Value, greenwave: Value)
    requires AddArgs(p, id, overwrite, greenwave).Success?
    requires Truthy(GetOrNull(p, CnrToken)) ==>
      (GetOrNull(p, CnrToken) != Mask
       && forall k :: 0 <= k < 11 && k != 5 ==> AddArgs(p, id, overwrite, greenwave).value[k] != GetOrNull(p, CnrToken))
    requires Truthy(GetOrNull(p, OverwriteToken)) ==>
      (GetOrNull(p, OverwriteToken) != Mask
       && forall k :: 0 <= k < 11 && k != 9 ==> AddArgs(p, id, overwrite, greenwave).value[k] != GetOrNull(p, OverwriteToken))
    ensures var args := AddArgs(p, id, overwrite, greenwave).value;
      var display := Redacted(args, GetOrNull(p, CnrToken), GetOrNull(p, OverwriteToken));
      && display.Success?
      && (Truthy(GetOrNull(p, CnrToken)) ==> display.value[5] == Mask && GetOrNull(p, CnrToken) !in display.value)
      && (Truthy(GetOrNull(p, OverwriteToken)) ==> display.value[9] == Mask && GetOrNull(p, OverwriteToken) !in display.value)
  {
    var args := AddArgs(p, id, overwrite, greenwave).value;
    var cnr, ow := GetOrNull(p, CnrToken), GetOrNull(p, OverwriteToken);
    AddArgsRedactable(p, id, overwrite, greenwave);
    var display := Redacted(args, cnr, ow);
    if Truthy(cnr) {
      assert FirstIndex(args, cnr) == 5;
    }
    if Truthy(ow) {
      assert args[9] == ow;
      assert FirstIndex(args, ow) == 9;
    }
    assert Truthy(cnr) && Truthy(ow) ==> ow != cnr;
  }

  /** What one submission hands to Celery: the arguments, the display copy passed as
      `argsrepr` (none for the regenerate task) and the queue. */
  datatype WorkItem = WorkItem(args: seq<Value>, display: Option<seq<Value>>, queue: Option<string>)

  /** The work item of a request of the given kind.  `inBatch` selects add_rm_batch's
      redaction, which also masks a remove member's `cnr_token`; rm_operators masks only
      the overwrite token. */
  function Work(kind: Kind, p: Value, id: nat, ctx: CallerContext, cfg: WebConfig, inBatch: bool)
    : (r: Result<WorkItem, Error>)
    ensures r.Success? && kind != RegenerateBundle ==>
      r.value.queue == UserQueue(ctx, Truthy(OverwriteFromIndex(ctx, cfg, p)), cfg) && r.value.display.Some?
      && |r.value.display.value| == |r.value.args|
    ensures r.Success? && kind == RegenerateBundle ==> r.value.queue == UserQueue(ctx, false, cfg) && r.value.display.None?
    ensures kind == Add ==> (r.Success? <==> AddArgs(p, id, OverwriteFromIndex(ctx, cfg, p), Null).Success?)
    ensures kind == Rm && !inBatch ==> (r.Success? <==> RmArgs(p, id, OverwriteFromIndex(ctx, cfg, p)).Success?)
    // What is submitted is the task's argument list, and what is shown is its redacted copy.
    ensures kind == Add && r.Success? ==>
      var overwrite := OverwriteFromIndex(ctx, cfg, p);
      var args := AddArgs(p, id, overwrite, GreenwaveFor(cfg, UserQueue(ctx, Truthy(overwrite), cfg)));
      var display := Redacted(r.value.args, GetOrNull(p, CnrToken), GetOrNull(p, OverwriteToken));
      && args.Success? && r.value.args == args.value
      && display.Success? && r.value.display == Some(display.value)
    ensures kind == Rm ==>
      var args := RmArgs(p, id, OverwriteFromIndex(ctx, cfg, p));
      var cnr := if inBatch then GetOrNull(p, CnrToken) else Null;
      && (r.Success? <==> args.Success? && Redacted(args.value, cnr, GetOrNull(p, OverwriteToken)).Success?)
      && (r.Success? ==>
            (r.value.args == args.value
             && r.value.display == Some(Redacted(args.value, cnr, GetOrNull(p, OverwriteToken)).value)))
    ensures kind == RegenerateBundle ==>
      && (r.Success? <==> RegenerateArgs(p, id).Success?)
      && (r.Success? ==> r.value.args == RegenerateArgs(p, id).value)
  {
    match kind
    case Add =>
      var overwrite := OverwriteFromIndex(ctx, cfg, p);
      var queue := UserQueue(ctx, Truthy(overwrite), cfg);
      (match AddArgs(p, id, overwrite, GreenwaveFor(cfg, queue))
       case Failure(e) => Failure(e)
       case Success(args) =>
         AddArgsRedactable(p, id, overwrite, GreenwaveFor(cfg, queue));
         var display := Redacted(args, GetOrNull(p, CnrToken), GetOrNull(p, OverwriteToken));
         Success(WorkItem(args, Some(display.value), queue)))
    case Rm =>
      var overwrite := OverwriteFromIndex(ctx, cfg, p);
      var queue := UserQueue(ctx, Truthy(overwrite), cfg);
      (match RmArgs(p, id, overwrite)
       case Failure(e) => Failure(e)
       case Success(args) =>
         match Redacted(args, if inBatch then GetOrNull(p, CnrToken) else Null, GetOrNull(p, OverwriteToken))
         case Failure(e) => Failure(e)
         case Success(display) => Success(WorkItem(args, Some(display), queue)))
    case RegenerateBundle =>
      match RegenerateArgs(p, id)
      case Failure(e) => Failure(e)
      case Success(args) => Success(WorkItem(args, None, UserQueue(ctx, false, cfg)))
  }

  /** Building a work item as the handlers do, the display copy edited in place. */
  method Prepare(kind: Kind, p: Value, id: nat, ctx: CallerContext, cfg: WebConfig, inBatch: bool)
    returns (r: Result<WorkItem, Error>)
    ensures r == Work(kind, p, id, ctx, cfg, inBatch)
  {
    if kind == RegenerateBundle {
      var args := RegenerateArgs(p, id);
      if args.Failure? {
        return Failure(args.error);
      }
      return Success(WorkItem(args.value, None, UserQueue(ctx, false, cfg)));
    }
    var overwrite := OverwriteFromIndex(ctx, cfg, p);
    var queue := UserQueue(ctx, Truthy(overwrite), cfg);
    var args := if kind == Add then AddArgs(p, id, overwrite, GreenwaveFor(cfg, queue)) else RmArgs(p, id, overwrite);
    if args.Failure? {
      return Failure(args.error);
    }
    var cnr := if kind == Add || inBatch then GetOrNull(p, CnrToken) else Null;
    var display := RedactTokens(args.value, cnr, GetOrNull(p, OverwriteToken));
    if display.Failure? {
      return Failure(display.error);
    }
    r := Success(WorkItem(args.value, Some(display.value), queue));
  }
}
