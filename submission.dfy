/** The three single-request submission endpoints of iib/web/api_v1.py: add_bundles,
    rm_operators and regenerate_bundle.  Each validates the payload, persists the request
    (its id is assigned by the database and is a parameter here), announces it, and hands
    it to Celery; a broker outage is handled after the request exists. */
module Submission {
  import opened Wrappers
  import opened Json
  import opened Routing
  import opened Tasks

  /** Rejected: a 400 before anything is persisted.  Created: the 201 with the new request.
      Failed: an uncaught exception after the commit, so the request exists anyway. */
  datatype Response = Rejected(error: Error) | Created(id: nat) | Failed(error: Error)

  /** One POST to /builds/add, /builds/rm or /builds/regenerate-bundle.  `brokerDown` says
      whether `apply_async` raises kombu's OperationalError; a `Submit` event records the
      call, and a `BrokerError` right after it the handling of that exception. */
  method SubmitRequest(kind: Kind, payload: Value, id: nat, ctx: CallerContext, cfg: WebConfig,
                       fromJson: Validator, brokerDown: bool)
    returns (resp: Response, events: seq<Event>)
    ensures !payload.Object? ==> resp == Rejected(ValidationError(NotAnObject)) && events == []
    ensures payload.Object? && fromJson(kind, payload).Some? ==>
              resp == Rejected(ValidationError(fromJson(kind, payload).value)) && events == []
    ensures resp.Rejected? <==> !payload.Object? || fromJson(kind, payload).Some?
    ensures !resp.Rejected? ==>
      match Work(kind, payload, id, ctx, cfg, false)
      case Failure(e) => resp == Failed(e) && events == [NewRequestMessage(id)]
      case Success(w) =>
        && resp == Created(id)
        && events == [NewRequestMessage(id), Submit(kind, id, w.args, w.display, w.queue)]
                     + (if brokerDown then [BrokerError(id)] else [])
    ensures kind == Add && !resp.Rejected? ==>
              (resp == Created(id) <==> Get(payload, "bundles").Some? && Get(payload, "binary_image").Some?)
    ensures kind == Rm && !resp.Rejected? ==>
              (resp == Created(id) <==>
                 Get(payload, "operators").Some? && Get(payload, "binary_image").Some? && Get(payload, "from_index").Some?)
  {
    if !payload.Object? {
      return Rejected(ValidationError(NotAnObject)), [];
    }
    var invalid := fromJson(kind, payload);
    if invalid.Some? {
      return Rejected(ValidationError(invalid.value)), [];
    }
    // db.session.commit() and the announcement of the new request
    events := [NewRequestMessage(id)];
    var work := Prepare(kind, payload, id, ctx, cfg, false);
    if work.Failure? {
      return Failed(work.error), events;
    }
    var w := work.value;
    events := events + [Submit(kind, id, w.args, w.display, w.queue)];
    if brokerDown {
      events := events + [BrokerError(id)];
    }
    resp := Created(id);
  }
}
