/** Queue routing of iib/web/api_v1.py: which Celery queue a submitted request goes to,
    and whether the "overwrite_from_index" behaviour (serial execution) is forced. */
module Routing {
  import opened Wrappers
  import opened Json

  /** The caller as the login layer reports it; `authenticated` is false only when
      authentication is disabled. */
  datatype CallerContext = CallerContext(authenticated: bool, username: string)

  /** The parts of the Flask application configuration the web core reads. */
  datatype WebConfig = WebConfig(
    userToQueue: map<string, string>,     // IIB_USER_TO_QUEUE
    privilegedUsernames: set<string>,     // IIB_PRIVILEGED_USERNAMES
    forceOverwriteFromIndex: bool,        // IIB_FORCE_OVERWRITE_FROM_INDEX
    greenwaveConfig: map<Option<string>, Value>,  // IIB_GREENWAVE_CONFIG; a None key is Python's None
    requestLogsDir: string)               // IIB_REQUEST_LOGS_DIR, "" when unset

  const SerialPrefix := "SERIAL:"
  const ParallelPrefix := "PARALLEL:"

  /** The labelled user name looked up first. */
  function QueueLabel(username: string, serial: bool): (labeled: string)
    ensures serial ==> labeled == SerialPrefix + username
    ensures !serial ==> labeled == ParallelPrefix + username
  {
    (if serial then SerialPrefix else ParallelPrefix) + username
  }

  /** The labelled names never collide: each names one user and one kind of queue. */
  lemma QueueLabelsDistinct(u: string, v: string, serial: bool, otherSerial: bool)
    requires QueueLabel(u, serial) == QueueLabel(v, otherSerial)
    ensures u == v && serial == otherSerial
  {
    var a, b := QueueLabel(u, serial), QueueLabel(v, otherSerial);
    assert a[0] == b[0];
    assert serial == otherSerial;
    var n := |if serial then SerialPrefix else ParallelPrefix|;
    assert u == a[n..] && v == b[n..];
  }

  /** `_should_force_overwrite()` */
  function ShouldForceOverwrite(ctx: CallerContext, cfg: WebConfig): (force: bool)
    ensures force <==> ctx.authenticated && ctx.username in cfg.privilegedUsernames
                       && cfg.forceOverwriteFromIndex
  {
    if !ctx.authenticated then false
    else
      var shouldForce := ctx.username in cfg.privilegedUsernames && cfg.forceOverwriteFromIndex;
      shouldForce
  }

  /** `_get_user_queue(serial)`: None stands for Celery's default queue.  A label mapped
      to a falsy (empty) queue name falls back to the bare user name, as `if not queue` does. */
  function UserQueue(ctx: CallerContext, serial: bool, cfg: WebConfig): (queue: Option<string>)
    ensures !ctx.authenticated ==> queue == None
    ensures ctx.authenticated ==>
      var lbl := QueueLabel(ctx.username, serial);
      if lbl in cfg.userToQueue && cfg.userToQueue[lbl] != "" then
        queue == Some(cfg.userToQueue[lbl])
      else if ctx.username in cfg.userToQueue then
        queue == Some(cfg.userToQueue[ctx.username])
      else
        queue == None
  {
    if !ctx.authenticated then None
    else
      var labeled := QueueLabel(ctx.username, serial);
      var queue := if labeled in cfg.userToQueue then Some(cfg.userToQueue[labeled]) else None;
      if queue == None || queue == Some("") then
        if ctx.username in cfg.userToQueue then Some(cfg.userToQueue[ctx.username]) else None
      else queue
  }

  /** `_should_force_overwrite() or payload.get('overwrite_from_index')`: Python's `or`
      yields `True` or else the payload's value itself (None when absent). */
  function OverwriteFromIndex(ctx: CallerContext, cfg: WebConfig, payload: Value): (v: Value)
    ensures Truthy(v) <==> ShouldForceOverwrite(ctx, cfg) || Truthy(GetOrNull(payload, "overwrite_from_index"))
    ensures ShouldForceOverwrite(ctx, cfg) ==> v == Bool(true)
    ensures !ShouldForceOverwrite(ctx, cfg) ==> v == GetOrNull(payload, "overwrite_from_index")
  {
    if ShouldForceOverwrite(ctx, cfg) then Bool(true) else GetOrNull(payload, "overwrite_from_index")
  }

  /** The queue of an add or rm request: routed serially exactly when the overwrite is
      forced for this caller or the payload asks for it. */
  function OverwriteQueue(ctx: CallerContext, cfg: WebConfig, payload: Value): (queue: Option<string>)
    ensures queue == UserQueue(ctx, ShouldForceOverwrite(ctx, cfg)
                                    || Truthy(GetOrNull(payload, "overwrite_from_index")), cfg)
  {
    UserQueue(ctx, Truthy(OverwriteFromIndex(ctx, cfg, payload)), cfg)
  }

  /** A privileged caller gets its serial queue whatever the payload says, once the
      force flag is on. */
  lemma ForcedCallerRoutedSerially(ctx: CallerContext, cfg: WebConfig, payload: Value)
    requires ctx.authenticated && ctx.username in cfg.privilegedUsernames && cfg.forceOverwriteFromIndex
    requires SerialPrefix + ctx.username in cfg.userToQueue
    requires cfg.userToQueue[SerialPrefix + ctx.username] != ""
    ensures OverwriteQueue(ctx, cfg, payload) == Some(cfg.userToQueue[SerialPrefix + ctx.username])
  {
  }
}
