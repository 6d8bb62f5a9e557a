/** `get_build_logs` of iib/web/api_v1.py: serving a request's log file, or saying
    why there is none.  The file system is a map from path to contents and the clock
    is a parameter. */
module Logs {
  import opened Wrappers
  import opened Text
  import opened Routing
  import opened Requests

  /** What the handler reads of the request: its log expiration and the name of its
      current state. */
  datatype LogRequest = LogRequest(logsExpiration: int, stateName: string)

  datatype LogsResponse = NotFound | Gone(message: string) | Body(text: string)

  /** `os.path.join(directory, name)` for a relative name. */
  function JoinPath(directory: string, name: string): (path: string)
    ensures directory == "" || EndsWith(directory, "/") ==> path == directory + name
    ensures directory != "" && !EndsWith(directory, "/") ==> path == directory + "/" + name
  {
    if directory == "" || EndsWith(directory, "/") then directory + name else directory + "/" + name
  }

  /** `os.path.join(request_log_dir, f'{request_id}.log')` */
  function LogPath(directory: string, id: nat): (path: string)
    ensures |path| > |directory| && path[..|directory|] == directory
    ensures EndsWith(path, NatToString(id) + ".log")
    ensures directory != "" ==> EndsWith(path, "/" + NatToString(id) + ".log")
  {
    var name := NatToString(id) + ".log";
    if directory == "" then
      AppendedEndsWith(directory, name);
      JoinPath(directory, name)
    else if EndsWith(directory, "/") then
      assert directory + name == directory[..|directory| - 1] + ("/" + name);
      AppendedEndsWith(directory[..|directory| - 1], "/" + name);
      JoinPath(directory, name)
    else
      assert directory + "/" + name == directory + ("/" + name);
      AppendedEndsWith(directory, "/" + name);
      JoinPath(directory, name)
  }

  function GoneMessage(id: nat): string {
    "The logs for the build request " + NatToString(id) + " no longer exist"
  }

  /** The response for request `id`; `req` is None when there is no such request. */
  function BuildLogs(cfg: WebConfig, id: nat, req: Option<LogRequest>, files: map<string, string>,
                     sm: StateMapping, now: int): (r: LogsResponse)
    ensures cfg.requestLogsDir == "" || req.None? ==> r == NotFound
    ensures cfg.requestLogsDir != "" && req.Some? ==>
      var path := LogPath(cfg.requestLogsDir, id);
      && (path in files ==> r == Body(files[path]))
      && (path !in files && req.value.logsExpiration < now ==> r == Gone(GoneMessage(id)))
      && (path !in files && req.value.logsExpiration >= now ==>
            r == if req.value.stateName in sm.finals then NotFound else Body(""))
  {
    if cfg.requestLogsDir == "" then NotFound
    else match req
      case None => NotFound
      case Some(request) =>
        var path := LogPath(cfg.requestLogsDir, id);
        if path !in files then
          if request.logsExpiration < now then Gone(GoneMessage(id))
          else if request.stateName in sm.finals then NotFound
          else Body("")
        else Body(files[path])
  }

  /** Strings that agree around a middle part agree in the middle. */
  lemma SameMiddle(prefix: string, x: string, y: string, suffix: string)
    requires prefix + (x + suffix) == prefix + (y + suffix)
    ensures x == y
  {
    var px, py := prefix + (x + suffix), prefix + (y + suffix);
    assert |x| == |y|;
    assert x == px[|prefix|..|prefix| + |x|];
    assert y == py[|prefix|..|prefix| + |y|];
  }

  /** Each request has its own log file: different ids give different paths. */
  lemma LogPathsDistinct(directory: string, a: nat, b: nat)
    requires a != b
    ensures LogPath(directory, a) != LogPath(directory, b)
  {
    var prefix := if directory == "" || EndsWith(directory, "/") then directory else directory + "/";
    assert forall name :: JoinPath(directory, name) == prefix + name;
    if LogPath(directory, a) == LogPath(directory, b) {
      SameMiddle(prefix, NatToString(a), NatToString(b), ".log");
      NatToStringInjective(a, b);
    }
  }

  /** While the file is missing, a request that has not expired and is not final gets
      empty logs, and one that is final gets NotFound: the answer never depends on
      anything but the expiration and finality. */
  lemma MissingLogsByState(cfg: WebConfig, id: nat, request: LogRequest, files: map<string, string>,
                           sm: StateMapping, now: int)
    requires cfg.requestLogsDir != "" && LogPath(cfg.requestLogsDir, id) !in files
    ensures BuildLogs(cfg, id, Some(request), files, sm, now).Body? <==>
      request.logsExpiration >= now && request.stateName !in sm.finals
    ensures BuildLogs(cfg, id, Some(request), files, sm, now).Body? ==>
      BuildLogs(cfg, id, Some(request), files, sm, now).text == ""
  {
  }
}
