/** The call-logging feature: it logs one line per completed call and one line per lifecycle
    transition of the application, at a level chosen once, when it is installed. */
module Features {
  import opened Wrappers
  import opened Levels
  import opened Logging
  import opened Lifecycle
  import opened Pipeline

  // ---------------------------------------------------------------------------------------
  // Configuration and level selection

  /** The feature's configuration; `configure` blocks are functions from the default. */
  datatype Configuration = Configuration(level: Level)

  function DefaultConfiguration(): (c: Configuration)
    ensures c.level == TRACE
  {
    Configuration(TRACE)
  }

  /** What makes an installation fail: the IllegalArgumentException of an unusable level, or an
      infrastructure phase the pipeline does not have. */
  datatype InstallError = UnsupportedLevel(message: string) | PhaseNotFound(phase: string)

  function UnsupportedMessage(l: Level): string
  {
    "The " + Name(l) + " log level is not supported."
  }

  /** The level the feature will log at: the requested one, provided the feature supports it
      and the logger has it enabled; otherwise installation fails with the level's name. */
  function SelectLevel(requested: Level, log: Logger): (r: Result<Level, InstallError>)
    ensures r.Success? <==> Supported(requested) && requested in log.enabled
    ensures r.Success? ==> r.value == requested
    ensures r.Failure? ==> r.error == UnsupportedLevel(UnsupportedMessage(requested))
  {
    if requested == TRACE && log.IsTraceEnabled() then Success(TRACE)
    else if requested == DEBUG && log.IsDebugEnabled() then Success(DEBUG)
    else if requested == INFO && log.IsInfoEnabled() then Success(INFO)
    else Failure(UnsupportedLevel(UnsupportedMessage(requested)))
  }

  // ---------------------------------------------------------------------------------------
  // Messages

  /** The request and response parts of a call that the feature reads. */
  datatype Request = Request(httpMethod: string, path: string)

  /** An HTTP status code; two codes are the same when value and description both are. */
  datatype HttpStatusCode = HttpStatusCode(value: int, description: string)

  const Found: HttpStatusCode := HttpStatusCode(302, "Found")

  /** A response status together with its string form, which is given as it is. */
  datatype Status = Status(code: HttpStatusCode, text: string)

  /** The status once the call has been handled (none if nothing handled it) and the value of
      its `Location` header, if any. */
  datatype Response = Response(status: Option<Status>, location: Option<string>)

  datatype Call = Call(request: Request, response: Response)

  /** `"<METHOD> - <path>"` */
  function LogInfo(request: Request): (r: string)
    ensures var m, p := request.httpMethod, request.path;
      && |r| == |m| + 3 + |p|
      && r[..|m|] == m
      && r[|m|..|m| + 3] == " - "
      && r[|m| + 3..] == p
  {
    request.httpMethod + " - " + request.path
  }

  /** The string that stands for the status: its own form, or "Unhandled" when absent. */
  function StatusText(status: Option<Status>): string
  {
    match status
    case Some(s) => s.text
    case None => "Unhandled"
  }

  /** A missing header value is rendered by the string template as "null". */
  function LocationText(location: Option<string>): string
  {
    match location
    case Some(v) => v
    case None => "null"
  }

  predicate IsRedirect(status: Option<Status>)
  {
    status.Some? && status.value.code == Found
  }

  /** The line logged for a completed call: `"<status>: <METHOD> - <path>"`, followed by
      `" -> <Location>"` exactly when the status is Found. */
  function SuccessMessage(call: Call): (r: string)
    ensures var head := StatusText(call.response.status) + ": " + LogInfo(call.request);
      && head <= r
      && (|r| > |head| <==> IsRedirect(call.response.status))
      && (IsRedirect(call.response.status) ==> r[|head|..] == " -> " + LocationText(call.response.location))
  {
    var status := StatusText(call.response.status);
    if IsRedirect(call.response.status) then
      status + ": " + LogInfo(call.request) + " -> " + LocationText(call.response.location)
    else
      status + ": " + LogInfo(call.request)
  }

  /** The line logged when the application passes through a lifecycle slot. */
  function LifecycleMessage(slot: Slot, app: string): string
  {
    match slot
    case Starting => "Application starting: " + app
    case Started => "Application started: " + app
    case Stopping => "Application stopping: " + app
    case Stopped => "Application stopped: " + app
  }

  /** The entries `log(message)` hands to the logger: one test per level, in the order info,
      debug, trace. Exactly one entry for a supported level, at that level and with the
      message unchanged; none otherwise. */
  function Dispatched(level: Level, message: string): (r: seq<Entry>)
    ensures Supported(level) ==> r == [Entry(level, message)]
    ensures !Supported(level) ==> r == []
  {
    (if level == INFO then [Entry(INFO, message)] else [])
    + (if level == DEBUG then [Entry(DEBUG, message)] else [])
    + (if level == TRACE then [Entry(TRACE, message)] else [])
  }

  // ---------------------------------------------------------------------------------------
  // The feature instance

  class CallLogging {
    const log: Logger
    const monitor: ApplicationMonitor
    const level: Level

    /** Each slot holds this feature's handler for it exactly once, and no other of its
        handlers. */
    predicate Subscribed()
      reads monitor
    {
      forall slot :: Owned(monitor.Handlers(slot), this) == [Handler(this, slot)]
    }

    /** No slot holds any handler of this feature. */
    predicate Unsubscribed()
      reads monitor
    {
      forall slot :: Owned(monitor.Handlers(slot), this) == []
    }

    /** Builds the feature and subscribes its four handlers, one per slot, after the handlers
        already there. */
    constructor (log: Logger, monitor: ApplicationMonitor, level: Level)
      modifies monitor
      ensures this.log == log && this.monitor == monitor && this.level == level
      ensures forall slot :: monitor.Handlers(slot) == old(monitor.Handlers(slot)) + [Handler(this, slot)]
      ensures forall slot :: Foreign(monitor.Handlers(slot), this) == old(monitor.Handlers(slot))
      ensures Subscribed()
    {
      this.log, this.monitor, this.level := log, monitor, level;
      new;
      monitor.Subscribe(Starting, Handler(this, Starting));
      monitor.Subscribe(Started, Handler(this, Started));
      monitor.Subscribe(Stopping, Handler(this, Stopping));
      monitor.Subscribe(Stopped, Handler(this, Stopped));
      forall slot
        ensures Foreign(monitor.Handlers(slot), this) == old(monitor.Handlers(slot))
        ensures Owned(monitor.Handlers(slot), this) == [Handler(this, slot)]
      {
        AppendOwnHandler(old(monitor.Handlers(slot)), Handler(this, slot));
        NoneOwned(old(monitor.Handlers(slot)), this);
      }
    }

    /** `log(message)` */
    method Log(message: string)
      modifies log`entries
      ensures log.entries == old(log.entries) + Dispatched(level, message)
    {
      if level == INFO { log.Info(message); }
      if level == DEBUG { log.Debug(message); }
      if level == TRACE { log.Trace(message); }
    }

    /** `logSuccess(call)` */
    method LogSuccess(call: Call)
      modifies log`entries
      ensures log.entries == old(log.entries) + Dispatched(level, SuccessMessage(call))
    {
      var status := StatusText(call.response.status);
      if IsRedirect(call.response.status) {
        Log(status + ": " + LogInfo(call.request) + " -> " + LocationText(call.response.location));
      } else {
        Log(status + ": " + LogInfo(call.request));
      }
    }

    /** The four `-=` of the stopped handler: each slot loses the first occurrence of this
        feature's handler for it. */
    method RemoveHandlers()
      modifies monitor
      ensures forall s :: monitor.Handlers(s) == RemoveFirst(old(monitor.Handlers(s)), Handler(this, s))
    {
      monitor.Unsubscribe(Starting, Handler(this, Starting));
      monitor.Unsubscribe(Started, Handler(this, Started));
      monitor.Unsubscribe(Stopping, Handler(this, Stopping));
      monitor.Unsubscribe(Stopped, Handler(this, Stopped));
    }

    /** The body of this feature's handler for `slot`, run with the application's string form.
        The stopped handler also removes all four handlers, itself included: other subscribers
        keep theirs, and a feature that was already unsubscribed leaves the monitor as it was. */
    method Handle(slot: Slot, app: string)
      modifies log`entries, monitor
      ensures log.entries == old(log.entries) + Dispatched(level, LifecycleMessage(slot, app))
      ensures slot != Stopped ==> unchanged(monitor)
      ensures slot == Stopped ==>
        forall s :: monitor.Handlers(s) == RemoveFirst(old(monitor.Handlers(s)), Handler(this, s))
      ensures slot == Stopped ==>
        forall s :: Foreign(monitor.Handlers(s), this) == old(Foreign(monitor.Handlers(s), this))
      ensures slot == Stopped && old(Subscribed()) ==> Unsubscribed()
      ensures old(Unsubscribed()) ==> forall s :: monitor.Handlers(s) == old(monitor.Handlers(s))
    {
      Log(LifecycleMessage(slot, app));
      if slot == Stopped {
        RemoveHandlers();
        forall s
          ensures Foreign(monitor.Handlers(s), this) == old(Foreign(monitor.Handlers(s), this))
          ensures Owned(monitor.Handlers(s), this) == RemoveFirst(old(Owned(monitor.Handlers(s), this)), Handler(this, s))
          ensures old(Unsubscribed()) ==> monitor.Handlers(s) == old(monitor.Handlers(s))
        {
          RemoveOwnHandler(old(monitor.Handlers(s)), Handler(this, s));
          OwnedEmptyIff(old(monitor.Handlers(s)), this);
        }
      }
    }

    /** The monitor raising `slot`, as far as this feature is concerned: its handler for the
        slot runs once if it is subscribed there, and not at all otherwise. */
    method Deliver(slot: Slot, app: string)
      modifies log`entries, monitor
      ensures Handler(this, slot) !in old(monitor.Handlers(slot)) ==>
        log.entries == old(log.entries) && unchanged(monitor)
      ensures Handler(this, slot) in old(monitor.Handlers(slot)) ==>
        log.entries == old(log.entries) + Dispatched(level, LifecycleMessage(slot, app))
      ensures Handler(this, slot) in old(monitor.Handlers(slot)) && slot != Stopped ==> unchanged(monitor)
      ensures Handler(this, slot) in old(monitor.Handlers(slot)) && slot == Stopped ==>
        forall s :: monitor.Handlers(s) == RemoveFirst(old(monitor.Handlers(s)), Handler(this, s))
      ensures Handler(this, slot) in old(monitor.Handlers(slot)) && slot == Stopped && old(Subscribed()) ==>
        Unsubscribed()
    {
      if Handler(this, slot) in monitor.Handlers(slot) {
        Handle(slot, app);
      }
    }

    /** The interceptor installed in the logging phase: it runs the rest of the pipeline first
        and then logs the call as the rest left it. A failure downstream propagates and nothing
        is logged. */
    method Intercept(call: Call, proceed: Call -> Result<Call, string>) returns (r: Result<Call, string>)
      modifies log`entries
      ensures r == proceed(call)
      ensures r.Success? ==> log.entries == old(log.entries) + Dispatched(level, SuccessMessage(r.value))
      ensures r.Failure? ==> log.entries == old(log.entries)
    {
      r := proceed(call);
      if r.Success? {
        LogSuccess(r.value);
      }
    }
  }

  // ---------------------------------------------------------------------------------------
  // Installation

  /** The name of the phase the feature adds to the pipeline. */
  const LoggingPhase: string := "Logging"

  /** `CallLogging.install(pipeline, configure)`. The level is checked first: an unusable level
      fails before anything is built, subscribed or inserted. Otherwise the feature is built
      (subscribing its handlers), the logging phase goes just before the infrastructure phase,
      and the feature's interceptor is added to it. */
  method Install(app: Application, configure: Configuration -> Configuration)
    returns (r: Result<CallLogging, InstallError>, ghost built: CallLogging?)
    modifies app`phases, app`registrations, app.monitor
    ensures var selected := SelectLevel(configure(DefaultConfiguration()).level, app.log);
      selected.Failure? ==> r == Failure(selected.error) && built == null && unchanged(app, app.monitor)
    ensures var selected := SelectLevel(configure(DefaultConfiguration()).level, app.log);
      selected.Success? ==>
        && built != null && fresh(built) && built.monitor == app.monitor
        && (forall s :: app.monitor.Handlers(s) == old(app.monitor.Handlers(s)) + [Handler(built, s)])
        && built.Subscribed()
    ensures var selected := SelectLevel(configure(DefaultConfiguration()).level, app.log);
      selected.Success? && Infrastructure !in old(app.phases) ==>
        && r == Failure(PhaseNotFound(Infrastructure))
        && app.phases == old(app.phases) && app.registrations == old(app.registrations)
    ensures r.Success? <==>
      SelectLevel(configure(DefaultConfiguration()).level, app.log).Success? && Infrastructure in old(app.phases)
    ensures r.Success? ==>
      var f := r.value;
      && f == built && fresh(f) && f.log == app.log && f.monitor == app.monitor
      && f.level == configure(DefaultConfiguration()).level
      && Supported(f.level) && f.level in app.log.enabled
      && (forall s :: app.monitor.Handlers(s) == old(app.monitor.Handlers(s)) + [Handler(f, s)])
      && f.Subscribed()
      && Some(app.phases) == InsertBefore(old(app.phases), Infrastructure, LoggingPhase)
      && app.registrations == old(app.registrations) + [Registration(LoggingPhase, Interceptor(f))]
      && InterceptorsOf(app.registrations, LoggingPhase)
         == InterceptorsOf(old(app.registrations), LoggingPhase) + [Interceptor(f)]
  {
    var configuration := configure(DefaultConfiguration());
    var selected := SelectLevel(configuration.level, app.log);
    if selected.Failure? {
      return Failure(selected.error), null;
    }
    var feature := new CallLogging(app.log, app.monitor, selected.value);
    built := feature;
    var inserted := app.InsertPhaseBefore(Infrastructure, LoggingPhase);
    if !inserted {
      return Failure(PhaseNotFound(Infrastructure)), built;
    }
    app.Intercept(LoggingPhase, Interceptor(feature));
    InterceptorsOfAppend(old(app.registrations), Registration(LoggingPhase, Interceptor(feature)), LoggingPhase);
    return Success(feature), built;
  }
}
