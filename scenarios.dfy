/** Whole runs of the feature against a fresh logger, monitor and pipeline, each ending in the
    exact log it produces. */
module Scenarios {
  import opened Wrappers
  import opened Levels
  import opened Logging
  import opened Lifecycle
  import opened Pipeline
  import opened Features

  /** Installing with the default configuration on a logger with TRACE enabled, then taking the
      application through starting, started, stopping and stopped, and raising stopped once
      more: four lines in order, each naming the application, and no handler left anywhere. */
  method LifecycleTranscript(app: string) returns (lines: seq<Entry>, remaining: seq<Handler>)
    ensures lines == [
      Entry(TRACE, "Application starting: " + app),
      Entry(TRACE, "Application started: " + app),
      Entry(TRACE, "Application stopping: " + app),
      Entry(TRACE, "Application stopped: " + app)]
    ensures remaining == []
  {
    var log := new Logger({TRACE});
    var monitor := new ApplicationMonitor();
    var application := new Application(log, monitor, [Infrastructure]);
    var r; ghost var built;
    r, built := Install(application, c => c);
    assert r.Success?;
    var feature := r.value;
    StartUp(feature, app);
    ShutDown(feature, app);
    lines := log.entries;
    remaining := monitor.Handlers(Starting) + monitor.Handlers(Started)
               + monitor.Handlers(Stopping) + monitor.Handlers(Stopped);
  }

  /** The first three transitions of a freshly subscribed feature logging at TRACE. */
  method StartUp(feature: CallLogging, app: string)
    requires feature.level == TRACE && feature.log.entries == []
    requires forall s :: feature.monitor.Handlers(s) == [Handler(feature, s)]
    modifies feature.log`entries, feature.monitor
    ensures feature.log.entries == [
      Entry(TRACE, "Application starting: " + app),
      Entry(TRACE, "Application started: " + app),
      Entry(TRACE, "Application stopping: " + app)]
    ensures unchanged(feature.monitor)
  {
    feature.Deliver(Starting, app);
    feature.Deliver(Started, app);
    feature.Deliver(Stopping, app);
  }

  /** Raising stopped twice: one line, and every handler of the feature gone. */
  method ShutDown(feature: CallLogging, app: string)
    requires feature.level == TRACE
    requires forall s :: feature.monitor.Handlers(s) == [Handler(feature, s)]
    modifies feature.log`entries, feature.monitor
    ensures feature.log.entries == old(feature.log.entries) + [Entry(TRACE, "Application stopped: " + app)]
    ensures forall s :: feature.monitor.Handlers(s) == []
  {
    feature.Deliver(Stopped, app);
    feature.Deliver(Stopped, app);
  }

  /** The line for a `GET /items` call answered with Found and a `Location` of `/items/1`,
      where `foundText` is the status's string form. */
  lemma RedirectLine(foundText: string)
    ensures SuccessMessage(Call(Request("GET", "/items"), Response(Some(Status(Found, foundText)), Some("/items/1"))))
         == foundText + ": GET - /items -> /items/1"
  {
    var status := Some(Status(Found, foundText));
    assert IsRedirect(status);
    assert LogInfo(Request("GET", "/items")) == "GET - /items";
    assert foundText + ": " + "GET - /items" + " -> " + "/items/1" == foundText + ": GET - /items -> /items/1";
  }

  /** A `GET /items` call that the rest of the pipeline answers with Found and a `Location` of
      `/items/1`. */
  method RedirectTranscript(foundText: string) returns (lines: seq<Entry>)
    ensures lines == [Entry(TRACE, foundText + ": GET - /items -> /items/1")]
  {
    var log := new Logger({TRACE, DEBUG, INFO});
    var monitor := new ApplicationMonitor();
    var application := new Application(log, monitor, [Infrastructure]);
    var r; ghost var built;
    r, built := Install(application, c => c);
    assert r.Success?;
    var answered := Response(Some(Status(Found, foundText)), Some("/items/1"));
    var done := r.value.Intercept(Call(Request("GET", "/items"), Response(None, None)),
                                  (c: Call) => Success(Call(c.request, answered)));
    RedirectLine(foundText);
    lines := log.entries;
  }

  lemma OkLine(okText: string)
    ensures SuccessMessage(Call(Request("POST", "/submit"), Response(Some(Status(HttpStatusCode(200, "OK"), okText)), None)))
         == okText + ": POST - /submit"
  {
  }

  /** A `POST /submit` call answered with 200 at level INFO: no redirect suffix. */
  method OkTranscript(okText: string) returns (lines: seq<Entry>)
    ensures lines == [Entry(INFO, okText + ": POST - /submit")]
  {
    var log := new Logger({INFO});
    var monitor := new ApplicationMonitor();
    var application := new Application(log, monitor, [Infrastructure]);
    var configure := (c: Configuration) => Configuration(INFO);
    assert configure(DefaultConfiguration()).level == INFO;
    var r; ghost var built;
    r, built := Install(application, configure);
    assert r.Success?;
    var answered := Response(Some(Status(HttpStatusCode(200, "OK"), okText)), None);
    var call := Call(Request("POST", "/submit"), answered);
    var done := r.value.Intercept(call, (c: Call) => Success(call));
    OkLine(okText);
    lines := log.entries;
  }

  lemma UnhandledLine()
    ensures SuccessMessage(Call(Request("GET", "/missing"), Response(None, None))) == "Unhandled: GET - /missing"
  {
  }

  /** A call that nothing handled, logged as Unhandled. */
  method UnhandledTranscript() returns (lines: seq<Entry>)
    ensures lines == [Entry(DEBUG, "Unhandled: GET - /missing")]
  {
    var log := new Logger({DEBUG});
    var monitor := new ApplicationMonitor();
    var application := new Application(log, monitor, [Infrastructure]);
    var configure := (c: Configuration) => Configuration(DEBUG);
    assert configure(DefaultConfiguration()).level == DEBUG;
    var r; ghost var built;
    r, built := Install(application, configure);
    assert r.Success?;
    var call := Call(Request("GET", "/missing"), Response(None, None));
    var done := r.value.Intercept(call, c => Success(c));
    UnhandledLine();
    lines := log.entries;
  }

  lemma InfoRejectedMessage()
    ensures UnsupportedMessage(INFO) == "The INFO log level is not supported."
  {
  }

  /** Asking for INFO from a logger that has INFO disabled: installation fails with the
      level's message, and the pipeline and the monitor are as they were. */
  method RejectedInstall() returns (error: InstallError, phases: seq<string>,
                                    registrations: seq<Registration>, handlers: seq<Handler>)
    ensures error == UnsupportedLevel("The INFO log level is not supported.")
    ensures phases == [Infrastructure] && registrations == [] && handlers == []
  {
    var log := new Logger({TRACE, DEBUG});
    var monitor := new ApplicationMonitor();
    var application := new Application(log, monitor, [Infrastructure]);
    var configure := (c: Configuration) => Configuration(INFO);
    assert SelectLevel(configure(DefaultConfiguration()).level, log).Failure?;
    var r; ghost var built;
    r, built := Install(application, configure);
    assert r.Failure?;
    InfoRejectedMessage();
    error := r.error;
    phases, registrations := application.phases, application.registrations;
    handlers := monitor.Handlers(Starting) + monitor.Handlers(Started)
              + monitor.Handlers(Stopping) + monitor.Handlers(Stopped);
  }
}
