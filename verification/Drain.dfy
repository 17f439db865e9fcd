/** Draining handlers before resources go away: the handler tracker, and the ends of Serve
    and Shutdown that stop the lifecycle. */
module Drain {

  /** activeHandlerTracker.  Channels are numbered in the order they are made; `shut` holds
      those that have been closed. */
  class Tracker {
    var active: nat
    var idle: nat
    var shut: set<nat>
    var made: nat
    var closed: bool

    /** The idle channel is closed exactly when no handler is active. */
    ghost predicate Valid()
      reads this
    {
      (idle in shut <==> active == 0) && idle < made && forall c :: c in shut ==> c < made
    }

    ghost predicate Quiet()
      reads this
    {
      Valid() && closed && active == 0
    }

    constructor ()
      ensures Valid() && active == 0 && !closed
    {
      active, idle, shut, made, closed := 0, 0, {0}, 1, false;
    }

    /** begin: refused once the tracker is closed. */
    method Begin() returns (ok: bool)
      requires Valid()
      modifies this
      ensures Valid() && Later(old(Look()), Look()) && closed == old(closed)
      ensures ok == !old(closed) && active == old(active) + (if ok then 1 else 0)
    {
      if closed { return false; }
      if active == 0 { idle, made := made, made + 1; }
      active := active + 1;
      ok := true;
    }

    /** end: the channel is closed when the last handler leaves; it was open. */
    method End()
      requires Valid()
      modifies this
      ensures Valid() && Later(old(Look()), Look()) && closed == old(closed)
      ensures active == (if old(active) > 0 then old(active) - 1 else 0)
      ensures shut != old(shut) ==> idle !in old(shut)
    {
      if active > 0 {
        active := active - 1;
        if active == 0 { shut := shut + {idle}; }
      }
    }

    method StopAccepting()
      requires Valid()
      modifies this`closed
      ensures Valid() && closed && Later(old(Look()), Look())
    {
      closed := true;
    }

    ghost function Look(): Seen
      reads this
    {
      Seen(active, idle, shut, closed)
    }
  }

  datatype Seen = Seen(active: nat, idle: nat, shut: set<nat>, closed: bool)

  /** What may happen to a tracker over time: closed channels stay closed, a closed tracker
      stays closed, and then handlers only leave and no new channel is made. */
  ghost predicate Later(s: Seen, s': Seen) {
    && s.shut <= s'.shut
    && (s.closed ==> s'.closed && s'.active <= s.active && s'.idle == s.idle)
  }

  lemma LaterTransitive(a: Seen, b: Seen, c: Seen)
    requires Later(a, b) && Later(b, c)
    ensures Later(a, c)
  {
  }

  /** Whether the components have been built and started; a failure is kept. */
  datatype ApplyState = NotApplied | Applied | ApplyFailed

  /** How an attempt to build and start them goes; NotBegun: the registration barrier could
      not be closed in time. */
  datatype Attempt = Applies | NotBegun | BuildFails | StartFails(retryable: bool)

  /** The parts of the application that matter here. */
  class App {
    const http: Tracker
    const grpc: Tracker
    /** The handlers that are waited for leave before the deadline; the servers are drained
        with time left to stop the lifecycle. */
    const handlersLeave: bool
    const inTime: bool
    /** The servers of Serve have been started, HTTP and perhaps gRPC. */
    var listening: bool
    var grpcServed: bool
    /** A gRPC server is recorded as active: its handlers are waited for. */
    var grpcActive: bool
    var apply: ApplyState
    var serving: bool
    var served: bool
    var shutdownRequested: bool
    var handlersUnsafe: bool
    /** History: how often Lifecycle.Stop has begun. */
    ghost var stops: nat

    /** Once the lifecycle has been stopped, no handler is active and none can ever begin. */
    ghost predicate Valid()
      reads this, http, grpc
    {
      && http != grpc && http.Valid() && grpc.Valid()
      && (!listening ==> http.active == 0) && (!grpcServed ==> grpc.active == 0)
      && (grpcActive ==> grpcServed) && (grpcServed && !grpcActive ==> grpc.Quiet())
      && (stops > 0 ==> AllQuiet() && (shutdownRequested || served || apply == ApplyFailed))
      && (listening ==> served) && (served ==> apply == Applied) && (grpcServed ==> listening)
    }

    ghost predicate AllQuiet()
      reads this, http, grpc
    {
      && (if listening then http.Quiet() else http.active == 0)
      && (grpcServed ==> grpc.Quiet())
    }

    /** Handlers and other callers of Shutdown have moved on; nothing else has. */
    twostate predicate MovedOn()
      reads this, http, grpc
    {
      && Later(old(http.Look()), http.Look()) && Later(old(grpc.Look()), grpc.Look())
      && (old(shutdownRequested) ==> shutdownRequested)
    }

    constructor (leave: bool, prompt: bool)
      ensures handlersLeave == leave && inTime == prompt
      ensures Valid() && stops == 0 && !serving && !served && !shutdownRequested && !listening && apply == NotApplied
      ensures fresh(http) && fresh(grpc)
    {
      var h := new Tracker();
      var g := new Tracker();
      http, grpc, handlersLeave, inTime := h, g, leave, prompt;
      listening, grpcServed, grpcActive := false, false, false;
      apply, serving, served, shutdownRequested, handlersUnsafe, stops := NotApplied, false, false, false, false, 0;
    }

    /** Handlers begin and end as they like, and other callers of Shutdown close the trackers. */
    method Others()
      requires Valid()
      modifies http, grpc, this`shutdownRequested
      ensures Valid() && MovedOn()
    {
      var n: int := *;
      while n > 0
        invariant Valid() && MovedOn()
      {
        label L:
        OneMove();
        LaterTransitive(old(http.Look()), old@L(http.Look()), http.Look());
        LaterTransitive(old(grpc.Look()), old@L(grpc.Look()), grpc.Look());
        n := n - 1;
      }
    }

    method OneMove()
      requires Valid()
      modifies http, grpc, this`shutdownRequested
      ensures Valid() && MovedOn()
    {
      var which: int := *;
      if which == 0 && listening {
        var ok := http.Begin();
      } else if which == 1 {
        http.End();
      } else if which == 2 && grpcServed {
        var ok := grpc.Begin();
      } else if which == 3 {
        grpc.End();
      } else if which == 4 {
        shutdownRequested := true;
        http.StopAccepting();
        if grpcActive { grpc.StopAccepting(); }
      }
    }

    /** The handlers of a closed tracker leave. */
    method LetLeave(t: Tracker)
      requires Valid() && (t == http || t == grpc)
      modifies t
      ensures Valid() && Later(old(t.Look()), t.Look()) && t.closed == old(t.closed)
      ensures t.closed ==> t.active == 0
    {
      while t.closed && t.active > 0
        invariant Valid() && Later(old(t.Look()), t.Look()) && t.closed == old(t.closed)
        decreases t.active
      {
        t.End();
      }
    }

    /** wait: the channel is read first; it answers when that channel is closed. */
    method Wait(t: Tracker) returns (ok: bool)
      requires Valid() && (t == http || t == grpc)
      modifies http, grpc, this`shutdownRequested
      ensures Valid() && MovedOn()
      ensures old(t.closed) ==> (ok <==> t.Quiet())
      ensures old(t.active) == 0 || (handlersLeave && old(t.closed)) ==> ok
    {
      var idle, active := t.idle, t.active;
      Others();
      if handlersLeave { LetLeave(t); }
      if active == 0 { return true; }
      ok := idle in t.shut;
    }

    /** waitActiveHandlers: both waits run at once; here one after the other. */
    method WaitAll() returns (ok: bool)
      requires Valid()
      modifies http, grpc, this`shutdownRequested
      ensures Valid() && MovedOn()
      ensures ok && old(http.closed) && (grpcActive ==> old(grpc.closed)) ==> AllQuiet()
      ensures old(http.active) == 0 && (grpcActive ==> old(grpc.active) == 0 && old(grpc.closed)) ==> ok
      ensures handlersLeave && old(http.closed) && (grpcActive ==> old(grpc.closed)) ==> ok
    {
      ok := Wait(http);
      if grpcActive {
        label W:
        var grpcOk := Wait(grpc);
        LaterTransitive(old(http.Look()), old@W(http.Look()), http.Look());
        LaterTransitive(old(grpc.Look()), old@W(grpc.Look()), grpc.Look());
        ok := ok && grpcOk;
      }
    }

    /** acquireServing. */
    method Acquire() returns (ok: bool)
      requires Valid()
      modifies this`serving
      ensures Valid()
      ensures ok <==> !old(serving) && !served && !shutdownRequested
      ensures serving == (old(serving) || ok)
    {
      ok := !serving && !served && !shutdownRequested;
      if ok { serving := true; }
    }

    /** ApplyAll: a kept result is answered again.  A build that fails stops the lifecycle and
        is kept; a start that fails rolls itself back, and is kept unless it may be retried. */
    method ApplyAll(attempt: Attempt) returns (ok: bool)
      requires Valid()
      modifies this`apply, this`stops
      ensures Valid() && ok == (apply == Applied)
      ensures apply == if old(apply) != NotApplied then old(apply)
                       else if attempt == Applies then Applied
                       else if attempt in {NotBegun, StartFails(true)} then NotApplied else ApplyFailed
      ensures stops == old(stops) + (if old(apply) == NotApplied && attempt == BuildFails then 1 else 0)
    {
      if apply != NotApplied { return apply == Applied; }
      match attempt {
        case Applies => apply := Applied;
        case NotBegun =>
        case BuildFails => apply, stops := ApplyFailed, stops + 1;
        case StartFails(retryable) => if !retryable { apply := ApplyFailed; }
      }
      ok := apply == Applied;
    }

    /** Serve: apply, listen, run, then close the trackers, wait, and only then stop the
        lifecycle. */
    method Serve(withGrpc: bool, attempt: Attempt, listens: bool) returns (began: bool)
      requires Valid()
      modifies this, http, grpc
      ensures Valid()
      ensures began <==> !old(serving) && !old(served) && !old(shutdownRequested)
      ensures !began ==> stops == old(stops)
      ensures began ==> !serving && served == (apply == Applied)
      ensures began && !served ==>
                stops == old(stops) + (if old(apply) == NotApplied && attempt == BuildFails then 1 else 0)
      ensures began && served && (!listens || (handlersLeave && inTime)) ==> stops == old(stops) + 1
      ensures stops <= old(stops) + 1 && (stops > old(stops) ==> old(stops) == 0 && AllQuiet())
    {
      began := Acquire();
      if !began { return; }
      var applied := ApplyAll(attempt);
      if !applied {
        serving := false;
        return;
      }
      served := true;
      Others();
      if listens {
        RunServers(withGrpc);
      } else {
        // Nothing listens yet, so no handler has begun: cleanupLaunchFailure stops at once.
        stops := stops + 1;
      }
      serving := false;
    }

    /** The servers run until one ends or the context does. */
    method RunServers(withGrpc: bool)
      requires Valid() && stops == 0 && served && !listening
      modifies this, http, grpc
      ensures Valid() && served && apply == old(apply) && stops <= 1
      ensures handlersLeave && inTime ==> stops == 1
    {
      if withGrpc { grpcServed, grpcActive := true, true; }
      listening := true;
      Others();
      DrainAndStop();
    }

    method CloseTrackers()
      requires Valid()
      modifies http`closed, grpc`closed
      ensures Valid() && http.closed && (grpcActive ==> grpc.closed)
      ensures !grpcActive ==> grpc.closed == old(grpc.closed)
    {
      if grpcActive { grpc.StopAccepting(); }
      http.StopAccepting();
    }

    method CloseAndWait() returns (ok: bool)
      requires Valid()
      modifies http, grpc, this`shutdownRequested
      ensures Valid() && (ok ==> AllQuiet())
      ensures handlersLeave || (old(http.active) == 0 && (grpcActive ==> old(grpc.active) == 0)) ==> ok
    {
      CloseTrackers();
      Others();
      ok := WaitAll();
    }

    /** The end of Serve.  Handlers that stay to the deadline keep the lifecycle from being
        stopped; otherwise it is, if the deadline leaves time for it. */
    method DrainAndStop()
      requires Valid() && stops == 0 && served && listening
      modifies this, http, grpc
      ensures Valid() && serving == old(serving) && served && apply == old(apply)
      ensures stops <= 1 && (stops == 1 ==> !handlersUnsafe)
      ensures inTime ==> (stops == 1 <==> !handlersUnsafe)
      ensures handlersLeave || (old(http.active) == 0 && (old(grpcActive) ==> old(grpc.active) == 0)) ==> !handlersUnsafe
    {
      var handlersStopped := CloseAndWait();
      if !handlersStopped {
        handlersUnsafe := true;
      } else {
        var hurried: bool := *;
        if inTime || !hurried { stops := stops + 1; }
        grpcActive, handlersUnsafe := false, false;
      }
      Others();
    }

    /** Shutdown: while Serve runs, its own end drains and stops; otherwise the same is done here. */
    method Shutdown() returns (stopped: bool)
      requires Valid()
      modifies this, http, grpc
      ensures Valid() && shutdownRequested
      ensures stopped ==> stops == old(stops) + 1 && AllQuiet()
      ensures !stopped ==> stops == old(stops)
      ensures old(serving) ==> !stopped && http.closed
      ensures !old(serving) && (handlersLeave || (old(http.active) == 0 && (old(grpcActive) ==> old(grpc.active) == 0))) ==> stopped
    {
      shutdownRequested := true;
      CloseTrackers();
      if serving {
        Others();
        return false;
      }
      if handlersUnsafe && http.active + (if grpcActive then grpc.active else 0) > 0 {
        var left := WaitAll();
        if !left { return false; }
      }
      stopped := WaitAll();
      if stopped {
        grpcActive, handlersUnsafe := false, false;
        stops := stops + 1;
      }
    }
  }

  // ----- over whole runs -----

  datatype Request = ToApply(attempt: Attempt) | ToServe(withGrpc: bool, attempt: Attempt, listens: bool) | ToShutdown

  /** Whatever is called, in any order: once the lifecycle has begun to stop, no handler is
      active and none ever begins again. */
  method ServeAndShutdown(requests: seq<Request>, leave: bool, prompt: bool) returns (app: App)
    ensures fresh(app) && app.Valid()
    ensures app.stops > 0 ==> app.AllQuiet()
  {
    app := new App(leave, prompt);
    for i := 0 to |requests|
      invariant app.Valid() && fresh(app) && fresh(app.http) && fresh(app.grpc)
    {
      match requests[i] {
        case ToApply(attempt) => var applied := app.ApplyAll(attempt);
        case ToServe(withGrpc, attempt, listens) => var began := app.Serve(withGrpc, attempt, listens);
        case ToShutdown => var stopped := app.Shutdown();
      }
      app.Others();
    }
  }
}
