/**
  The ASGI middleware: one admission around one inner call, held through any number of
  cancellations until the inner call is over.
 */
module AdmissionMiddleware {

  datatype How = Returns | Raises | Cancelled

  /**
    What one wait for the shielded inner call gives: its end, or a cancellation of the outer
    call, during which the inner call may have ended as well.
   */
  datatype Wait = Ends(how: How) | Interrupted(over: bool)

  datatype Request = Request(http: bool, path: string, method_: string)

  datatype Act = Entered | Begun | Over | Exited | Served | Refused

  datatype Outcome = Normal | Error | CancelledError

  predicate StartsWith(s: string, prefix: string) { |prefix| <= |s| && s[..|prefix|] == prefix }

  /** Requests that need no admission: other protocols, probes, and pages outside the API. */
  predicate Bypasses(r: Request) {
    || !r.http || r.path in ["/api/health", "/api/ready", "/api/lifecycle"]
    || (r.method_ in ["GET", "HEAD"] && r.path != "/api" && !StartsWith(r.path, "/api/"))
  }

  /** The same said the other way round: what needs one can change something, or is for the API. */
  predicate NeedsAdmission(r: Request) {
    && r.http && r.path != "/api/health" && r.path != "/api/ready" && r.path != "/api/lifecycle"
    && ((r.method_ != "GET" && r.method_ != "HEAD") || r.path == "/api" || (|r.path| >= 5 && r.path[..5] == "/api/"))
  }

  lemma BypassesExactly(r: Request)
    ensures Bypasses(r) <==> !NeedsAdmission(r)
  {
    assert r.method_ in ["GET", "HEAD"] <==> r.method_ == "GET" || r.method_ == "HEAD";
  }

  predicate LastWait(w: Wait) { w.Ends? || w.over }

  /** The inner call is over by the last of the waits, and cancelled but not over in all before. */
  predicate Waits(waits: seq<Wait>) {
    && waits != [] && waits[|waits| - 1] != Interrupted(false)
    && forall i :: 0 <= i < |waits| - 1 ==> waits[i] == Interrupted(false)
  }

  /** What the caller of the middleware sees: the inner call's end, or the cancellation. */
  function Seen(w: Wait): Outcome {
    if w == Ends(Returns) then Normal else if w == Ends(Raises) then Error else CancelledError
  }

  class Middleware {
    var log: seq<Act>

    /** The inner call is over by the end of this wait. */
    method Await(w: Wait) returns (over: bool)
      modifies this
      ensures over == (w != Interrupted(false)) && log == old(log) + (if over then [Over] else [])
    {
      over := LastWait(w);
      if over {
        log := log + [Over];
      }
    }

    /**
      However often it is cancelled and however the inner call ends, the admission is left
      exactly once, after the inner call, and a cancellation is passed on.
     */
    method Call(r: Request, admitted: bool, direct: Outcome, waits: seq<Wait>) returns (outcome: Outcome)
      requires Waits(waits)
      modifies this
      ensures !NeedsAdmission(r) ==> log == old(log) + [Served] && outcome == direct
      ensures NeedsAdmission(r) && !admitted ==> log == old(log) + [Refused] && outcome == Normal
      ensures NeedsAdmission(r) && admitted ==>
                && log == old(log) + [Entered, Begun, Over, Exited]
                && (outcome == Normal <==> waits[0] == Ends(Returns))
                && (outcome == Error <==> waits[0] == Ends(Raises))
    {
      BypassesExactly(r);
      if Bypasses(r) {
        log := log + [Served];
        return direct;
      }
      if !admitted {
        log := log + [Refused];
        return Normal;
      }
      log := log + [Entered, Begun];
      var over := Await(waits[0]);
      outcome := Seen(waits[0]);
      if outcome == CancelledError {
        var next := 1;
        while !over
          invariant 1 <= next <= |waits| && (over <==> next == |waits|)
          invariant log == old(log) + [Entered, Begun] + (if over then [Over] else [])
          decreases |waits| - next
        {
          over := Await(waits[next]);
          next := next + 1;
        }
      }
      log := log + [Exited];
    }
  }
}
