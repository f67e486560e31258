/**
 * The per-client login limiter of `POST /login` (backend/server.js:53-61),
 * configured with a 60 s window, at most 5 counted requests, successful
 * requests not counted. It is modelled as the fixed-window counter of the
 * rate-limit library's memory store: each request is counted before the
 * decision, a request over the budget is refused before validation and the
 * credential check run, and a response with a status below 400 takes its
 * count back. Time is an input (milliseconds). Only the configuration is
 * visible in the source; the counting rules are an abstraction of the
 * library.
 */
module LoginThrottle {
  import opened Common
  import opened LoginRoute

  const WindowMs := 60 * 1000
  const MaxAttempts := 5
  const TooManyMessage := "Too many login attempts, please try again later."
  /** The library's default status for a refused request; the source does not set one. */
  const TooManyStatus := 429

  /** The reply to a request over the budget. */
  const RateLimited := Refused(TooManyStatus, TooManyMessage)

  /** One client's counter: the requests counted since the window began, and when it ends. */
  datatype Window = Window(resetAt: int, hits: nat)

  /** The window in force at `now`: the stored one until its reset time, then a fresh, empty one. */
  function Live(w: Option<Window>, now: int): (r: Window)
    ensures w.Some? && now < w.value.resetAt ==> r == w.value
    ensures w.None? || w.value.resetAt <= now ==> r == Window(now + WindowMs, 0)
  {
    if w.Some? && now < w.value.resetAt then w.value else Window(now + WindowMs, 0)
  }

  /** One attempt of a client: when it arrives, and whether the route behind the limiter would answer it below 400. */
  datatype Attempt = Attempt(at: int, succeeds: bool)

  /**
   * One request through the limiter: the client's window afterwards, and
   * whether the request was let through to validation and the handler.
   */
  function Step(w: Option<Window>, a: Attempt): (r: (Window, bool))
    ensures r.1 <==> Live(w, a.at).hits < MaxAttempts
    ensures r.0.resetAt == Live(w, a.at).resetAt
    ensures r.0.hits == Live(w, a.at).hits + (if r.1 && a.succeeds then 0 else 1)
  {
    var live := Live(w, a.at);
    var counted := live.(hits := live.hits + 1);
    var admitted := counted.hits <= MaxAttempts;
    if admitted && a.succeeds then (counted.(hits := counted.hits - 1), admitted)
    else (counted, admitted)
  }

  /**
   * The whole `POST /login` chain (backend/server.js:89) for a client whose
   * window is `w` at `now`, where `behind` is what validation and the
   * handler answer: the client's window afterwards, and the reply, which is
   * the limiter's refusal once the window is spent and `behind` otherwise.
   */
  function ChainReply(w: Option<Window>, now: int, behind: LoginReply): (r: (Window, LoginReply))
    ensures Live(w, now).hits >= MaxAttempts ==> r.1 == RateLimited
    ensures Live(w, now).hits < MaxAttempts ==> r.1 == behind
    ensures r.0.resetAt == Live(w, now).resetAt
    ensures r.0.hits == Live(w, now).hits + (if r.1 == behind && Status(behind) < 400 then 0 else 1)
  {
    var step := Step(w, Attempt(now, Status(behind) < 400));
    (step.0, if step.1 then behind else RateLimited)
  }

  /** Whether each of a client's attempts, in order, was let through. */
  function Admissions(w: Option<Window>, xs: seq<Attempt>): (r: seq<bool>)
    ensures |r| == |xs|
    decreases |xs|
  {
    if xs == [] then []
    else [Step(w, xs[0]).1] + Admissions(Some(Step(w, xs[0]).0), xs[1..])
  }

  /** How many of a client's attempts were let through and then failed. */
  function AdmittedFailures(w: Option<Window>, xs: seq<Attempt>): nat
    decreases |xs|
  {
    if xs == [] then 0
    else
      var (w', admitted) := Step(w, xs[0]);
      (if admitted && !xs[0].succeeds then 1 else 0) + AdmittedFailures(Some(w'), xs[1..])
  }

  /** What is left of the budget of a window that has counted `h` requests. */
  function Room(h: nat): nat
  {
    if h <= MaxAttempts then MaxAttempts - h else 0
  }

  /**
   * While a window is live, at most `MaxAttempts` requests counted in it
   * are failed requests that got through: a window that already counts `h`
   * requests lets at most `MaxAttempts - h` more failures through.
   */
  lemma {:induction false} FailureBudgetOfLiveWindow(resetAt: int, h: nat, xs: seq<Attempt>)
    requires forall i :: 0 <= i < |xs| ==> xs[i].at < resetAt
    ensures AdmittedFailures(Some(Window(resetAt, h)), xs) <= Room(h)
    decreases |xs|
  {
    if xs != [] {
      var (w', admitted) := Step(Some(Window(resetAt, h)), xs[0]);
      assert w'.resetAt == resetAt;
      FailureBudgetOfLiveWindow(resetAt, w'.hits, xs[1..]);
    }
  }

  /**
   * From a client with no live window, the attempts that arrive within one
   * window length of the first include at most `MaxAttempts` failures that
   * got through.
   */
  lemma FailureBudgetPerWindow(w: Option<Window>, xs: seq<Attempt>)
    requires xs != []
    requires w.None? || w.value.resetAt <= xs[0].at
    requires forall i :: 0 <= i < |xs| ==> xs[0].at <= xs[i].at < xs[0].at + WindowMs
    ensures AdmittedFailures(w, xs) <= MaxAttempts
  {
    var start := Window(xs[0].at + WindowMs, 0);
    assert Step(w, xs[0]) == Step(Some(start), xs[0]);
    assert AdmittedFailures(w, xs) == AdmittedFailures(Some(start), xs);
    FailureBudgetOfLiveWindow(start.resetAt, 0, xs);
  }

  /**
   * The budget is per fixed window, not per any span of `WindowMs`: a
   * client whose window opened with a success at 0 ms gets five failures
   * through at 59000-59004 ms, and after that window resets at 60000 ms,
   * five more at 60000-60004 ms, ten failures within about a second.
   */
  lemma BoundaryBurst()
    ensures var xs := [Attempt(0, true)]
        + seq(MaxAttempts, i => Attempt(59000 + i, false))
        + seq(MaxAttempts, i => Attempt(60000 + i, false));
      && xs[|xs| - 1].at - xs[1].at < WindowMs
      && AdmittedFailures(None, xs) == 2 * MaxAttempts
  {
    var early := seq(MaxAttempts, i => Attempt(59000 + i, false));
    var late := seq(MaxAttempts, i => Attempt(60000 + i, false));
    var xs := [Attempt(0, true)] + early + late;
    assert xs[1..] == early + late;
    assert Step(None, xs[0]) == (Window(WindowMs, 0), true);
    RunOfFailures(WindowMs, 0, early, late);
    assert late == [late[0]] + late[1..];
    assert Step(Some(Window(WindowMs, MaxAttempts)), late[0]) == (Window(60000 + WindowMs, 1), true);
    RunOfFailures(60000 + WindowMs, 1, late[1..], []);
    assert late[1..] + [] == late[1..];
  }

  /**
   * Failures that arrive while a window is live and has room for all of
   * them all get through, and each is counted.
   */
  lemma {:induction false} RunOfFailures(resetAt: int, h: nat, xs: seq<Attempt>, rest: seq<Attempt>)
    requires h + |xs| <= MaxAttempts
    requires forall i :: 0 <= i < |xs| ==> xs[i].at < resetAt && !xs[i].succeeds
    ensures AdmittedFailures(Some(Window(resetAt, h)), xs + rest)
        == |xs| + AdmittedFailures(Some(Window(resetAt, h + |xs|)), rest)
    decreases |xs|
  {
    if xs != [] {
      assert (xs + rest)[0] == xs[0];
      assert (xs + rest)[1..] == xs[1..] + rest;
      assert Step(Some(Window(resetAt, h)), xs[0]) == (Window(resetAt, h + 1), true);
      RunOfFailures(resetAt, h + 1, xs[1..], rest);
    } else {
      assert xs + rest == rest;
    }
  }

  /**
   * Successful logins do not use up the budget: a client whose window still
   * has room gets every one of a run of successful attempts through.
   */
  lemma {:induction false} SuccessesAreNeverThrottled(w: Option<Window>, xs: seq<Attempt>)
    requires w.None? || w.value.hits < MaxAttempts
    requires forall i :: 0 <= i < |xs| ==> xs[i].succeeds
    ensures forall i :: 0 <= i < |xs| ==> Admissions(w, xs)[i]
    decreases |xs|
  {
    if xs != [] {
      var (w', admitted) := Step(w, xs[0]);
      assert admitted && w'.hits == Live(w, xs[0].at).hits;
      SuccessesAreNeverThrottled(Some(w'), xs[1..]);
      forall i | 0 <= i < |xs| ensures Admissions(w, xs)[i] {
        if i > 0 {
          assert Admissions(w, xs)[i] == Admissions(Some(w'), xs[1..])[i - 1];
        }
      }
    }
  }

  /**
   * Failures use the budget up: if the attempts of a live window fail until
   * its room is spent, exactly the first `Room(h)` get through, and every
   * later attempt in the window is refused whatever its credentials.
   */
  lemma {:induction false} FailuresExhaustWindow(resetAt: int, h: nat, xs: seq<Attempt>)
    requires forall i :: 0 <= i < |xs| ==> xs[i].at < resetAt
    requires forall i :: 0 <= i < |xs| && i < Room(h) ==> !xs[i].succeeds
    ensures forall i :: 0 <= i < |xs| ==> (Admissions(Some(Window(resetAt, h)), xs)[i] <==> i < Room(h))
    decreases |xs|
  {
    if xs != [] {
      var w := Some(Window(resetAt, h));
      var (w', admitted) := Step(w, xs[0]);
      assert w' == Window(resetAt, h + 1);
      FailuresExhaustWindow(resetAt, h + 1, xs[1..]);
      forall i | 0 <= i < |xs| ensures Admissions(w, xs)[i] <==> i < Room(h) {
        if i > 0 {
          assert Admissions(w, xs)[i] == Admissions(Some(w'), xs[1..])[i - 1];
        }
      }
    }
  }

  /**
   * Five failed attempts within a minute lock the client out: they are let
   * through, and the sixth is refused whatever its credentials.
   */
  lemma SixthAttemptRefused(xs: seq<Attempt>)
    requires |xs| == 6
    requires forall i :: 0 <= i < 6 ==> xs[0].at <= xs[i].at < xs[0].at + WindowMs
    requires forall i :: 0 <= i < 5 ==> !xs[i].succeeds
    ensures Admissions(None, xs) == [true, true, true, true, true, false]
  {
    var start := Window(xs[0].at + WindowMs, 0);
    assert Step(None, xs[0]) == Step(Some(start), xs[0]);
    assert Admissions(None, xs) == Admissions(Some(start), xs);
    FailuresExhaustWindow(start.resetAt, 0, xs);
  }

  /**
   * The limiter state shared by all `POST /login` requests: one window per
   * client identity (the requesting address).
   */
  class LoginLimiter {
    var windows: map<string, Window>

    constructor ()
      ensures windows == map[]
    {
      windows := map[];
    }

    /** The stored window of `client`, if any. */
    function WindowOf(client: string): Option<Window>
      reads this
    {
      if client in windows then Some(windows[client]) else None
    }

    /**
     * A `POST /login` request from `client` at time `now` through the whole
     * chain: limiter, validation, handler (backend/server.js:89).
     */
    method Login(client: string, now: int, email: BodyField, password: BodyField, validatorOk: bool,
                 sign: (Claims, string) -> string, env: string) returns (reply: LoginReply)
      modifies this
      ensures var chain := ChainReply(old(WindowOf(client)), now, ValidateThenHandle(validatorOk, email, password, sign, env));
        && reply == chain.1
        && windows == old(windows)[client := chain.0]
    {
      var counted := Live(WindowOf(client), now);
      counted := counted.(hits := counted.hits + 1);
      windows := windows[client := counted];
      if counted.hits > MaxAttempts {
        reply := RateLimited;
        return;
      }
      reply := ValidateThenHandle(validatorOk, email, password, sign, env);
      if Status(reply) < 400 {
        var w := windows[client];
        if w.hits > 0 {
          windows := windows[client := w.(hits := w.hits - 1)];
        }
      }
    }
  }
}
