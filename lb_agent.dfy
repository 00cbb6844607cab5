/**
 * The load-balancing agent of the function platform.  Instead of running a
 * call locally it reserves a "remote slot" whose `exec` claims capacity on the
 * node pool, places the call on some runner of the call's group, and releases
 * the claim again.
 *
 * Time is an integer logical clock in milliseconds.  What the node pool and
 * the runners answer is given by a `Fleet`: the runner list the pool returns
 * for a group at a clock time, and the `(placed, err)` reply a runner gives to
 * `TryExec` at a clock time.  A `TryExec` takes no logical time; a round in
 * which no runner accepts the call sleeps `RetryWaitInterval`.
 */
module LbAgent {
  import opened Wrappers

  // ------------------------------------------------------------- entities

  /** Errors the agent reports. */
  datatype AgentError =
    | ErrCallTimeoutServerBusy      // the call's slot deadline passed before any runner accepted it
    | RunnerError(text: string)     // whatever a runner's TryExec reported

  /** The stored call model; placement reads only its memory (in MB). */
  datatype ModelCall = ModelCall(id: string, memory: nat)

  /** An incoming HTTP request; only its body is handed out. */
  datatype Request = Request(body: seq<bv8>)

  /** The writer attached to a call: an HTTP response writer or some other writer. */
  datatype Writer = HttpResponseWriter(id: nat) | PlainWriter(id: nat)

  /** The agent's own call type (`*call`). */
  datatype CallState = CallState(model: ModelCall, slotDeadline: int, req: Option<Request>, w: Writer)

  /** A value of the `Call` interface: the agent's own call type or another implementation. */
  datatype AgentCall = Internal(call: CallState) | External(id: nat)

  datatype Runner = Runner(address: string)

  /** What a runner answers to `TryExec`: whether it took the call, and the error it reports. */
  datatype Reply = Reply(placed: bool, err: Option<AgentError>)

  /**
   * The collaborators placement talks to, for one call: the runner list the
   * pool returns for a group at a clock time, and each runner's reply at a
   * clock time.
   */
  datatype Fleet = Fleet(runners: (string, int) -> seq<Runner>, tryExec: (Runner, int) -> Reply)

  /** One `TryExec` invocation: on which runner, at which clock time. */
  datatype Attempt = Attempt(at: int, runner: Runner)

  /** The result of a placement: the error returned, the attempts made, and the clock at return. */
  datatype Placement = Placement(err: Option<AgentError>, attempts: seq<Attempt>, finish: int)

  /** Sleep between two placement rounds, in milliseconds. */
  const RetryWaitInterval: nat := 10

  // ------------------------------------------------------- group and helpers

  /** Every call is placed in the one placeholder group. */
  function GetGroupID(call: ModelCall): (id: string)
    ensures id == "foobar"
  {
    "foobar"
  }

  const CastFailure := "Can't cast agent.Call to agent.call"
  const NoRequest := "Call doesn't contain a request"
  const NoHttpWriter := "Unable to get HTTP response writer from the call"

  /** The request body of a call, when it is the agent's own call type and carries a request. */
  function RequestReader(c: AgentCall): (r: Result<seq<bv8>, string>)
    ensures r.Success? <==> c.Internal? && c.call.req.Some?
    ensures r.Success? ==> r.value == c.call.req.value.body
    ensures c.External? ==> r == Failure(CastFailure)
    ensures c.Internal? && c.call.req.None? ==> r == Failure(NoRequest)
  {
    match c
    case External(_) => Failure(CastFailure)
    case Internal(cc) =>
      if cc.req.None? then Failure(NoRequest) else Success(cc.req.value.body)
  }

  /** The HTTP response writer of a call, when it is the agent's own call type and its writer is one. */
  function ResponseWriter(c: AgentCall): (r: Result<Writer, string>)
    ensures r.Success? <==> c.Internal? && c.call.w.HttpResponseWriter?
    ensures r.Success? ==> r.value == c.call.w
    ensures c.External? ==> r == Failure(CastFailure)
    ensures c.Internal? && !c.call.w.HttpResponseWriter? ==> r == Failure(NoHttpWriter)
  {
    match c
    case External(_) => Failure(CastFailure)
    case Internal(cc) =>
      if cc.w.HttpResponseWriter? then Success(cc.w) else Failure(NoHttpWriter)
  }

  // ------------------------------------------------------------ one round

  /** Whether `r` accepts the call when tried at clock time `now`. */
  predicate Accepts(fleet: Fleet, r: Runner, now: int) {
    fleet.tryExec(r, now).placed
  }

  /** Index of the first runner of `rs` that accepts at `now`; `|rs|` when none does. */
  function FirstAccepting(fleet: Fleet, rs: seq<Runner>, now: int): (k: nat)
    ensures k <= |rs|
    ensures forall j :: 0 <= j < k ==> !Accepts(fleet, rs[j], now)
    ensures k < |rs| ==> Accepts(fleet, rs[k], now)
  {
    if rs == [] then 0
    else if Accepts(fleet, rs[0], now) then 0
    else 1 + FirstAccepting(fleet, rs[1..], now)
  }

  /** When runner `k` accepts and none before it does, it is the first to accept. */
  lemma {:induction false} FirstAcceptingAt(fleet: Fleet, rs: seq<Runner>, now: int, k: nat)
    requires k < |rs| && Accepts(fleet, rs[k], now)
    requires forall j :: 0 <= j < k ==> !Accepts(fleet, rs[j], now)
    ensures FirstAccepting(fleet, rs, now) == k
  {
    var f := FirstAccepting(fleet, rs, now);
    assert !(k < f);
  }

  /** When no runner accepts, the first to accept is past the end. */
  lemma FirstAcceptingNone(fleet: Fleet, rs: seq<Runner>, now: int)
    requires forall j :: 0 <= j < |rs| ==> !Accepts(fleet, rs[j], now)
    ensures FirstAccepting(fleet, rs, now) == |rs|
  {
    var f := FirstAccepting(fleet, rs, now);
    assert !(f < |rs|);
  }

  /** The attempts on the first `n` runners of `rs`, in order, all at `now`. */
  function RoundAttempts(rs: seq<Runner>, now: int, n: nat): (a: seq<Attempt>)
    requires n <= |rs|
  {
    seq(n, i requires 0 <= i < n => Attempt(now, rs[i]))
  }

  // ---------------------------------------------------- placement, specified

  /**
   * What placing a call started at clock `now` amounts to: give up with the
   * busy error once the clock is past the deadline; otherwise try the group's
   * runners in order, let the first that accepts end the placement with its
   * own error, and if none does sleep and start again.
   */
  function Place(fleet: Fleet, group: string, deadline: int, now: int): Placement
    decreases deadline - now
  {
    if now > deadline then Placement(Some(ErrCallTimeoutServerBusy), [], now)
    else
      var rs := fleet.runners(group, now);
      var k := FirstAccepting(fleet, rs, now);
      if k < |rs| then Placement(fleet.tryExec(rs[k], now).err, RoundAttempts(rs, now, k + 1), now)
      else
        var rest := Place(fleet, group, deadline, now + RetryWaitInterval);
        Placement(rest.err, RoundAttempts(rs, now, |rs|) + rest.attempts, rest.finish)
  }

  /** `p` with `prefix` put before its attempts. */
  function After(prefix: seq<Attempt>, p: Placement): Placement {
    Placement(p.err, prefix + p.attempts, p.finish)
  }

  /**
   * A round in which runner `i` is the first to accept ends the placement
   * with that runner's error, the round's attempts up to runner `i` being
   * the last ones made.
   */
  lemma PlaceEndsAtAcceptance(fleet: Fleet, group: string, deadline: int, now: int, i: nat,
                              before: seq<Attempt>, attempts: seq<Attempt>)
    requires now <= deadline
    requires i < |fleet.runners(group, now)|
    requires forall j :: 0 <= j < i ==> !Accepts(fleet, fleet.runners(group, now)[j], now)
    requires Accepts(fleet, fleet.runners(group, now)[i], now)
    requires attempts == before + RoundAttempts(fleet.runners(group, now), now, i + 1)
    ensures After(before, Place(fleet, group, deadline, now))
      == Placement(fleet.tryExec(fleet.runners(group, now)[i], now).err, attempts, now)
  {
    var k := FirstAccepting(fleet, fleet.runners(group, now), now);
    assert k == i;
  }

  /**
   * A round in which no runner accepts is followed by the rest of the
   * placement, one interval later, after all of the round's attempts.
   */
  lemma PlaceContinuesAfterRejection(fleet: Fleet, group: string, deadline: int, now: int,
                                     before: seq<Attempt>, attempts: seq<Attempt>)
    requires now <= deadline
    requires forall j :: 0 <= j < |fleet.runners(group, now)| ==> !Accepts(fleet, fleet.runners(group, now)[j], now)
    requires attempts == before + RoundAttempts(fleet.runners(group, now), now, |fleet.runners(group, now)|)
    ensures After(before, Place(fleet, group, deadline, now))
      == After(attempts, Place(fleet, group, deadline, now + RetryWaitInterval))
  {
    var rs := fleet.runners(group, now);
    var k := FirstAccepting(fleet, rs, now);
    assert k == |rs|;
    var rest := Place(fleet, group, deadline, now + RetryWaitInterval);
    assert (before + RoundAttempts(rs, now, |rs|)) + rest.attempts == before + (RoundAttempts(rs, now, |rs|) + rest.attempts);
  }

  // -------------------------------------------------- placement, the loop

  /**
   * One round of the naive placer: tries the runners of `rs` in order at
   * clock time `now` and stops at the first that accepts.  Returns that
   * runner's index (`|rs|` when none accepts), its reply, and the attempts
   * made.
   */
  method TryRound(fleet: Fleet, rs: seq<Runner>, now: int) returns (k: nat, reply: Reply, tried: seq<Attempt>)
    ensures k == FirstAccepting(fleet, rs, now)
    ensures k < |rs| ==> reply == fleet.tryExec(rs[k], now) && tried == RoundAttempts(rs, now, k + 1)
    ensures k == |rs| ==> tried == RoundAttempts(rs, now, |rs|)
  {
    tried := [];
    reply := Reply(false, None);
    k := 0;
    while k < |rs|
      invariant 0 <= k <= |rs|
      invariant forall j :: 0 <= j < k ==> !Accepts(fleet, rs[j], now)
      invariant tried == RoundAttempts(rs, now, k)
    {
      reply := fleet.tryExec(rs[k], now);
      tried := tried + [Attempt(now, rs[k])];
      RoundAttemptsStep(rs, now, k + 1);
      if reply.placed {
        FirstAcceptingAt(fleet, rs, now, k);
        return;
      }
      k := k + 1;
    }
    FirstAcceptingNone(fleet, rs, now);
  }

  /**
   * The naive placer's retry loop, run from clock time `start`.  Returns the
   * error placement ends with, the runners it tried, and the clock at return.
   */
  method PlaceCall(np: NodePool, call: CallState, group: string, start: int)
    returns (err: Option<AgentError>, attempts: seq<Attempt>, finish: int)
    modifies np`calls
    ensures Placement(err, attempts, finish) == Place(np.fleet, group, call.slotDeadline, start)
    ensures start <= finish
    ensures np.calls == old(np.calls) + RoundQueries(group, start, Rounds(start, call.slotDeadline, finish))
  {
    var deadline := call.slotDeadline;
    var now := start;
    attempts := [];
    ghost var goal := Place(np.fleet, group, deadline, start);
    ghost var log := np.calls;
    ghost var rounds: nat := 0;
    assert goal == After(attempts, Place(np.fleet, group, deadline, now));
    assert RoundQueries(group, start, 0) == [];
    while true
      invariant goal == After(attempts, Place(np.fleet, group, deadline, now))
      invariant now == start + rounds * RetryWaitInterval
      invariant np.calls == log + RoundQueries(group, start, rounds)
      decreases deadline - now
    {
      if now > deadline {
        err, finish := Some(ErrCallTimeoutServerBusy), now;
        assert attempts + [] == attempts;
        RoundsAfter(start, deadline, rounds);
        return;
      }
      var rs := np.Runners(group, now);
      RoundQueriesStep(group, start, rounds);
      RoundsAfter(start, deadline, rounds);
      rounds := rounds + 1;
      ghost var before := attempts;
      var k, reply, tried := TryRound(np.fleet, rs, now);
      attempts := attempts + tried;
      if k < |rs| {
        err, finish := reply.err, now;
        PlaceEndsAtAcceptance(np.fleet, group, deadline, now, k, before, attempts);
        return;
      }
      PlaceContinuesAfterRejection(np.fleet, group, deadline, now, before, attempts);
      now := now + RetryWaitInterval;
    }
  }

  // ------------------------------------------------ what placement promises

  /** The attempt of `p` that ended it (its last one). */
  function LastAttempt(p: Placement): Attempt
    requires |p.attempts| > 0
  {
    p.attempts[|p.attempts| - 1]
  }

  /**
   * How a placement ends.  Every attempt but the last was rejected.  If the
   * clock at return is past the deadline, the busy error is returned and no
   * attempt was accepted; otherwise the last attempt was accepted, made in
   * the final round, and its error is returned unchanged, nil or not.  A
   * placement that starts by the deadline returns no later than one retry
   * interval after it; one that starts later returns at its start.
   */
  lemma {:induction false} PlaceVerdict(fleet: Fleet, group: string, deadline: int, now: int)
    ensures var p := Place(fleet, group, deadline, now);
      && now <= p.finish <= (if now > deadline then now else deadline + RetryWaitInterval)
      && (forall i :: 0 <= i < |p.attempts| - 1 ==> !Accepts(fleet, p.attempts[i].runner, p.attempts[i].at))
      && (p.finish > deadline ==>
            && p.err == Some(ErrCallTimeoutServerBusy)
            && forall i :: 0 <= i < |p.attempts| ==> !Accepts(fleet, p.attempts[i].runner, p.attempts[i].at))
      && (p.finish <= deadline ==>
            && |p.attempts| > 0
            && LastAttempt(p).at == p.finish
            && Accepts(fleet, LastAttempt(p).runner, p.finish)
            && p.err == fleet.tryExec(LastAttempt(p).runner, p.finish).err)
    decreases deadline - now
  {
    if now <= deadline {
      var rs := fleet.runners(group, now);
      var k := FirstAccepting(fleet, rs, now);
      if k == |rs| {
        var rest := Place(fleet, group, deadline, now + RetryWaitInterval);
        PlaceVerdict(fleet, group, deadline, now + RetryWaitInterval);
        var round := RoundAttempts(rs, now, |rs|);
        var p := Place(fleet, group, deadline, now);
        assert p.attempts == round + rest.attempts;
        forall i | 0 <= i < |round|
          ensures !Accepts(fleet, p.attempts[i].runner, p.attempts[i].at)
        {
          assert p.attempts[i] == Attempt(now, rs[i]);
        }
        forall i | |round| <= i < |p.attempts|
          ensures p.attempts[i] == rest.attempts[i - |round|]
        {
        }
      }
    }
  }

  /** With runners that never accept, placement can only end with the busy error, past the deadline. */
  lemma {:induction false} AlwaysRejectingPoolEndsBusy(fleet: Fleet, group: string, deadline: int, now: int)
    requires forall t, j :: 0 <= j < |fleet.runners(group, t)| ==> !Accepts(fleet, fleet.runners(group, t)[j], t)
    ensures var p := Place(fleet, group, deadline, now);
      && p.err == Some(ErrCallTimeoutServerBusy)
      && deadline < p.finish <= (if now > deadline then now else deadline + RetryWaitInterval)
    decreases deadline - now
  {
    PlaceVerdict(fleet, group, deadline, now);
    if now <= deadline {
      FirstAcceptingNone(fleet, fleet.runners(group, now), now);
      AlwaysRejectingPoolEndsBusy(fleet, group, deadline, now + RetryWaitInterval);
    }
  }

  /**
   * When no runner itself reports the busy error, placement returns it
   * exactly when a round starts with the clock past the deadline.
   */
  lemma BusyExactlyAtDeadline(fleet: Fleet, group: string, deadline: int, now: int)
    requires forall r, t :: fleet.tryExec(r, t).err != Some(ErrCallTimeoutServerBusy)
    ensures var p := Place(fleet, group, deadline, now);
      p.err == Some(ErrCallTimeoutServerBusy) <==> p.finish > deadline
  {
    PlaceVerdict(fleet, group, deadline, now);
  }

  /** The runners tried at clock time `t`, in the order they were tried. */
  function TriedAt(attempts: seq<Attempt>, t: int): seq<Runner> {
    if attempts == [] then []
    else (if attempts[0].at == t then [attempts[0].runner] else []) + TriedAt(attempts[1..], t)
  }

  lemma {:induction false} TriedAtAppend(a: seq<Attempt>, b: seq<Attempt>, t: int)
    ensures TriedAt(a + b, t) == TriedAt(a, t) + TriedAt(b, t)
    decreases |a|
  {
    if a != [] {
      assert (a + b)[0] == a[0];
      assert (a + b)[1..] == a[1..] + b;
      TriedAtAppend(a[1..], b, t);
    } else {
      assert a + b == b;
    }
  }

  /** A round's first `n` attempts are its first `n - 1` and then the attempt on runner `n - 1`. */
  lemma RoundAttemptsStep(rs: seq<Runner>, now: int, n: nat)
    requires 0 < n <= |rs|
    ensures RoundAttempts(rs, now, n) == RoundAttempts(rs, now, n - 1) + [Attempt(now, rs[n - 1])]
  {
  }

  lemma {:induction false} TriedAtRound(rs: seq<Runner>, now: int, n: nat, t: int)
    requires n <= |rs|
    ensures TriedAt(RoundAttempts(rs, now, n), t) == if t == now then rs[..n] else []
    decreases n
  {
    if n > 0 {
      var last := [Attempt(now, rs[n - 1])];
      RoundAttemptsStep(rs, now, n);
      TriedAtAppend(RoundAttempts(rs, now, n - 1), last, t);
      TriedAtRound(rs, now, n - 1, t);
      assert last[1..] == [];
      assert TriedAt(last, t) == if t == now then [rs[n - 1]] else [];
      assert rs[..n] == rs[..n - 1] + [rs[n - 1]];
    } else {
      assert RoundAttempts(rs, now, 0) == [];
    }
  }

  /** The runners a round tries: up to and including the first that accepts, or all of them. */
  function RoundTried(fleet: Fleet, rs: seq<Runner>, now: int): seq<Runner> {
    var k := FirstAccepting(fleet, rs, now);
    if k < |rs| then rs[..k + 1] else rs
  }

  /** What a placement started at `now` and returning at `finish` tries at clock time `t`. */
  function ExpectedTried(fleet: Fleet, group: string, deadline: int, now: int, finish: int, t: int): seq<Runner> {
    if t < now || finish < t || (t - now) % RetryWaitInterval != 0 then []
    else if t < finish then fleet.runners(group, t)
    else if finish > deadline then []
    else RoundTried(fleet, fleet.runners(group, t), t)
  }

  /** Placement returns at the start of one of its rounds. */
  lemma {:induction false} PlaceClock(fleet: Fleet, group: string, deadline: int, now: int)
    ensures var p := Place(fleet, group, deadline, now);
      now <= p.finish && (p.finish - now) % RetryWaitInterval == 0
    decreases deadline - now
  {
    var p := Place(fleet, group, deadline, now);
    if now > deadline {
      assert p.finish == now;
    } else {
      var rs := fleet.runners(group, now);
      if FirstAccepting(fleet, rs, now) < |rs| {
        assert p.finish == now;
      } else {
        var rest := Place(fleet, group, deadline, now + RetryWaitInterval);
        assert p.finish == rest.finish;
        PlaceClock(fleet, group, deadline, now + RetryWaitInterval);
        OneMoreInterval(rest.finish - (now + RetryWaitInterval));
      }
    }
  }

  /** A whole number of retry intervals plus one more is still whole. */
  lemma OneMoreInterval(x: int)
    requires x % RetryWaitInterval == 0
    ensures (x + RetryWaitInterval) % RetryWaitInterval == 0
  {
  }

  /** A full round at `now` followed by the rounds from one interval later. */
  lemma ExpectedTriedStep(fleet: Fleet, group: string, deadline: int, now: int, finish: int, t: int)
    requires now + RetryWaitInterval <= finish
    ensures ExpectedTried(fleet, group, deadline, now, finish, t)
         == (if t == now then fleet.runners(group, now) else [])
            + ExpectedTried(fleet, group, deadline, now + RetryWaitInterval, finish, t)
  {
    if t == now {
      assert ExpectedTried(fleet, group, deadline, now + RetryWaitInterval, finish, t) == [];
    } else if now < t {
      assert (t - now) % RetryWaitInterval == (t - (now + RetryWaitInterval)) % RetryWaitInterval;
    }
  }

  /** A full round at `now` followed by attempts that match the rounds from one interval later. */
  lemma FullRoundThenRest(fleet: Fleet, group: string, deadline: int, now: int, finish: int, t: int,
                          rest: seq<Attempt>)
    requires now + RetryWaitInterval <= finish
    requires TriedAt(rest, t) == ExpectedTried(fleet, group, deadline, now + RetryWaitInterval, finish, t)
    ensures var rs := fleet.runners(group, now);
      TriedAt(RoundAttempts(rs, now, |rs|) + rest, t) == ExpectedTried(fleet, group, deadline, now, finish, t)
  {
    var rs := fleet.runners(group, now);
    TriedAtAppend(RoundAttempts(rs, now, |rs|), rest, t);
    TriedAtRound(rs, now, |rs|, t);
    assert rs[..|rs|] == rs;
    ExpectedTriedStep(fleet, group, deadline, now, finish, t);
  }

  /** A round at `now` in which some runner accepts tries what the last round is expected to. */
  lemma AcceptingRoundTried(fleet: Fleet, group: string, deadline: int, now: int, t: int)
    requires now <= deadline
    requires FirstAccepting(fleet, fleet.runners(group, now), now) < |fleet.runners(group, now)|
    ensures var rs := fleet.runners(group, now);
      TriedAt(RoundAttempts(rs, now, FirstAccepting(fleet, rs, now) + 1), t)
        == ExpectedTried(fleet, group, deadline, now, now, t)
  {
    var rs := fleet.runners(group, now);
    TriedAtRound(rs, now, FirstAccepting(fleet, rs, now) + 1, t);
  }

  lemma {:induction false} PlaceRoundAt(fleet: Fleet, group: string, deadline: int, now: int, t: int)
    ensures var p := Place(fleet, group, deadline, now);
      TriedAt(p.attempts, t) == ExpectedTried(fleet, group, deadline, now, p.finish, t)
    decreases deadline - now
  {
    var p := Place(fleet, group, deadline, now);
    if now > deadline {
      assert p == Placement(Some(ErrCallTimeoutServerBusy), [], now);
    } else {
      var rs := fleet.runners(group, now);
      var k := FirstAccepting(fleet, rs, now);
      if k < |rs| {
        assert p.attempts == RoundAttempts(rs, now, k + 1) && p.finish == now;
        AcceptingRoundTried(fleet, group, deadline, now, t);
      } else {
        var rest := Place(fleet, group, deadline, now + RetryWaitInterval);
        assert p.attempts == RoundAttempts(rs, now, |rs|) + rest.attempts && p.finish == rest.finish;
        PlaceClock(fleet, group, deadline, now + RetryWaitInterval);
        PlaceRoundAt(fleet, group, deadline, now + RetryWaitInterval, t);
        FullRoundThenRest(fleet, group, deadline, now, rest.finish, t, rest.attempts);
      }
    }
  }

  /**
   * The rounds of a placement.  Rounds start at `now`, `now + RetryWaitInterval`,
   * and so on up to the clock at return.  Every round before the last tries
   * the group's runners in the order the pool returns them, all of them,
   * whatever errors the rejecting ones report.  The last round tries nothing
   * when the deadline had passed.  Otherwise it tries the runners up to and
   * including the first that accepts, and none after it.
   */
  lemma PlaceRounds(fleet: Fleet, group: string, deadline: int, now: int)
    ensures var p := Place(fleet, group, deadline, now);
      && now <= p.finish
      && (p.finish - now) % RetryWaitInterval == 0
      && forall t :: TriedAt(p.attempts, t) == ExpectedTried(fleet, group, deadline, now, p.finish, t)
  {
    PlaceClock(fleet, group, deadline, now);
    forall t ensures TriedAt(Place(fleet, group, deadline, now).attempts, t)
                     == ExpectedTried(fleet, group, deadline, now, Place(fleet, group, deadline, now).finish, t)
    {
      PlaceRoundAt(fleet, group, deadline, now, t);
    }
  }

  /**
   * Given three runners where only the second accepts, placement returns the
   * second runner's result in the first round and never tries the third.
   */
  lemma SecondOfThreeAccepts(a: Runner, b: Runner, c: Runner, group: string, deadline: int, now: int, result: Option<AgentError>)
    requires a != b && now <= deadline
    ensures var fleet := Fleet((g, t) => [a, b, c],
                               (r, t) => if r == b then Reply(true, result) else Reply(false, Some(RunnerError("no capacity"))));
            Place(fleet, group, deadline, now) == Placement(result, [Attempt(now, a), Attempt(now, b)], now)
  {
    var fleet := Fleet((g, t) => [a, b, c],
                       (r, t) => if r == b then Reply(true, result) else Reply(false, Some(RunnerError("no capacity"))));
    assert RoundAttempts([a, b, c], now, 2) == [Attempt(now, a), Attempt(now, b)];
    PlaceEndsAtAcceptance(fleet, group, deadline, now, 1, [], [Attempt(now, a), Attempt(now, b)]);
  }

  // ------------------------------------------------------------ capacity

  /** One in-flight call's claim on the pool: its memory and its group. */
  datatype CapacityEntry = CapacityEntry(totalMemoryMb: nat, lbGroupId: string)

  /**
   * A call the agent made into the node pool: a capacity assignment or
   * release, or a query for a group's runners at a clock time.
   */
  datatype PoolCall = Assign(entry: CapacityEntry) | Release(entry: CapacityEntry) | Query(group: string, at: int)

  /** The runner queries of `n` rounds for `group`, one retry interval apart from `start` on. */
  function RoundQueries(group: string, start: int, n: nat): seq<PoolCall> {
    seq(n, i requires 0 <= i < n => Query(group, start + i * RetryWaitInterval))
  }

  /**
   * How many rounds a placement started at `start` and returning at `finish`
   * ran: one per interval, and one more when it returned before the deadline.
   */
  function Rounds(start: int, deadline: int, finish: int): nat
    requires start <= finish
  {
    (finish - start) / RetryWaitInterval + (if finish <= deadline then 1 else 0)
  }

  /** One more round appends the query made at its start. */
  lemma RoundQueriesStep(group: string, start: int, n: nat)
    ensures RoundQueries(group, start, n + 1)
         == RoundQueries(group, start, n) + [Query(group, start + n * RetryWaitInterval)]
  {
  }

  /** A placement returning `n` intervals after it started ran `n` rounds, or `n + 1` when it returned by the deadline. */
  lemma RoundsAfter(start: int, deadline: int, n: nat)
    ensures Rounds(start, deadline, start + n * RetryWaitInterval)
         == n + (if start + n * RetryWaitInterval <= deadline then 1 else 0)
  {
  }

  /** The memory `e` claims against `group`. */
  function Claim(e: CapacityEntry, group: string): nat {
    if e.lbGroupId == group then e.totalMemoryMb else 0
  }

  /**
   * Memory committed against `group` by a sequence of pool calls, taking
   * an assignment to add its memory and a release to subtract it; runner
   * queries commit nothing.
   */
  function Committed(calls: seq<PoolCall>, group: string): int {
    if calls == [] then 0
    else
      var c := calls[0];
      var d: int := if c.Query? then 0 else if c.Assign? then Claim(c.entry, group) else 0 - Claim(c.entry, group);
      d + Committed(calls[1..], group)
  }

  lemma {:induction false} CommittedAppend(a: seq<PoolCall>, b: seq<PoolCall>, group: string)
    ensures Committed(a + b, group) == Committed(a, group) + Committed(b, group)
    decreases |a|
  {
    if a != [] {
      assert (a + b)[0] == a[0];
      assert (a + b)[1..] == a[1..] + b;
      CommittedAppend(a[1..], b, group);
    } else {
      assert a + b == b;
    }
  }

  lemma {:induction false} QueriesCommitNothing(qs: seq<PoolCall>, group: string)
    requires forall k :: 0 <= k < |qs| ==> qs[k].Query?
    ensures Committed(qs, group) == 0
    decreases |qs|
  {
    if qs != [] {
      QueriesCommitNothing(qs[1..], group);
    }
  }

  /** While only runner queries follow a claim on `e`, the claim counts against its group. */
  lemma ClaimHeldWhileQuerying(calls: seq<PoolCall>, e: CapacityEntry, queries: seq<PoolCall>, group: string)
    requires forall k :: 0 <= k < |queries| ==> queries[k].Query?
    ensures Committed(calls + [Assign(e)] + queries, group) == Committed(calls, group) + Claim(e, group)
  {
    assert Committed([Assign(e)], group) == Claim(e, group);
    CommittedAppend(calls, [Assign(e)], group);
    CommittedAppend(calls + [Assign(e)], queries, group);
    QueriesCommitNothing(queries, group);
  }

  /**
   * A claim on `e`, any runner queries, then the release of `e` leave every
   * group's committed memory as it was.
   */
  lemma ClaimThenReleaseConserves(calls: seq<PoolCall>, e: CapacityEntry, queries: seq<PoolCall>, group: string)
    requires forall k :: 0 <= k < |queries| ==> queries[k].Query?
    ensures Committed(calls + [Assign(e)] + queries + [Release(e)], group) == Committed(calls, group)
  {
    ClaimHeldWhileQuerying(calls, e, queries, group);
    assert Committed([Release(e)], group) == 0 - Claim(e, group);
    CommittedAppend(calls + [Assign(e)] + queries, [Release(e)], group);
  }

  /**
   * The node pool as the agent uses it.  Its runner lists and the runners'
   * replies are the fleet; the capacity and runner-list calls and the shutdown requests it
   * receives are recorded in order.
   */
  class NodePool {
    const fleet: Fleet
    var calls: seq<PoolCall>
    var shutdownCalls: nat

    constructor (fleet: Fleet)
      ensures this.fleet == fleet && calls == [] && shutdownCalls == 0
    {
      this.fleet := fleet;
      calls := [];
      shutdownCalls := 0;
    }

    /** The runners of `group` at clock time `now`, in the pool's order. */
    method Runners(group: string, now: int) returns (rs: seq<Runner>)
      modifies this`calls
      ensures rs == fleet.runners(group, now)
      ensures calls == old(calls) + [Query(group, now)]
    {
      rs := fleet.runners(group, now);
      calls := calls + [Query(group, now)];
    }

    method AssignCapacity(e: CapacityEntry)
      modifies this`calls
      ensures calls == old(calls) + [Assign(e)]
    {
      calls := calls + [Assign(e)];
    }

    method ReleaseCapacity(e: CapacityEntry)
      modifies this`calls
      ensures calls == old(calls) + [Release(e)]
    {
      calls := calls + [Release(e)];
    }

    method Shutdown()
      modifies this`shutdownCalls
      ensures shutdownCalls == old(shutdownCalls) + 1
    {
      shutdownCalls := shutdownCalls + 1;
    }
  }

  // -------------------------------------------------------- agent and slot

  /** An option for the delegated agent's `GetCall`; only slot reservations matter here. */
  datatype CallOpt = WithReservedSlot(slot: RemoteSlot) | OtherOpt(id: nat)

  function ReservedSlots(opts: seq<CallOpt>): nat {
    if opts == [] then 0 else (if opts[0].WithReservedSlot? then 1 else 0) + ReservedSlots(opts[1..])
  }

  lemma {:induction false} ReservedSlotsAppend(opts: seq<CallOpt>, s: RemoteSlot)
    ensures ReservedSlots(opts + [WithReservedSlot(s)]) == ReservedSlots(opts) + 1
    decreases |opts|
  {
    if opts != [] {
      assert (opts + [WithReservedSlot(s)])[1..] == opts[1..] + [WithReservedSlot(s)];
      ReservedSlotsAppend(opts[1..], s);
    } else {
      assert ReservedSlots([WithReservedSlot(s)]) == 1 + ReservedSlots([]);
    }
  }

  /** The load-balancing agent: a delegated local agent, a node pool and the naive placer. */
  class Agent {
    const np: NodePool

    constructor (np: NodePool)
      ensures this.np == np
    {
      this.np := np;
    }

    /**
     * Hands the caller's options to the delegated agent with one reservation
     * of a new remote slot of this agent appended.  Returns the options handed over.
     */
    method GetCall(opts: seq<CallOpt>) returns (passed: seq<CallOpt>, slot: RemoteSlot)
      ensures fresh(slot) && slot.lb == this
      ensures passed == opts + [WithReservedSlot(slot)]
      ensures ReservedSlots(passed) == ReservedSlots(opts) + 1
    {
      slot := new RemoteSlot(this);
      passed := opts + [WithReservedSlot(slot)];
      ReservedSlotsAppend(opts, slot);
    }

    /** Shuts the node pool down; never fails. */
    method Close() returns (err: Option<AgentError>)
      modifies np`shutdownCalls
      ensures np.shutdownCalls == old(np.shutdownCalls) + 1
      ensures err == None
    {
      np.Shutdown();
      err := None;
    }
  }

  /** The slot the agent pretends to have reserved; executing it places the call remotely. */
  class RemoteSlot {
    const lb: Agent

    constructor (lb: Agent)
      ensures this.lb == lb
    {
      this.lb := lb;
    }

    /**
     * Claims the call's memory in its group on the pool, places the call, and
     * releases the same claim, returning placement's error unchanged.  The
     * pool sees the claim, then one runner query per placement round, then
     * the release.
     */
    method Exec(call: CallState, start: int) returns (err: Option<AgentError>, attempts: seq<Attempt>, finish: int)
      modifies lb.np`calls
      ensures Placement(err, attempts, finish) == Place(lb.np.fleet, GetGroupID(call.model), call.slotDeadline, start)
      ensures start <= finish
      ensures var e := CapacityEntry(call.model.memory, GetGroupID(call.model));
              lb.np.calls == old(lb.np.calls) + [Assign(e)]
                             + RoundQueries(GetGroupID(call.model), start, Rounds(start, call.slotDeadline, finish))
                             + [Release(e)]
    {
      var np := lb.np;
      var memMb := call.model.memory;
      var lbGroupId := GetGroupID(call.model);
      var capacityRequest := CapacityEntry(memMb, lbGroupId);
      np.AssignCapacity(capacityRequest);
      err, attempts, finish := PlaceCall(np, call, lbGroupId, start);
      np.ReleaseCapacity(capacityRequest);
    }

    /** Closing a remote slot releases nothing and never fails. */
    function Close(): (err: Option<AgentError>)
      ensures err == None
    {
      None
    }

    /** A remote slot carries no error of its own. */
    function Error(): (err: Option<AgentError>)
      ensures err == None
    {
      None
    }
  }
}
