/** The HTTP transport: the retry loop inside the breaker (internal/resilience/http.go). */
module Transport {
  import opened Base
  import opened Retry
  import opened CircuitBreaker

  /** A request body; a stream can be read once. */
  datatype Body = NilBody | NoBody | Stream(content: seq<int>)

  datatype Request = Request(verb: string, body: Body, getBody: bool)

  datatype Fault = Temporary | Net | Eof | CallCanceled | Other

  datatype Upstream = Answered(status: int) | Broken(fault: Fault)

  /** What attempt number k meets. A failing GetBody or upstream never yields the private temporary error. */
  datatype Try = Try(before: Option<CtxError>, getBody: Option<Fault>, upstream: Upstream,
                     after: Option<CtxError>, draw: nat, pause: Option<CtxError>)
  {
    predicate Honest() {
      && (upstream.Broken? ==> upstream.fault != Temporary)
      && getBody != Some(Temporary)
    }
  }

  datatype Reply = Returned(response: nat, status: int) | NoResponse

  /** How far a call got: stopped by its context, refused by the breaker, or run. */
  datatype Entry = Skipped | Rejected | Ran

  const POLICY: Policy := Policy(3, 100_000_000, 2_000_000_000)

  function Content(b: Body): seq<int> { if b.Stream? then b.content else [] }

  predicate Safe(req: Request) {
    && req.verb in ["GET", "HEAD", "PUT"]
    && (!req.body.Stream? || req.getBody)
  }

  predicate TemporaryStatus(status: int) { status in [429, 500, 502, 503, 504] }

  predicate Retryable(req: Request, f: Fault) { Safe(req) && f in [Temporary, Net, Eof] }

  /** The re-send stopped at GetBody, before reaching the upstream. */
  predicate Blocked(req: Request, k: nat, t: Try) { k > 1 && req.getBody && t.getBody.Some? }

  /** The error the attempt hands to the retry policy. */
  function Judge(req: Request, k: nat, t: Try): CallOutcome<Fault> {
    if Blocked(req, k, t) then CallErr(t.getBody.value, Retryable(req, t.getBody.value))
    else match t.upstream
      case Broken(f) => CallErr(f, Retryable(req, f))
      case Answered(status) =>
        if TemporaryStatus(status) then CallErr(Temporary, Retryable(req, Temporary)) else CallOk
  }

  function Attempts(req: Request, env: nat -> Try): nat -> Attempt<Fault> {
    (k: nat) => Attempt(env(k).before, Judge(req, k, env(k)), env(k).after, env(k).draw, env(k).pause)
  }

  /** How the breaker classifies the outcome of the whole retry loop. */
  function EndingOf(r: Outcome<Fault>): Ending {
    match r
    case Success => Succeeded
    case Failed(f) => if f == CallCanceled then Cancelled else Errored
    case CtxEnded(reason) => if reason == Canceled then Cancelled else Errored
  }

  /** What the policy returns after the call of attempt k, or None when it goes round again. */
  function Verdict(k: nat, a: Attempt<Fault>): Option<Outcome<Fault>> {
    if a.outcome.CallOk? then Some(Success)
    else if !a.outcome.retryable then Some(Failed(a.outcome.error))
    else if a.after.Some? then Some(CtxEnded(a.after.value))
    else if k >= POLICY.Budget() then Some(Failed(a.outcome.error))
    else if a.pause.Some? then Some(CtxEnded(a.pause.value))
    else None
  }

  /** `RoundTrip` hands a response to its caller. */
  predicate Delivers(r: Outcome<Fault>) { r.Success? || r == Failed(Temporary) }

  function EntryAt(b: State, ctx: Option<CtxError>, now: int): Entry {
    if ctx.Some? then Skipped else if Admit(b, now).1.None? then Rejected else Ran
  }

  /** The breaker after a call during which others made these visits. */
  function Settled(b: State, entry: Entry, now: int, visits: seq<Visit>, r: Outcome<Fault>, later: int, draw: nat)
    : State
  {
    match entry
    case Skipped => b
    case Rejected => Admit(b, now).0
    case Ran =>
      var (admitted, stamp) := Admit(b, now);
      if stamp.None? then admitted else Complete(Visited(admitted, visits), stamp.value, EndingOf(r), later, draw)
  }

  /** The request may be sent again: an idempotent method, and a body that can be had again. */
  predicate Repeatable(req: Request) {
    (req.verb == "GET" || req.verb == "HEAD" || req.verb == "PUT") && (req.body.Stream? ==> req.getBody)
  }

  /** Attempt k got an answer from the upstream. */
  predicate GotAnswer(req: Request, k: nat, t: Try) {
    t.upstream.Answered? && !(k > 1 && req.getBody && t.getBody.Some?)
  }

  /** An overloaded or failing upstream. */
  predicate Busy(status: int) { status == 429 || status == 500 || status == 502 || status == 503 || status == 504 }

  /** Attempt k failed in a way that another attempt may mend. */
  predicate Transient(req: Request, k: nat, t: Try) {
    if GotAnswer(req, k, t) then Busy(t.upstream.status)
    else
      var fault := if k > 1 && req.getBody && t.getBody.Some? then t.getBody.value else t.upstream.fault;
      fault == Net || fault == Eof
  }

  lemma JudgeMeans(req: Request, k: nat, t: Try)
    requires t.Honest()
    ensures var o := Judge(req, k, t);
            && (o.CallOk? <==> GotAnswer(req, k, t) && !Busy(t.upstream.status))
            && (o.CallErr? ==> (o.retryable <==> Repeatable(req) && Transient(req, k, t)))
            && (o.CallErr? && o.error == Temporary <==> GotAnswer(req, k, t) && Busy(t.upstream.status))
  {
  }

  /** Attempt k is followed by another one, unless the context ends first. */
  predicate Retries(req: Request, k: nat, t: Try) {
    Repeatable(req) && Transient(req, k, t) && k < 3 && t.after.None? && t.pause.None?
  }

  /** A response that goes back to the caller: a good answer, or a busy one that will not be asked again. */
  predicate GoesBack(req: Request, k: nat, t: Try) {
    GotAnswer(req, k, t) && (!Busy(t.upstream.status) || !Repeatable(req) || (k == 3 && t.after.None?))
  }

  lemma GoesOnMeans(req: Request, env: nat -> Try, k: nat)
    requires env(k).Honest()
    ensures GoesOn(POLICY, k, Attempts(req, env)(k)) <==> env(k).before.None? && Retries(req, k, env(k))
  {
    JudgeMeans(req, k, env(k));
  }

  /** What the last attempt decides. */
  lemma LastAnswer(req: Request, env: nat -> Try, k: nat, result: Outcome<Fault>)
    requires 1 <= k <= 3 && env(k).Honest() && env(k).before.None? && !Retries(req, k, env(k))
    requires EndsWith(POLICY, Attempts(req, env), 1, k, result)
    ensures Delivers(result) <==> GoesBack(req, k, env(k))
  {
    JudgeMeans(req, k, env(k));
    GoesOnMeans(req, env, k);
    assert Attempts(req, env)(k).outcome == Judge(req, k, env(k));
  }

  /** How the attempts of one request follow each other, and whether an answer goes back. */
  ghost predicate Sending(req: Request, env: nat -> Try, calls: nat, delivers: bool) {
    && calls <= 3
    && (forall k :: 1 <= k <= calls ==> env(k).before.None?)
    && (forall k :: 1 <= k < calls ==> Retries(req, k, env(k)))
    && (calls == 0 || Retries(req, calls, env(calls)) ==> env(calls + 1).before.Some?)
    && (delivers <==> calls > 0 && GoesBack(req, calls, env(calls)))
  }

  lemma EndingMeans(req: Request, env: nat -> Try, calls: nat, result: Outcome<Fault>)
    requires (forall k :: env(k).Honest()) && EndsWith(POLICY, Attempts(req, env), 1, calls, result)
    ensures Sending(req, env, calls, Delivers(result))
  {
    var answers := Attempts(req, env);
    forall k: nat
      ensures answers(k).before == env(k).before
      ensures GoesOn(POLICY, k, answers(k)) <==> env(k).before.None? && Retries(req, k, env(k))
    {
      GoesOnMeans(req, env, k);
    }
    if calls > 0 && !Retries(req, calls, env(calls)) {
      LastAnswer(req, env, calls, result);
    }
  }

  /** Exactly how many attempts a request gets and which answer goes back. */
  lemma SendingEnds(req: Request, env: nat -> Try)
    requires forall k :: env(k).Honest()
    ensures var run := RunFrom(POLICY, Attempts(req, env), 1); Sending(req, env, run.calls, Delivers(run.result))
  {
    var run := RunFrom(POLICY, Attempts(req, env), 1);
    RetryEnding(POLICY, Attempts(req, env));
    EndingMeans(req, env, run.calls, run.result);
  }

  /** At most two pauses: 50 to 100 ms before the second attempt, 100 to 200 ms before the third. */
  lemma PausesBetweenAttempts(req: Request, env: nat -> Try)
    ensures var pauses := RunFrom(POLICY, Attempts(req, env), 1).pauses;
            && |pauses| <= 2
            && (|pauses| > 0 ==> 50 * MILLISECOND <= pauses[0] < 100 * MILLISECOND)
            && (|pauses| > 1 ==> 100 * MILLISECOND <= pauses[1] < 200 * MILLISECOND)
  {
    RetryAccounting(POLICY, Attempts(req, env));
    assert Pow2(0) == 1 && Pow2(1) == 2;
  }

  /** The call failed, and not because somebody gave up on it. */
  predicate CountsAgainst(r: Outcome<Fault>) {
    !r.Success? && r != Failed(CallCanceled) && r != CtxEnded(Canceled)
  }

  /** One call recorded under its result: refused, or the result of the policy; nothing when it was skipped. */
  predicate Recorded(before: Tally, after: Tally, entry: Entry, r: Outcome<Fault>) {
    match entry
    case Skipped => after == before
    case Rejected => after == before.(rejected := before.rejected + 1)
    case Ran =>
      if r.Success? then after == before.(succeeded := before.succeeded + 1)
      else if CountsAgainst(r) then after == before.(errored := before.errored + 1)
      else after == before.(cancelled := before.cancelled + 1)
  }

  /** How far a call gets: an ended context leaves the breaker alone, a closed breaker lets everybody in. */
  predicate Entered(before: State, after: State, ctx: Option<CtxError>, entry: Entry) {
    && (entry == Skipped <==> ctx.Some?) && (entry == Skipped ==> after == before)
    && (entry == Rejected ==> before.mode == Open || (before.mode == HalfOpen && before.probe))
  }

  /** What goes upstream and what comes back of one round trip, given the policy's report. */
  predicate Concluded(req: Request, ctx: Option<CtxError>, env: nat -> Try, run: Report<Fault>, breaker: State,
                      now: int, attempt: nat, reply: Reply, bodyClosed: bool)
  {
    var entry := EntryAt(breaker, ctx, now);
    && attempt <= 3 && (attempt > 1 ==> Repeatable(req))
    && (attempt == 0 <==> entry != Ran || env(1).before.Some?)
    && (bodyClosed <==> attempt == 0 && !req.body.NilBody?)
    && (reply.Returned? <==> entry == Ran && run.calls > 0 && GoesBack(req, run.calls, env(run.calls)))
    && (reply.Returned? ==> env(run.calls).upstream == Answered(reply.status))
  }

  /** tails[k] is the report of the attempts from number k on, said without recursion. */
  ghost predicate Tails(answers: nat -> Attempt<Fault>, tails: seq<Report<Fault>>) {
    |tails| == POLICY.Budget() + 1 && forall k :: 1 <= k < |tails| ==> TailAt(answers, tails, k)
  }

  ghost predicate TailAt(answers: nat -> Attempt<Fault>, tails: seq<Report<Fault>>, k: nat)
    requires 1 <= k < |tails|
  {
    var a := answers(k);
    if a.before.Some? then tails[k].result == CtxEnded(a.before.value) && tails[k].calls == 0
    else if Verdict(k, a).Some? then tails[k].result == Verdict(k, a).value && tails[k].calls == 1
    else k + 1 < |tails| && tails[k].result == tails[k + 1].result && tails[k].calls == 1 + tails[k + 1].calls
  }

  /** The tails of a run exist and are pinned down: tails[1] is what `Policy.Do` reports. */
  ghost function TailsOf(answers: nat -> Attempt<Fault>): (tails: seq<Report<Fault>>)
    ensures Tails(answers, tails) && tails[1] == RunFrom(POLICY, answers, 1)
  {
    var r1, r2, r3 := RunFrom(POLICY, answers, 1), RunFrom(POLICY, answers, 2), RunFrom(POLICY, answers, 3);
    [r1, r1, r2, r3]
  }

  class HTTPTransport {
    const breaker: Breaker
    var sends: seq<seq<int>>   // the bodies that went upstream, in order
    var obtained: nat          // responses obtained so far; each is named by its number
    var closed: set<nat>       // responses whose body was closed

    predicate Valid()
      reads this
    {
      forall n :: n in closed ==> n < obtained
    }

    /** Every response obtained from number `from` on is closed, except possibly `kept`. */
    predicate ClosedBut(from: nat, kept: Option<nat>)
      reads this
    {
      && (forall n :: from <= n < obtained && Some(n) != kept ==> n in closed)
      && (kept.Some? ==> from <= kept.value < obtained)
    }

    /** Since `sends` was s0, exactly `attempt` copies of the request body went upstream. */
    predicate SentCopies(req: Request, s0: seq<seq<int>>, attempt: nat)
      reads this
    {
      && |sends| == |s0| + attempt && s0 <= sends
      && (forall i :: |s0| <= i < |sends| ==> sends[i] == Content(req.body))
    }

    constructor (b: Breaker)
      ensures breaker == b && Valid() && sends == [] && obtained == 0 && closed == {}
    {
      breaker := b;
      sends, obtained, closed := [], 0, {};
    }

    /** One call of the closure: close the previous answer, rewind the body, ask the upstream. */
    method Call(req: Request, k: nat, t: Try, ghost from: nat, ghost s0: seq<seq<int>>,
                previous: Option<nat>, attempt: nat)
      returns (outcome: CallOutcome<Fault>, response: Option<nat>, attempt': nat)
      requires Valid() && from <= obtained && ClosedBut(from, previous) && SentCopies(req, s0, attempt)
      requires 1 <= k && attempt < k && (k > 1 <==> attempt > 0) && (k > 1 ==> Safe(req)) && t.Honest()
      requires attempt == 0 ==> previous.None?
      modifies this
      ensures Valid() && from <= obtained && old(closed) <= closed
      ensures outcome == Judge(req, k, t)
      ensures 1 <= attempt' <= attempt + 1 && SentCopies(req, s0, attempt')
      ensures ClosedBut(from, response)
      ensures response == if Blocked(req, k, t) then previous
                          else if t.upstream.Answered? then Some(old(obtained)) else None
      ensures outcome.CallOk? || outcome.error == Temporary ==>
                response.Some? && response.value !in closed && t.upstream.Answered?
    {
      response, attempt' := previous, attempt;
      var body := if attempt > 0 then [] else Content(req.body); // a stream was drained by its first use
      if attempt > 0 {
        if response.Some? {
          closed := closed + {response.value};
        }
        if req.getBody {
          if t.getBody.Some? {
            return CallErr(t.getBody.value, Retryable(req, t.getBody.value)), response, attempt';
          }
          body := Content(req.body);
        }
      }
      attempt' := attempt' + 1;
      sends := sends + [body];
      match t.upstream {
        case Broken(f) =>
          response := None;
          outcome := CallErr(f, Retryable(req, f));
        case Answered(status) =>
          response := Some(obtained);
          obtained := obtained + 1;
          outcome := if TemporaryStatus(status) then CallErr(Temporary, Retryable(req, Temporary)) else CallOk;
      }
    }

    /** The retry policy driving that closure. */
    method Send(req: Request, env: nat -> Try, ghost tails: seq<Report<Fault>>)
      returns (r: Outcome<Fault>, response: Option<nat>, attempt: nat, calls: nat)
      requires Valid() && (forall k :: env(k).Honest()) && Tails(Attempts(req, env), tails)
      modifies this
      ensures Valid() && old(obtained) <= obtained && old(closed) <= closed
      ensures r == tails[1].result && calls == tails[1].calls <= 3
      ensures attempt <= calls && (attempt == 0 <==> calls == 0) && (!Safe(req) ==> calls <= 1)
      ensures SentCopies(req, old(sends), attempt)
      ensures ClosedBut(old(obtained), response)
      ensures r.Success? || r == Failed(Temporary) ==>
                calls > 0 && response.Some? && response.value !in closed && env(calls).upstream.Answered?
      ensures attempt == 0 ==> response.None?
    {
      r, response, attempt, calls := Success, None, 0, 0;
      ghost var answers := Attempts(req, env);
      var k := 1;
      while true
        invariant 1 <= k <= POLICY.Budget() && calls == k - 1
        invariant tails[1].result == tails[k].result && tails[1].calls == calls + tails[k].calls
        invariant attempt < k && (k > 1 <==> attempt > 0) && (k > 1 ==> Safe(req))
        invariant Valid() && old(obtained) <= obtained && old(closed) <= closed
        invariant SentCopies(req, old(sends), attempt) && ClosedBut(old(obtained), response)
        invariant attempt == 0 ==> response.None?
        decreases POLICY.Budget() - k
      {
        assert TailAt(answers, tails, k);
        assert answers(k) == Attempt(env(k).before, Judge(req, k, env(k)), env(k).after, env(k).draw, env(k).pause);
        if env(k).before.Some? {
          r := CtxEnded(env(k).before.value);
          break;
        }
        var outcome;
        outcome, response, attempt := Call(req, k, env(k), old(obtained), old(sends), response, attempt);
        calls := calls + 1;
        var verdict := Verdict(k, Attempt(env(k).before, outcome, env(k).after, env(k).draw, env(k).pause));
        if verdict.Some? {
          r := verdict.value;
          break;
        }
        k := k + 1;
      }
    }

    /** `breaker.Do` around the retry loop, others visiting the breaker meanwhile; this call records one outcome. */
    method Guard(req: Request, ctx: Option<CtxError>, env: nat -> Try, ghost tails: seq<Report<Fault>>,
                 now: int, visits: seq<Visit>, later: int, draw: nat)
      returns (entry: Entry, r: Outcome<Fault>, response: Option<nat>, attempt: nat, calls: nat)
      requires Valid() && (forall k :: env(k).Honest()) && Tails(Attempts(req, env), tails)
      modifies this, breaker
      ensures Valid() && old(closed) <= closed
      ensures entry == EntryAt(old(breaker.Abs()), ctx, now)
      ensures Entered(old(breaker.Abs()), breaker.Abs(), ctx, entry)
      ensures breaker.Abs() == Settled(old(breaker.Abs()), entry, now, visits, tails[1].result, later, draw)
      ensures Recorded(old(breaker.Counts()), breaker.Counts(), entry, tails[1].result)
      ensures entry == Ran && visits == [] && old(breaker.mode) == Closed ==>
                var result := tails[1].result;
                && breaker.failures == (if result.Success? then 0
                                        else old(breaker.failures) + if CountsAgainst(result) then 1 else 0)
                && breaker.mode == if CountsAgainst(result) && old(breaker.failures) >= 2 then Open else Closed
      ensures attempt <= 3 && (!Safe(req) ==> attempt <= 1) && SentCopies(req, old(sends), attempt)
      ensures ClosedBut(old(obtained), response)
      ensures entry == Ran ==> r == tails[1].result && calls == tails[1].calls && (attempt == 0 <==> calls == 0)
      ensures entry != Ran ==> attempt == 0 && response.None? && sends == old(sends) && obtained == old(obtained)
      ensures entry == Ran && Delivers(r) ==>
                attempt > 0 && calls > 0 && response.Some? && response.value !in closed && env(calls).upstream.Answered?
    {
      r, response, attempt, calls := Success, None, 0, 0;
      if ctx.Some? {
        entry := Skipped;
        return;
      }
      var stamp, allowed := breaker.TryAdmit(now);
      if !allowed {
        breaker.rejected := breaker.rejected + 1;
        entry := Rejected;
        return;
      }
      entry := Ran;
      r, response, attempt, calls := Send(req, env, tails);
      breaker.Overlap(visits);
      breaker.Finish(stamp, EndingOf(r), later, draw);
    }

    /** The call and what `RoundTrip` makes of it: hand the response over, or close what is left open. */
    method Conclude(req: Request, ctx: Option<CtxError>, env: nat -> Try, ghost run: Report<Fault>,
                    ghost tails: seq<Report<Fault>>, now: int, visits: seq<Visit>, later: int, draw: nat)
      returns (reply: Reply, bodyClosed: bool, ghost attempt: nat)
      requires Valid() && (forall k :: env(k).Honest()) && Tails(Attempts(req, env), tails) && run == tails[1]
      requires Sending(req, env, run.calls, Delivers(run.result))
      modifies this, breaker
      ensures Valid() && old(closed) <= closed
      ensures Concluded(req, ctx, env, run, old(breaker.Abs()), now, attempt, reply, bodyClosed)
      ensures SentCopies(req, old(sends), attempt)
      ensures ClosedBut(old(obtained), if reply.Returned? then Some(reply.response) else None)
      ensures reply.Returned? ==> reply.response !in closed
      ensures var entry := EntryAt(old(breaker.Abs()), ctx, now);
              && breaker.Abs() == Settled(old(breaker.Abs()), entry, now, visits, run.result, later, draw)
              && Recorded(old(breaker.Counts()), breaker.Counts(), entry, run.result)
              && Entered(old(breaker.Abs()), breaker.Abs(), ctx, entry)
              && (entry != Ran ==> obtained == old(obtained))
    {
      var entry, r, response, sent, calls := Guard(req, ctx, env, tails, now, visits, later, draw);
      attempt, bodyClosed := sent, false;
      if entry == Ran && Delivers(r) {
        reply := Returned(response.value, env(calls).upstream.status);
      } else {
        if response.Some? {
          closed := closed + {response.value};
        }
        if sent == 0 && !req.body.NilBody? {
          bodyClosed := true;
        }
        reply := NoResponse;
      }
    }

    /**
      `RoundTrip`: at most three copies of the request body go upstream, and at most one unless the request is
      safe to repeat; the breaker records one outcome; of the responses obtained only the returned one is left open.
     */
    method RoundTrip(req: Request, ctx: Option<CtxError>, env: nat -> Try,
                     now: int, visits: seq<Visit>, later: int, draw: nat)
      returns (reply: Reply, bodyClosed: bool, ghost attempt: nat)
      requires Valid() && forall k :: env(k).Honest()
      modifies this, breaker
      ensures Valid() && old(closed) <= closed
      ensures Concluded(req, ctx, env, RunFrom(POLICY, Attempts(req, env), 1), old(breaker.Abs()), now, attempt, reply,
                        bodyClosed)
      ensures SentCopies(req, old(sends), attempt)
      ensures ClosedBut(old(obtained), if reply.Returned? then Some(reply.response) else None)
      ensures reply.Returned? ==> reply.response !in closed
      ensures var entry := EntryAt(old(breaker.Abs()), ctx, now);
              var result := RunFrom(POLICY, Attempts(req, env), 1).result;
              && breaker.Abs() == Settled(old(breaker.Abs()), entry, now, visits, result, later, draw)
              && Recorded(old(breaker.Counts()), breaker.Counts(), entry, result)
              && Entered(old(breaker.Abs()), breaker.Abs(), ctx, entry)
              && (entry != Ran ==> obtained == old(obtained))
    {
      SendingEnds(req, env);
      ghost var tails := TailsOf(Attempts(req, env));
      reply, bodyClosed, attempt := Conclude(req, ctx, env, tails[1], tails, now, visits, later, draw);
    }
  }
}
