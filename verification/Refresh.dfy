/**
 Single-flight token refresh: the response interceptor of one browser tab, and the
 rotation of refresh tokens on the server, statement by statement.
 */
module Refresh {
  import opened Base

  type Token = nat

  /** `_retry` is `retry`; a request waits on the refresh whose promise it awaits. */
  datatype Request = Idle | Sent(retry: bool) | Waiting(on: nat) | Finished | Failed

  datatype Outcome = Rejected | TokenRevoked | HalfRotated | Rotated(token: Token)

  /** Not looked at yet, found unrevoked, answered. */
  datatype ServerSide = Arriving | Checked | Answered(outcome: Outcome)

  datatype ClientSide = Pending | Delivered | Lost

  datatype Attempt = Attempt(presented: Token, server: ServerSide, client: ClientSide)
  {
    /** The server revoked the token presented. */
    predicate Consumed() { server == Answered(HalfRotated) || Renewed() }

    predicate Renewed() { server.Answered? && server.outcome.Rotated? }

    predicate Good() { client == Delivered && Renewed() }
  }

  datatype State = State(
    requests: seq<Request>, refreshPromise: Option<nat>, attempts: seq<Attempt>, sends: nat,
    cookie: Token, issued: nat, revoked: set<Token>)

  datatype Fate = Refuse | BreakAfterRevoking | Succeed

  datatype Event =
    | Send(i: nat)
    | Respond(i: nat, unauthorized: bool, landing: bool)
    | Check(k: nat)
    | Rotate(k: nat, fate: Fate)
    | Deliver(k: nat)
    | Lose(k: nat)
    | Resume(i: nat)

  function Initial(n: nat): State {
    State(seq(n, i => Idle), None, [], 0, 0, 1, {})
  }

  predicate Enabled(s: State, e: Event) {
    match e
    case Send(i) => i < |s.requests| && s.requests[i].Idle?
    case Respond(i, _, _) => i < |s.requests| && s.requests[i].Sent?
    case Check(k) => k < |s.attempts| && s.attempts[k].server.Arriving?
    case Rotate(k, _) => k < |s.attempts| && s.attempts[k].server.Checked?
    case Deliver(k) => k < |s.attempts| && s.attempts[k].client.Pending? && s.attempts[k].server.Answered?
    case Lose(k) => k < |s.attempts| && s.attempts[k].client.Pending?
    case Resume(i) => i < |s.requests| && s.requests[i].Waiting? && s.requests[i].on < |s.attempts|
                      && !s.attempts[s.requests[i].on].client.Pending?
  }

  // ---- the interceptor ---------------------------------------------------------------

  function With(s: State, i: nat, r: Request): State
    requires i < |s.requests|
  {
    s.(requests := s.requests[i := r])
  }

  /** A 401 that may be repaired joins the refresh in flight, or starts one with the cookie of the moment. */
  function Await(s: State, i: nat): State
    requires i < |s.requests|
  {
    if s.refreshPromise.Some? then With(s, i, Waiting(s.refreshPromise.value))
    else With(s, i, Waiting(|s.attempts|)).(
      refreshPromise := Some(|s.attempts|), attempts := s.attempts + [Attempt(s.cookie, Arriving, Pending)])
  }

  function Settle(s: State, k: nat, client: ClientSide): State
    requires k < |s.attempts|
  {
    s.(attempts := s.attempts[k := s.attempts[k].(client := client)],
       refreshPromise := if s.refreshPromise == Some(k) then None else s.refreshPromise)
  }

  // ---- the server ------------------------------------------------------------------------

  function Answer(s: State, k: nat, outcome: Outcome): State
    requires k < |s.attempts|
  {
    s.(attempts := s.attempts[k := s.attempts[k].(server := Answered(outcome))])
  }

  function Step(s: State, e: Event): State
    requires Enabled(s, e)
  {
    match e
    case Send(i) => With(s, i, Sent(false)).(sends := s.sends + 1)
    case Respond(i, unauthorized, landing) =>
      if !unauthorized then With(s, i, Finished)
      else if landing || s.requests[i].retry then With(s, i, Failed)
      else Await(s, i)
    case Check(k) =>
      if s.attempts[k].presented in s.revoked then Answer(s, k, TokenRevoked)
      else s.(attempts := s.attempts[k := s.attempts[k].(server := Checked)])
    case Rotate(k, Refuse) => Answer(s, k, Rejected)
    case Rotate(k, BreakAfterRevoking) =>
      Answer(s, k, HalfRotated).(revoked := s.revoked + {s.attempts[k].presented})
    case Rotate(k, Succeed) =>
      Answer(s, k, Rotated(s.issued)).(revoked := s.revoked + {s.attempts[k].presented}, issued := s.issued + 1)
    case Deliver(k) =>
      var s1 := Settle(s, k, Delivered);
      if s.attempts[k].Renewed() then s1.(cookie := s.attempts[k].server.outcome.token) else s1
    case Lose(k) => Settle(s, k, Lost)
    case Resume(i) =>
      if s.attempts[s.requests[i].on].Good() then With(s, i, Sent(true)).(sends := s.sends + 1)
      else With(s, i, Failed)
  }

  ghost predicate Run(states: seq<State>, events: seq<Event>, n: nat) {
    && |states| == |events| + 1 && states[0] == Initial(n)
    && forall j :: 0 <= j < |events| ==> Enabled(states[j], events[j]) && states[j + 1] == Step(states[j], events[j])
  }

  // ---- one refresh at a time ---------------------------------------------------------------

  /** The promise is the one attempt the client still waits for. */
  ghost predicate SingleFlight(s: State) {
    && (s.refreshPromise.Some? ==> s.refreshPromise.value < |s.attempts|)
    && (forall k :: 0 <= k < |s.attempts| ==> (s.attempts[k].client.Pending? <==> s.refreshPromise == Some(k)))
    && (forall i :: 0 <= i < |s.requests| && s.requests[i].Waiting? ==> s.requests[i].on < |s.attempts|)
  }

  lemma SingleFlightStep(s: State, e: Event)
    requires SingleFlight(s) && Enabled(s, e)
    ensures SingleFlight(Step(s, e))
  {
  }

  // ---- how much work is left ------------------------------------------------------------------

  function Sum(weights: seq<nat>): nat {
    if weights == [] then 0 else Sum(weights[..|weights| - 1]) + weights[|weights| - 1]
  }

  lemma {:induction false} SumUpdate(w: seq<nat>, i: nat, x: nat)
    requires i < |w|
    ensures Sum(w[i := x]) == Sum(w) - w[i] + x
  {
    var n := |w| - 1;
    if i < n {
      assert w[i := x][..n] == w[..n][i := x];
      SumUpdate(w[..n], i, x);
    } else {
      assert w[i := x][..n] == w[..n];
    }
  }

  lemma {:induction false} SumConstant(n: nat, x: nat)
    ensures Sum(seq(n, i => x)) == n * x
  {
    if n > 0 {
      assert seq(n, i => x)[..n - 1] == seq(n - 1, i => x);
      SumConstant(n - 1, x);
    }
  }

  function SendsLeft(r: Request): nat {
    match r
    case Idle => 2
    case Sent(retry) => if retry then 0 else 1
    case Waiting(_) => 1
    case _ => 0
  }

  function RefreshesLeft(r: Request): nat {
    if r.Idle? || r == Sent(false) then 1 else 0
  }

  function RequestSteps(r: Request): nat {
    match r
    case Idle => 7
    case Sent(retry) => if retry then 1 else 6
    case Waiting(_) => 2
    case _ => 0
  }

  function AttemptSteps(a: Attempt): nat {
    (match a.server case Arriving => 2 case Checked => 1 case Answered(_) => 0) + (if a.client.Pending? then 1 else 0)
  }

  function Over<T>(s: seq<T>, weight: T -> nat): (w: seq<nat>)
    ensures |w| == |s| && forall i :: 0 <= i < |s| ==> w[i] == weight(s[i])
  {
    seq(|s|, i requires 0 <= i < |s| => weight(s[i]))
  }

  lemma OverUpdate<T>(s: seq<T>, weight: T -> nat, i: nat, x: T)
    requires i < |s|
    ensures Sum(Over(s[i := x], weight)) == Sum(Over(s, weight)) - weight(s[i]) + weight(x)
  {
    assert Over(s[i := x], weight) == Over(s, weight)[i := weight(x)];
    SumUpdate(Over(s, weight), i, weight(x));
  }

  lemma OverAppend<T>(s: seq<T>, weight: T -> nat, x: T)
    ensures Sum(Over(s + [x], weight)) == Sum(Over(s, weight)) + weight(x)
  {
    var w := Over(s + [x], weight);
    assert w[..|w| - 1] == Over(s, weight);
  }

  ghost function StepsLeft(s: State): nat {
    Sum(Over(s.requests, RequestSteps)) + Sum(Over(s.attempts, AttemptSteps))
  }

  ghost predicate Bounded(s: State, n: nat) {
    && |s.requests| == n
    && s.sends + Sum(Over(s.requests, SendsLeft)) <= 2 * n
    && |s.attempts| + Sum(Over(s.requests, RefreshesLeft)) <= n
  }

  /** One request changes state; its share of every total changes with it. */
  lemma RequestMoves(s: State, i: nat, r: Request)
    requires i < |s.requests|
    ensures var q := s.requests[i := r];
      && Sum(Over(q, SendsLeft)) == Sum(Over(s.requests, SendsLeft)) - SendsLeft(s.requests[i]) + SendsLeft(r)
      && Sum(Over(q, RefreshesLeft)) == Sum(Over(s.requests, RefreshesLeft)) - RefreshesLeft(s.requests[i])
          + RefreshesLeft(r)
      && Sum(Over(q, RequestSteps)) == Sum(Over(s.requests, RequestSteps)) - RequestSteps(s.requests[i])
          + RequestSteps(r)
  {
    OverUpdate(s.requests, SendsLeft, i, r);
    OverUpdate(s.requests, RefreshesLeft, i, r);
    OverUpdate(s.requests, RequestSteps, i, r);
  }

  ghost predicate Progress(s: State, s': State, n: nat) {
    Bounded(s', n) && StepsLeft(s') < StepsLeft(s)
  }

  lemma AwaitWorks(s: State, i: nat, n: nat)
    requires Bounded(s, n) && i < n && s.requests[i] == Sent(false)
    ensures Progress(s, Await(s, i), n)
  {
    RequestMoves(s, i, Await(s, i).requests[i]);
    OverAppend(s.attempts, AttemptSteps, Attempt(s.cookie, Arriving, Pending));
  }

  /** A request moves on without touching the refreshes. */
  lemma MoveWorks(s: State, i: nat, r: Request, n: nat, sent: nat)
    requires Bounded(s, n) && i < n && RequestSteps(r) < RequestSteps(s.requests[i])
    requires SendsLeft(r) + sent <= SendsLeft(s.requests[i]) && RefreshesLeft(r) <= RefreshesLeft(s.requests[i])
    ensures Progress(s, With(s, i, r).(sends := s.sends + sent), n)
  {
    RequestMoves(s, i, r);
  }

  lemma RequestEventWorks(s: State, e: Event, n: nat)
    requires Enabled(s, e) && Bounded(s, n) && (e.Send? || e.Respond? || e.Resume?)
    ensures Progress(s, Step(s, e), n)
  {
    match e
    case Send(i) => MoveWorks(s, i, Sent(false), n, 1);
    case Respond(i, unauthorized, landing) =>
      if !unauthorized { MoveWorks(s, i, Finished, n, 0); }
      else if landing || s.requests[i].retry { MoveWorks(s, i, Failed, n, 0); }
      else { AwaitWorks(s, i, n); }
    case Resume(i) =>
      if s.attempts[s.requests[i].on].Good() {
        MoveWorks(s, i, Sent(true), n, 1);
      } else {
        MoveWorks(s, i, Failed, n, 0);
      }
  }

  /** A refresh moves on without touching the requests. */
  lemma AttemptMoves(s: State, s': State, k: nat, n: nat)
    requires Bounded(s, n) && k < |s.attempts| && k < |s'.attempts| && s'.attempts == s.attempts[k := s'.attempts[k]]
    requires s'.requests == s.requests && s'.sends == s.sends
    requires AttemptSteps(s'.attempts[k]) < AttemptSteps(s.attempts[k])
    ensures Progress(s, s', n)
  {
    OverUpdate(s.attempts, AttemptSteps, k, s'.attempts[k]);
  }

  lemma AttemptEventWorks(s: State, e: Event, n: nat)
    requires Enabled(s, e) && Bounded(s, n) && !(e.Send? || e.Respond? || e.Resume?)
    ensures Progress(s, Step(s, e), n)
  {
    AttemptMoves(s, Step(s, e), e.k, n);
  }

  // ---- tokens -------------------------------------------------------------------------------------

  ghost predicate TokensOk(s: State) {
    && s.cookie < s.issued
    && (forall t <- s.revoked :: t < s.issued)
    && (forall k :: 0 <= k < |s.attempts| ==> AttemptOk(s, s.attempts[k]))
    && (forall t <- s.revoked :: SpentBySome(s, t))
    && (forall k, j :: 0 <= k < |s.attempts| && 0 <= j < |s.attempts| && s.attempts[k].Renewed()
         && !s.attempts[k].Good()
         ==> s.attempts[j].presented != s.attempts[k].server.outcome.token)
    && (forall k, j :: 0 <= k < j < |s.attempts| && s.attempts[k].Renewed() && s.attempts[j].Renewed()
         ==> s.attempts[k].server.outcome.token != s.attempts[j].server.outcome.token)
  }

  ghost predicate AttemptOk(s: State, a: Attempt) {
    && a.presented < s.issued
    && (a.Consumed() ==> a.presented in s.revoked)
    && (a.Renewed() ==> a.server.outcome.token < s.issued)
    && (a.Renewed() && !a.Good() ==> a.server.outcome.token != s.cookie)
    && (a.Good() ==> a.presented != s.cookie)
    && (a.client.Pending? ==> a.presented == s.cookie)
    && (a.client.Delivered? ==> a.server.Answered?)
  }

  ghost predicate SpentBySome(s: State, t: Token) {
    exists k :: 0 <= k < |s.attempts| && s.attempts[k].Consumed() && s.attempts[k].presented == t
  }

  /** Changing requests and counters leaves the tokens alone. */
  lemma TokensFrame(s: State, s': State)
    requires TokensOk(s) && s'.attempts == s.attempts && s'.cookie == s.cookie && s'.issued == s.issued
    requires s'.revoked == s.revoked
    ensures TokensOk(s')
  {
    forall t <- s'.revoked ensures SpentBySome(s', t) {
      assert SpentBySome(s, t);
    }
  }

  lemma AwaitKeepsTokens(s: State, i: nat)
    requires TokensOk(s) && i < |s.requests|
    ensures TokensOk(Await(s, i))
  {
    var s' := Await(s, i);
    if s.refreshPromise.None? {
      forall t <- s'.revoked ensures SpentBySome(s', t) {
        SpentStays(s, s', t);
      }
    } else {
      TokensFrame(s, s');
    }
  }

  lemma SpentStays(s: State, s': State, t: Token)
    requires SpentBySome(s, t) && |s.attempts| <= |s'.attempts|
    requires forall k :: 0 <= k < |s.attempts| && s.attempts[k].Consumed() ==>
      s'.attempts[k].Consumed() && s'.attempts[k].presented == s.attempts[k].presented
    ensures SpentBySome(s', t)
  {
    var k :| 0 <= k < |s.attempts| && s.attempts[k].Consumed() && s.attempts[k].presented == t;
    assert s'.attempts[k].Consumed();
  }

  /** An attempt is answered that it is refused, or is found unrevoked. */
  lemma LookupKeepsTokens(s: State, s': State, k: nat, server: ServerSide)
    requires TokensOk(s) && k < |s.attempts| && s.attempts[k].server.Arriving?
    requires server in {Checked, Answered(TokenRevoked)}
    requires s' == s.(attempts := s.attempts[k := s.attempts[k].(server := server)])
    ensures TokensOk(s')
  {
    forall t <- s'.revoked ensures SpentBySome(s', t) {
      SpentStays(s, s', t);
    }
  }

  lemma CheckKeepsTokens(s: State, k: nat)
    requires TokensOk(s) && Enabled(s, Check(k))
    ensures TokensOk(Step(s, Check(k)))
  {
    LookupKeepsTokens(s, Step(s, Check(k)), k,
        if s.attempts[k].presented in s.revoked then Answered(TokenRevoked) else Checked);
  }

  lemma RotateKeepsTokens(s: State, k: nat, fate: Fate)
    requires TokensOk(s) && Enabled(s, Rotate(k, fate))
    ensures TokensOk(Step(s, Rotate(k, fate)))
  {
    var s' := Step(s, Rotate(k, fate));
    forall t <- s'.revoked ensures SpentBySome(s', t) {
      if t in s.revoked { SpentStays(s, s', t); } else { assert s'.attempts[k].Consumed(); }
    }
  }

  /** The browser gives up on an attempt, or is told that it failed. */
  lemma GiveUpKeepsTokens(s: State, k: nat, client: ClientSide)
    requires TokensOk(s) && k < |s.attempts| && s.attempts[k].client.Pending?
    requires client.Lost? || (client.Delivered? && s.attempts[k].server.Answered? && !s.attempts[k].Renewed())
    ensures TokensOk(Settle(s, k, client))
  {
    var s' := Settle(s, k, client);
    forall t <- s'.revoked ensures SpentBySome(s', t) {
      SpentStays(s, s', t);
    }
  }

  /** The new token of the one attempt in flight reaches the browser. */
  lemma RenewKeepsTokens(s: State, k: nat)
    requires TokensOk(s) && SingleFlight(s) && k < |s.attempts| && s.attempts[k].client.Pending?
    requires s.attempts[k].Renewed()
    ensures TokensOk(Settle(s, k, Delivered).(cookie := s.attempts[k].server.outcome.token))
  {
    var s' := Settle(s, k, Delivered).(cookie := s.attempts[k].server.outcome.token);
    forall t <- s'.revoked ensures SpentBySome(s', t) {
      SpentStays(s, s', t);
    }
  }

  lemma TokensStep(s: State, e: Event)
    requires TokensOk(s) && SingleFlight(s) && Enabled(s, e)
    ensures TokensOk(Step(s, e))
  {
    match e
    case Send(i) => TokensFrame(s, Step(s, e));
    case Respond(i, unauthorized, landing) =>
      if unauthorized && !landing && !s.requests[i].retry {
        AwaitKeepsTokens(s, i);
      } else {
        TokensFrame(s, Step(s, e));
      }
    case Check(k) => CheckKeepsTokens(s, k);
    case Rotate(k, fate) => RotateKeepsTokens(s, k, fate);
    case Deliver(k) =>
      if s.attempts[k].Renewed() { RenewKeepsTokens(s, k); } else { GiveUpKeepsTokens(s, k, Delivered); }
    case Lose(k) => GiveUpKeepsTokens(s, k, Lost);
    case Resume(i) => TokensFrame(s, Step(s, e));
  }

  // ---- whole runs -----------------------------------------------------------------------------------

  lemma {:induction false} RunInvariant(states: seq<State>, events: seq<Event>, n: nat, j: nat)
    requires Run(states, events, n) && j < |states|
    ensures SingleFlight(states[j]) && TokensOk(states[j]) && Bounded(states[j], n)
    ensures StepsLeft(states[j]) + j <= 7 * n
  {
    if j == 0 {
      StartTotals(n);
    } else {
      RunInvariant(states, events, n, j - 1);
      var s, e := states[j - 1], events[j - 1];
      SingleFlightStep(s, e);
      TokensStep(s, e);
      if e.Send? || e.Respond? || e.Resume? { RequestEventWorks(s, e, n); } else { AttemptEventWorks(s, e, n); }
    }
  }

  lemma StartTotals(n: nat)
    ensures Bounded(Initial(n), n) && StepsLeft(Initial(n)) == 7 * n
  {
    var s := Initial(n);
    SumConstant(n, 2);
    SumConstant(n, 1);
    SumConstant(n, 7);
    assert Over(s.requests, SendsLeft) == seq(n, i => 2);
    assert Over(s.requests, RefreshesLeft) == seq(n, i => 1);
    assert Over(s.requests, RequestSteps) == seq(n, i => 7);
    assert Over(s.attempts, AttemptSteps) == [];
  }

  /** For n requests and any schedule of 401s: one refresh at a time, at most n refreshes and 2n sends. */
  lemma SingleFlightBounds(states: seq<State>, events: seq<Event>, n: nat, j: nat)
    requires Run(states, events, n) && j < |states|
    ensures forall k, k' :: 0 <= k < k' < |states[j].attempts| ==>
      !(states[j].attempts[k].client.Pending? && states[j].attempts[k'].client.Pending?)
    ensures |states[j].attempts| <= n && states[j].sends <= 2 * n
  {
    RunInvariant(states, events, n, j);
  }

  ghost predicate HasEnded(r: Request) { r.Finished? || r.Failed? }

  /** Every run ends: it is no longer than 7n events, and while a request is unanswered another event can happen. */
  lemma RunEnds(states: seq<State>, events: seq<Event>, n: nat) returns (e: Event)
    requires Run(states, events, n)
    ensures |events| <= 7 * n && |states[|events|].requests| == n
    ensures (exists i :: 0 <= i < n && !HasEnded(states[|events|].requests[i])) ==> Enabled(states[|events|], e)
  {
    var s := states[|events|];
    RunInvariant(states, events, n, |events|);
    e := Send(0);
    if i :| 0 <= i < n && !HasEnded(s.requests[i]) {
      match s.requests[i]
      case Idle => e := Send(i);
      case Sent(_) => e := Respond(i, false, false);
      case Waiting(k) =>
        e := if !s.attempts[k].client.Pending? then Resume(i)
             else match s.attempts[k].server
               case Arriving => Check(k)
               case Checked => Rotate(k, Succeed)
               case Answered(_) => Deliver(k);
    }
  }

  /** The token of the cookie was spent by a refresh whose new token never reached the browser. */
  ghost predicate Wasted(s: State) {
    exists k :: 0 <= k < |s.attempts| && s.attempts[k].Consumed() && !s.attempts[k].client.Pending?
        && !s.attempts[k].Good()
                && s.attempts[k].presented == s.cookie
  }

  /** A refresh that starts presents a revoked token exactly when the token was wasted before. */
  lemma StaleIffWasted(states: seq<State>, events: seq<Event>, n: nat, j: nat, i: nat)
    requires Run(states, events, n) && j < |events| && events[j] == Respond(i, true, false)
    requires states[j].requests[i] == Sent(false) && states[j].refreshPromise.None?
    ensures var s, s' := states[j], states[j + 1];
      && |s'.attempts| == |s.attempts| + 1
      && (s'.attempts[|s.attempts|].presented in s'.revoked <==> Wasted(s))
  {
    RunInvariant(states, events, n, j);
    var s := states[j];
    if s.cookie in s.revoked {
      assert SpentBySome(s, s.cookie);
    }
  }

  /** Some other attempt has spent the token that attempt `k` presents. */
  ghost predicate SpentByOther(s: State, k: nat)
    requires k < |s.attempts|
  {
    exists i :: 0 <= i < |s.attempts| && i != k && s.attempts[i].Consumed()
        && s.attempts[i].presented == s.attempts[k].presented
  }

  /**
   A refresh is answered that its token was revoked exactly when another has spent the token by the time of
   the lookup.
   */
  lemma RevokedIffSpent(states: seq<State>, events: seq<Event>, n: nat, j: nat, k: nat)
    requires Run(states, events, n) && j < |events| && events[j] == Check(k)
    ensures k < |states[j].attempts| && k < |states[j + 1].attempts|
    ensures states[j + 1].attempts[k].server == Answered(TokenRevoked) <==> SpentByOther(states[j], k)
  {
    RunInvariant(states, events, n, j);
    assert SpentBySome(states[j], states[j].attempts[k].presented) <==> SpentByOther(states[j], k);
  }

  /**
   For the attempt the browser waits for, that other one was lost on the way or broke off between its two
   statements: a token whose successor was delivered is not presented again.
   */
  lemma SpentMeansFault(s: State, k: nat)
    requires SingleFlight(s) && TokensOk(s) && k < |s.attempts| && s.attempts[k].client.Pending? && SpentByOther(s, k)
    ensures exists i ::
      0 <= i < |s.attempts| && i != k && s.attempts[i].presented == s.attempts[k].presented && Fault(s.attempts[i])
  {
    var i :| 0 <= i < |s.attempts| && i != k && s.attempts[i].Consumed()
        && s.attempts[i].presented == s.attempts[k].presented;
    assert AttemptOk(s, s.attempts[i]) && AttemptOk(s, s.attempts[k]);
    assert Fault(s.attempts[i]);
  }

  ghost predicate Fault(a: Attempt) { a.Consumed() && (a.client.Lost? || a.server == Answered(HalfRotated)) }

  // ---- runs without faults --------------------------------------------------------------------

  /** No response was lost and no rotation broke off between revoking and issuing. */
  ghost predicate Smooth(events: seq<Event>) {
    forall e <- events :: !e.Lose? && !(e.Rotate? && e.fate == BreakAfterRevoking)
  }

  ghost predicate AllGood(s: State) {
    forall k :: 0 <= k < |s.attempts| ==> !s.attempts[k].client.Lost? && s.attempts[k].server != Answered(HalfRotated)
  }

  lemma {:induction false} SmoothRun(states: seq<State>, events: seq<Event>, n: nat, j: nat)
    requires Run(states, events, n) && Smooth(events) && j < |states|
    ensures AllGood(states[j])
  {
    if j > 0 {
      SmoothRun(states, events, n, j - 1);
      assert events[j - 1] in events;
    }
  }

  /**
   With every response delivered and no rotation broken off, no refresh is ever answered that its token was
   revoked.
   */
  lemma {:induction false} NeverRevoked(states: seq<State>, events: seq<Event>, n: nat, j: nat, k: nat)
    requires Run(states, events, n) && Smooth(events) && j < |states| && k < |states[j].attempts|
    ensures states[j].attempts[k].server != Answered(TokenRevoked)
    decreases j
  {
    if j > 0 && k < |states[j - 1].attempts| {
      NeverRevoked(states, events, n, j - 1, k);
      if events[j - 1] == Check(k) {
        RunInvariant(states, events, n, j - 1);
        SmoothRun(states, events, n, j - 1);
        RevokedIffSpent(states, events, n, j - 1, k);
        NoneSpent(states[j - 1], k);
      } else {
        OthersKeepAnswer(states[j - 1], events[j - 1], k);
      }
    } else if j > 0 {
      FreshAttempt(states[j - 1], events[j - 1], k);
    }
  }

  lemma NoneSpent(s: State, k: nat)
    requires SingleFlight(s) && TokensOk(s) && AllGood(s) && k < |s.attempts| && s.attempts[k].server.Arriving?
    ensures !SpentByOther(s, k)
  {
    assert AttemptOk(s, s.attempts[k]);
    if SpentByOther(s, k) {
      SpentMeansFault(s, k);
    }
  }

  lemma OthersKeepAnswer(s: State, e: Event, k: nat)
    requires Enabled(s, e) && k < |s.attempts| && e != Check(k) && s.attempts[k].server != Answered(TokenRevoked)
    ensures k < |Step(s, e).attempts| && Step(s, e).attempts[k].server != Answered(TokenRevoked)
  {
  }

  lemma FreshAttempt(s: State, e: Event, k: nat)
    requires Enabled(s, e) && |s.attempts| <= k < |Step(s, e).attempts|
    ensures Step(s, e).attempts[k].server.Arriving?
  {
  }

  // ---- what becomes of a request ----------------------------------------------------------------

  /** The refresh that the request waits for was answered with a new token, and the answer arrived. */
  ghost predicate GotToken(s: State, i: nat) {
    && i < |s.requests| && s.requests[i].Waiting? && s.requests[i].on < |s.attempts|
    && s.attempts[s.requests[i].on].client == Delivered
    && exists token :: s.attempts[s.requests[i].on].server == Answered(Rotated(token))
  }

  /** After its refresh a request is sent again, marked as a retry, if there is a new token; else it fails. */
  lemma ResumeMeans(states: seq<State>, events: seq<Event>, n: nat, j: nat, i: nat)
    requires Run(states, events, n) && j < |events| && events[j] == Resume(i)
    ensures var (s, s') := (states[j], states[j + 1]);
      && i < |s.requests| && s'.attempts == s.attempts && s'.cookie == s.cookie
      && (if GotToken(s, i) then s'.requests == s.requests[i := Sent(true)] && s'.sends == s.sends + 1
          else s'.requests == s.requests[i := Failed] && s'.sends == s.sends)
  {
  }

  /** The step tells the request that it has failed. */
  ghost predicate GivesUp(s: State, e: Event, i: nat) {
    || (e.Respond? && e.i == i && e.unauthorized && (e.landing || (i < |s.requests| && s.requests[i] == Sent(true))))
    || (e == Resume(i) && !GotToken(s, i))
  }

  ghost predicate Succeeds(e: Event, i: nat) { e.Respond? && e.i == i && !e.unauthorized }

  lemma EndsStep(s: State, e: Event, i: nat)
    requires Enabled(s, e) && i < |s.requests|
    ensures |Step(s, e).requests| == |s.requests|
    ensures Step(s, e).requests[i].Failed? <==> s.requests[i].Failed? || GivesUp(s, e, i)
    ensures Step(s, e).requests[i].Finished? <==> s.requests[i].Finished? || Succeeds(e, i)
  {
  }

  /**
   A request has failed exactly if it met a 401 on the landing page, a 401 as a retry, or a refresh that was lost or
   brought no token; it has finished exactly if it met an answer that is not a 401.
   */
  lemma {:induction false} EndsIff(states: seq<State>, events: seq<Event>, n: nat, j: nat, i: nat)
    requires Run(states, events, n) && j < |states| && i < n
    ensures |states[j].requests| == n
    ensures states[j].requests[i].Failed? <==> exists m: nat :: m < j && GivesUp(states[m], events[m], i)
    ensures states[j].requests[i].Finished? <==> exists m: nat :: m < j && Succeeds(events[m], i)
  {
    if j > 0 {
      EndsIff(states, events, n, j - 1, i);
      EndsStep(states[j - 1], events[j - 1], i);
    }
  }

  /** The step puts a request on the wire. */
  ghost predicate Sends(s: State, e: Event) { e.Send? || (e.Resume? && GotToken(s, e.i)) }

  ghost function SendingSteps(states: seq<State>, events: seq<Event>, j: nat): set<nat>
    requires j <= |events| < |states|
  {
    set m: nat | m < j && Sends(states[m], events[m])
  }

  lemma SendsStep(s: State, e: Event)
    requires Enabled(s, e)
    ensures Step(s, e).sends == s.sends + if Sends(s, e) then 1 else 0
  {
  }

  lemma SendingGrows(states: seq<State>, events: seq<Event>, j: nat)
    requires j < |events| < |states|
    ensures |SendingSteps(states, events, j + 1)|
         == |SendingSteps(states, events, j)| + if Sends(states[j], events[j]) then 1 else 0
  {
    var before, now := SendingSteps(states, events, j), SendingSteps(states, events, j + 1);
    if Sends(states[j], events[j]) { assert now == before + {j}; } else { assert now == before; }
  }

  /** Requests are sent at their start and after a refresh that brought a token, and never otherwise. */
  lemma {:induction false} SendsExact(states: seq<State>, events: seq<Event>, n: nat, j: nat)
    requires Run(states, events, n) && j < |states|
    ensures states[j].sends == |SendingSteps(states, events, j)|
  {
    if j > 0 {
      SendsExact(states, events, n, j - 1);
      SendsStep(states[j - 1], events[j - 1]);
      SendingGrows(states, events, j - 1);
    } else {
      assert SendingSteps(states, events, j) == {};
    }
  }

  /** Every refresh is delivered and brings a token, no 401 comes on the landing page and none for a retry. */
  ghost predicate AllWell(states: seq<State>, events: seq<Event>)
    requires |states| == |events| + 1
  {
    && (forall e <- events :: !e.Lose? && (e.Rotate? ==> e.fate == Succeed))
    && forall j: nat, i: nat | j < |events| :: events[j].Respond? && events[j].i == i && events[j].unauthorized ==>
         !events[j].landing && i < |states[j].requests| && states[j].requests[i] != Sent(true)
  }

  ghost predicate AnswersRenew(s: State) {
    forall k :: 0 <= k < |s.attempts| && s.attempts[k].server.Answered? ==>
      s.attempts[k].server.outcome.Rotated? || s.attempts[k].server.outcome.TokenRevoked?
  }

  lemma {:induction false} WellRenews(states: seq<State>, events: seq<Event>, n: nat, j: nat)
    requires Run(states, events, n) && AllWell(states, events) && j < |states|
    ensures AnswersRenew(states[j])
  {
    if j > 0 {
      WellRenews(states, events, n, j - 1);
      assert events[j - 1] in events;
    }
  }

  lemma WellResumes(states: seq<State>, events: seq<Event>, n: nat, j: nat, i: nat)
    requires Run(states, events, n) && AllWell(states, events) && j < |events| && events[j] == Resume(i)
    ensures GotToken(states[j], i)
  {
    var s := states[j];
    var k := s.requests[i].on;
    RunInvariant(states, events, n, j);
    WellRenews(states, events, n, j);
    SmoothRun(states, events, n, j);
    NeverRevoked(states, events, n, j, k);
    assert AttemptOk(s, s.attempts[k]);
    assert s.attempts[k].server == Answered(Rotated(s.attempts[k].server.outcome.token));
  }

  /** If all goes well no request fails, and when nothing is left to happen every request has its answer. */
  lemma AllFinish(states: seq<State>, events: seq<Event>, n: nat, i: nat)
    requires Run(states, events, n) && AllWell(states, events) && i < n
    ensures |states[|events|].requests| == n && !states[|events|].requests[i].Failed?
    ensures (forall e: Event :: !Enabled(states[|events|], e)) ==> states[|events|].requests[i].Finished?
  {
    EndsIff(states, events, n, |events|, i);
    if m: nat :| m < |events| && GivesUp(states[m], events[m], i) {
      if events[m].Resume? { WellResumes(states, events, n, m, i); }
    }
    var e := RunEnds(states, events, n);
    assert HasEnded(states[|events|].requests[i]) || Enabled(states[|events|], e);
  }

  // ---- each fault does it ------------------------------------------------------------------------

  /** One more event at the end of a run. */
  lemma Extend(states: seq<State>, events: seq<Event>, n: nat, e: Event)
      returns (states': seq<State>, events': seq<Event>)
    requires Run(states, events, n) && Enabled(states[|events|], e)
    ensures events' == events + [e] && states' == states + [Step(states[|events|], e)]
    ensures Run(states', events', n)
  {
    events', states' := events + [e], states + [Step(states[|events|], e)];
  }

  /**
   Every response is delivered, but one rotation breaks off: the next refresh is answered that its token was
   revoked.
   */
  lemma BrokenRotation() returns (states: seq<State>, events: seq<Event>)
    ensures Run(states, events, 2) && forall e <- events :: !e.Lose?
    ensures |states[|events|].attempts| == 2 && states[|events|].attempts[1].server == Answered(TokenRevoked)
  {
    states, events := [Initial(2)], [];
    states, events := Extend(states, events, 2, Send(0));
    states, events := Extend(states, events, 2, Respond(0, true, false));
    states, events := Extend(states, events, 2, Check(0));
    states, events := Extend(states, events, 2, Rotate(0, BreakAfterRevoking));
    states, events := Extend(states, events, 2, Deliver(0));
    assert states[5] == State([Waiting(0), Idle], None, [Attempt(0, Answered(HalfRotated), Delivered)], 1, 0, 1, {0});
    states, events := Extend(states, events, 2, Send(1));
    states, events := Extend(states, events, 2, Respond(1, true, false));
    states, events := Extend(states, events, 2, Check(1));
  }

  /**
   A refresh is lost to the browser while the server still works on it.  The next one starts with a token
   that nothing has spent yet, and is answered that it was revoked all the same.
   */
  lemma LateRevocation() returns (states: seq<State>, events: seq<Event>)
    ensures Run(states, events, 2) && |events| == 8 && events[4] == Respond(1, true, false) && !Wasted(states[4])
    ensures forall e <- events :: !(e.Rotate? && e.fate == BreakAfterRevoking)
    ensures |states[8].attempts| == 2 && states[8].attempts[1].server == Answered(TokenRevoked)
  {
    states, events := [Initial(2)], [];
    states, events := Extend(states, events, 2, Send(0));
    states, events := Extend(states, events, 2, Send(1));
    states, events := Extend(states, events, 2, Respond(0, true, false));
    states, events := Extend(states, events, 2, Lose(0));
    assert !Wasted(states[4]);
    states, events := Extend(states, events, 2, Respond(1, true, false));
    states, events := Extend(states, events, 2, Check(0));
    states, events := Extend(states, events, 2, Rotate(0, Succeed));
    states, events := Extend(states, events, 2, Check(1));
  }

  // ---- the code --------------------------------------------------------------------------------------

  /** The interceptor's module state and the token table it talks to. */
  class Session {
    var requests: seq<Request>
    var refreshPromise: Option<nat>
    var attempts: seq<Attempt>
    var sends: nat
    var cookie: Token
    var issued: nat
    var revoked: set<Token>

    function Seen(): State
      reads this
    {
      State(requests, refreshPromise, attempts, sends, cookie, issued, revoked)
    }

    constructor (n: nat)
      ensures Seen() == Initial(n)
    {
      requests, refreshPromise, attempts, sends := seq(n, i => Idle), None, [], 0;
      cookie, issued, revoked := 0, 1, {};
    }

    method SendRequest(i: nat)
      requires Enabled(Seen(), Send(i))
      modifies this
      ensures Seen() == Step(old(Seen()), Send(i))
    {
      requests, sends := requests[i := Sent(false)], sends + 1;
    }

    /** The response interceptor, up to its await. */
    method OnResponse(i: nat, unauthorized: bool, landing: bool)
      requires Enabled(Seen(), Respond(i, unauthorized, landing))
      modifies this
      ensures Seen() == Step(old(Seen()), Respond(i, unauthorized, landing))
    {
      if !unauthorized {
        requests := requests[i := Finished];
        return;
      }
      if landing {
        requests := requests[i := Failed];
        return;
      }
      if requests[i].retry {
        requests := requests[i := Failed];
        return;
      }
      if refreshPromise.None? {
        attempts := attempts + [Attempt(cookie, Arriving, Pending)];
        refreshPromise := Some(|attempts| - 1);
      }
      requests := requests[i := Waiting(refreshPromise.value)];
    }

    /** The interceptor after its await. */
    method OnResume(i: nat)
      requires Enabled(Seen(), Resume(i))
      modifies this
      ensures Seen() == Step(old(Seen()), Resume(i))
    {
      if !attempts[requests[i].on].Good() {
        requests := requests[i := Failed];
        return;
      }
      requests, sends := requests[i := Sent(true)], sends + 1;
    }

    /** The refresh response, or a network error, reaches the browser; the promise is cleared either way. */
    method OnSettled(k: nat, delivered: bool)
      requires Enabled(Seen(), if delivered then Deliver(k) else Lose(k))
      modifies this
      ensures Seen() == Step(old(Seen()), if delivered then Deliver(k) else Lose(k))
    {
      if delivered && attempts[k].Renewed() { cookie := attempts[k].server.outcome.token; }
      attempts := attempts[k := attempts[k].(client := if delivered then Delivered else Lost)];
      if refreshPromise == Some(k) { refreshPromise := None; }
    }

    /** The server looks the token up. */
    method FindToken(k: nat)
      requires Enabled(Seen(), Check(k))
      modifies this
      ensures Seen() == Step(old(Seen()), Check(k))
    {
      var server := if attempts[k].presented in revoked then Answered(TokenRevoked) else Checked;
      attempts := attempts[k := attempts[k].(server := server)];
    }

    /** The server rotates: revoke, then issue; `fate` says how far it gets. */
    method RotateToken(k: nat, fate: Fate)
      requires Enabled(Seen(), Rotate(k, fate))
      modifies this
      ensures Seen() == Step(old(Seen()), Rotate(k, fate))
    {
      var outcome := Rejected;
      if !fate.Refuse? {
        revoked := revoked + {attempts[k].presented};
        outcome := HalfRotated;
        if fate.Succeed? {
          outcome := Rotated(issued);
          issued := issued + 1;
        }
      }
      attempts := attempts[k := attempts[k].(server := Answered(outcome))];
    }
  }
}
