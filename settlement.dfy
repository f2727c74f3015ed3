/**
 * The promise that `requireAsync` builds for a fresh load, as a state
 * machine: the loader's `resolve(mod)`, its `reject(err)` and the expiry of
 * the timeout timer are the events; the promise, the timer, the calls of
 * `onError` and the modules handed to `resolveExport` are the state.
 * Time is not modelled; the host rule that a promise keeps its first
 * settlement is.
 */
module Settlement {
  import opened Wrappers
  import opened JsValues

  const DefaultTimeout := 15000
  const TimeoutExceeded := "timeout exceeded"
  const ExportNotFound := "export not found"

  /** A rejection reason: an `Error` the loader creates itself, or the value the loader rejected with. */
  datatype Error = ErrorMessage(message: string) | Raised(reason: Value)

  datatype Promise = Pending | Fulfilled(value: Value) | Rejected(error: Error)

  /** One call of `onError(error, { isServer })`. */
  datatype ErrorReport = ErrorReport(error: Error, isServer: bool)

  datatype LoadState = LoadState(
    promise: Promise,
    timerArmed: bool,
    onErrorCalls: seq<ErrorReport>,
    resolvedModules: seq<Value>)

  datatype Event = Resolve(mod: Value) | Reject(reason: Value) | TimerExpired

  /** What the `resolve` and `reject` closures capture from their instance and host. */
  datatype LoadContext = LoadContext(
    exportKey: Option<string>,
    hasOnError: bool,
    windowDefined: bool,
    findExport: (Value, Option<string>) -> Value)

  /**
   * The state once the promise executor has armed the timer and before any
   * `resolve` or `reject`; a call of either made synchronously by `load` is
   * the first event of the run.
   */
  function InitialLoad(timeout: Option<int>): (s: LoadState)
    ensures s.promise.Pending? && s.onErrorCalls == [] && s.resolvedModules == []
    ensures s.timerArmed <==> timeout != Some(0)
  {
    var ms := if timeout.Some? then timeout.value else DefaultTimeout;
    LoadState(Pending, ms != 0, [], [])
  }

  /** The host rule: `res` and `rej` on a settled promise do nothing. */
  function Settle(p: Promise, outcome: Promise): Promise {
    if p.Pending? then outcome else p
  }

  /** `error || new Error('timeout exceeded')`. */
  function RejectionError(reason: Value): Error {
    if Truthy(reason) then Raised(reason) else ErrorMessage(TimeoutExceeded)
  }

  /** The `reject` closure once its error is fixed: clear the timer, report, reject. */
  function RunReject(s: LoadState, ctx: LoadContext, e: Error): LoadState {
    var report := if ctx.hasOnError then [ErrorReport(e, !ctx.windowDefined)] else [];
    LoadState(Settle(s.promise, Rejected(e)), false, s.onErrorCalls + report, s.resolvedModules)
  }

  /** `mod && findExport(mod, key)`. */
  function ExportOf(ctx: LoadContext, mod: Value): Value {
    if Truthy(mod) then ctx.findExport(mod, ctx.exportKey) else mod
  }

  /** The `resolve` closure: clear the timer, hand `mod` to `resolveExport`, then fulfil or reject. */
  function RunResolve(s: LoadState, ctx: LoadContext, mod: Value): LoadState {
    var cleared := s.(timerArmed := false, resolvedModules := s.resolvedModules + [mod]);
    var exp := ExportOf(ctx, mod);
    if Truthy(exp) then cleared.(promise := Settle(s.promise, Fulfilled(exp)))
    else RunReject(cleared, ctx, ErrorMessage(ExportNotFound))
  }

  function Step(s: LoadState, ctx: LoadContext, e: Event): (r: LoadState)
    // every call of resolve or reject clears the timer, an expired timer is spent, and a cleared timer never fires
    ensures !r.timerArmed
    ensures e.TimerExpired? && !s.timerArmed ==> r == s
    // first settlement wins
    ensures !s.promise.Pending? ==> r.promise == s.promise
    // the outcome of the first settlement
    ensures s.promise.Pending? && e.Reject? && Truthy(e.reason) ==> r.promise == Rejected(Raised(e.reason))
    ensures s.promise.Pending? && e.Reject? && !Truthy(e.reason) ==> r.promise == Rejected(ErrorMessage(TimeoutExceeded))
    ensures s.promise.Pending? && e.TimerExpired? && s.timerArmed ==> r.promise == Rejected(ErrorMessage(TimeoutExceeded))
    ensures s.promise.Pending? && e.Resolve? ==>
      r.promise == if Truthy(ExportOf(ctx, e.mod)) then Fulfilled(ExportOf(ctx, e.mod))
                   else Rejected(ErrorMessage(ExportNotFound))
    ensures r.promise.Fulfilled? && s.promise.Pending? ==> Truthy(r.promise.value)
    // resolveExport runs on every resolve, whatever the promise's state
    ensures r.resolvedModules == s.resolvedModules + (if e.Resolve? then [e.mod] else [])
    // onError: one report per run of reject, even after settlement; none without a hook
    ensures s.onErrorCalls <= r.onErrorCalls && |r.onErrorCalls| <= |s.onErrorCalls| + 1
    ensures !ctx.hasOnError ==> r.onErrorCalls == s.onErrorCalls
    ensures ctx.hasOnError && e.Reject? ==> |r.onErrorCalls| == |s.onErrorCalls| + 1
    ensures forall k :: |s.onErrorCalls| <= k < |r.onErrorCalls| ==> r.onErrorCalls[k].isServer == !ctx.windowDefined
    // with the hook, each path that runs reject reports exactly its own error
    ensures ctx.hasOnError && e.Reject? && Truthy(e.reason) ==>
      r.onErrorCalls == s.onErrorCalls + [ErrorReport(Raised(e.reason), !ctx.windowDefined)]
    ensures ctx.hasOnError && e.Reject? && !Truthy(e.reason) ==>
      r.onErrorCalls == s.onErrorCalls + [ErrorReport(ErrorMessage(TimeoutExceeded), !ctx.windowDefined)]
    ensures ctx.hasOnError && e.TimerExpired? && s.timerArmed ==>
      r.onErrorCalls == s.onErrorCalls + [ErrorReport(ErrorMessage(TimeoutExceeded), !ctx.windowDefined)]
    ensures ctx.hasOnError && e.Resolve? && !Truthy(ExportOf(ctx, e.mod)) ==>
      r.onErrorCalls == s.onErrorCalls + [ErrorReport(ErrorMessage(ExportNotFound), !ctx.windowDefined)]
    // the paths that do not run reject report nothing
    ensures e.Resolve? && Truthy(ExportOf(ctx, e.mod)) ==> r.onErrorCalls == s.onErrorCalls
    ensures e.TimerExpired? && !s.timerArmed ==> r.onErrorCalls == s.onErrorCalls
  {
    match e
    case Resolve(mod) => RunResolve(s, ctx, mod)
    case Reject(reason) => RunReject(s, ctx, RejectionError(reason))
    case TimerExpired => if s.timerArmed then RunReject(s, ctx, RejectionError(Undefined)) else s
  }

  function Run(s: LoadState, ctx: LoadContext, events: seq<Event>): LoadState
    decreases |events|
  {
    if events == [] then s else Run(Step(s, ctx, events[0]), ctx, events[1..])
  }

  lemma {:induction false} RunConcat(s: LoadState, ctx: LoadContext, a: seq<Event>, b: seq<Event>)
    ensures Run(s, ctx, a + b) == Run(Run(s, ctx, a), ctx, b)
    decreases |a|
  {
    if a != [] {
      assert (a + b)[0] == a[0] && (a + b)[1..] == a[1..] + b;
      RunConcat(Step(s, ctx, a[0]), ctx, a[1..], b);
    } else {
      assert a + b == b;
    }
  }

  /** A settled promise stays as it is, whatever events follow. */
  lemma {:induction false} SettledIsFinal(s: LoadState, ctx: LoadContext, events: seq<Event>)
    requires !s.promise.Pending?
    ensures Run(s, ctx, events).promise == s.promise
    decreases |events|
  {
    if events != [] {
      SettledIsFinal(Step(s, ctx, events[0]), ctx, events[1..]);
    }
  }

  /** The outcome after `a` is the outcome after `a` followed by anything. */
  lemma FirstSettlementWins(s: LoadState, ctx: LoadContext, a: seq<Event>, b: seq<Event>)
    requires !Run(s, ctx, a).promise.Pending?
    ensures Run(s, ctx, a + b).promise == Run(s, ctx, a).promise
  {
    RunConcat(s, ctx, a, b);
    SettledIsFinal(Run(s, ctx, a), ctx, b);
  }

  /** What holds of every state reachable from `InitialLoad`. */
  ghost predicate Consistent(s: LoadState) {
    && (!s.promise.Pending? ==> !s.timerArmed)
    && (s.promise.Fulfilled? ==> Truthy(s.promise.value))
  }

  /** Settlement leaves no timer behind, and a fulfilled promise holds a truthy export. */
  lemma {:induction false} RunKeepsConsistent(s: LoadState, ctx: LoadContext, events: seq<Event>)
    requires Consistent(s)
    ensures Consistent(Run(s, ctx, events))
    decreases |events|
  {
    if events != [] {
      RunKeepsConsistent(Step(s, ctx, events[0]), ctx, events[1..]);
    }
  }

  /** Once cleared, the timer is never armed again. */
  lemma {:induction false} ClearedTimerStaysCleared(s: LoadState, ctx: LoadContext, events: seq<Event>)
    requires !s.timerArmed
    ensures !Run(s, ctx, events).timerArmed
    decreases |events|
  {
    if events != [] {
      ClearedTimerStaysCleared(Step(s, ctx, events[0]), ctx, events[1..]);
    }
  }

  /** `onError` reports are only ever appended, and never made without the hook. */
  lemma {:induction false} OnErrorLogOnlyGrows(s: LoadState, ctx: LoadContext, events: seq<Event>)
    ensures s.onErrorCalls <= Run(s, ctx, events).onErrorCalls
    ensures !ctx.hasOnError ==> Run(s, ctx, events).onErrorCalls == s.onErrorCalls
    decreases |events|
  {
    if events != [] {
      OnErrorLogOnlyGrows(Step(s, ctx, events[0]), ctx, events[1..]);
    }
  }

  /** Every load, from its start and after any events, is consistent. */
  lemma LoadIsConsistent(timeout: Option<int>, ctx: LoadContext, events: seq<Event>)
    ensures Consistent(Run(InitialLoad(timeout), ctx, events))
  {
    RunKeepsConsistent(InitialLoad(timeout), ctx, events);
  }

  /**
   * Nothing stops a second `onError`: a loader that rejects after the timer
   * has fired reports twice, while the promise keeps the timeout.
   */
  lemma OnErrorAfterTimeout(ctx: LoadContext, reason: Value)
    requires ctx.hasOnError && Truthy(reason)
    ensures
      var r := Run(InitialLoad(None), ctx, [TimerExpired, Reject(reason)]);
      && r.promise == Rejected(ErrorMessage(TimeoutExceeded))
      && r.onErrorCalls == [ErrorReport(ErrorMessage(TimeoutExceeded), !ctx.windowDefined), ErrorReport(Raised(reason), !ctx.windowDefined)]
  {
    var s0 := InitialLoad(None);
    var s1 := Step(s0, ctx, TimerExpired);
    var s2 := Step(s1, ctx, Reject(reason));
    assert Run(s0, ctx, [TimerExpired, Reject(reason)]) == Run(s1, ctx, [Reject(reason)]);
    assert Run(s1, ctx, [Reject(reason)]) == Run(s2, ctx, []);
  }
}
