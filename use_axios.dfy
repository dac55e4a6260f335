/**
  The request-state hook of hooks/useAxios.ts. One instantiation holds three
  slots, `loading`, `error` and `data`; `request` begins a call, lets it settle
  through the shared client and records the outcome, and `reset` clears all three.

  The asynchronous `request` is split into its two atomic halves, beginning and
  settling. A trace of such halves (`Action`) and `Run`, which replays one, give
  the specification every method is proved against; traces also cover
  overlapping requests and a request that settles after `reset`, as interleavings.
*/
module UseAxios {
  import opened Wrappers
  import opened Js
  import opened Axios

  /** Last resort of the hook's own message chain. */
  const NetworkRequestFailed := "Network request failed"

  /** The three state slots of one hook instantiation. */
  datatype RequestState<T> = RequestState(loading: bool, error: Option<string>, data: Option<T>)

  /** The atomic state changes: a request starts, a request settles, or the state is reset. */
  datatype Action<T> = Started | Settled(outcome: Outcome<T>) | Cleared

  /** The state a fresh instantiation starts in. */
  function Initial<T>(): RequestState<T>
  {
    RequestState(false, None, None)
  }

  /** A recorded error is never the empty string. */
  predicate ErrorNonEmpty<T>(s: RequestState<T>)
  {
    s.error != Some("")
  }

  /**
    The message the hook records for a failed request: the first truthy one of the
    body's `message`, the body's `error` and the error's own `message`, or
    "Network request failed" when none is. It is never empty.
  */
  function HookMessage(err: AxiosError): (m: string)
    ensures m != ""
    ensures Truthy(BodyMessage(err)) ==> m == BodyMessage(err).value
    ensures !Truthy(BodyMessage(err)) && Truthy(BodyError(err)) ==> m == BodyError(err).value
    ensures !Truthy(BodyMessage(err)) && !Truthy(BodyError(err)) && Truthy(err.message) ==> m == err.message.value
    ensures !Truthy(BodyMessage(err)) && !Truthy(BodyError(err)) && !Truthy(err.message) ==> m == NetworkRequestFailed
  {
    Or(Or(Or(BodyMessage(err), BodyError(err)), err.message), Some(NetworkRequestFailed)).value
  }

  /**
    Every rejection the hook receives from the shared client has already been
    normalised, so the hook records exactly the client's normalised message and
    its own "Network request failed" fallback is never the one chosen.
  */
  lemma HookMessageOfNormalized(e: AxiosError)
    ensures HookMessage(NormalizeError(e)) == NormalizedMessage(e)
    ensures Truthy(NormalizeError(e).message)
  {
  }

  /** One atomic state change. */
  function Step<T>(s: RequestState<T>, a: Action<T>): RequestState<T>
  {
    match a
    case Started => s.(loading := true, error := None)
    case Settled(Resolved(res)) => s.(data := Some(res.data), loading := false)
    case Settled(Rejected(err)) => s.(error := Some(HookMessage(err)), loading := false)
    case Cleared => Initial()
  }

  /** The value `request` returns once settled: the full response, or nothing on failure. */
  function Returned<T>(o: Outcome<T>): Option<HttpResponse<T>>
  {
    match o
    case Resolved(res) => Some(res)
    case Rejected(_) => None
  }

  /** The state after replaying `actions`, oldest first, from `s`. */
  function Run<T>(s: RequestState<T>, actions: seq<Action<T>>): RequestState<T>
    decreases |actions|
  {
    if actions == [] then s else Step(Run(s, actions[..|actions| - 1]), actions[|actions| - 1])
  }

  /** Replaying two traces one after the other is replaying their concatenation. */
  lemma {:induction false} RunAppend<T>(s: RequestState<T>, xs: seq<Action<T>>, ys: seq<Action<T>>)
    ensures Run(s, xs + ys) == Run(Run(s, xs), ys)
    decreases |ys|
  {
    if ys == [] {
      assert xs + ys == xs;
    } else {
      var last := |ys| - 1;
      assert (xs + ys)[..|xs + ys| - 1] == xs + ys[..last];
      assert (xs + ys)[|xs + ys| - 1] == ys[last];
      RunAppend(s, xs, ys[..last]);
    }
  }

  /** Whatever happens, a recorded error is never empty. */
  lemma {:induction false} RecordedErrorNeverEmpty<T>(s: RequestState<T>, actions: seq<Action<T>>)
    requires ErrorNonEmpty(s)
    ensures ErrorNonEmpty(Run(s, actions))
    decreases |actions|
  {
    if actions != [] {
      RecordedErrorNeverEmpty(s, actions[..|actions| - 1]);
    }
  }

  /**
    `loading` is true exactly when the latest action started a request: never
    left stuck after a settle or a reset, and never false right after a start.
  */
  lemma LoadingIffLatestStarted<T>(s: RequestState<T>, actions: seq<Action<T>>)
    requires actions != []
    ensures Run(s, actions).loading <==> actions[|actions| - 1].Started?
  {
  }

  /** Neither a reset nor a successful settle. */
  predicate KeepsData<T>(a: Action<T>)
  {
    !a.Cleared? && !(a.Settled? && a.outcome.Resolved?)
  }

  /** Neither a start, a reset nor a failed settle. */
  predicate KeepsError<T>(a: Action<T>)
  {
    !a.Started? && !a.Cleared? && !(a.Settled? && a.outcome.Rejected?)
  }

  /** Starting a request or recording a failure leaves `data` alone: stale data stays shown. */
  lemma {:induction false} DataKept<T>(s: RequestState<T>, actions: seq<Action<T>>)
    requires forall i :: 0 <= i < |actions| ==> KeepsData(actions[i])
    ensures Run(s, actions).data == s.data
    decreases |actions|
  {
    if actions != [] {
      DataKept(s, actions[..|actions| - 1]);
    }
  }

  /** Only a start, a reset or a failure changes `error`. */
  lemma {:induction false} ErrorKept<T>(s: RequestState<T>, actions: seq<Action<T>>)
    requires forall i :: 0 <= i < |actions| ==> KeepsError(actions[i])
    ensures Run(s, actions).error == s.error
    decreases |actions|
  {
    if actions != [] {
      ErrorKept(s, actions[..|actions| - 1]);
    }
  }

  /**
    Last settled wins for data: after a successful settle, `data` is its payload
    until a later success or a reset, whatever starts or failures come between,
    including those of requests that overlap it.
  */
  lemma LatestSuccessWins<T>(s: RequestState<T>, before: seq<Action<T>>, res: HttpResponse<T>, after: seq<Action<T>>)
    requires forall i :: 0 <= i < |after| ==> KeepsData(after[i])
    ensures Run(s, before + [Settled(Resolved(res))] + after).data == Some(res.data)
  {
    RunAppend(s, before + [Settled(Resolved(res))], after);
    RunAppend(s, before, [Settled(Resolved(res))]);
    DataKept(Run(s, before + [Settled(Resolved(res))]), after);
  }

  /**
    Last settled wins for error: after a failed settle, `error` is its message
    until a later start, reset or failure; a success that settles later leaves it.
  */
  lemma LatestFailureWins<T>(s: RequestState<T>, before: seq<Action<T>>, err: AxiosError, after: seq<Action<T>>)
    requires forall i :: 0 <= i < |after| ==> KeepsError(after[i])
    ensures Run(s, before + [Settled(Rejected(err))] + after).error == Some(HookMessage(err))
  {
    RunAppend(s, before + [Settled(Rejected(err))], after);
    RunAppend(s, before, [Settled(Rejected(err))]);
    ErrorKept(Run(s, before + [Settled(Rejected(err))]), after);
  }

  /**
    One sequential `request`: it ends not loading; a success stores the payload
    with no error; a failure records its message and keeps the previous data.
  */
  lemma RequestCycle<T>(s: RequestState<T>, o: Outcome<T>)
    ensures !Run(s, [Started, Settled(o)]).loading
    ensures o.Resolved? ==> Run(s, [Started, Settled(o)]) == RequestState(false, None, Some(o.response.data))
    ensures o.Rejected? ==> Run(s, [Started, Settled(o)]) == RequestState(false, Some(HookMessage(o.reason)), s.data)
  {
    var begun := [Started, Settled(o)][..1];
    assert begun == [Started] && Run(s, begun) == Step(Run(s, []), Started);
  }

  /** `reset` forgets everything: twice is once, and on a fresh state it changes nothing. */
  lemma ResetIdempotent<T>(s: RequestState<T>)
    ensures Run(s, [Cleared, Cleared]) == Run(s, [Cleared]) == Initial()
    ensures Run(Initial<T>(), [Cleared]) == Initial()
  {
    var once: seq<Action<T>> := [Cleared];
    assert [Cleared, Cleared][..1] == once;
  }

  /**
    A failure after a success leaves both `error` and the old `data` set: the
    two slots are not exclusive once settled.
  */
  lemma StaleDataBesideError<T>(res: HttpResponse<T>, err: AxiosError)
    ensures var t := Run(Initial(), [Started, Settled(Resolved(res)), Started, Settled(Rejected(err))]);
      t.data == Some(res.data) && t.error == Some(HookMessage(err)) && !t.loading
  {
    var xs := [Started, Settled(Resolved(res)), Started, Settled(Rejected(err))];
    assert xs[..3][..2][..1] == [Started] && Run(Initial(), xs[..1]) == Step(Initial(), Started);
    assert Run(Initial(), xs[..2]).data == Some(res.data);
    assert Run(Initial(), xs[..3]).data == Some(res.data);
  }

  /** One instantiation of the hook. */
  class AxiosHook<T> {
    var loading: bool
    var error: Option<string>
    var data: Option<T>

    /** The three slots as a value. */
    function State(): RequestState<T>
      reads this
    {
      RequestState(loading, error, data)
    }

    predicate Valid()
      reads this
    {
      ErrorNonEmpty(State())
    }

    /** A fresh instantiation: not loading, no error, no data. */
    constructor ()
      ensures !loading && error == None && data == None
      ensures State() == Initial() && Valid()
    {
      loading := false;
      error := None;
      data := None;
    }

    /** The start of `request`: loading, any previous error cleared, data kept. */
    method BeginRequest()
      requires Valid()
      modifies this
      ensures Valid()
      ensures loading && error == None && data == old(data)
      ensures State() == Step(old(State()), Started)
    {
      loading := true;
      error := None;
    }

    /**
      The end of `request`: on success the payload becomes `data` and the response
      is returned; on failure the message is recorded, `data` kept and nothing is
      returned (the failure is not rethrown); either way `loading` ends false.
    */
    method Settle(o: Outcome<T>) returns (r: Option<HttpResponse<T>>)
      requires Valid()
      modifies this
      ensures Valid() && !loading
      ensures o.Resolved? ==> data == Some(o.response.data) && error == old(error) && r == Some(o.response)
      ensures o.Rejected? ==> error == Some(HookMessage(o.reason)) && data == old(data) && r == None
      ensures State() == Step(old(State()), Settled(o)) && r == Returned(o)
    {
      match o {
        case Resolved(res) =>
          data := Some(res.data);
          r := Some(res);
        case Rejected(err) =>
          error := Some(HookMessage(err));
          r := None;
      }
      loading := false;
    }

    /** `reset`: all three slots back to their initial values. */
    method Reset()
      modifies this
      ensures !loading && error == None && data == None
      ensures Valid() && State() == Step(old(State()), Cleared)
    {
      loading := false;
      error := None;
      data := None;
    }

    /**
      `request(config)` as a whole: begin, send through the shared client (whose
      transport outcome is given), settle. A failure records the client's
      normalised message.
    */
    method Request(api: Api, config: RequestConfig, transport: Outcome<T>) returns (r: Option<HttpResponse<T>>)
      requires Valid()
      modifies this, api`localStorage
      ensures Valid() && !loading
      ensures State() == Run(old(State()), [Started, Settled(Intercepted(transport))])
      ensures transport.Resolved? ==> data == Some(transport.response.data) && error == None && r == Some(transport.response)
      ensures transport.Rejected? ==> error == Some(NormalizedMessage(transport.reason)) && data == old(data) && r == None
      ensures transport.Resolved? ==> api.localStorage == old(api.localStorage)
      ensures transport.Rejected? ==>
        api.localStorage == StorageAfterRejection(old(api.localStorage), api.inBrowser, transport.reason)
    {
      ghost var before := State();
      BeginRequest();
      var settled, sent := api.Request(config, transport);
      r := Settle(settled);
      ghost var cycle := [Started, Settled(settled)];
      assert cycle[..1] == [Started] && Run(before, cycle[..1]) == Step(Run(before, []), Started);
      if transport.Rejected? {
        HookMessageOfNormalized(transport.reason);
      }
    }
  }
}
