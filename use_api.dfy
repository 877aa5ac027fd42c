/**
 * The fetch hooks: `useApi` keeps `data`/`loading`/`error` around a read call, `useApiMutation` keeps
 * `loading`/`error` around a write call and runs the caller's callbacks. The call itself is a parameter
 * standing for how its promise settled.
 */
module UseApi {
  import opened Wrappers

  const LOAD_ERROR := "Erro ao carregar dados"
  const MUTATION_ERROR := "Erro na operação"

  /** A rejected call; `serverMessage` is `err.response?.data?.message`, `None` when any link is missing. */
  datatype ApiError = ApiError(serverMessage: Option<string>)

  /** How the promise of an API call settled. */
  datatype Outcome<T> = Resolved(data: T) | Rejected(error: ApiError)

  datatype Toast = SuccessToast(text: string) | ErrorToast(text: string)

  /** What `mutate` does besides updating its state: toasts and calls of the caller's callbacks. */
  datatype Effect<T> = Toasted(toast: Toast) | CalledOnSuccess(data: T) | CalledOnError(message: string)

  /** `err.response?.data?.message || fallback`: the server's message unless it is missing or empty. */
  function MessageOr(e: ApiError, fallback: string): (m: string)
    requires fallback != []
    ensures m != []
    ensures m == fallback || Some(m) == e.serverMessage
    ensures e.serverMessage.Some? && e.serverMessage.value != [] ==> m == e.serverMessage.value
  {
    if e.serverMessage.Some? && e.serverMessage.value != [] then e.serverMessage.value else fallback
  }

  /** `{ immediate?: boolean }`; an absent options object means `{ immediate: true }`. */
  datatype UseApiOptions = UseApiOptions(immediate: Option<bool>)

  /** Whether the mount effect calls `execute`: only a truthy `immediate` does. */
  predicate RunsOnMount(options: Option<UseApiOptions>)
  {
    options.None? || options.value.immediate == Some(true)
  }

  /** A snapshot of `useApi`'s state and the toasts it has shown. */
  datatype FetchState<T> = FetchState(data: Option<T>, loading: bool, error: Option<string>, toasts: seq<Toast>)

  /** `execute` from start to finish: success replaces `data`; failure keeps it and records the message. */
  function AfterExecute<T>(s: FetchState<T>, outcome: Outcome<T>): (r: FetchState<T>)
    ensures !r.loading
    ensures outcome.Resolved? <==> r.error.None?
  {
    match outcome
    case Resolved(d) => s.(data := Some(d), loading := false, error := None)
    case Rejected(e) =>
      var m := MessageOr(e, LOAD_ERROR);
      s.(loading := false, error := Some(m), toasts := s.toasts + [ErrorToast(m)])
  }

  /** A failed `execute` keeps the previous data and shows exactly the message it stores. */
  lemma ExecuteFailureKeepsData<T>(s: FetchState<T>, e: ApiError)
    ensures var r := AfterExecute(s, Rejected(e));
      r.data == s.data && r.error.Some? && r.toasts == s.toasts + [ErrorToast(r.error.value)]
      && r.error == (if e.serverMessage.None? || e.serverMessage == Some("") then Some(LOAD_ERROR) else e.serverMessage)
  {
  }

  /** Only the most recent call decides `data` and `error`: an earlier outcome leaves no trace in them. */
  lemma ExecuteForgetsEarlierOutcome<T>(s: FetchState<T>, first: Outcome<T>, d: T)
    ensures var r := AfterExecute(AfterExecute(s, first), Resolved(d));
      r.data == Some(d) && r.error.None? && !r.loading
  {
  }

  /** The state of one `useApi` hook. */
  class Fetch<T> {
    var data: Option<T>
    var loading: bool
    var error: Option<string>
    var toasts: seq<Toast>

    function State(): FetchState<T>
      reads this
    {
      FetchState(data, loading, error, toasts)
    }

    constructor ()
      ensures State() == FetchState(None, false, None, [])
    {
      data, loading, error, toasts := None, false, None, [];
    }

    /** The part of `execute` before the `await`: loading on, error cleared, data kept. */
    method Begin()
      modifies this
      ensures State() == old(State()).(loading := true, error := None)
    {
      loading := true;
      error := None;
    }

    /** The part of `execute` after the `await`: the `try`/`catch`/`finally` tail. */
    method Settle(outcome: Outcome<T>)
      modifies this
      ensures State() == AfterExecute(old(State()), outcome)
    {
      if outcome.Resolved? {
        data := Some(outcome.data);
        error := None;
      } else {
        var errorMessage := MessageOr(outcome.error, LOAD_ERROR);
        error := Some(errorMessage);
        toasts := toasts + [ErrorToast(errorMessage)];
      }
      loading := false;
    }

    /** `execute` (also returned as `refetch`). */
    method Execute(outcome: Outcome<T>)
      modifies this
      ensures State() == AfterExecute(old(State()), outcome)
    {
      Begin();
      Settle(outcome);
    }

    /** The mount effect: `execute` runs once when `immediate` is truthy, and not at all otherwise. */
    method Mount(options: Option<UseApiOptions>, outcome: Outcome<T>)
      modifies this
      ensures State() == if RunsOnMount(options) then AfterExecute(old(State()), outcome) else old(State())
    {
      if RunsOnMount(options) {
        Execute(outcome);
      }
    }
  }

  /** `{ onSuccess?, onError?, successMessage? }`: which callbacks the caller passed, and the message. */
  datatype MutateOptions = MutateOptions(hasOnSuccess: bool, hasOnError: bool, successMessage: Option<string>)

  /** The toasts and callback calls of one `mutate`, in the order they happen. */
  function MutateEffects<T>(options: Option<MutateOptions>, outcome: Outcome<T>): (r: seq<Effect<T>>)
    ensures outcome.Resolved? ==>
      var toasts := options.Some? && options.value.successMessage.Some? && options.value.successMessage.value != [];
      var calls := options.Some? && options.value.hasOnSuccess;
      |r| == (if toasts then 1 else 0) + (if calls then 1 else 0)
      && (toasts ==> r[0] == Toasted(SuccessToast(options.value.successMessage.value)))
      && (calls ==> r[|r| - 1] == CalledOnSuccess(outcome.data))
    ensures outcome.Rejected? ==>
      var m := MessageOr(outcome.error, MUTATION_ERROR);
      |r| == (if options.Some? && options.value.hasOnError then 2 else 1)
      && r[0] == Toasted(ErrorToast(m))
      && (|r| == 2 ==> r[1] == CalledOnError(m))
  {
    match outcome
    case Resolved(d) =>
      var toast := if options.Some? && options.value.successMessage.Some? && options.value.successMessage.value != []
                   then [Toasted(SuccessToast(options.value.successMessage.value))] else [];
      var call := if options.Some? && options.value.hasOnSuccess then [CalledOnSuccess(d)] else [];
      toast + call
    case Rejected(e) =>
      var m := MessageOr(e, MUTATION_ERROR);
      [Toasted(ErrorToast(m))] + (if options.Some? && options.value.hasOnError then [CalledOnError(m)] else [])
  }

  /** The state of one `useApiMutation` hook and the effects its calls have had. */
  class Mutation<T> {
    var loading: bool
    var error: Option<string>
    var effects: seq<Effect<T>>

    constructor ()
      ensures !loading && error.None? && effects == []
    {
      loading, error, effects := false, None, [];
    }

    /**
     * `mutate`: the promise it returns settles as the call did (the data is returned, the original
     * error is rethrown); `loading` ends false and `error` holds the message of a failure only.
     */
    method Mutate(options: Option<MutateOptions>, outcome: Outcome<T>) returns (settled: Outcome<T>)
      modifies this
      ensures settled == outcome
      ensures !loading
      ensures error == if outcome.Resolved? then None else Some(MessageOr(outcome.error, MUTATION_ERROR))
      ensures effects == old(effects) + MutateEffects(options, outcome)
    {
      loading := true;
      error := None;
      if outcome.Resolved? {
        if options.Some? && options.value.successMessage.Some? && options.value.successMessage.value != [] {
          effects := effects + [Toasted(SuccessToast(options.value.successMessage.value))];
        }
        if options.Some? && options.value.hasOnSuccess {
          effects := effects + [CalledOnSuccess(outcome.data)];
        }
        settled := outcome;
      } else {
        var errorMessage := MessageOr(outcome.error, MUTATION_ERROR);
        error := Some(errorMessage);
        effects := effects + [Toasted(ErrorToast(errorMessage))];
        if options.Some? && options.value.hasOnError {
          effects := effects + [CalledOnError(errorMessage)];
        }
        settled := outcome;
      }
      loading := false;
    }
  }
}
