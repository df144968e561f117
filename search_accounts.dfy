/**
 * The account-search hook (`lists/use_search_accounts.ts`) once its debounced
 * callback fires: a session holding the loading state, the ids of the last
 * successful result, and the "live request" reference (`searchRequestRef`).
 *
 * Asynchrony is modelled by the caller choosing when each outstanding request
 * settles: `ResolveSuccess` and `ResolveFailure` stand for the `.then` and `.catch`
 * callbacks of one request. Aborting a request that has not settled yet marks it
 * `Aborted`; such a request can then only fail, and its failure still runs the
 * `.catch` callback. Calls to the outside world (abort, the HTTP request, the
 * store import, the `onSettled` observer) are recorded, in order, in `effects`.
 */
module SearchAccounts {
  import opened Wrappers
  import opened Strings

  datatype LoadingState = Idle | Loading | Error

  /** Where the promise of one `apiRequest` call is. */
  datatype RequestStatus = Pending | Aborted | Settled

  /** One issued request: its query and its status. Requests are numbered from 0. */
  datatype Request = Request(query: string, status: RequestStatus)

  /** The part of `ApiAccountJSON` the hook reads, and an opaque rest. */
  datatype ApiAccount = ApiAccount(id: string, rest: string)

  /** A call the hook makes to something outside it. */
  datatype Effect =
    | Abort(request: nat)
    | ApiGet(path: string, q: string, resolve: bool, signal: nat)
    | ImportFetchedAccounts(accounts: seq<ApiAccount>)
    | OnSettled(value: string)

  const SearchPath: string := "v1/accounts/search"

  /** `data.map((a) => a.id)`. */
  function Ids(data: seq<ApiAccount>): (r: seq<string>)
    ensures |r| == |data| && forall i :: 0 <= i < |r| ==> r[i] == data[i].id
  {
    seq(|data|, i requires 0 <= i < |data| => data[i].id)
  }

  /** The data of the most recent import in a log of effects, if any. */
  function LastImport(effects: seq<Effect>): (r: Option<seq<ApiAccount>>)
    ensures r.None? <==> forall i :: 0 <= i < |effects| ==> !effects[i].ImportFetchedAccounts?
    ensures r.Some? ==> exists i :: 0 <= i < |effects| && effects[i] == ImportFetchedAccounts(r.value)
    decreases |effects|
  {
    if effects == [] then None
    else if effects[|effects| - 1].ImportFetchedAccounts? then Some(effects[|effects| - 1].accounts)
    else
      var r := LastImport(effects[..|effects| - 1]);
      assert forall i :: 0 <= i < |effects| - 1 ==> effects[..|effects| - 1][i] == effects[i];
      r
  }

  /** Effects that are not imports leave the most recent import where it was. */
  lemma {:induction false} LastImportSkips(effects: seq<Effect>, more: seq<Effect>)
    requires forall i :: 0 <= i < |more| ==> !more[i].ImportFetchedAccounts?
    ensures LastImport(effects + more) == LastImport(effects)
    decreases |more|
  {
    if more != [] {
      var e := effects + more;
      var init := more[..|more| - 1];
      assert e[..|e| - 1] == effects + init;
      assert e[|e| - 1] == more[|more| - 1];
      assert !e[|e| - 1].ImportFetchedAccounts?;
      assert forall i :: 0 <= i < |init| ==> init[i] == more[i];
      LastImportSkips(effects, init);
      assert LastImport(e) == LastImport(e[..|e| - 1]);
    } else {
      assert effects + more == effects;
    }
  }

  /** An import followed by effects that are not imports is the most recent one. */
  lemma LastImportAfter(effects: seq<Effect>, data: seq<ApiAccount>, more: seq<Effect>)
    requires forall i :: 0 <= i < |more| ==> !more[i].ImportFetchedAccounts?
    ensures LastImport(effects + [ImportFetchedAccounts(data)] + more) == Some(data)
  {
    LastImportSkips(effects + [ImportFetchedAccounts(data)], more);
  }

  /** The abort call a dispatch makes first, when a request reference is held. */
  function AbortEffects(current: Option<nat>): seq<Effect>
  {
    if current.Some? then [Abort(current.value)] else []
  }

  /**
   * `abort()` on the held controller: a pending held request becomes aborted, so it
   * can still reject into `.catch`; abort never settles a request, and a settled one
   * stays as it was.
   */
  function AfterAbort(requests: seq<Request>, current: Option<nat>): (r: seq<Request>)
    requires current.Some? ==> current.value < |requests|
    ensures |r| == |requests|
    ensures forall i :: 0 <= i < |r| ==> r[i].query == requests[i].query
    ensures forall i :: 0 <= i < |r| ==> r[i].status == Pending ==> requests[i].status == Pending && current != Some(i)
    ensures forall i :: 0 <= i < |r| && current != Some(i) ==> r[i] == requests[i]
    ensures forall i :: 0 <= i < |r| ==> (r[i].status == Settled <==> requests[i].status == Settled)
    ensures current.Some? && requests[current.value].status == Pending ==> r[current.value].status == Aborted
  {
    if current.Some? && requests[current.value].status == Pending then
      requests[current.value := Request(requests[current.value].query, Aborted)]
    else requests
  }

  /** The settled notification, made only when an `onSettled` observer was passed. */
  function Notify(notifies: bool, value: string): seq<Effect>
  {
    if notifies then [OnSettled(value)] else []
  }

  class SearchSession {
    /** Whether the caller passed `onSettled`. */
    const notifies: bool
    var loadingState: LoadingState
    var accountIds: Option<seq<string>>
    /** `searchRequestRef.current`, as the number of the request its controller belongs to. */
    var current: Option<nat>
    /** Every request issued so far, with the state of its promise. */
    var requests: seq<Request>
    /** Every outside call made so far, in order. */
    var effects: seq<Effect>

    /**
     * The reference always holds the newest request, and only that one may still
     * be pending: at most one request is live. The ids shown are those of the most
     * recent import, and there are none before the first success.
     */
    ghost predicate Valid()
      reads this
    {
      (current.None? <==> requests == []) &&
      (requests != [] ==> current == Some(|requests| - 1)) &&
      (forall i :: 0 <= i < |requests| - 1 ==> requests[i].status != Pending) &&
      accountIds == (match LastImport(effects) case None => None case Some(d) => Some(Ids(d)))
    }

    /** `isLoading: loadingState === 'loading'`; it never holds together with `isError`. */
    predicate IsLoading()
      reads this
      ensures IsLoading() ==> !IsError()
    {
      loadingState == Loading
    }

    /** `isError: loadingState === 'error'`. */
    predicate IsError()
      reads this
      ensures IsError() ==> loadingState != Loading
    {
      loadingState == Error
    }

    /** The hook's initial state: idle, no ids, no request. */
    constructor (notifies: bool)
      ensures Valid()
      ensures this.notifies == notifies
      ensures loadingState == Idle && accountIds == None && current == None
      ensures requests == [] && effects == []
    {
      this.notifies := notifies;
      loadingState := Idle;
      accountIds := None;
      current := None;
      requests := [];
      effects := [];
    }

    /** `searchRequestRef.current.abort()`, when a controller is held. */
    method AbortLive()
      requires Valid()
      modifies this
      ensures Valid()
      ensures loadingState == old(loadingState) && accountIds == old(accountIds) && current == old(current)
      ensures requests == AfterAbort(old(requests), old(current))
      ensures effects == old(effects) + AbortEffects(old(current))
    {
      var abortCall := AbortEffects(current);
      LastImportSkips(effects, abortCall);
      requests := AfterAbort(requests, current);
      effects := effects + abortCall;
    }

    /**
     * The debounced callback `(value) => { ... }`. It first aborts the held
     * controller, if any. A blank value then only notifies `onSettled('')`: the
     * loading state and the ids stay as they were. Any other value sets the state
     * to loading and issues a new request with the untrimmed value, which becomes
     * the live one.
     */
    method Dispatch(value: string)
      requires Valid()
      modifies this
      ensures Valid()
      ensures accountIds == old(accountIds)
      ensures AllJsWhitespace(value) ==>
        loadingState == old(loadingState) && current == old(current) &&
        requests == AfterAbort(old(requests), old(current)) &&
        effects == old(effects) + AbortEffects(old(current)) + Notify(notifies, "")
      ensures !AllJsWhitespace(value) ==>
        loadingState == Loading &&
        requests == AfterAbort(old(requests), old(current)) + [Request(value, Pending)] &&
        current == Some(|old(requests)|) &&
        effects == old(effects) + AbortEffects(old(current)) + [ApiGet(SearchPath, value, true, |old(requests)|)]
    {
      AbortLive();
      TrimEmptyIff(value);
      if |Trim(value)| == 0 {
        SettleCleared();
      } else {
        Issue(value);
      }
    }

    /** The blank-query path: `onSettled?.('')` and nothing else. */
    method SettleCleared()
      requires Valid()
      modifies this
      ensures Valid()
      ensures loadingState == old(loadingState) && accountIds == old(accountIds) && current == old(current)
      ensures requests == old(requests)
      ensures effects == old(effects) + Notify(notifies, "")
    {
      var notice := Notify(notifies, "");
      LastImportSkips(effects, notice);
      effects := effects + notice;
    }

    /** Go to loading, install a new controller and issue `GET v1/accounts/search`. */
    method Issue(value: string)
      requires Valid()
      requires forall i :: 0 <= i < |requests| ==> requests[i].status != Pending
      modifies this
      ensures Valid()
      ensures loadingState == Loading && accountIds == old(accountIds)
      ensures requests == old(requests) + [Request(value, Pending)]
      ensures current == Some(|old(requests)|)
      ensures effects == old(effects) + [ApiGet(SearchPath, value, true, |old(requests)|)]
    {
      loadingState := Loading;
      var id := |requests|;
      requests := requests + [Request(value, Pending)];
      current := Some(id);
      var call := [ApiGet(SearchPath, value, true, id)];
      LastImportSkips(effects, call);
      effects := effects + call;
    }

    /**
     * The `.then` callback of request `id`: import the accounts, show their ids in
     * response order, go idle, and notify `onSettled` with that request's query.
     * Only the live request can still succeed.
     */
    method ResolveSuccess(id: nat, data: seq<ApiAccount>)
      requires Valid()
      requires id < |requests| && requests[id].status == Pending
      modifies this
      ensures Valid()
      ensures old(current) == Some(id)
      ensures loadingState == Idle && accountIds == Some(Ids(data)) && current == old(current)
      ensures requests == old(requests)[id := Request(old(requests)[id].query, Settled)]
      ensures effects == old(effects) + [ImportFetchedAccounts(data)] + Notify(notifies, old(requests)[id].query)
    {
      var query := requests[id].query;
      effects := effects + [ImportFetchedAccounts(data)];
      accountIds := Some(Ids(data));
      loadingState := Idle;
      var before := effects;
      effects := effects + Notify(notifies, query);
      requests := requests[id := Request(query, Settled)];
      LastImportAfter(old(effects), data, Notify(notifies, query));
      assert effects == old(effects) + [ImportFetchedAccounts(data)] + Notify(notifies, query);
    }

    /**
     * The `.catch` callback of request `id`, reached by a transport failure or by an
     * earlier abort: the state becomes `error` and `onSettled` is told that request's
     * query, even when a newer request has replaced it; the ids stay as they were.
     */
    method ResolveFailure(id: nat)
      requires Valid()
      requires id < |requests| && requests[id].status != Settled
      modifies this
      ensures Valid()
      ensures loadingState == Error && accountIds == old(accountIds) && current == old(current)
      ensures requests == old(requests)[id := Request(old(requests)[id].query, Settled)]
      ensures effects == old(effects) + Notify(notifies, old(requests)[id].query)
    {
      var query := requests[id].query;
      loadingState := Error;
      effects := effects + Notify(notifies, query);
      requests := requests[id := Request(query, Settled)];
      LastImportSkips(old(effects), Notify(notifies, query));
    }
  }

  /** A query whose first character is not whitespace is not blank. */
  lemma NotBlank(q: string)
    requires |q| > 0 && !IsJsWhitespace(q[0])
    ensures !AllJsWhitespace(q)
  {
  }

  /** Searching `abc` and receiving accounts 1 and 2 shows `["1", "2"]`, idle. */
  method SearchThenSuccess() returns (ids: Option<seq<string>>, loading: bool, error: bool, log: seq<Effect>)
    ensures ids == Some(["1", "2"]) && !loading && !error
    ensures log == [ApiGet(SearchPath, "abc", true, 0),
                    ImportFetchedAccounts([ApiAccount("1", ""), ApiAccount("2", "")]),
                    OnSettled("abc")]
  {
    var s := new SearchSession(true);
    NotBlank("abc");
    s.Dispatch("abc");
    s.ResolveSuccess(0, [ApiAccount("1", ""), ApiAccount("2", "")]);
    assert Ids([ApiAccount("1", ""), ApiAccount("2", "")]) == ["1", "2"];
    ids, loading, error, log := s.accountIds, s.IsLoading(), s.IsError(), s.effects;
  }

  /**
   * `abc` then `abcd` before the first answer: the first request is aborted and the
   * session is loading. The aborted request's rejection then reaches `.catch` and
   * shows an error while `abcd` is still in flight; `abcd`'s answer finally shows
   * its own ids, idle.
   */
  method SupersededQuery() returns (
    loadingAfterSecond: bool, firstAborted: bool, errorAfterStale: bool,
    finalIds: Option<seq<string>>, finalState: LoadingState)
    ensures loadingAfterSecond && firstAborted && errorAfterStale
    ensures finalIds == Some(["9"]) && finalState == Idle
  {
    var s := new SearchSession(true);
    NotBlank("abc");
    NotBlank("abcd");
    s.Dispatch("abc");
    s.Dispatch("abcd");
    loadingAfterSecond := s.IsLoading();
    firstAborted := s.requests[0].status == Aborted;
    s.ResolveFailure(0);
    errorAfterStale := s.IsError();
    s.ResolveSuccess(1, [ApiAccount("9", "")]);
    assert Ids([ApiAccount("9", "")]) == ["9"];
    finalIds, finalState := s.accountIds, s.loadingState;
  }

  /** A failure for `xyz` shows an error and no ids; a later successful `abc` clears it. */
  method FailureThenRetry() returns (errorIds: Option<seq<string>>, error: bool, retryIds: Option<seq<string>>, retryState: LoadingState)
    ensures error && errorIds == None
    ensures retryIds == Some([]) && retryState == Idle
  {
    var s := new SearchSession(false);
    NotBlank("xyz");
    s.Dispatch("xyz");
    s.ResolveFailure(0);
    errorIds, error := s.accountIds, s.IsError();
    NotBlank("abc");
    s.Dispatch("abc");
    s.ResolveSuccess(1, []);
    retryIds, retryState := s.accountIds, s.loadingState;
  }

  /**
   * Clearing the query while `abc` is in flight issues no request and notifies
   * `onSettled('')`, but leaves the state loading; the aborted request's rejection
   * then turns it to error.
   */
  method ClearWhileLoading() returns (stateAfterClear: LoadingState, requestsIssued: nat, stateAfterAbort: LoadingState, log: seq<Effect>)
    ensures stateAfterClear == Loading && requestsIssued == 1 && stateAfterAbort == Error
    ensures log == [ApiGet(SearchPath, "abc", true, 0), Abort(0), OnSettled(""), OnSettled("abc")]
  {
    var s := new SearchSession(true);
    NotBlank("abc");
    s.Dispatch("abc");
    assert AllJsWhitespace(" \t ") by {
      assert forall i :: 0 <= i < 3 ==> " \t "[i] == ' ' || " \t "[i] == '\t';
    }
    s.Dispatch(" \t ");
    stateAfterClear, requestsIssued := s.loadingState, |s.requests|;
    s.ResolveFailure(0);
    stateAfterAbort, log := s.loadingState, s.effects;
  }
}
