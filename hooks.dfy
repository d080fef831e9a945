/** The remote-data hooks (src/hooks/useAPIData.ts): `useEmailHistory` and
    `useSystemStats`, each holding its data, a loading flag and an error
    message. Each asynchronous call is split at its `await`: `Begin…` is
    what runs before it, `Complete…` what runs once the call settles with
    the given outcome. */
module Hooks {

  import opened Wrappers
  import opened Seqs
  import opened Utils
  import opened Api

  const HistoryLoadError: string := "Erro ao carregar histórico"
  const HistoryClearError: string := "Erro ao limpar histórico"
  const StatsLoadError: string := "Erro ao carregar estatísticas"

  /** The key `removeFromHistory` matches on. */
  function EntryId(e: EmailHistory): string { e.id }

  /** A failed call of the API layer always carries an `Error`, so the hooks'
      fallback messages are never what a failed request shows. */
  lemma ApiFailuresShowTheirMessage<T>(o: FetchOutcome<T>, fallback: string)
    requires Normalize(o).Failure?
    ensures MessageOr(Normalize(o).error, fallback) == Normalize(o).error.message
  {
  }

  /** `useEmailHistory()`. */
  class EmailHistoryHook {
    var history: seq<EmailHistory>
    var loading: bool
    var error: Option<string>

    constructor ()
      ensures history == [] && !loading && error == None
    {
      history := [];
      loading := false;
      error := None;
    }

    /** `fetchHistory`, up to its `await`. */
    method BeginFetch()
      modifies this`loading, this`error
      ensures loading && error == None
    {
      loading := true;
      error := None;
    }

    /** `fetchHistory`, after `getEmailHistory(50)` settled: try, catch,
        then `finally` releases `loading`. */
    method CompleteFetch(outcome: Result<seq<EmailHistory>, Thrown>)
      modifies this`history, this`loading, this`error
      ensures !loading
      ensures outcome.Success? ==> history == outcome.value && error == old(error)
      ensures outcome.Failure? ==>
        history == old(history) && error == Some(MessageOr(outcome.error, HistoryLoadError))
    {
      match outcome {
        case Success(data) =>
          history := data;
        case Failure(err) =>
          var errorMessage := MessageOr(err, HistoryLoadError);
          error := Some(errorMessage);
      }
      loading := false;
    }

    /** `fetchHistory` as a whole: the 50 most recent entries are asked
        for; a failure shows the API layer's message. */
    method FetchHistory(client: APIClient, fetch: HttpRequest -> FetchOutcome<seq<EmailHistory>>)
      modifies this`history, this`loading, this`error
      ensures !loading
      ensures var r := Normalize(fetch(HttpRequest(client.baseURL + "/history?limit=" + IntToString(50),
                                                   None, JsonHeaders, None)));
        && (r.Success? ==> history == r.value && error == None)
        && (r.Failure? ==> history == old(history) && error == Some(r.error.message))
    {
      BeginFetch();
      var _, data := GetEmailHistory(client, fetch, 50);
      CompleteFetch(data);
    }

    /** `clearHistory`: write-through. The list is emptied only when the
        server confirmed; a failure is reported to the caller (as a toast
        in the source) and leaves the list as it was. `loading` and
        `error` are never touched. */
    method ClearHistory(client: APIClient, fetch: HttpRequest -> FetchOutcome<ClearResponse>)
      returns (failure: Option<string>)
      modifies this`history
      ensures var o := fetch(HttpRequest(client.baseURL + "/history", Some(Delete), JsonHeaders, None));
        && (o.Ok? ==> history == [] && failure == None)
        && (!o.Ok? ==> history == old(history) && failure == Some(Normalize(o).error.message))
    {
      var _, outcome := ClearEmailHistory(client, fetch);
      match outcome {
        case Success(_) =>
          history := [];
          failure := None;
        case Failure(err) =>
          failure := Some(MessageOr(err, HistoryClearError));
      }
    }

    /** `removeFromHistory(id)`: local only, no server call. */
    method RemoveFromHistory(id: string)
      modifies this`history
      ensures history == WithoutKey(old(history), EntryId, id)
    {
      history := WithoutKey(history, EntryId, id);
    }
  }

  /** `useSystemStats()`. */
  class SystemStatsHook {
    var stats: Option<StatsResponse>
    var loading: bool
    var error: Option<string>

    constructor ()
      ensures stats == None && !loading && error == None
    {
      stats := None;
      loading := false;
      error := None;
    }

    /** `fetchStats`, up to its `await`. */
    method BeginFetch()
      modifies this`loading, this`error
      ensures loading && error == None
    {
      loading := true;
      error := None;
    }

    /** `fetchStats`, after `getSystemStats()` settled. */
    method CompleteFetch(outcome: Result<StatsResponse, Thrown>)
      modifies this`stats, this`loading, this`error
      ensures !loading
      ensures outcome.Success? ==> stats == Some(outcome.value) && error == old(error)
      ensures outcome.Failure? ==>
        stats == old(stats) && error == Some(MessageOr(outcome.error, StatsLoadError))
    {
      match outcome {
        case Success(data) =>
          stats := Some(data);
        case Failure(err) =>
          var errorMessage := MessageOr(err, StatsLoadError);
          error := Some(errorMessage);
      }
      loading := false;
    }

    /** `fetchStats` as a whole. */
    method FetchStats(client: APIClient, fetch: HttpRequest -> FetchOutcome<StatsResponse>)
      modifies this`stats, this`loading, this`error
      ensures !loading
      ensures var r := Normalize(fetch(HttpRequest(client.baseURL + "/stats", None, JsonHeaders, None)));
        && (r.Success? ==> stats == Some(r.value) && error == None)
        && (r.Failure? ==> stats == old(stats) && error == Some(r.error.message))
    {
      BeginFetch();
      var _, data := GetSystemStats(client, fetch);
      CompleteFetch(data);
    }
  }
}
