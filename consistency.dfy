/**
 * How the panel and the API fit together: the filter the panel sends is the
 * filter the API applies, a listing is a faithful copy of the store, and the
 * panel's local patch after a successful update matches the store's write.
 */
module Consistency {
  import opened Wrappers
  import opened Models
  import Text
  import Server
  import Admin

  // ---------------------------------------------------------------- the list request

  /** The value of the first `name=value` pair of a query string with that name. */
  function QueryValue(query: string, name: string): Option<string>
    decreases |query|
  {
    var (pair, rest) := Text.SplitAt(query, '&');
    var (key, value) := Text.SplitAt(pair, '=');
    if key == name then Some(if value.None? then "" else value.value)
    else if rest.None? then None
    else QueryValue(rest.value, name)
  }

  /** The path of a request target and its status_filter parameter, if any. */
  function ReadTarget(target: string): (string, Option<string>) {
    var (path, query) := Text.SplitAt(target, '?');
    (path, if query.None? then None else QueryValue(query.value, "status_filter"))
  }

  /** `if status_filter:` in the list handler: an absent and an empty filter both mean no filter. */
  function AppliedFilter(param: Option<string>): string {
    if param.None? then "" else param.value
  }

  lemma NoAmpersandInStatus(s: string)
    requires ValidStatus(s)
    ensures '&' !in s
  {
  }

  /** The query the panel sends for a non-empty filter yields that filter back. */
  lemma FilterQueryReadsBack(filter: string)
    requires ValidStatus(filter)
    ensures QueryValue("status_filter=" + filter, "status_filter") == Some(filter)
  {
    var query := "status_filter=" + filter;
    NoAmpersandInStatus(filter);
    assert '&' !in query;
    Text.SplitAtAbsent(query, '&');
    assert query == "status_filter" + ['='] + filter;
    assert '=' !in "status_filter";
    Text.SplitAtJoin("status_filter", '=', filter);
  }

  /**
   * The list request of the panel, for any filter its drop-down offers,
   * reaches the list endpoint with status_filter present exactly when the
   * filter is non-empty, and the endpoint filters by exactly that value.
   */
  lemma LoadRequestCarriesFilter(backend: string, filter: string)
    requires filter == "" || ValidStatus(filter)
    ensures Admin.LoadUrl(backend, filter) == backend + Admin.LoadTarget(filter)
    ensures var (path, param) := ReadTarget(Admin.LoadTarget(filter));
            path == "/api/appointments" &&
            (param.Some? <==> filter != "") &&
            AppliedFilter(param) == filter
  {
    var path := "/api/appointments";
    assert '?' !in path;
    if filter == "" {
      Text.SplitAtAbsent(path, '?');
    } else {
      var query := "status_filter=" + filter;
      assert Admin.LoadTarget(filter) == path + ['?'] + query;
      Text.SplitAtJoin(path, '?', query);
      FilterQueryReadsBack(filter);
    }
  }

  // ---------------------------------------------------------------- list and store

  /** Every entry of the panel's list is the stored record under its id. */
  ghost predicate Mirrors(list: seq<Appointment>, store: map<string, Appointment>) {
    forall i :: 0 <= i < |list| ==> list[i].id in store && store[list[i].id] == list[i]
  }

  /** What the list endpoint answers is a copy of stored records. */
  lemma ListingMirrorsStore(store: map<string, Appointment>, filter: string, limit: nat,
                            docs: seq<Appointment>)
    requires Server.ListedNewestFirst(Server.Filtered(store, (a: Appointment) => a.status, filter),
                                      (a: Appointment) => a.id, (a: Appointment) => a.createdAt,
                                      limit, docs)
    ensures Mirrors(docs, store)
  {
    var query := Server.Filtered(store, (a: Appointment) => a.status, filter);
    forall i | 0 <= i < |docs| ensures docs[i].id in store && store[docs[i].id] == docs[i] {
      assert docs[i].id in query;
    }
  }

  /**
   * The panel patches its list without reloading; when the list was a copy
   * of the store, the patched list is a copy of the store after the write.
   */
  lemma PatchAgreesWithStore(list: seq<Appointment>, store: map<string, Appointment>, id: string, s: string)
    requires Mirrors(list, store) && id in store
    ensures Mirrors(Admin.PatchStatus(list, id, s), Server.WithStatus(store, id, s))
  {
    var patched := Admin.PatchStatus(list, id, s);
    var written := Server.WithStatus(store, id, s);
    forall i | 0 <= i < |patched| ensures patched[i].id in written && written[patched[i].id] == patched[i] {
      assert list[i].id in store;
    }
  }

  /**
   * A list that copies a store whose statuses are all valid shows four
   * buckets that add up to its total.
   */
  lemma MirroredCountsAddUp(list: seq<Appointment>, store: map<string, Appointment>)
    requires Mirrors(list, store)
    requires forall k :: k in store ==> ValidStatus(store[k].status)
    ensures var c := Admin.AppointmentCounts(list);
            c.pending + c.confirmed + c.completed + c.cancelled == c.total
  {
    forall i | 0 <= i < |list| ensures ValidStatus(list[i].status) {
      assert list[i].id in store;
    }
    Admin.BucketsSumToTotal(list);
  }
}
