/**
 The mechanic's dashboard: a list of part requests, a tab bar
 (all / pending / active / completed) that filters the list, and three
 counters summarising the list by status.
 */
module MechanicDashboard {
  import opened Wrappers

  /** The five statuses a mechanic's request can be in. */
  datatype RequestStatus = Pending | Quoted | Confirmed | Shipped | Delivered

  datatype Supplier = Supplier(name: string, id: string)

  /** One entry of `activeRequests`. */
  datatype Request = Request(
    id: string,
    partName: string,
    requestDate: string,
    status: RequestStatus,
    supplier: Option<Supplier>)

  datatype Tab = AllTab | PendingTab | ActiveTab | CompletedTab

  /** The status groups behind the tabs and the counters. */
  predicate IsPending(s: RequestStatus) {
    s == Pending
  }

  predicate IsActive(s: RequestStatus) {
    s == Quoted || s == Confirmed || s == Shipped
  }

  predicate IsCompleted(s: RequestStatus) {
    s == Delivered
  }

  /** The per-request test of the filter callback: does `tab` show a
      request whose status is `s`? */
  predicate InTab(tab: Tab, s: RequestStatus) {
    match tab
    case AllTab => true
    case PendingTab => IsPending(s)
    case ActiveTab => IsActive(s)
    case CompletedTab => IsCompleted(s)
  }

  /** `xs` can be obtained from `ys` by deleting elements: no element is
      added and the relative order is kept. */
  ghost predicate IsSubsequence<T>(xs: seq<T>, ys: seq<T>)
    decreases |ys|
  {
    || xs == []
    || (&& ys != []
        && (|| (xs[0] == ys[0] && IsSubsequence(xs[1..], ys[1..]))
            || IsSubsequence(xs, ys[1..])))
  }

  /** `filteredRequests`: the requests the given tab shows. */
  function FilteredRequests(requests: seq<Request>, tab: Tab): (shown: seq<Request>)
    ensures |shown| <= |requests|
    ensures forall r :: r in shown <==> r in requests && InTab(tab, r.status)
    ensures IsSubsequence(shown, requests)
  {
    if requests == [] then []
    else
      var rest := FilteredRequests(requests[1..], tab);
      if InTab(tab, requests[0].status) then
        var shown := [requests[0]] + rest;
        assert shown[1..] == rest;
        shown
      else
        rest
  }

  /** The filter keeps every occurrence of a request its tab shows, and
      no occurrence of any other: a request listed twice is shown twice. */
  lemma {:induction false} FilteredKeepsMultiplicity(requests: seq<Request>, tab: Tab, r: Request)
    ensures multiset(FilteredRequests(requests, tab))[r]
            == if InTab(tab, r.status) then multiset(requests)[r] else 0
    decreases |requests|
  {
    if requests != [] {
      var head, tail := requests[0], requests[1..];
      var rest := FilteredRequests(tail, tab);
      FilteredKeepsMultiplicity(tail, tab, r);
      assert requests == [head] + tail;
      assert multiset(requests) == multiset([head]) + multiset(tail);
      if InTab(tab, head.status) {
        assert FilteredRequests(requests, tab) == [head] + rest;
        assert multiset([head] + rest) == multiset([head]) + multiset(rest);
      } else {
        assert FilteredRequests(requests, tab) == rest;
      }
    }
  }

  /** The three status counters of the summary bar. */
  datatype Counts = Counts(pending: nat, active: nat, completed: nat)

  /** `pendingCount`, `activeCount` and `completedCount`, computed in one
      pass over the list. */
  function CountByStatus(requests: seq<Request>): (c: Counts)
    ensures c.pending + c.active + c.completed == |requests|
  {
    if requests == [] then Counts(0, 0, 0)
    else
      var c := CountByStatus(requests[1..]);
      match requests[0].status
      case Pending => c.(pending := c.pending + 1)
      case Quoted | Confirmed | Shipped => c.(active := c.active + 1)
      case Delivered => c.(completed := c.completed + 1)
  }

  /** The "all" tab shows the list unchanged, same elements, same order. */
  lemma {:induction false} AllTabIsIdentity(requests: seq<Request>)
    ensures FilteredRequests(requests, AllTab) == requests
  {
    if requests != [] {
      AllTabIsIdentity(requests[1..]);
      assert requests == [requests[0]] + requests[1..];
    }
  }

  /** Each counter is the length of its tab's list. */
  lemma {:induction false} CountsMatchTabs(requests: seq<Request>)
    ensures CountByStatus(requests).pending == |FilteredRequests(requests, PendingTab)|
    ensures CountByStatus(requests).active == |FilteredRequests(requests, ActiveTab)|
    ensures CountByStatus(requests).completed == |FilteredRequests(requests, CompletedTab)|
  {
    if requests != [] {
      CountsMatchTabs(requests[1..]);
    }
  }

  /** The pending, active and completed tabs split the list: their
      lengths add up to the length of the whole list. */
  lemma TabsPartitionRequests(requests: seq<Request>)
    ensures |FilteredRequests(requests, PendingTab)|
          + |FilteredRequests(requests, ActiveTab)|
          + |FilteredRequests(requests, CompletedTab)| == |requests|
  {
    CountsMatchTabs(requests);
  }

  /** No request is shown by two of the pending, active and completed
      tabs, and every request is shown by one of them. */
  lemma TabsDisjoint(requests: seq<Request>, r: Request)
    requires r in requests
    ensures r in FilteredRequests(requests, PendingTab)
            || r in FilteredRequests(requests, ActiveTab)
            || r in FilteredRequests(requests, CompletedTab)
    ensures !(r in FilteredRequests(requests, PendingTab) && r in FilteredRequests(requests, ActiveTab))
    ensures !(r in FilteredRequests(requests, PendingTab) && r in FilteredRequests(requests, CompletedTab))
    ensures !(r in FilteredRequests(requests, ActiveTab) && r in FilteredRequests(requests, CompletedTab))
  {
    assert r in FilteredRequests(requests, PendingTab) <==> IsPending(r.status);
    assert r in FilteredRequests(requests, ActiveTab) <==> IsActive(r.status);
    assert r in FilteredRequests(requests, CompletedTab) <==> IsCompleted(r.status);
  }

  // ---- tab state ----

  /** The screen's local state: the selected tab. */
  datatype DashboardState = DashboardState(activeTab: Tab)

  /** The screen opens on the "all" tab, which shows every request. */
  function Initial(): (st: DashboardState)
    ensures st.activeTab == AllTab
    ensures forall requests :: FilteredRequests(requests, st.activeTab) == requests
  {
    var st := DashboardState(AllTab);
    assert forall requests :: FilteredRequests(requests, st.activeTab) == requests by {
      forall requests: seq<Request> ensures FilteredRequests(requests, AllTab) == requests {
        AllTabIsIdentity(requests);
      }
    }
    st
  }

  /** A tab's list is empty exactly when no request has a status the
      tab shows. */
  lemma FilteredEmptyIff(requests: seq<Request>, tab: Tab)
    ensures FilteredRequests(requests, tab) == [] <==> forall r :: r in requests ==> !InTab(tab, r.status)
  {
    var shown := FilteredRequests(requests, tab);
    if shown != [] {
      assert shown[0] in shown;
    }
  }

  /** The "View all requests" link: shown under an empty list when the
      selected tab is not "all". */
  predicate ViewAllOffered(st: DashboardState, requests: seq<Request>)
    ensures ViewAllOffered(st, requests)
            <==> st.activeTab != AllTab && forall r :: r in requests ==> !InTab(st.activeTab, r.status)
  {
    FilteredEmptyIff(requests, st.activeTab);
    FilteredRequests(requests, st.activeTab) == [] && st.activeTab != AllTab
  }

  datatype DashboardEvent = TabPressed(tab: Tab) | ViewAllPressed

  /** The dashboard's reaction to a press; pressing a link that is not
      on screen does nothing. */
  function Step(st: DashboardState, requests: seq<Request>, ev: DashboardEvent): (st': DashboardState)
    ensures ev.TabPressed? ==> st'.activeTab == ev.tab
    ensures ev == ViewAllPressed && ViewAllOffered(st, requests) ==> st'.activeTab == AllTab
    ensures ev == ViewAllPressed && !ViewAllOffered(st, requests) ==> st' == st
    ensures st'.activeTab == AllTab ==> FilteredRequests(requests, st'.activeTab) == requests
  {
    AllTabIsIdentity(requests);
    match ev
    case TabPressed(t) => DashboardState(t)
    case ViewAllPressed =>
      if ViewAllOffered(st, requests) then DashboardState(AllTab) else st
  }

  /** The link is never offered on the "all" tab, so after following it
      the whole list is on screen and the link is gone. */
  lemma ViewAllRestoresList(st: DashboardState, requests: seq<Request>)
    requires ViewAllOffered(st, requests)
    ensures FilteredRequests(requests, Step(st, requests, ViewAllPressed).activeTab) == requests
    ensures !ViewAllOffered(Step(st, requests, ViewAllPressed), requests)
  {
  }
}
