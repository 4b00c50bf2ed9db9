/** The admin review page (client/src/pages/AdminDashboard.tsx): the access
    check on the signed-in user's role, the queue filter over the page's
    built-in sample requests, and the priority colour mapping. */
module AdminDashboard {
  import opened Common
  import opened Schema

  datatype Priority = Low | Medium | High

  function PriorityName(p: Priority): string {
    match p
    case Low => "low"
    case Medium => "medium"
    case High => "high"
  }

  /** The fields of a `VerificationRequest` that the page filters on. */
  datatype Request = Request(
    id: string,
    userName: string,
    userEmail: string,
    userType: UserType,
    status: VerificationStatus,
    riskFlags: seq<string>,
    priority: Priority)

  /** `mockVerifications`: the list the page shows; it does not call the
      admin procedures. */
  const SampleRequests: seq<Request> := [
    Request("VER001", "Mario Rossi", "mario.rossi@example.it", Tenant, Pending, [], Medium),
    Request("VER002", "Anna Bianchi", "anna.bianchi@example.it", Landlord, Pending, ["duplicate_email"], High),
    Request("VER003", "Erik Svensson", "erik.svensson@example.se", Tenant, Approved, [], Low)
  ]

  /** "all" or one value. */
  datatype StatusFilter = AnyStatus | StatusIs(status: VerificationStatus)
  datatype PriorityFilter = AnyPriority | PriorityIs(priority: Priority)

  datatype QueueFilters = QueueFilters(searchTerm: string, status: StatusFilter, priority: PriorityFilter)

  /** The initial state: empty search, pending requests, every priority. */
  const DefaultFilters := QueueFilters("", StatusIs(Pending), AnyPriority)

  predicate MatchesSearch(v: Request, term: string) {
    Contains(ToLower(v.userName), ToLower(term)) || Contains(ToLower(v.userEmail), ToLower(term))
  }

  predicate MatchesStatus(v: Request, f: StatusFilter) {
    f == AnyStatus || v.status == f.status
  }

  predicate MatchesPriority(v: Request, f: PriorityFilter) {
    f == AnyPriority || v.priority == f.priority
  }

  predicate Shown(v: Request, f: QueueFilters) {
    MatchesSearch(v, f.searchTerm) && MatchesStatus(v, f.status) && MatchesPriority(v, f.priority)
  }

  /** `filteredVerifications`. */
  function FilterQueue(vs: seq<Request>, f: QueueFilters): (r: seq<Request>)
    ensures forall v :: multiset(r)[v] == if Shown(v, f) then multiset(vs)[v] else 0
    ensures forall v :: v in r <==> v in vs && Shown(v, f)
    ensures IsSubsequence(r, vs)
  {
    FilterBy(vs, v => Shown(v, f))
  }

  /** The empty search text occurs in every name. */
  lemma EmptySearchMatchesAll(v: Request)
    ensures MatchesSearch(v, "")
  {
    assert ToLower("") == "";
    assert StartsWith(ToLower(v.userName)[0..], "");
  }

  /** With an empty search and both filters on "all" the whole queue is
      shown, in order. */
  lemma NoFilterShowsAll(vs: seq<Request>)
    ensures FilterQueue(vs, QueueFilters("", AnyStatus, AnyPriority)) == vs
  {
    var f := QueueFilters("", AnyStatus, AnyPriority);
    forall v | v in vs
      ensures Shown(v, f)
    {
      EmptySearchMatchesAll(v);
    }
    FilterByKeepsAll(vs, v => Shown(v, f));
  }

  /** Under the default filters a request is shown exactly when it is
      pending. */
  lemma DefaultFiltersShowPending(v: Request)
    ensures Shown(v, DefaultFilters) <==> v.status == Pending
  {
    EmptySearchMatchesAll(v);
  }

  /** `getPriorityColor`: the badge classes for a priority string. */
  function PriorityColor(priority: string): (r: string)
    ensures priority == "high" ==> r == "bg-red-100 text-red-800"
    ensures priority == "medium" ==> r == "bg-yellow-100 text-yellow-800"
    ensures priority == "low" ==> r == "bg-green-100 text-green-800"
    ensures priority !in {"high", "medium", "low"} ==> r == "bg-slate-100 text-slate-800"
  {
    if priority == "high" then "bg-red-100 text-red-800"
    else if priority == "medium" then "bg-yellow-100 text-yellow-800"
    else if priority == "low" then "bg-green-100 text-green-800"
    else "bg-slate-100 text-slate-800"
  }

  /** Every priority a request can carry gets its own colour, never the
      fallback. */
  lemma PriorityColorsDistinct(p: Priority, q: Priority)
    ensures PriorityColor(PriorityName(p)) != "bg-slate-100 text-slate-800"
    ensures p != q ==> PriorityColor(PriorityName(p)) != PriorityColor(PriorityName(q))
  {
  }

  /** What the page renders. */
  datatype View = AccessDenied | Queue(requests: seq<Request>)

  /** `user?.role !== "admin"`: no user, or any role but admin, sees the
      access-denied card. */
  function Render(role: Option<Role>, f: QueueFilters): (view: View)
    ensures view.Queue? <==> role == Some(Admin)
    ensures view.Queue? ==> view.requests == FilterQueue(SampleRequests, f)
  {
    if role != Some(Admin) then AccessDenied else Queue(FilterQueue(SampleRequests, f))
  }

  /** Non-admins never see a request, whatever the filters. */
  lemma NonAdminSeesNothing(role: Option<Role>, f: QueueFilters)
    requires role != Some(Admin)
    ensures Render(role, f) == AccessDenied
  {
  }
}
