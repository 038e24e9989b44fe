/** The list of interventions (`src/components/dashboard/InterventionsList.tsx`):
    which records are shown, in which order, and how a status is labelled. */
module InterventionsList {
  import opened Types
  import opened Seqs
  import opened Text
  import Store

  predicate IsStatusName(status: string)
  {
    exists st: InterventionStatus :: status == StatusName(st)
  }

  /** `getStatusLabel`: the French badge text of a wire status; any other
      string is shown as it is, and only such a string. */
  function StatusLabel(status: string): (r: string)
    ensures r == status <==> !IsStatusName(status)
  {
    assert StatusName(Pending) == "pending" && StatusName(InProgress) == "in-progress";
    assert StatusName(Completed) == "completed" && StatusName(Cancelled) == "cancelled";
    if status == "pending" then "En attente"
    else if status == "in-progress" then "En cours"
    else if status == "completed" then "Termin\U{00E9}e"
    else if status == "cancelled" then "Annul\U{00E9}e"
    else status
  }

  /** The Tailwind colour family of a status badge; grey exactly for any
      other string. */
  function ColorFamily(status: string): (r: string)
    ensures r == "gray" <==> !IsStatusName(status)
  {
    assert StatusName(Pending) == "pending" && StatusName(InProgress) == "in-progress";
    assert StatusName(Completed) == "completed" && StatusName(Cancelled) == "cancelled";
    if status == "pending" then "orange"
    else if status == "in-progress" then "blue"
    else if status == "completed" then "green"
    else if status == "cancelled" then "red"
    else "gray"
  }

  /** `getStatusColor`: the badge classes, e.g.
      `bg-orange-100 text-orange-800 border-orange-200` for a pending one;
      the family can be read back after the `bg-` prefix. */
  function StatusColor(status: string): (r: string)
    ensures var f := ColorFamily(status);
      |r| > 3 + |f| && r[..3] == "bg-" && r[3..3 + |f|] == f
  {
    var f := ColorFamily(status);
    "bg-" + f + "-100 text-" + f + "-800 border-" + f + "-200"
  }

  /** Two different statuses never share a label or a colour, so the badge
      identifies the status. */
  lemma BadgesIdentifyStatus(a: InterventionStatus, b: InterventionStatus)
    ensures StatusLabel(StatusName(a)) == StatusLabel(StatusName(b)) <==> a == b
    ensures StatusColor(StatusName(a)) == StatusColor(StatusName(b)) <==> a == b
  {
    if a != b {
      var la, lb := StatusLabel(StatusName(a)), StatusLabel(StatusName(b));
      assert la[|la| - 1] != lb[|lb| - 1] || la[3] != lb[3];
      assert StatusColor(StatusName(a))[3] == ColorFamily(StatusName(a))[0];
      assert StatusColor(StatusName(b))[3] == ColorFamily(StatusName(b))[0];
    }
  }

  /** The status tab: everything, or one status. */
  function PassesStatus(f: Store.StatusFilter): Intervention -> bool
  {
    (i: Intervention) => f.AllStatuses? || i.status == f.status
  }

  /** The search box: the client name or the description contains the term,
      ignoring ASCII case, or the decimal id contains the term as typed. */
  predicate MatchesSearch(i: Intervention, term: string)
  {
    || Includes(Lower(i.clientName), Lower(term))
    || Includes(Lower(i.problemDescription), Lower(term))
    || Includes(IntToString(i.id), term)
  }

  function Searching(term: string): Intervention -> bool
  {
    (i: Intervention) => MatchesSearch(i, term)
  }

  /** The comparator `b.createdAt - a.createdAt`: `a` may precede `b` when it
      is not older. */
  function NewestFirst(): (Intervention, Intervention) -> bool
  {
    (a: Intervention, b: Intervention) => a.createdAt >= b.createdAt
  }

  lemma NewestFirstIsTotalPreorder()
    ensures TotalPreorder(NewestFirst())
  {
  }

  /** The records the status tab and the search term let through, before
      ordering. */
  function Selected(xs: seq<Intervention>, f: Store.StatusFilter, term: string): (r: seq<Intervention>)
    ensures forall x :: x in r <==> x in xs && PassesStatus(f)(x) && (term == [] || MatchesSearch(x, term))
    ensures multiset(r) <= multiset(xs)
    ensures forall x :: multiset(r)[x] == if PassesStatus(f)(x) && (term == [] || MatchesSearch(x, term)) then multiset(xs)[x] else 0
    ensures f.AllStatuses? && term == [] ==> r == xs
  {
    var byStatus := if f.AllStatuses? then xs else Filter(xs, PassesStatus(f));
    FilterMultiset(xs, PassesStatus(f));
    FilterMultiset(byStatus, Searching(term));
    FilterMultiplicity(xs, PassesStatus(f));
    FilterMultiplicity(byStatus, Searching(term));
    if term == [] then byStatus else Filter(byStatus, Searching(term))
  }

  /** `filteredInterventions`: the selected records, newest first. */
  function Visible(xs: seq<Intervention>, f: Store.StatusFilter, term: string): (r: seq<Intervention>)
    ensures forall x :: x in r <==> x in xs && PassesStatus(f)(x) && (term == [] || MatchesSearch(x, term))
    ensures multiset(r) <= multiset(xs)
    ensures forall x :: multiset(r)[x] == if PassesStatus(f)(x) && (term == [] || MatchesSearch(x, term)) then multiset(xs)[x] else 0
    ensures f.AllStatuses? && term == [] ==> multiset(r) == multiset(xs)
  {
    var sel := Selected(xs, f, term);
    assert forall x :: x in Sort(sel, NewestFirst()) <==> x in multiset(sel);
    Sort(sel, NewestFirst())
  }

  /** The shown list is ordered newest first. */
  lemma VisibleNewestFirst(xs: seq<Intervention>, f: Store.StatusFilter, term: string)
    ensures var r := Visible(xs, f, term);
      forall i, j :: 0 <= i < j < |r| ==> r[i].createdAt >= r[j].createdAt
  {
    NewestFirstIsTotalPreorder();
    SortSorted(Selected(xs, f, term), NewestFirst());
  }

  /** Typing a record's id as the search term shows that record, whatever
      its client name and description, as long as the status tab lets it
      through. */
  lemma SearchByIdFindsRecord(xs: seq<Intervention>, f: Store.StatusFilter, x: Intervention)
    requires x in xs && PassesStatus(f)(x)
    ensures x in Visible(xs, f, IntToString(x.id))
  {
    assert OccursAt(IntToString(x.id), IntToString(x.id), 0);
  }

  /** The store as the list leaves it after computing the view: with the
      "all" tab and no term the filter steps hand back the store's own array,
      and `sort` reorders that array in place. */
  function StoreAfterListing(s: Store.AppState, term: string): (r: Store.AppState)
    ensures r == s || (s.interventionFilter.AllStatuses? && term == [] && r == s.(interventions := Visible(s.interventions, s.interventionFilter, term)))
    ensures multiset(r.interventions) == multiset(s.interventions)
  {
    if s.interventionFilter.AllStatuses? && term == [] then s.(interventions := Visible(s.interventions, s.interventionFilter, term)) else s
  }

  /** A render of the list: the records shown, and the write the in-place
      `sort` makes to the store's own array under the "all" tab with no
      search term, without going through a store action. */
  method RenderList(store: Store.AppStore, term: string) returns (shown: seq<Intervention>)
    modifies store
    ensures shown == Visible(old(store.interventions), old(store.interventionFilter), term)
    ensures store.State() == StoreAfterListing(old(store.State()), term)
  {
    shown := Visible(store.interventions, store.interventionFilter, term);
    if store.interventionFilter.AllStatuses? && term == [] {
      store.interventions := shown;
    }
  }

  /** Two records in creation order come back reversed in the store itself. */
  lemma ListingReordersStore(older: Intervention, newer: Intervention)
    requires older.createdAt < newer.createdAt
    ensures var s := Store.InitialState.(interventions := [older, newer]);
      StoreAfterListing(s, "").interventions == [newer, older] != s.interventions
  {
    var n := NewestFirst();
    var xs := [older, newer];
    assert xs[1..] == [newer] && [newer][1..] == [];
    assert Sort([newer], n) == [newer];
    assert Insert(older, [newer], n) == [newer, older];
    assert Selected(xs, Store.AllStatuses, "") == xs;
  }

  /** With any tab or any term the computation leaves the store alone. */
  lemma ListingWithFilterKeepsStore(s: Store.AppState, term: string)
    requires !s.interventionFilter.AllStatuses? || term != []
    ensures StoreAfterListing(s, term) == s
  {
  }
}
