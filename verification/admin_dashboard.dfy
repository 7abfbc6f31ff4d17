/** The admin dashboard's ticket view: statistics over the fetched list, the
    search and selector filters, and the local update applied after an admin
    solution has been saved. */
module AdminDashboard {
  import opened Wrappers
  import opened Text
  import opened Tickets

  // ---------------------------------------------------------------------
  // Order-preserving filtering (`Array.prototype.filter`)
  // ---------------------------------------------------------------------

  function Filter(s: seq<Ticket>, p: Ticket -> bool): (r: seq<Ticket>)
    ensures |r| <= |s|
  {
    if s == [] then []
    else (if p(s[0]) then [s[0]] else []) + Filter(s[1..], p)
  }

  /** The filter keeps exactly the elements that satisfy the predicate. */
  lemma {:induction false} FilterMembers(s: seq<Ticket>, p: Ticket -> bool)
    ensures forall x :: x in Filter(s, p) <==> x in s && p(x)
  {
    if s != [] {
      FilterMembers(s[1..], p);
      assert forall x :: x in s <==> x == s[0] || x in s[1..];
    }
  }

  /** `a` is `b` with some elements left out, the rest in their order. */
  predicate IsSubseq(a: seq<Ticket>, b: seq<Ticket>)
    decreases |b|
  {
    if a == [] then true
    else if b == [] then false
    else if a[0] == b[0] then IsSubseq(a[1..], b[1..])
    else IsSubseq(a, b[1..])
  }

  lemma {:induction false} FilterIsSubseq(s: seq<Ticket>, p: Ticket -> bool)
    ensures IsSubseq(Filter(s, p), s)
  {
    if s != [] {
      FilterIsSubseq(s[1..], p);
      var r := Filter(s, p);
      if p(s[0]) {
        assert r[0] == s[0] && r[1..] == Filter(s[1..], p);
      } else {
        assert r == Filter(s[1..], p);
        SubseqOfTail(r, s);
      }
    }
  }

  lemma {:induction false} SubseqOfTail(a: seq<Ticket>, b: seq<Ticket>)
    requires b != [] && IsSubseq(a, b[1..])
    ensures IsSubseq(a, b)
    decreases |b|, 0
  {
    if a != [] && a[0] == b[0] {
      SubseqDropFirst(a, b[1..]);
    }
  }

  lemma {:induction false} SubseqDropFirst(a: seq<Ticket>, b: seq<Ticket>)
    requires a != [] && IsSubseq(a, b)
    ensures IsSubseq(a[1..], b)
    decreases |b|, 1
  {
    assert b != [];
    if a[0] == b[0] {
      SubseqOfTail(a[1..], b);
    } else {
      SubseqDropFirst(a, b[1..]);
      SubseqOfTail(a[1..], b);
    }
  }

  /** Filters with the same verdict on every element agree. */
  lemma {:induction false} FilterCongruent(s: seq<Ticket>, p: Ticket -> bool, q: Ticket -> bool)
    requires forall x :: x in s ==> p(x) == q(x)
    ensures Filter(s, p) == Filter(s, q)
  {
    if s != [] {
      FilterCongruent(s[1..], p, q);
    }
  }

  /** Two filters in a row keep what satisfies both. */
  lemma {:induction false} FilterFilter(s: seq<Ticket>, p: Ticket -> bool, q: Ticket -> bool)
    ensures Filter(Filter(s, p), q) == Filter(s, x => p(x) && q(x))
  {
    if s != [] {
      FilterFilter(s[1..], p, q);
      var f := Filter(s[1..], p);
      if p(s[0]) {
        assert Filter(s, p) == [s[0]] + f;
        assert ([s[0]] + f)[1..] == f;
      } else {
        assert Filter(s, p) == f;
      }
    }
  }

  /** The order of two filters does not matter. */
  lemma FilterCommute(s: seq<Ticket>, p: Ticket -> bool, q: Ticket -> bool)
    ensures Filter(Filter(s, p), q) == Filter(Filter(s, q), p)
  {
    FilterFilter(s, p, q);
    FilterFilter(s, q, p);
    FilterCongruent(s, x => p(x) && q(x), x => q(x) && p(x));
  }

  lemma {:induction false} FilterAppend(a: seq<Ticket>, b: seq<Ticket>, p: Ticket -> bool)
    ensures Filter(a + b, p) == Filter(a, p) + Filter(b, p)
  {
    if a == [] {
      assert a + b == b;
    } else {
      var h := if p(a[0]) then [a[0]] else [];
      assert (a + b)[0] == a[0];
      assert (a + b)[1..] == a[1..] + b;
      assert Filter(a + b, p) == h + Filter(a[1..] + b, p);
      FilterAppend(a[1..], b, p);
      assert Filter(a, p) == h + Filter(a[1..], p);
      assert h + (Filter(a[1..], p) + Filter(b, p)) == (h + Filter(a[1..], p)) + Filter(b, p);
    }
  }

  /** Elements matching at most one of three predicates are counted at most
      once by the three counts together. */
  lemma {:induction false} DisjointCounts(s: seq<Ticket>, p: Ticket -> bool, q: Ticket -> bool, u: Ticket -> bool)
    requires forall x :: x in s ==> (p(x) ==> !q(x) && !u(x)) && (q(x) ==> !u(x))
    ensures |Filter(s, p)| + |Filter(s, q)| + |Filter(s, u)| <= |s|
  {
    if s != [] {
      DisjointCounts(s[1..], p, q, u);
    }
  }

  // ---------------------------------------------------------------------
  // calculateStats
  // ---------------------------------------------------------------------

  datatype Stats = Stats(total: nat, high: nat, medium: nat, low: nat, software: nat, hardware: nat)

  const NoStats := Stats(0, 0, 0, 0, 0, 0)

  predicate PriorityIs(t: Ticket, v: string) { t.priority == Some(v) }
  predicate TypeIs(t: Ticket, v: string) { t.ticketType == Some(v) }

  /** The callbacks `t => t.priority === v` and `t => t.ticket_type === v`. */
  function HasPriority(v: string): Ticket -> bool { t => PriorityIs(t, v) }
  function HasType(v: string): Ticket -> bool { t => TypeIs(t, v) }

  /** Each count is the number of tickets whose field is exactly that value;
      the comparison is case-sensitive. */
  function CalculateStats(ts: seq<Ticket>): (st: Stats)
    ensures st.total == |ts|
    ensures st.high <= st.total && st.medium <= st.total && st.low <= st.total
    ensures st.software <= st.total && st.hardware <= st.total
  {
    Stats(|ts|,
      |Filter(ts, HasPriority("high"))|,
      |Filter(ts, HasPriority("medium"))|,
      |Filter(ts, HasPriority("low"))|,
      |Filter(ts, HasType("software"))|,
      |Filter(ts, HasType("hardware"))|)
  }

  function AddStats(a: Stats, b: Stats): Stats {
    Stats(a.total + b.total, a.high + b.high, a.medium + b.medium, a.low + b.low,
          a.software + b.software, a.hardware + b.hardware)
  }

  lemma EmptyStats()
    ensures CalculateStats([]) == NoStats
  {
  }

  /** The priority buckets are disjoint, and so are the type buckets. */
  lemma BucketsWithinTotal(ts: seq<Ticket>)
    ensures var st := CalculateStats(ts);
      st.high + st.medium + st.low <= st.total && st.software + st.hardware <= st.total
  {
    DisjointCounts(ts, HasPriority("high"), HasPriority("medium"), HasPriority("low"));
    DisjointCounts(ts, HasType("software"), HasType("hardware"), t => false);
  }

  /** Statistics of a concatenation add up. */
  lemma StatsAppend(a: seq<Ticket>, b: seq<Ticket>)
    ensures CalculateStats(a + b) == AddStats(CalculateStats(a), CalculateStats(b))
  {
    FilterAppend(a, b, HasPriority("high"));
    FilterAppend(a, b, HasPriority("medium"));
    FilterAppend(a, b, HasPriority("low"));
    FilterAppend(a, b, HasType("software"));
    FilterAppend(a, b, HasType("hardware"));
  }

  /** A single ticket lands in the bucket named by its exact field value and
      nowhere else; any other value (say "High", or no value) is counted
      only in the total. */
  lemma SingleTicketStats(t: Ticket)
    ensures var st := CalculateStats([t]);
      && st.total == 1
      && st.high == (if t.priority == Some("high") then 1 else 0)
      && st.medium == (if t.priority == Some("medium") then 1 else 0)
      && st.low == (if t.priority == Some("low") then 1 else 0)
      && st.software == (if t.ticketType == Some("software") then 1 else 0)
      && st.hardware == (if t.ticketType == Some("hardware") then 1 else 0)
  {
    var s := [t];
    assert s[1..] == [];
  }

  /** Appending a ticket with an unknown priority and type only raises the
      total. */
  lemma UnknownOnlyInTotal(ts: seq<Ticket>, t: Ticket)
    requires t.priority !in {Some("high"), Some("medium"), Some("low")}
    requires t.ticketType !in {Some("software"), Some("hardware")}
    ensures CalculateStats(ts + [t]) == CalculateStats(ts).(total := |ts| + 1)
  {
    StatsAppend(ts, [t]);
    SingleTicketStats(t);
  }

  // ---------------------------------------------------------------------
  // applyFilters
  // ---------------------------------------------------------------------

  /** The lower-cased subject or body contains the lower-cased term; a
      missing subject or body never matches. */
  predicate MatchesSearch(t: Ticket, term: string)
    ensures MatchesSearch(t, term) ==> t.subject.Some? || t.body.Some?
  {
    || (t.subject.Some? && Contains(Lower(t.subject.value), Lower(term)))
    || (t.body.Some? && Contains(Lower(t.body.value), Lower(term)))
  }

  /** The search ignores letter case on both sides: changing the case of the
      term, the subject or the body never changes whether a ticket matches;
      and a ticket with neither subject nor body never matches. */
  lemma SearchIgnoresCase(t: Ticket, term: string)
    ensures MatchesSearch(t, term) == MatchesSearch(t, Lower(term))
    ensures MatchesSearch(t, term) == MatchesSearch(t, Upper(term))
    ensures t.subject.Some? ==>
      MatchesSearch(t, term) == MatchesSearch(t.(subject := Some(Upper(t.subject.value))), term)
    ensures t.body.Some? ==>
      MatchesSearch(t, term) == MatchesSearch(t.(body := Some(Upper(t.body.value))), term)
    ensures t.subject.None? && t.body.None? ==> !MatchesSearch(t, term)
  {
    LowerIdempotent(term);
    LowerUpper(term);
    if t.subject.Some? {
      LowerUpper(t.subject.value);
    }
    if t.body.Some? {
      LowerUpper(t.body.value);
    }
  }

  /** The three conditions together: a filter is off when the search term
      is empty or the selector is "all". */
  predicate Keep(t: Ticket, searchTerm: string, filterPriority: string, filterType: string) {
    && (searchTerm == "" || MatchesSearch(t, searchTerm))
    && (filterPriority == "all" || PriorityIs(t, filterPriority))
    && (filterType == "all" || TypeIs(t, filterType))
  }

  /** Each stage's condition, with the "off" case folded in. */
  function SearchCond(searchTerm: string): Ticket -> bool {
    t => searchTerm == "" || MatchesSearch(t, searchTerm)
  }

  function PriorityCond(filterPriority: string): Ticket -> bool {
    t => filterPriority == "all" || PriorityIs(t, filterPriority)
  }

  function TypeCond(filterType: string): Ticket -> bool {
    t => filterType == "all" || TypeIs(t, filterType)
  }

  /** The search stage: with a non-empty term it keeps exactly the tickets
      that match; with an empty term it passes the list through. */
  function SearchStage(ts: seq<Ticket>, searchTerm: string): (r: seq<Ticket>)
    ensures searchTerm == "" ==> r == ts
    ensures forall t :: t in r <==> t in ts && (searchTerm == "" || MatchesSearch(t, searchTerm))
  {
    if searchTerm != "" then
      FilterMembers(ts, t => MatchesSearch(t, searchTerm));
      Filter(ts, t => MatchesSearch(t, searchTerm))
    else ts
  }

  /** The priority stage: unless the selector is "all", it keeps exactly the
      tickets whose priority is the selected value. */
  function PriorityStage(ts: seq<Ticket>, filterPriority: string): (r: seq<Ticket>)
    ensures filterPriority == "all" ==> r == ts
    ensures forall t :: t in r <==> t in ts && (filterPriority == "all" || PriorityIs(t, filterPriority))
  {
    if filterPriority != "all" then
      FilterMembers(ts, t => PriorityIs(t, filterPriority));
      Filter(ts, t => PriorityIs(t, filterPriority))
    else ts
  }

  /** The type stage: unless the selector is "all", it keeps exactly the
      tickets whose type is the selected value. */
  function TypeStage(ts: seq<Ticket>, filterType: string): (r: seq<Ticket>)
    ensures filterType == "all" ==> r == ts
    ensures forall t :: t in r <==> t in ts && (filterType == "all" || TypeIs(t, filterType))
  {
    if filterType != "all" then
      FilterMembers(ts, t => TypeIs(t, filterType));
      Filter(ts, t => TypeIs(t, filterType))
    else ts
  }

  /** A stage that is switched off passes every ticket; either way a stage
      is the filter by its condition. */
  lemma SearchStageIsFilter(ts: seq<Ticket>, searchTerm: string)
    ensures SearchStage(ts, searchTerm) == Filter(ts, SearchCond(searchTerm))
  {
    if searchTerm == "" {
      FilterAll(ts, SearchCond(searchTerm));
    } else {
      FilterCongruent(ts, t => MatchesSearch(t, searchTerm), SearchCond(searchTerm));
    }
  }

  lemma PriorityStageIsFilter(ts: seq<Ticket>, filterPriority: string)
    ensures PriorityStage(ts, filterPriority) == Filter(ts, PriorityCond(filterPriority))
  {
    if filterPriority == "all" {
      FilterAll(ts, PriorityCond(filterPriority));
    } else {
      FilterCongruent(ts, t => PriorityIs(t, filterPriority), PriorityCond(filterPriority));
    }
  }

  lemma TypeStageIsFilter(ts: seq<Ticket>, filterType: string)
    ensures TypeStage(ts, filterType) == Filter(ts, TypeCond(filterType))
  {
    if filterType == "all" {
      FilterAll(ts, TypeCond(filterType));
    } else {
      FilterCongruent(ts, t => TypeIs(t, filterType), TypeCond(filterType));
    }
  }

  /** The search filter, then the priority filter, then the type filter. */
  function ApplyFilters(ts: seq<Ticket>, searchTerm: string, filterPriority: string, filterType: string): (r: seq<Ticket>)
    ensures |r| <= |ts|
  {
    TypeStage(PriorityStage(SearchStage(ts, searchTerm), filterPriority), filterType)
  }

  /** A ticket is shown exactly when it is in the list and passes all three
      conditions. */
  lemma ApplyFiltersMembers(ts: seq<Ticket>, searchTerm: string, filterPriority: string, filterType: string)
    ensures forall t :: t in ApplyFilters(ts, searchTerm, filterPriority, filterType)
                    <==> t in ts && Keep(t, searchTerm, filterPriority, filterType)
  {
    ApplyFiltersIsOneFilter(ts, searchTerm, filterPriority, filterType);
    FilterMembers(ts, t => Keep(t, searchTerm, filterPriority, filterType));
  }

  /** The three stages amount to one filter by the conjunction. */
  lemma ApplyFiltersIsOneFilter(ts: seq<Ticket>, searchTerm: string, filterPriority: string, filterType: string)
    ensures ApplyFilters(ts, searchTerm, filterPriority, filterType)
         == Filter(ts, t => Keep(t, searchTerm, filterPriority, filterType))
  {
    var ps, pp, pt := SearchCond(searchTerm), PriorityCond(filterPriority), TypeCond(filterType);
    var a := SearchStage(ts, searchTerm);
    var b := PriorityStage(a, filterPriority);
    SearchStageIsFilter(ts, searchTerm);
    PriorityStageIsFilter(a, filterPriority);
    TypeStageIsFilter(b, filterType);
    FilterThree(ts, ps, pp, pt, t => Keep(t, searchTerm, filterPriority, filterType));
  }

  /** Three filters in a row are one filter by the conjunction of their
      conditions. */
  lemma FilterThree(ts: seq<Ticket>, p: Ticket -> bool, q: Ticket -> bool, r: Ticket -> bool, k: Ticket -> bool)
    requires forall x :: k(x) == (p(x) && q(x) && r(x))
    ensures Filter(Filter(Filter(ts, p), q), r) == Filter(ts, k)
  {
    FilterFilter(ts, p, q);
    FilterFilter(ts, x => p(x) && q(x), r);
    FilterCongruent(ts, x => (y => p(y) && q(y))(x) && r(x), k);
  }

  /** A filter that keeps everything is the identity. */
  lemma {:induction false} FilterAll(s: seq<Ticket>, p: Ticket -> bool)
    requires forall x :: x in s ==> p(x)
    ensures Filter(s, p) == s
  {
    if s != [] {
      FilterAll(s[1..], p);
    }
  }

  /** The filtered list is the ticket list with some tickets left out and
      the rest in their order. */
  lemma FilteredIsSubseq(ts: seq<Ticket>, searchTerm: string, filterPriority: string, filterType: string)
    ensures IsSubseq(ApplyFilters(ts, searchTerm, filterPriority, filterType), ts)
  {
    ApplyFiltersIsOneFilter(ts, searchTerm, filterPriority, filterType);
    FilterIsSubseq(ts, t => Keep(t, searchTerm, filterPriority, filterType));
  }

  /** With no search term and both selectors on "all", nothing is removed. */
  lemma DefaultsShowEverything(ts: seq<Ticket>)
    ensures ApplyFilters(ts, "", "all", "all") == ts
  {
  }

  /** Running the stages in the opposite order gives the same list. */
  lemma FilterOrderIrrelevant(ts: seq<Ticket>, searchTerm: string, filterPriority: string, filterType: string)
    ensures SearchStage(PriorityStage(TypeStage(ts, filterType), filterPriority), searchTerm)
         == ApplyFilters(ts, searchTerm, filterPriority, filterType)
  {
    var ps, pp, pt := SearchCond(searchTerm), PriorityCond(filterPriority), TypeCond(filterType);
    var a := TypeStage(ts, filterType);
    var b := PriorityStage(a, filterPriority);
    TypeStageIsFilter(ts, filterType);
    PriorityStageIsFilter(a, filterPriority);
    SearchStageIsFilter(b, searchTerm);
    FilterThree(ts, pt, pp, ps, t => Keep(t, searchTerm, filterPriority, filterType));
    ApplyFiltersIsOneFilter(ts, searchTerm, filterPriority, filterType);
  }

  // ---------------------------------------------------------------------
  // handleUpdateAdminSolution's list update
  // ---------------------------------------------------------------------

  function WithSolution(t: Ticket, id: TicketId, solution: string): (u: Ticket)
    ensures t.id == id ==> u == t.(adminSolution := Some(solution))
    ensures t.id != id ==> u == t
  {
    if t.id == id then t.(adminSolution := Some(solution)) else t
  }

  /** `prev.map(...)`: every ticket whose id is `id` gets the new solution,
      every other ticket is kept as it is. */
  function SetAdminSolution(ts: seq<Ticket>, id: TicketId, solution: string): (r: seq<Ticket>)
    ensures |r| == |ts|
  {
    if ts == [] then [] else [WithSolution(ts[0], id, solution)] + SetAdminSolution(ts[1..], id, solution)
  }

  /** Only tickets with the given id change, and only in `adminSolution`. */
  lemma {:induction false} SetAdminSolutionEffect(ts: seq<Ticket>, id: TicketId, solution: string)
    ensures var r := SetAdminSolution(ts, id, solution);
      forall i :: 0 <= i < |ts| ==>
        (ts[i].id == id ==> r[i] == ts[i].(adminSolution := Some(solution))) &&
        (ts[i].id != id ==> r[i] == ts[i])
  {
    if ts != [] {
      SetAdminSolutionEffect(ts[1..], id, solution);
      var r := SetAdminSolution(ts, id, solution);
      assert forall i :: 1 <= i < |ts| ==> r[i] == SetAdminSolution(ts[1..], id, solution)[i - 1];
    }
  }

  /** A filter that ignores `adminSolution` sees the same tickets before and
      after the update. */
  lemma {:induction false} FilterSetAdminSolution(ts: seq<Ticket>, id: TicketId, solution: string, p: Ticket -> bool)
    requires forall t :: p(WithSolution(t, id, solution)) == p(t)
    ensures Filter(SetAdminSolution(ts, id, solution), p) == SetAdminSolution(Filter(ts, p), id, solution)
  {
    if ts != [] {
      var u := WithSolution(ts[0], id, solution);
      var s1 := SetAdminSolution(ts[1..], id, solution);
      var f1 := Filter(ts[1..], p);
      FilterSetAdminSolution(ts[1..], id, solution, p);
      assert p(u) == p(ts[0]);
      var r := SetAdminSolution(ts, id, solution);
      assert r == [u] + s1;
      assert r[0] == u && r[1..] == s1;
      if p(ts[0]) {
        assert Filter(r, p) == [u] + Filter(s1, p);
        assert Filter(ts, p) == [ts[0]] + f1;
        assert ([ts[0]] + f1)[0] == ts[0] && ([ts[0]] + f1)[1..] == f1;
      } else {
        assert Filter(r, p) == Filter(s1, p);
        assert Filter(ts, p) == f1;
      }
    }
  }

  /** The update leaves the statistics as they were, since it changes
      neither priority nor type. */
  lemma UpdateKeepsStats(ts: seq<Ticket>, id: TicketId, solution: string)
    ensures CalculateStats(SetAdminSolution(ts, id, solution)) == CalculateStats(ts)
  {
    UpdateKeepsCount(ts, id, solution, HasPriority("high"));
    UpdateKeepsCount(ts, id, solution, HasPriority("medium"));
    UpdateKeepsCount(ts, id, solution, HasPriority("low"));
    UpdateKeepsCount(ts, id, solution, HasType("software"));
    UpdateKeepsCount(ts, id, solution, HasType("hardware"));
  }

  /** A count by priority or by type is the same before and after the
      update. */
  lemma UpdateKeepsCount(ts: seq<Ticket>, id: TicketId, solution: string, p: Ticket -> bool)
    requires p in {HasPriority("high"), HasPriority("medium"), HasPriority("low"),
                   HasType("software"), HasType("hardware")}
    ensures |Filter(SetAdminSolution(ts, id, solution), p)| == |Filter(ts, p)|
  {
    forall t ensures p(WithSolution(t, id, solution)) == p(t) {
    }
    FilterSetAdminSolution(ts, id, solution, p);
  }

  /** Filtering the updated list is updating the filtered list: the search
      looks at subject and body only, never at the admin solution. */
  lemma UpdateCommutesWithFilters(ts: seq<Ticket>, id: TicketId, solution: string,
                                  searchTerm: string, filterPriority: string, filterType: string)
    ensures ApplyFilters(SetAdminSolution(ts, id, solution), searchTerm, filterPriority, filterType)
         == SetAdminSolution(ApplyFilters(ts, searchTerm, filterPriority, filterType), id, solution)
  {
    var k := (t: Ticket) => Keep(t, searchTerm, filterPriority, filterType);
    ApplyFiltersIsOneFilter(SetAdminSolution(ts, id, solution), searchTerm, filterPriority, filterType);
    ApplyFiltersIsOneFilter(ts, searchTerm, filterPriority, filterType);
    FilterSetAdminSolution(ts, id, solution, k);
  }

  /** Saving the same solution twice is the same as saving it once. */
  lemma {:induction false} SetAdminSolutionIdempotent(ts: seq<Ticket>, id: TicketId, solution: string)
    ensures SetAdminSolution(SetAdminSolution(ts, id, solution), id, solution) == SetAdminSolution(ts, id, solution)
  {
    if ts != [] {
      SetAdminSolutionIdempotent(ts[1..], id, solution);
      var r := SetAdminSolution(ts, id, solution);
      assert r[0] == WithSolution(ts[0], id, solution);
      assert r[1..] == SetAdminSolution(ts[1..], id, solution);
    }
  }

  // ---------------------------------------------------------------------
  // The component state
  // ---------------------------------------------------------------------

  const FetchError := "Failed to fetch tickets. Please try again."

  /** What the fetch call returned: the ticket list, or an exception. */
  datatype FetchOutcome = Fetched(list: seq<Ticket>) | FetchFailed

  class Dashboard {
    var tickets: seq<Ticket>
    var filteredTickets: seq<Ticket>
    var stats: Stats
    var isLoading: bool
    var error: Option<string>
    var searchTerm: string
    var filterPriority: string
    var filterType: string

    /** The filtered list is always the filters applied to the ticket list,
        and the statistics always describe the ticket list. */
    predicate Valid()
      reads this
    {
      && filteredTickets == ApplyFilters(tickets, searchTerm, filterPriority, filterType)
      && stats == CalculateStats(tickets)
    }

    constructor ()
      ensures Valid()
      ensures tickets == [] && filteredTickets == [] && stats == NoStats
      ensures isLoading && error == None
      ensures searchTerm == "" && filterPriority == "all" && filterType == "all"
    {
      tickets := [];
      filteredTickets := [];
      stats := NoStats;
      isLoading := true;
      error := None;
      searchTerm := "";
      filterPriority := "all";
      filterType := "all";
    }

    /** `fetchTickets`: on success the list and statistics are replaced; on
        failure they are kept and the error message is set. */
    method FetchTickets(outcome: FetchOutcome)
      requires Valid()
      modifies this
      ensures Valid()
      ensures !isLoading
      ensures outcome.Fetched? ==> tickets == outcome.list && error == None
      ensures outcome.FetchFailed? ==>
        tickets == old(tickets) && stats == old(stats) && error == Some(FetchError)
      ensures searchTerm == old(searchTerm) && filterPriority == old(filterPriority)
      ensures filterType == old(filterType)
    {
      isLoading := true;
      error := None;
      if outcome.Fetched? {
        var list := outcome.list;
        var st := CalculateStats(list);
        var filtered := ApplyFilters(list, searchTerm, filterPriority, filterType);
        tickets, stats, filteredTickets := list, st, filtered;
      } else {
        error := Some(FetchError);
      }
      isLoading := false;
    }

    /** `handleUpdateAdminSolution`: the local list changes only when the
        server call succeeded; the statistics are not recomputed and need not
        be. */
    method UpdateAdminSolution(id: TicketId, solution: string, callSucceeded: bool)
      requires Valid()
      modifies this
      ensures Valid()
      ensures callSucceeded ==> tickets == SetAdminSolution(old(tickets), id, solution)
      ensures !callSucceeded ==> tickets == old(tickets)
      ensures stats == old(stats) && error == old(error) && isLoading == old(isLoading)
      ensures searchTerm == old(searchTerm) && filterPriority == old(filterPriority)
      ensures filterType == old(filterType)
    {
      if callSucceeded {
        UpdateKeepsStats(tickets, id, solution);
        tickets := SetAdminSolution(tickets, id, solution);
        filteredTickets := ApplyFilters(tickets, searchTerm, filterPriority, filterType);
      }
    }

    method SetSearchTerm(term: string)
      requires Valid()
      modifies this
      ensures Valid() && searchTerm == term
      ensures tickets == old(tickets) && stats == old(stats) && error == old(error)
      ensures isLoading == old(isLoading)
      ensures filterPriority == old(filterPriority) && filterType == old(filterType)
    {
      searchTerm := term;
      filteredTickets := ApplyFilters(tickets, searchTerm, filterPriority, filterType);
    }

    method SetFilterPriority(value: string)
      requires Valid()
      modifies this
      ensures Valid() && filterPriority == value
      ensures tickets == old(tickets) && stats == old(stats) && error == old(error)
      ensures isLoading == old(isLoading)
      ensures searchTerm == old(searchTerm) && filterType == old(filterType)
    {
      filterPriority := value;
      filteredTickets := ApplyFilters(tickets, searchTerm, filterPriority, filterType);
    }

    method SetFilterType(value: string)
      requires Valid()
      modifies this
      ensures Valid() && filterType == value
      ensures tickets == old(tickets) && stats == old(stats) && error == old(error)
      ensures isLoading == old(isLoading)
      ensures searchTerm == old(searchTerm) && filterPriority == old(filterPriority)
    {
      filterType := value;
      filteredTickets := ApplyFilters(tickets, searchTerm, filterPriority, filterType);
    }
  }
}
