/**
 * The logic of the machine list in src/pages/machines/MachinesPage.tsx: the
 * tab-and-search filter, the health colour, the status label and badge, the
 * summary counts, and the two-step delete confirmation.
 */
module MachinesPage {
  import opened Wrappers

  /** A machine as the page lists it; `health` is a whole percentage. */
  datatype Machine = Machine(
    id: int,
    description: string,
    nserie: string,
    constructeur: string,
    nmachine: string,
    poids: string,
    dimension: string,
    status: string,
    health: int)

  const AllTab := "all"
  const Operational := "operational"
  const Maintenance := "maintenance"
  const Warning := "warning"
  const Offline := "offline"

  predicate KnownStatus(status: string) {
    status == Operational || status == Maintenance || status == Warning || status == Offline
  }

  // ---------------------------------------------------------------- search

  /** ASCII lower-casing of one character. */
  function LowerChar(c: char): char {
    if 'A' <= c <= 'Z' then (c as int + 32) as char else c
  }

  /** ASCII lower-casing of a string (`toLowerCase`). */
  function Lower(s: string): (r: string)
    ensures |r| == |s|
    ensures forall i :: 0 <= i < |s| ==> r[i] == LowerChar(s[i])
  {
    seq(|s|, i requires 0 <= i < |s| => LowerChar(s[i]))
  }

  /** `needle` occurs in `hay` starting at position `i`. */
  ghost predicate OccursAt(hay: string, needle: string, i: int) {
    0 <= i && i + |needle| <= |hay| && hay[i..i + |needle|] == needle
  }

  /** `hay.includes(needle)`. */
  function Includes(hay: string, needle: string): (b: bool)
    ensures b <==> exists i :: OccursAt(hay, needle, i)
    decreases |hay|
  {
    if |needle| > |hay| then false
    else if hay[..|needle|] == needle then (assert OccursAt(hay, needle, 0); true)
    else
      ShiftOccurrence(hay, needle);
      Includes(hay[1..], needle)
  }

  /** Past the first position, the occurrences in `hay` are those in `hay[1..]`, shifted by one. */
  lemma ShiftOccurrence(hay: string, needle: string)
    requires hay != [] && !OccursAt(hay, needle, 0)
    ensures (exists i :: OccursAt(hay, needle, i)) <==> (exists i :: OccursAt(hay[1..], needle, i))
  {
    forall i | OccursAt(hay, needle, i)
      ensures OccursAt(hay[1..], needle, i - 1)
    {
      assert hay[1..][i - 1..i - 1 + |needle|] == hay[i..i + |needle|];
    }
    forall i | OccursAt(hay[1..], needle, i)
      ensures OccursAt(hay, needle, i + 1)
    {
      assert hay[1..][i..i + |needle|] == hay[i + 1..i + 1 + |needle|];
    }
  }

  /** The machine passes the tab: tab `all`, or its status is the tab. */
  predicate PassesTab(m: Machine, tab: string) {
    tab == AllTab || m.status == tab
  }

  /** The lower-cased query occurs in the lower-cased name, description, serial number or maker. */
  predicate MatchesQuery(m: Machine, query: string) {
    var q := Lower(query);
    || Includes(Lower(m.nmachine), q)
    || Includes(Lower(m.description), q)
    || Includes(Lower(m.nserie), q)
    || Includes(Lower(m.constructeur), q)
  }

  /** The filter's test for one machine; an empty query keeps everything. */
  predicate Keep(m: Machine, tab: string, query: string)
    ensures Keep(m, tab, query) && tab != AllTab ==> m.status == tab
    ensures query == "" ==> (Keep(m, tab, query) <==> PassesTab(m, tab))
    ensures query != "" && PassesTab(m, tab) ==> (Keep(m, tab, query) <==> MatchesQuery(m, query))
  {
    PassesTab(m, tab) && (query == "" || MatchesQuery(m, query))
  }

  /** `filteredMachines`: the machines that pass the tab and the search, in list order. */
  function FilteredMachines(machines: seq<Machine>, tab: string, query: string): (r: seq<Machine>)
    ensures |r| <= |machines|
    ensures forall m :: m in r ==> m in machines && Keep(m, tab, query)
    ensures tab != AllTab ==> forall m :: m in r ==> m.status == tab
  {
    if machines == [] then []
    else
      (if Keep(machines[0], tab, query) then [machines[0]] else [])
      + FilteredMachines(machines[1..], tab, query)
  }

  /** `sub` is `s` with some elements left out, the rest in their order. */
  predicate IsSubsequence<T(==)>(sub: seq<T>, s: seq<T>)
    decreases |s|
  {
    if sub == [] then true
    else if s == [] then false
    else if sub[0] == s[0] then IsSubsequence(sub[1..], s[1..])
    else IsSubsequence(sub, s[1..])
  }

  lemma {:induction false} FilteredIsSubsequence(machines: seq<Machine>, tab: string, query: string)
    ensures IsSubsequence(FilteredMachines(machines, tab, query), machines)
  {
    if machines != [] {
      var rest := FilteredMachines(machines[1..], tab, query);
      FilteredIsSubsequence(machines[1..], tab, query);
      if Keep(machines[0], tab, query) {
        assert FilteredMachines(machines, tab, query) == [machines[0]] + rest;
        assert ([machines[0]] + rest)[1..] == rest;
      } else {
        assert FilteredMachines(machines, tab, query) == rest;
        SubsequenceSkip(rest, machines);
      }
    }
  }

  /** A subsequence of the tail is a subsequence of the whole. */
  lemma {:induction false} SubsequenceSkip<T>(sub: seq<T>, s: seq<T>)
    requires s != [] && IsSubsequence(sub, s[1..])
    ensures IsSubsequence(sub, s)
    decreases |s|, |sub|
  {
    if sub != [] && sub[0] == s[0] {
      SubsequenceTail(sub, s[1..]);
    }
  }

  /** Dropping the first element of a non-empty subsequence keeps it a subsequence. */
  lemma {:induction false} SubsequenceTail<T>(sub: seq<T>, s: seq<T>)
    requires sub != [] && IsSubsequence(sub, s)
    ensures IsSubsequence(sub[1..], s)
    decreases |s|, |sub|
  {
    assert s != [];
    if sub[0] == s[0] {
      if sub[1..] != [] {
        SubsequenceSkip(sub[1..], s);
      }
    } else {
      SubsequenceTail(sub, s[1..]);
      if sub[1..] != [] {
        SubsequenceSkip(sub[1..], s);
      }
    }
  }

  /** The result holds each kept machine as often as the list does, and no other machine. */
  lemma {:induction false} FilteredCounts(machines: seq<Machine>, tab: string, query: string, m: Machine)
    ensures multiset(FilteredMachines(machines, tab, query))[m]
         == if Keep(m, tab, query) then multiset(machines)[m] else 0
  {
    if machines != [] {
      FilteredCounts(machines[1..], tab, query, m);
      assert machines == [machines[0]] + machines[1..];
    }
  }

  /** A listed machine is shown exactly when it passes the tab and the search. */
  lemma FilteredMembership(machines: seq<Machine>, tab: string, query: string, m: Machine)
    requires m in machines
    ensures m in FilteredMachines(machines, tab, query) <==> Keep(m, tab, query)
  {
  }

  /** Tab `all` and an empty search show the whole list. */
  lemma {:induction false} FilteredShowsAll(machines: seq<Machine>)
    ensures FilteredMachines(machines, AllTab, "") == machines
  {
    if machines != [] {
      FilteredShowsAll(machines[1..]);
      assert machines == [machines[0]] + machines[1..];
    }
  }

  // ---------------------------------------------------------------- badges and colours

  /** `getHealthColor`. */
  function HealthColor(health: int): (c: string)
    ensures c == "bg-green-500" <==> health >= 90
    ensures c == "bg-blue-500" <==> 70 <= health < 90
    ensures c == "bg-yellow-500" <==> 50 <= health < 70
    ensures c == "bg-red-500" <==> health < 50
  {
    if health >= 90 then "bg-green-500"
    else if health >= 70 then "bg-blue-500"
    else if health >= 50 then "bg-yellow-500"
    else "bg-red-500"
  }

  /** How good a health colour is: red 0, yellow 1, blue 2, green 3. */
  function ColorRank(c: string): (rank: nat)
    ensures rank <= 3
  {
    if c == "bg-green-500" then 3
    else if c == "bg-blue-500" then 2
    else if c == "bg-yellow-500" then 1
    else 0
  }

  /** More health never gives a worse colour. */
  lemma HealthColorMonotone(h1: int, h2: int)
    requires h1 <= h2
    ensures ColorRank(HealthColor(h1)) <= ColorRank(HealthColor(h2))
  {
  }

  /** `getStatusLabel`: fixed labels for the four statuses; any other status is shown as it is. */
  function StatusLabel(status: string): (text: string)
    ensures status == Operational ==> text == "Operational"
    ensures status == Maintenance ==> text == "In Maintenance"
    ensures status == Warning ==> text == "Warning"
    ensures status == Offline ==> text == "Offline"
    ensures !KnownStatus(status) ==> text == status
  {
    match status
    case "operational" => "Operational"
    case "maintenance" => "In Maintenance"
    case "warning" => "Warning"
    case "offline" => "Offline"
    case _ => status
  }

  /** The four known statuses get four different labels. */
  lemma StatusLabelsDistinct(s1: string, s2: string)
    requires KnownStatus(s1) && KnownStatus(s2) && s1 != s2
    ensures StatusLabel(s1) != StatusLabel(s2)
  {
  }

  /** `getStatusBadgeVariant`: `outline` for operational and for anything unknown. */
  function StatusBadgeVariant(status: string): (variant: string)
    ensures variant == "outline" <==> status == Operational || !KnownStatus(status)
    ensures status == Maintenance ==> variant == "secondary"
    ensures status == Warning ==> variant == "warning"
    ensures status == Offline ==> variant == "destructive"
  {
    match status
    case "operational" => "outline"
    case "maintenance" => "secondary"
    case "warning" => "warning"
    case "offline" => "destructive"
    case _ => "outline"
  }

  // ---------------------------------------------------------------- counts

  /** `machines.filter(m => m.status === status).length`. */
  function CountStatus(machines: seq<Machine>, status: string): (n: nat)
    ensures n <= |machines|
  {
    if machines == [] then 0
    else (if machines[0].status == status then 1 else 0) + CountStatus(machines[1..], status)
  }

  /** Machines requiring attention: in maintenance, warning or offline. */
  function CountAttention(machines: seq<Machine>): (n: nat)
    ensures n <= |machines|
  {
    if machines == [] then 0
    else
      var s := machines[0].status;
      (if s == Maintenance || s == Warning || s == Offline then 1 else 0) + CountAttention(machines[1..])
  }

  /** The attention count is the sum of the three per-status counts. */
  lemma {:induction false} AttentionIsSum(machines: seq<Machine>)
    ensures CountAttention(machines)
         == CountStatus(machines, Maintenance) + CountStatus(machines, Warning) + CountStatus(machines, Offline)
  {
    if machines != [] {
      AttentionIsSum(machines[1..]);
    }
  }

  /** With only the four statuses present, operational and attention make up the total. */
  lemma {:induction false} CountsCoverTotal(machines: seq<Machine>)
    requires forall m :: m in machines ==> KnownStatus(m.status)
    ensures CountStatus(machines, Operational) + CountAttention(machines) == |machines|
  {
    if machines != [] {
      assert machines[0] in machines;
      assert forall m :: m in machines[1..] ==> m in machines;
      CountsCoverTotal(machines[1..]);
    }
  }

  /** A status tab with an empty search shows as many machines as that status counts. */
  lemma {:induction false} TabShowsStatusCount(machines: seq<Machine>, tab: string)
    requires tab != AllTab
    ensures |FilteredMachines(machines, tab, "")| == CountStatus(machines, tab)
  {
    if machines != [] {
      TabShowsStatusCount(machines[1..], tab);
    }
  }

  // ---------------------------------------------------------------- page state

  /** `if (machineToDelete)`: set, and not the falsy id 0. */
  predicate Truthy(id: Option<int>) {
    id.Some? && id.value != 0
  }

  /** The page's state; the machine list itself never changes. */
  class MachinesPageState {
    const machines: seq<Machine>
    var searchQuery: string
    var selectedTab: string
    var deleteDialogOpen: bool
    var machineToDelete: Option<int>

    constructor (machines: seq<Machine>)
      ensures this.machines == machines
      ensures searchQuery == "" && selectedTab == AllTab
      ensures !deleteDialogOpen && machineToDelete == None
    {
      this.machines := machines;
      searchQuery := "";
      selectedTab := AllTab;
      deleteDialogOpen := false;
      machineToDelete := None;
    }

    /** The machines currently shown. */
    function Shown(): (r: seq<Machine>)
      reads this
      ensures IsSubsequence(r, machines)
    {
      FilteredIsSubsequence(machines, selectedTab, searchQuery);
      FilteredMachines(machines, selectedTab, searchQuery)
    }

    method SetSearchQuery(query: string)
      modifies this
      ensures searchQuery == query
      ensures selectedTab == old(selectedTab)
      ensures deleteDialogOpen == old(deleteDialogOpen) && machineToDelete == old(machineToDelete)
    {
      searchQuery := query;
    }

    method SetSelectedTab(tab: string)
      modifies this
      ensures selectedTab == tab
      ensures searchQuery == old(searchQuery)
      ensures deleteDialogOpen == old(deleteDialogOpen) && machineToDelete == old(machineToDelete)
    {
      selectedTab := tab;
    }

    /** `handleDeleteMachine`: remember the machine and open the dialog. */
    method HandleDeleteMachine(id: int)
      modifies this
      ensures machineToDelete == Some(id) && deleteDialogOpen
      ensures searchQuery == old(searchQuery) && selectedTab == old(selectedTab)
    {
      machineToDelete := Some(id);
      deleteDialogOpen := true;
    }

    /** The dialog's `onOpenChange` (Cancel): sets the flag, keeps the remembered machine. */
    method SetDeleteDialogOpen(open: bool)
      modifies this
      ensures deleteDialogOpen == open
      ensures machineToDelete == old(machineToDelete)
      ensures searchQuery == old(searchQuery) && selectedTab == old(selectedTab)
    {
      deleteDialogOpen := open;
    }

    /** `confirmDelete`: only with a truthy remembered id, close the dialog and forget it. */
    method ConfirmDelete()
      modifies this
      ensures Truthy(old(machineToDelete)) ==> !deleteDialogOpen && machineToDelete == None
      ensures !Truthy(old(machineToDelete)) ==>
        deleteDialogOpen == old(deleteDialogOpen) && machineToDelete == old(machineToDelete)
      ensures searchQuery == old(searchQuery) && selectedTab == old(selectedTab)
    {
      if Truthy(machineToDelete) {
        deleteDialogOpen := false;
        machineToDelete := None;
      }
    }
  }

  /** Asking to delete a machine and confirming closes the dialog and leaves the list as it was. */
  method DeleteAndConfirm(page: MachinesPageState, id: int)
    requires id != 0
    modifies page
    ensures !page.deleteDialogOpen && page.machineToDelete == None
    ensures page.Shown() == old(page.Shown())
  {
    page.HandleDeleteMachine(id);
    page.ConfirmDelete();
  }
}
