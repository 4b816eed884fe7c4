/**
  * The dashboard page (Frontend/src/pages/DashboardPage.tsx): a search over the players with a
  * position and a college filter, and a two-slot selection of players to compare.
  */
module Dashboard {
  import opened Wrappers
  import opened Text
  import opened Seqs

  /** The fields of the dashboard's player shape that the page logic reads. */
  datatype DashPlayer = DashPlayer(id: string, name: string, college: string, position: string)

  // ---------------------------------------------------------------------------
  // filteredPlayers
  // ---------------------------------------------------------------------------

  /** The lower-cased term occurs in the lower-cased name or college; the empty term matches everyone. */
  predicate MatchesSearch(p: DashPlayer, term: string) {
    Contains(Lower(p.name), Lower(term)) || Contains(Lower(p.college), Lower(term))
  }

  /** A position filter other than "all" is a case-sensitive substring test, so "PG" matches "PG/SG". */
  predicate MatchesPosition(p: DashPlayer, position: string) {
    position == "all" || Contains(p.position, position)
  }

  predicate MatchesCollege(p: DashPlayer, college: string) {
    college == "all" || p.college == college
  }

  predicate Passes(p: DashPlayer, term: string, position: string, college: string) {
    MatchesSearch(p, term) && MatchesPosition(p, position) && MatchesCollege(p, college)
  }

  function PassesFilter(term: string, position: string, college: string): DashPlayer -> bool {
    (p: DashPlayer) => Passes(p, term, position, college)
  }

  /** `players.filter(...)`: the players that pass all three tests, in collection order. */
  function FilteredPlayers(players: seq<DashPlayer>, term: string, position: string, college: string): (r: seq<DashPlayer>)
    ensures |r| <= |players|
    ensures forall p :: p in r <==> p in players && Passes(p, term, position, college)
  {
    SelectMembers(players, PassesFilter(term, position, college));
    Select(players, PassesFilter(term, position, college))
  }

  /**
    * The filter keeps collection order: a player is listed on its own exactly when it passes,
    * and the result for a concatenation is the two results concatenated.
    */
  lemma FilteredPlayersInOrder(a: seq<DashPlayer>, b: seq<DashPlayer>, p: DashPlayer,
                               term: string, position: string, college: string)
    ensures FilteredPlayers([p], term, position, college) ==
            (if Passes(p, term, position, college) then [p] else [])
    ensures FilteredPlayers(a + b, term, position, college) ==
            FilteredPlayers(a, term, position, college) + FilteredPlayers(b, term, position, college)
  {
    assert [p][1..] == [];
    SelectAppend(a, b, PassesFilter(term, position, college));
  }

  /** With an empty term and both filters at "all" every player is listed. */
  lemma EmptyTermKeepsAll(players: seq<DashPlayer>)
    ensures FilteredPlayers(players, "", "all", "all") == players
  {
    forall p ensures Passes(p, "", "all", "all") {
      ContainsEmpty(Lower(p.name));
    }
    SelectAll(players, PassesFilter("", "all", "all"));
  }

  /** The position filter is a substring test: a combined position passes the filter for either part. */
  lemma PositionFilterIsSubstring(p: DashPlayer)
    requires |p.position| >= 2 && p.position[..2] == "PG"
    ensures MatchesPosition(p, "PG")
  {
    assert IsPrefix("PG", p.position);
  }

  // ---------------------------------------------------------------------------
  // The two comparison slots
  // ---------------------------------------------------------------------------

  /** `[Player | null, Player | null]`. */
  datatype Slots = Slots(first: Option<DashPlayer>, second: Option<DashPlayer>)

  const NoSelection := Slots(None, None)

  predicate HoldsId(slot: Option<DashPlayer>, id: string) {
    slot.Some? && slot.value.id == id
  }

  /** `isPlayerSelected`. */
  predicate IsSelected(s: Slots, id: string) {
    HoldsId(s.first, id) || HoldsId(s.second, id)
  }

  /** Two occupied slots never hold the same id. */
  predicate DistinctSlots(s: Slots) {
    s.first.Some? && s.second.Some? ==> s.first.value.id != s.second.value.id
  }

  /**
    * The transition of `handleComparePlayer`: comparing a selected player deselects it, the
    * other slot moving to the front; comparing a new one fills the first empty slot, or
    * replaces the first slot when both are taken.
    */
  function Compare(prev: Slots, player: DashPlayer): Slots
  {
    if HoldsId(prev.first, player.id) then Slots(prev.second, None)
    else if HoldsId(prev.second, player.id) then Slots(prev.first, None)
    else if prev.first.None? then Slots(Some(player), prev.second)
    else if prev.second.None? then Slots(prev.first, Some(player))
    else Slots(Some(player), prev.second)
  }

  /**
    * With distinct slots beforehand, comparing a player flips whether it is selected, and
    * the slots stay distinct afterwards.
    */
  lemma CompareFlips(prev: Slots, player: DashPlayer)
    requires DistinctSlots(prev)
    ensures IsSelected(Compare(prev, player), player.id) <==> !IsSelected(prev, player.id)
    ensures DistinctSlots(Compare(prev, player))
  {
  }

  /** After a compare, every selected id is the compared player's or was selected before. */
  lemma CompareSelectsNothingNew(prev: Slots, player: DashPlayer, id: string)
    ensures IsSelected(Compare(prev, player), id) ==> id == player.id || IsSelected(prev, id)
  {
  }

  /**
    * Comparing a selected player deselects it alone: the remaining player, if any, takes the
    * first slot, the second slot is emptied, and every other id keeps its status.
    */
  lemma CompareDeselects(prev: Slots, player: DashPlayer)
    requires DistinctSlots(prev) && IsSelected(prev, player.id)
    ensures var r := Compare(prev, player);
      && r.second.None?
      && (r.first.Some? <==> prev.first.Some? && prev.second.Some?)
      && forall id :: id != player.id ==> (IsSelected(r, id) <==> IsSelected(prev, id))
  {
  }

  /**
    * Comparing a new player selects it into a free slot, keeping both previous players;
    * when both slots were taken it replaces the first-slot player and keeps the second.
    */
  lemma CompareSelects(prev: Slots, player: DashPlayer)
    requires !IsSelected(prev, player.id)
    ensures var r := Compare(prev, player);
      && (prev.first.None? || prev.second.None? ==>
            forall id :: IsSelected(r, id) <==> id == player.id || IsSelected(prev, id))
      && (prev.first.Some? && prev.second.Some? ==>
            r.first == Some(player) && r.second == prev.second)
      && (prev.first.None? ==> r.first == Some(player))
      && (prev.first.Some? && prev.second.None? ==> r.first == prev.first && r.second == Some(player))
  {
  }

  /** `handleRemovePlayer(index)`: slot `index` is cleared and the other is left alone. */
  function Remove(prev: Slots, index: int): (r: Slots)
    requires index == 0 || index == 1
    ensures index == 0 ==> r.first.None? && r.second == prev.second
    ensures index == 1 ==> r.second.None? && r.first == prev.first
  {
    if index == 0 then Slots(None, prev.second) else Slots(prev.first, None)
  }

  lemma RemoveKeepsDistinct(prev: Slots, index: int)
    requires index == 0 || index == 1
    requires DistinctSlots(prev)
    ensures DistinctSlots(Remove(prev, index))
    ensures forall id :: IsSelected(Remove(prev, index), id) ==> IsSelected(prev, id)
  {
  }

  function OrNothing(slot: Option<DashPlayer>): Option<DashPlayer> { slot }

  /** `[selectedPlayers[0], selectedPlayers[1]].filter(Boolean).length`. */
  function SelectedCount(s: Slots): (r: nat)
    ensures r <= 2
    ensures r == (if s.first.Some? then 1 else 0) + (if s.second.Some? then 1 else 0)
  {
    FilterMapSingle(s.first, OrNothing);
    FilterMapSingle(s.second, OrNothing);
    FilterMapAppend([s.first], [s.second], OrNothing);
    assert [s.first, s.second] == [s.first] + [s.second];
    |FilterMap([s.first, s.second], OrNothing)|
  }

  /** The count is shown only when a slot is taken, and then it is 1 or 2. */
  lemma SelectedCountShown(s: Slots)
    ensures SelectedCount(s) == 0 <==> s == NoSelection
    ensures s.first.Some? || s.second.Some? ==> 1 <= SelectedCount(s) <= 2
  {
  }

  /** Comparing a new player into a selection that is not full adds one to the count. */
  lemma CompareCount(prev: Slots, player: DashPlayer)
    ensures !IsSelected(prev, player.id) && SelectedCount(prev) < 2 ==> SelectedCount(Compare(prev, player)) == SelectedCount(prev) + 1
    ensures !IsSelected(prev, player.id) && SelectedCount(prev) == 2 ==> SelectedCount(Compare(prev, player)) == 2
    ensures IsSelected(prev, player.id) ==> SelectedCount(Compare(prev, player)) == SelectedCount(prev) - 1
  {
  }

  // ---------------------------------------------------------------------------
  // The page state
  // ---------------------------------------------------------------------------

  /** The dashboard's state fields over the player collection it searches. */
  class DashboardPage {
    const players: seq<DashPlayer>
    var searchTerm: string
    var positionFilter: string
    var collegeFilter: string
    var selected: Slots
    var activeTab: string

    function Listed(): seq<DashPlayer>
      reads this
    {
      FilteredPlayers(players, searchTerm, positionFilter, collegeFilter)
    }

    /** Slots driven only by this page's handlers never hold one id twice. */
    predicate Valid()
      reads this
    {
      DistinctSlots(selected)
    }

    constructor(players: seq<DashPlayer>)
      ensures Valid()
      ensures this.players == players && searchTerm == "" && positionFilter == "all" && collegeFilter == "all"
      ensures selected == NoSelection && activeTab == "search"
    {
      this.players := players;
      searchTerm := "";
      positionFilter := "all";
      collegeFilter := "all";
      selected := NoSelection;
      activeTab := "search";
    }

    method SetSearchTerm(term: string)
      modifies this
      ensures searchTerm == term && positionFilter == old(positionFilter) && collegeFilter == old(collegeFilter)
      ensures selected == old(selected) && activeTab == old(activeTab)
    {
      searchTerm := term;
    }

    method SetPositionFilter(position: string)
      modifies this
      ensures positionFilter == position && searchTerm == old(searchTerm) && collegeFilter == old(collegeFilter)
      ensures selected == old(selected) && activeTab == old(activeTab)
    {
      positionFilter := position;
    }

    method SetCollegeFilter(college: string)
      modifies this
      ensures collegeFilter == college && searchTerm == old(searchTerm) && positionFilter == old(positionFilter)
      ensures selected == old(selected) && activeTab == old(activeTab)
    {
      collegeFilter := college;
    }

    /** `handleComparePlayer`: the slot transition, then the comparison tab is shown. */
    method ComparePlayer(player: DashPlayer)
      requires Valid()
      modifies this
      ensures Valid()
      ensures selected == Compare(old(selected), player) && activeTab == "comparison"
      ensures IsSelected(selected, player.id) <==> !IsSelected(old(selected), player.id)
      ensures searchTerm == old(searchTerm) && positionFilter == old(positionFilter) && collegeFilter == old(collegeFilter)
    {
      CompareFlips(selected, player);
      selected := Compare(selected, player);
      activeTab := "comparison";
    }

    /** `handleRemovePlayer`: a copy of the pair with one slot set to null. */
    method RemovePlayer(index: int)
      requires index == 0 || index == 1
      requires Valid()
      modifies this
      ensures Valid()
      ensures selected == Remove(old(selected), index)
      ensures searchTerm == old(searchTerm) && positionFilter == old(positionFilter) && collegeFilter == old(collegeFilter)
      ensures activeTab == old(activeTab)
    {
      RemoveKeepsDistinct(selected, index);
      var first := selected.first;
      var second := selected.second;
      if index == 0 {
        first := None;
      } else {
        second := None;
      }
      selected := Slots(first, second);
    }

    /** The tab bar's selection: a tab the user clicks becomes active. */
    method SetActiveTab(tab: string)
      modifies this
      ensures activeTab == tab && selected == old(selected)
      ensures searchTerm == old(searchTerm) && positionFilter == old(positionFilter) && collegeFilter == old(collegeFilter)
    {
      activeTab := tab;
    }
  }
}
