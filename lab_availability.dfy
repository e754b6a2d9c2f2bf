/**
 * The lab availability page: the catalogue filtered by a search over name and building
 * and by a status drop-down, and the one button each lab card shows.
 */
module LabAvailability {
  import opened Wrappers
  import opened Seqs
  import opened MockData
  import opened Filters
  import App

  /** The filter of `filteredLabs`: the search hits the name or the building, and the drop-down admits the status. */
  predicate MatchesLab(l: Lab, term: string, statusFilter: Choice<LabStatus>)
  {
    (MatchesSearch(l.name, term) || MatchesSearch(l.building, term)) && Admits(statusFilter, l.status)
  }

  /** `filteredLabs`. */
  function FilteredLabs(labs: seq<Lab>, term: string, statusFilter: Choice<LabStatus>): (r: seq<Lab>)
    ensures forall l :: l in r ==> l in labs && MatchesLab(l, term, statusFilter)
    ensures forall l :: l in labs && MatchesLab(l, term, statusFilter) ==> l in r
    ensures statusFilter.Only? ==> forall l :: l in r ==> l.status == statusFilter.value
  {
    Filter((l: Lab) => MatchesLab(l, term, statusFilter), labs)
  }

  /** The filtered list keeps catalogue order and every matching lab, as often as listed. */
  lemma FilteredLabsExact(labs: seq<Lab>, term: string, statusFilter: Choice<LabStatus>)
    ensures IsSubsequence(FilteredLabs(labs, term, statusFilter), labs)
    ensures forall l: Lab :: MatchesLab(l, term, statusFilter) ==>
      multiset(FilteredLabs(labs, term, statusFilter))[l] == multiset(labs)[l]
  {
    FilterIsExactSubsequence((l: Lab) => MatchesLab(l, term, statusFilter), labs);
  }

  /** With no search and `'all'`, the whole catalogue is shown in order. */
  lemma UnfilteredListsAll(labs: seq<Lab>)
    ensures FilteredLabs(labs, "", All) == labs
  {
    forall l | l in labs
      ensures MatchesLab(l, "", All)
    {
      EmptySearchMatches(l.name);
    }
    FilterAll((l: Lab) => MatchesLab(l, "", All), labs);
  }

  /** The three buttons a lab card can show. */
  datatype LabButton = BookThisLab | CurrentlyOccupied | UnderMaintenance

  /** The button of a lab card, one per status. */
  function ButtonFor(status: LabStatus): (b: LabButton)
    ensures b == BookThisLab <==> status == LabAvailable
    ensures b == CurrentlyOccupied <==> status == LabOccupied
    ensures b == UnderMaintenance <==> status == LabMaintenance
  {
    match status
    case LabAvailable => BookThisLab
    case LabOccupied => CurrentlyOccupied
    case LabMaintenance => UnderMaintenance
  }

  /** Only "Book This Lab" is enabled; it leads to the user's booking request page. */
  function ButtonTarget(user: App.User, b: LabButton): (r: Option<string>)
    ensures r.Some? <==> b == BookThisLab
  {
    if b == BookThisLab then Some(App.RolePath(user.role, "booking-request")) else None
  }

  /** A lab card offers a way to book exactly when the lab is available. */
  lemma OnlyAvailableLabsBookable(user: App.User, l: Lab)
    ensures ButtonTarget(user, ButtonFor(l.status)).Some? <==> l.status == LabAvailable
  {
  }
}
