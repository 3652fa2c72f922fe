/** The administrators' instructor list: search and specialisation filters. */
module InstructorsList {
  import opened Wrappers
  import opened Text
  import opened Seqs
  import opened Records

  datatype Criteria = Criteria(search: string, service: string)

  /** The search matches the instructor's name or the name of their specialisation. */
  predicate MatchesSearch(i: Instructor, term: string) {
    FieldMatches(if i.user.Some? then Some(i.user.value.name) else None, term)
    || FieldMatches(ServiceName(i.service), term)
  }

  predicate Keep(c: Criteria, i: Instructor) {
    MatchesSearch(i, c.search) && IdSelected(c.service, ServiceIdText(i.service))
  }

  /** The instructors shown: those that pass both filters, in the order fetched. */
  function Filtered(instructors: seq<Instructor>, c: Criteria): (r: seq<Instructor>)
    ensures IsSubsequence(r, instructors)
    ensures forall k :: 0 <= k < |r| ==> Keep(c, r[k])
    ensures forall k :: 0 <= k < |instructors| && Keep(c, instructors[k]) ==> instructors[k] in r
  {
    FilterIsSubsequence(instructors, i => Keep(c, i));
    Filter(instructors, i => Keep(c, i))
  }

  /** Selecting a specialisation keeps only its instructors: one without a specialisation is
      listed under 'all' at most. */
  lemma UnassignedOnlyUnderAll(instructors: seq<Instructor>, c: Criteria, k: int)
    requires 0 <= k < |Filtered(instructors, c)| && Filtered(instructors, c)[k].service.None?
    ensures c.service == "all"
  {
  }

  /** The specialisation column: its name, or 'Unassigned' when there is none (an empty name
      counts as none). */
  function SpecialisationLabel(i: Instructor): (shown: string)
    ensures i.service.Some? && i.service.value.name != "" ==> shown == i.service.value.name
    ensures i.service.None? || i.service.value.name == "" ==> shown == "Unassigned"
    ensures shown != ""
  {
    if i.service.Some? && i.service.value.name != "" then i.service.value.name else "Unassigned"
  }
}
