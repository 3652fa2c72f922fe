/** The administrators' service list and its name search. */
module ServicesList {
  import opened Text
  import opened Seqs
  import opened Records

  /** `service.name.toLowerCase().includes(term.toLowerCase())`. */
  predicate NameMatches(term: string, s: Service) {
    MatchesTerm(s.name, term)
  }

  /** The services shown: those whose name contains the term, ignoring case, in the order
      fetched. */
  function Filtered(services: seq<Service>, term: string): (r: seq<Service>)
    ensures IsSubsequence(r, services)
    ensures forall i :: 0 <= i < |r| ==> NameMatches(term, r[i])
    ensures forall i :: 0 <= i < |services| && NameMatches(term, services[i]) ==> services[i] in r
  {
    FilterIsSubsequence(services, s => NameMatches(term, s));
    Filter(services, s => NameMatches(term, s))
  }

  /** The empty search lists every service, in order. */
  lemma EmptySearchKeepsAll(services: seq<Service>)
    ensures Filtered(services, "") == services
  {
    forall s | s in services ensures NameMatches("", s) {
      EmptyTermMatches(s.name);
    }
    FilterKeepsAll(services, s => NameMatches("", s));
  }

  /** Searching the result again with the same term changes nothing. */
  lemma SearchIdempotent(services: seq<Service>, term: string)
    ensures Filtered(Filtered(services, term), term) == Filtered(services, term)
  {
    FilterIdempotent(services, s => NameMatches(term, s));
  }

  /** The search does not depend on the case the term is typed in. */
  lemma SearchIgnoresCase(services: seq<Service>, term: string)
    ensures Filtered(services, Upper(term)) == Filtered(services, term)
  {
    forall s | s in services ensures NameMatches(Upper(term), s) == NameMatches(term, s) {
      MatchesTermIgnoresCase(s.name, term);
    }
    FilterExtensional(services, s => NameMatches(Upper(term), s), s => NameMatches(term, s));
  }
}
