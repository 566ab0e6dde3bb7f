/** The location picker: one search box filters both the nearby and the recent list by a
    case-insensitive substring test on a location's name or address. */
module Location {
  import Seqs
  import Text

  datatype Place = Place(id: string, name: string, address: string, distance: string)

  function NearbyLocations(): seq<Place> {
    [ Place("1", "Satyanarayan Township", "TP 13,Akhardham Society,Chhani Jakatnaka,Vadodara", "210 m"),
      Place("2", "Ramvatika Society", "Chhani Jakat Naka, Vadodara, Gujarat", "297 m"),
      Place("3", "Veda 2", "Chhani Jakatnaka, Vadodara, Gujarat", "327 m"),
      Place("4", "Samsara Luxury Apartments", "Canal Rd, Chhani Jakatnaka, Vadodara", "352 m"),
      Place("5", "Fortune Gateway", "Guru Gobindsinhji Marg,TP 13,Chhani Jakatnaka,Vadodara", "354 m"),
      Place("6", "Prayag Complex", "Vardan Society And Duplex, Chhani Jakat Naka, Vadodara, Gujarat", "319 m"),
      Place("7", "Radhika Residency", "Near Uma Amar Party Plot, Chhani Road, Vadodara, Gujarat", "542 m"),
      Place("8", "Krishna Prime", "Chhani Jakatnaka, Vadodara, Gujarat", "570 m"),
      Place("9", "Giriraj Avenue", "Abhishek Society,TP 13,Chhani Jakatnaka,Vadodara", "545 m"),
      Place("10", "Veda Alembic", "Chhani,TP 13,Vadodara", "595 m") ]
  }

  function RecentLocations(): seq<Place> {
    [ Place("r1", "TP 13", "Chhani Jakatnaka, Vadodara", "6 m") ]
  }

  /** The filter callback: the lower-cased name or address includes the lower-cased query. */
  predicate Matches(p: Place, query: string) {
    Text.Contains(Text.Lower(p.name), Text.Lower(query))
    || Text.Contains(Text.Lower(p.address), Text.Lower(query))
  }

  /** A location is kept exactly when the lower-cased query occurs in its lower-cased name or
      lower-cased address. */
  lemma MatchesIffOccurs(p: Place, query: string)
    ensures Matches(p, query) <==>
      Text.Occurs(Text.Lower(p.name), Text.Lower(query)) || Text.Occurs(Text.Lower(p.address), Text.Lower(query))
  {
    Text.ContainsIffOccurs(Text.Lower(p.name), Text.Lower(query));
    Text.ContainsIffOccurs(Text.Lower(p.address), Text.Lower(query));
  }

  /** `filteredNearbyLocations` and `filteredRecentLocations` for the given list. */
  function FilterPlaces(places: seq<Place>, query: string): seq<Place> {
    Seqs.Filter(places, (p: Place) => Matches(p, query))
  }

  /** The result holds exactly the matching locations, in their original order. */
  lemma FilterPlacesExact(places: seq<Place>, query: string)
    ensures var r := FilterPlaces(places, query);
      && (forall i :: 0 <= i < |r| ==> r[i] in places && Matches(r[i], query))
      && (forall i :: 0 <= i < |places| && Matches(places[i], query) ==> places[i] in r)
      && Seqs.IsSubsequence(r, places)
  {
    Seqs.FilterIsSubsequence(places, (p: Place) => Matches(p, query));
  }

  /** An empty query keeps the whole list. */
  lemma EmptyQueryKeepsAll(places: seq<Place>)
    ensures FilterPlaces(places, "") == places
  {
    forall i | 0 <= i < |places| ensures Matches(places[i], "") {
      Text.ContainsEmpty(Text.Lower(places[i].name));
    }
    Seqs.FilterAllKept(places, (p: Place) => Matches(p, ""));
  }

  /** Queries that lower-case alike give the same result; in particular typing the query in
      upper case changes nothing. */
  lemma QueryCaseBlind(places: seq<Place>, q1: string, q2: string)
    requires Text.Lower(q1) == Text.Lower(q2)
    ensures FilterPlaces(places, q1) == FilterPlaces(places, q2)
  {
    Seqs.FilterCongruent(places, (p: Place) => Matches(p, q1), (p: Place) => Matches(p, q2));
  }

  lemma UpperCaseQuery(places: seq<Place>, query: string)
    ensures FilterPlaces(places, Text.Upper(query)) == FilterPlaces(places, query)
  {
    Text.LowerOfUpper(query);
    QueryCaseBlind(places, Text.Upper(query), query);
  }

  /** Both lists are filtered by the same test: filtering them one after the other is filtering
      the nearby list followed by the recent one. */
  lemma SamePredicateOnBothLists(nearby: seq<Place>, recent: seq<Place>, query: string)
    ensures FilterPlaces(nearby + recent, query) == FilterPlaces(nearby, query) + FilterPlaces(recent, query)
  {
    Seqs.FilterConcat(nearby, recent, (p: Place) => Matches(p, query));
  }

  /** "No locations found": a query is typed and both filtered lists are empty. */
  predicate NoResults(query: string, nearby: seq<Place>, recent: seq<Place>) {
    query != "" && |FilterPlaces(nearby, query)| == 0 && |FilterPlaces(recent, query)| == 0
  }

  /** The banner shows exactly when a query is typed that no location of either list matches. */
  lemma NoResultsIff(query: string, nearby: seq<Place>, recent: seq<Place>)
    ensures NoResults(query, nearby, recent) <==>
      query != "" && forall i :: 0 <= i < |nearby + recent| ==> !Matches((nearby + recent)[i], query)
  {
    SamePredicateOnBothLists(nearby, recent, query);
    var all := nearby + recent;
    FilterPlacesExact(all, query);
    if forall i :: 0 <= i < |all| ==> !Matches(all[i], query) {
      Seqs.FilterNoneKept(all, (p: Place) => Matches(p, query));
    }
  }

  /** The clear cross next to the search box. */
  predicate ShowsClearButton(query: string) {
    |query| > 0
  }

  /** Pressing the cross empties the query: the cross disappears, the banner cannot show and
      both lists are back in full. */
  lemma ClearRestoresLists(nearby: seq<Place>, recent: seq<Place>)
    ensures !ShowsClearButton("") && !NoResults("", nearby, recent)
    ensures FilterPlaces(nearby, "") == nearby && FilterPlaces(recent, "") == recent
  {
    EmptyQueryKeepsAll(nearby);
    EmptyQueryKeepsAll(recent);
  }
}
