/** The query builder at the start of the research node: two search strings
    from fixed templates, and a third when the traveller gave any interest. */
module QueryBuilder {
  import opened Text
  import opened Trip

  /** `f"best {travel_style} {accommodation_type} in {country} 2025"` */
  function BestStayQuery(r: TripRequest): (q: string) {
    "best " + r.travelStyle.Name() + " " + r.accommodationType.Name() + " in " + r.country + " 2025"
  }

  /** `f"top things to do in {country} for {', '.join(interests[:2])}"` */
  function ThingsToDoQuery(r: TripRequest): (q: string) {
    "top things to do in " + r.country + " for " + Join(", ", Take(r.interests, 2))
  }

  /** `f"{country} {interests[0]} recommendations {departure_date[:4]}"` */
  function InterestQuery(r: TripRequest): (q: string)
    requires |r.interests| > 0
  {
    r.country + " " + r.interests[0] + " recommendations " + Take(r.departureDate, 4)
  }

  /** The interest clause of the second query: at most the first two interests. */
  lemma ThingsToDoClause(r: TripRequest)
    ensures ThingsToDoQuery(r) == "top things to do in " + r.country + " for " +
      (if |r.interests| == 0 then ""
       else if |r.interests| == 1 then r.interests[0]
       else r.interests[0] + ", " + r.interests[1])
  {
    if |r.interests| >= 2 {
      var two := Take(r.interests, 2);
      assert two == [r.interests[0], r.interests[1]] && two[1..] == [r.interests[1]];
      assert Join(", ", two) == r.interests[0] + ", " + r.interests[1];
    }
  }

  /** The queries in the order the research node issues them. */
  function Queries(r: TripRequest): (qs: seq<string>)
    ensures |qs| == (if |r.interests| > 0 then 3 else 2)
    ensures qs[0] == BestStayQuery(r) && qs[1] == ThingsToDoQuery(r)
    ensures |r.interests| > 0 ==> qs[2] == InterestQuery(r)
  {
    [BestStayQuery(r), ThingsToDoQuery(r)] + (if |r.interests| > 0 then [InterestQuery(r)] else [])
  }

  /** The list literal followed by the conditional `queries.append`. */
  method BuildQueries(r: TripRequest) returns (queries: seq<string>)
    ensures queries == Queries(r)
    ensures |queries| == 3 <==> |r.interests| > 0
    ensures |queries| == 2 <==> |r.interests| == 0
    ensures queries[0] == "best " + r.travelStyle.Name() + " " + r.accommodationType.Name() + " in " + r.country + " 2025"
    ensures queries[1] == "top things to do in " + r.country + " for " +
      (if |r.interests| == 0 then ""
       else if |r.interests| == 1 then r.interests[0]
       else r.interests[0] + ", " + r.interests[1])
    ensures |r.interests| > 0 ==>
      queries[2] == r.country + " " + r.interests[0] + " recommendations " +
        (if |r.departureDate| < 4 then r.departureDate else r.departureDate[..4])
  {
    queries := [BestStayQuery(r), ThingsToDoQuery(r)];
    if |r.interests| > 0 {
      queries := queries + [InterestQuery(r)];
    }
    ThingsToDoClause(r);
  }
}
