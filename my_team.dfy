/** A coordinator's own team: a search over the team's members by name, position or email,
    the badge colours, and the empty state of the members tab. */
module MyTeam {
  import opened Common

  datatype TeamMember = TeamMember(name: string, email: string, position: string, points: int,
                                   status: string, performance: string)

  function MemberMatches(query: string): TeamMember -> bool
  {
    (m: TeamMember) => ContainsIgnoreCase(m.name, query) || ContainsIgnoreCase(m.position, query)
                       || ContainsIgnoreCase(m.email, query)
  }

  /** The search effect: a non-empty query keeps, in order, the members whose name, position
      or email contains it; an empty query shows every member. */
  function SearchMembers(members: seq<TeamMember>, query: string): (r: seq<TeamMember>)
    ensures IsSublist(r, members)
    ensures query == "" ==> r == members
    ensures query != "" ==> forall i :: 0 <= i < |r| ==>
              ContainsIgnoreCase(r[i].name, query) || ContainsIgnoreCase(r[i].position, query)
              || ContainsIgnoreCase(r[i].email, query)
    ensures forall i :: 0 <= i < |members| && MemberMatches(query)(members[i]) ==> members[i] in r
  {
    var r := SearchList(members, query, MemberMatches(query));
    assert query != "" ==> forall i :: 0 <= i < |r| ==> MemberMatches(query)(r[i]);
    r
  }

  /** The search ignores the case of the query. */
  lemma SearchIgnoresQueryCase(members: seq<TeamMember>, query: string)
    ensures SearchMembers(members, query) == SearchMembers(members, Lower(query))
  {
    if query != "" {
      forall i | 0 <= i < |members|
        ensures MemberMatches(query)(members[i]) == MemberMatches(Lower(query))(members[i])
      {
        IgnoresQueryCase(members[i].name, query);
        IgnoresQueryCase(members[i].position, query);
        IgnoresQueryCase(members[i].email, query);
      }
      FilterCongruent(members, MemberMatches(query), MemberMatches(Lower(query)));
    }
  }

  const DefaultColor := "bg-gray-100 text-gray-800"

  /** `getPerformanceColor`. */
  function PerformanceColor(performance: string): (c: string)
    ensures performance == "Excellent" ==> c == "bg-green-100 text-green-800"
    ensures performance == "Good" ==> c == "bg-blue-100 text-blue-800"
    ensures performance == "Average" ==> c == "bg-amber-100 text-amber-800"
    ensures c == DefaultColor <==> performance !in {"Excellent", "Good", "Average"}
  {
    match performance
    case "Excellent" => "bg-green-100 text-green-800"
    case "Good" => "bg-blue-100 text-blue-800"
    case "Average" => "bg-amber-100 text-amber-800"
    case _ => DefaultColor
  }

  /** `getStatusColor`: only the exact status "active" is green. */
  function StatusColor(status: string): (c: string)
    ensures status == "active" <==> c == "bg-green-100 text-green-800"
    ensures status != "active" <==> c == DefaultColor
  {
    if status == "active" then "bg-green-100 text-green-800" else DefaultColor
  }

  /** The members tab's empty-state block: shown only on that tab when nothing is left. */
  function EmptyState(activeTab: string, shown: seq<TeamMember>, query: string): (hint: Option<string>)
    ensures hint.Some? <==> activeTab == "members" && shown == []
    ensures hint.Some? ==> (hint.value == "Try adjusting your search query" <==> query != "")
  {
    if activeTab == "members" && shown == [] then
      Some(if query != "" then "Try adjusting your search query" else "No members in your team yet")
    else None
  }

  /** With no query the empty state means the team has no members at all. */
  lemma EmptyWithoutQueryMeansNoMembers(members: seq<TeamMember>)
    ensures EmptyState("members", SearchMembers(members, ""), "").Some? <==> members == []
  {
  }
}
