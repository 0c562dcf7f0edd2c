/** The admin teams overview: a search over the fixed team list by team or captain name,
    and a footer of totals that always covers every team. */
module Teams {
  import opened Common

  datatype Captain = Captain(name: string, email: string, position: string)

  datatype Team = Team(name: string, members: int, totalPoints: int, rank: int,
                       captains: seq<Captain>, performance: string)

  /** The team list the page is built on. */
  const MockTeams: seq<Team> := [
    Team("Team A", 28, 1560, 1,
         [Captain("Alex Johnson", "alex.johnson@iedc.com", "Lead Captain"),
          Captain("Sarah Williams", "sarah.williams@iedc.com", "Co-Captain")], "Excellent"),
    Team("Team B", 31, 1720, 2,
         [Captain("Mike Chen", "mike.chen@iedc.com", "Lead Captain"),
          Captain("Emily Davis", "emily.davis@iedc.com", "Co-Captain")], "Good"),
    Team("Team C", 28, 1300, 3,
         [Captain("David Kim", "david.kim@iedc.com", "Lead Captain"),
          Captain("Lisa Patel", "lisa.patel@iedc.com", "Co-Captain")], "Improving")
  ]

  /** `team.captains.some(captain => captain.name.toLowerCase().includes(query))`. */
  predicate SomeCaptainMatches(captains: seq<Captain>, query: string)
  {
    exists i :: 0 <= i < |captains| && ContainsIgnoreCase(captains[i].name, query)
  }

  function TeamMatches(query: string): Team -> bool
  {
    (t: Team) => ContainsIgnoreCase(t.name, query) || SomeCaptainMatches(t.captains, query)
  }

  /** The search effect: a non-empty query keeps, in order, the teams whose name or some
      captain's name contains it; an empty query shows every team. */
  function SearchTeams(teams: seq<Team>, query: string): (r: seq<Team>)
    ensures IsSublist(r, teams)
    ensures query == "" ==> r == teams
    ensures query != "" ==> forall i :: 0 <= i < |r| ==>
              ContainsIgnoreCase(r[i].name, query) || SomeCaptainMatches(r[i].captains, query)
    ensures forall i :: 0 <= i < |teams| && TeamMatches(query)(teams[i]) ==> teams[i] in r
  {
    var r := SearchList(teams, query, TeamMatches(query));
    assert query != "" ==> forall i :: 0 <= i < |r| ==> TeamMatches(query)(r[i]);
    r
  }

  /** A captain's name finds their team. */
  lemma CaptainFindsTeam(teams: seq<Team>, t: int, c: int)
    requires 0 <= t < |teams| && 0 <= c < |teams[t].captains|
    ensures teams[t] in SearchTeams(teams, teams[t].captains[c].name)
  {
    var q := teams[t].captains[c].name;
    assert q[0..|q|] == q;
    assert OccursAt(Lower(q), Lower(q), 0);
    OccursContains(Lower(q), Lower(q), 0);
    assert TeamMatches(q)(teams[t]);
  }

  // ---------------------------------------------------------------------------
  // Footer
  // ---------------------------------------------------------------------------

  function MembersOf(t: Team): int { t.members }

  function PointsOf(t: Team): int { t.totalPoints }

  function CaptainCount(t: Team): int { |t.captains| }

  datatype Footer = Footer(teams: nat, members: int, points: int, captains: int)

  /** The four footer figures, each a reduce over the whole team list. */
  function FooterOf(teams: seq<Team>): (f: Footer)
    ensures f.teams == |teams|
    ensures f.captains >= 0
    ensures (forall i :: 0 <= i < |teams| ==> teams[i].members >= 0) ==> f.members >= 0
    ensures teams == [] ==> f == Footer(0, 0, 0, 0)
  {
    Footer(|teams|, SumOf(teams, MembersOf), SumOf(teams, PointsOf), SumOf(teams, CaptainCount))
  }

  /** A single team's footer: one team, its members, its points and its captains. */
  lemma FooterSingle(t: Team)
    ensures FooterOf([t]) == Footer(1, t.members, t.totalPoints, |t.captains|)
  {
    assert [t][1..] == [];
  }

  /** Each footer figure adds up over two stretches of the team list: the totals are sums
      over all the teams. */
  lemma FooterAppend(a: seq<Team>, b: seq<Team>)
    ensures var f, fa, fb := FooterOf(a + b), FooterOf(a), FooterOf(b);
            && f.teams == fa.teams + fb.teams
            && f.members == fa.members + fb.members
            && f.points == fa.points + fb.points
            && f.captains == fa.captains + fb.captains
  {
    SumOfAppend(a, b, MembersOf);
    SumOfAppend(a, b, PointsOf);
    SumOfAppend(a, b, CaptainCount);
  }

  /** What the page shows for a query: the matching teams and the footer. */
  datatype Page = Page(shown: seq<Team>, footer: Footer)

  function PageOf(teams: seq<Team>, query: string): (p: Page)
    ensures p.shown == SearchTeams(teams, query)
    ensures p.footer == FooterOf(teams)
  {
    Page(SearchTeams(teams, query), FooterOf(teams))
  }

  /** The footer ignores the search: every query shows the same totals. */
  lemma FooterIgnoresSearch(teams: seq<Team>, q1: string, q2: string)
    ensures PageOf(teams, q1).footer == PageOf(teams, q2).footer
  {
  }

  /** The footer of the shipped team list. */
  lemma MockFooter()
    ensures FooterOf(MockTeams) == Footer(3, 87, 4580, 6)
  {
    var t := MockTeams;
    assert t[1..][1..][1..] == [];
    assert SumOf(t[1..][1..], MembersOf) == 28;
    assert SumOf(t[1..][1..], PointsOf) == 1300;
    assert SumOf(t[1..][1..], CaptainCount) == 2;
  }

  // ---------------------------------------------------------------------------
  // Badges
  // ---------------------------------------------------------------------------

  const DefaultPerformanceColor := "bg-gray-100 text-gray-800"

  /** `getPerformanceColor`. */
  function PerformanceColor(performance: string): (c: string)
    ensures performance == "Excellent" ==> c == "bg-green-100 text-green-800"
    ensures performance == "Good" ==> c == "bg-blue-100 text-blue-800"
    ensures performance == "Improving" ==> c == "bg-amber-100 text-amber-800"
    ensures c == DefaultPerformanceColor <==> performance !in {"Excellent", "Good", "Improving"}
  {
    match performance
    case "Excellent" => "bg-green-100 text-green-800"
    case "Good" => "bg-blue-100 text-blue-800"
    case "Improving" => "bg-amber-100 text-amber-800"
    case _ => DefaultPerformanceColor
  }

  const DefaultRankBadge := "bg-blue-100 text-blue-800"

  /** `getRankBadge`: the top three have their own colours, every other rank the default blue. */
  function RankBadge(rank: int): (c: string)
    ensures rank == 1 ==> c == "bg-yellow-100 text-yellow-800"
    ensures rank == 2 ==> c == "bg-gray-100 text-gray-800"
    ensures rank == 3 ==> c == "bg-amber-100 text-amber-800"
    ensures c == DefaultRankBadge <==> !(1 <= rank <= 3)
  {
    if rank == 1 then "bg-yellow-100 text-yellow-800"
    else if rank == 2 then "bg-gray-100 text-gray-800"
    else if rank == 3 then "bg-amber-100 text-amber-800"
    else DefaultRankBadge
  }

  /** "No teams found", with a hint that depends on whether a query is set. */
  function EmptyState(shown: seq<Team>, query: string): (hint: Option<string>)
    ensures hint.Some? <==> shown == []
    ensures hint.Some? ==> (hint.value == "Try adjusting your search query" <==> query != "")
  {
    if shown != [] then None
    else if query != "" then Some("Try adjusting your search query")
    else Some("No teams have been created yet")
  }
}
