/** The admin member directory: a search over the fetched member records and the
    statistics footer computed over whatever the search leaves. */
module MembersDetail {
  import opened Common
  import opened Records

  /** name, department or Position contains the query, ignoring case; absent fields never match. */
  function MemberMatches(query: string): Member -> bool
  {
    (m: Member) => FieldContainsIgnoreCase(m.name, query) || FieldContainsIgnoreCase(m.department, query)
                   || FieldContainsIgnoreCase(m.position, query)
  }

  /** The search effect over `resultList`. */
  function SearchMembers(records: seq<Member>, query: string): (r: seq<Member>)
    ensures IsSublist(r, records)
    ensures query == "" ==> r == records
    ensures query != "" ==> forall i :: 0 <= i < |r| ==>
              FieldContainsIgnoreCase(r[i].name, query) || FieldContainsIgnoreCase(r[i].department, query)
              || FieldContainsIgnoreCase(r[i].position, query)
    ensures forall i :: 0 <= i < |records| && MemberMatches(query)(records[i]) ==> records[i] in r
  {
    var r := SearchList(records, query, MemberMatches(query));
    assert query != "" ==> forall i :: 0 <= i < |r| ==> MemberMatches(query)(r[i]);
    r
  }

  // ---------------------------------------------------------------------------
  // Stats footer
  // ---------------------------------------------------------------------------

  function IsActive(m: Member): bool
  {
    m.active
  }

  function IsInactive(m: Member): bool
  {
    !m.active
  }

  /** `filteredList.filter(m => m.fields.Active).length`. */
  function ActiveCount(shown: seq<Member>): (n: nat)
    ensures n <= |shown|
    ensures n == |shown| <==> forall i :: 0 <= i < |shown| ==> shown[i].active
  {
    FilterPartition(shown, IsActive, IsInactive);
    NoInactiveIffAllActive(shown);
    |Filter(shown, IsActive)|
  }

  lemma NoInactiveIffAllActive(shown: seq<Member>)
    ensures |Filter(shown, IsInactive)| == 0 <==> forall i :: 0 <= i < |shown| ==> shown[i].active
  {
    if forall i :: 0 <= i < |shown| ==> shown[i].active {
      FilterKeepsNone(shown, IsInactive);
    } else {
      var i :| 0 <= i < |shown| && !shown[i].active;
      FilterKeepsExactly(shown, IsInactive);
      assert shown[i] in Filter(shown, IsInactive);
    }
  }

  /** Active and inactive members add up to the total shown. */
  lemma ActiveAndInactive(shown: seq<Member>)
    ensures ActiveCount(shown) + |Filter(shown, IsInactive)| == |shown|
  {
    FilterPartition(shown, IsActive, IsInactive);
  }

  function PointsOrZero(m: Member): int
  {
    OrZero(m.points)
  }

  /** `filteredList.reduce((sum, m) => sum + (m.fields.Points || 0), 0)`. */
  function TotalPoints(shown: seq<Member>): (t: int)
    ensures shown == [] ==> t == 0
    ensures (forall i :: 0 <= i < |shown| ==> OrZero(shown[i].points) >= 0) ==> t >= 0
  {
    SumOf(shown, PointsOrZero)
  }

  /** A single record contributes its Points, or 0 when it has none. */
  lemma TotalPointsSingle(m: Member)
    ensures TotalPoints([m]) == OrZero(m.points)
  {
    assert [m][1..] == [];
  }

  /** The total over two stretches of the list is the sum of their totals. */
  lemma TotalPointsAppend(a: seq<Member>, b: seq<Member>)
    ensures TotalPoints(a + b) == TotalPoints(a) + TotalPoints(b)
  {
    SumOfAppend(a, b, PointsOrZero);
  }

  /** A record without Points adds nothing to the total, wherever it sits. */
  lemma PointlessRecordAddsNothing(a: seq<Member>, m: Member, b: seq<Member>)
    requires m.points.None?
    ensures TotalPoints(a + [m] + b) == TotalPoints(a + b)
  {
    SumOfAppend(a + [m], b, PointsOrZero);
    SumOfAppend(a, [m], PointsOrZero);
    SumOfAppend(a, b, PointsOrZero);
    assert SumOf([m], PointsOrZero) == PointsOrZero(m) + SumOf([m][1..], PointsOrZero);
    assert [m][1..] == [];
  }

  /** Narrowing the search never raises the points total, when points are non-negative. */
  lemma SearchNeverRaisesTotal(records: seq<Member>, query: string)
    requires forall i :: 0 <= i < |records| ==> OrZero(records[i].points) >= 0
    ensures TotalPoints(SearchMembers(records, query)) <= TotalPoints(records)
  {
    if query != "" {
      SumOfFilterAtMost(records, MemberMatches(query), PointsOrZero);
    }
  }

  /** `new Set(filteredList.map(m => m.fields.department))`: an absent department is the
      value `undefined` and is counted once like any other value. */
  function Departments(shown: seq<Member>): (d: set<Option<string>>)
    ensures |d| <= |shown|
    ensures shown != [] ==> |d| >= 1
    ensures forall i :: 0 <= i < |shown| ==> shown[i].department in d
    ensures d == set i | 0 <= i < |shown| :: shown[i].department
    decreases |shown|
  {
    if shown == [] then {} else {shown[0].department} + Departments(shown[1..])
  }

  /** Every counted department belongs to some shown record. */
  lemma {:induction false} DepartmentsComeFromRecords(shown: seq<Member>, dep: Option<string>)
    requires dep in Departments(shown)
    ensures exists i :: 0 <= i < |shown| && shown[i].department == dep
    decreases |shown|
  {
    if shown[0].department != dep {
      DepartmentsComeFromRecords(shown[1..], dep);
      var i :| 0 <= i < |shown[1..]| && shown[1..][i].department == dep;
      assert shown[i + 1].department == dep;
    }
  }

  /** `new Set(...).size`: the number of distinct department values among the shown records. */
  function DepartmentCount(shown: seq<Member>): (n: nat)
    ensures n <= |shown|
    ensures shown != [] ==> n >= 1
    ensures n == |set i | 0 <= i < |shown| :: shown[i].department|
  {
    |Departments(shown)|
  }

  /** The footer: shown only once loading is over and the search leaves something. */
  datatype Footer = Footer(total: nat, active: nat, points: int, departments: nat)

  function StatsFooter(loading: bool, shown: seq<Member>): (f: Option<Footer>)
    ensures f.Some? <==> !loading && |shown| > 0
    ensures f.Some? ==> f.value.total == |shown| && f.value.active <= f.value.total
                        && 1 <= f.value.departments <= f.value.total
                        && f.value.points == TotalPoints(shown)
                        && f.value.active == ActiveCount(shown)
                        && f.value.departments == DepartmentCount(shown)
  {
    if !loading && |shown| > 0 then
      Some(Footer(|shown|, ActiveCount(shown), TotalPoints(shown), DepartmentCount(shown)))
    else None
  }

  // ---------------------------------------------------------------------------
  // Badges and paths
  // ---------------------------------------------------------------------------

  const DefaultPositionColor := "bg-gray-100 text-gray-800"

  /** The positions with a colour of their own ("Working member" is listed but shares the
      default grey). */
  const ColouredPositions := {"Lead", "Program Organizer", "Content writer", "Media", "Marketing",
                              "Graphic designer", "Video editor/photographer", "Community Manager",
                              "Technical Team"}

  /** `getPositionColor`. */
  function PositionColor(position: Option<string>): (c: string)
    ensures position == Some("Lead") ==> c == "bg-purple-100 text-purple-800"
    ensures position == Some("Technical Team") ==> c == "bg-teal-100 text-teal-800"
    ensures c == DefaultPositionColor <==> !(position.Some? && position.value in ColouredPositions)
  {
    if position.None? then DefaultPositionColor
    else
      match position.value
      case "Lead" => "bg-purple-100 text-purple-800"
      case "Program Organizer" => "bg-blue-100 text-blue-800"
      case "Content writer" => "bg-green-100 text-green-800"
      case "Working member" => "bg-gray-100 text-gray-800"
      case "Media" => "bg-pink-100 text-pink-800"
      case "Marketing" => "bg-orange-100 text-orange-800"
      case "Graphic designer" => "bg-yellow-100 text-yellow-800"
      case "Video editor/photographer" => "bg-red-100 text-red-800"
      case "Community Manager" => "bg-indigo-100 text-indigo-800"
      case "Technical Team" => "bg-teal-100 text-teal-800"
      case _ => DefaultPositionColor
  }

  /** `getStatusBadge`. */
  datatype StatusBadge = ActiveBadge | InactiveBadge

  function StatusBadgeOf(m: Member): (b: StatusBadge)
    ensures b == ActiveBadge <==> m.active
  {
    if m.active then ActiveBadge else InactiveBadge
  }

  const MembersBase := "/admin/members/"

  /** `handleEdit(id)`; `handleClick` opens the same route with id "new". */
  function EditPath(id: string): (p: string)
    ensures MembersBase <= p && p[|MembersBase|..] == id
  {
    MembersBase + id
  }

  lemma EditPathInjective(a: string, b: string)
    requires EditPath(a) == EditPath(b)
    ensures a == b
  {
    assert a == EditPath(a)[|MembersBase|..];
  }

  function EmptyStateHint(query: string): (h: string)
    ensures query != "" <==> h == "Try adjusting your search query"
  {
    if query != "" then "Try adjusting your search query" else "Get started by adding your first member"
  }
}
