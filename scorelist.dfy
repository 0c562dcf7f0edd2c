/** The public leaderboard: every member record, sorted by its stored `Points` total in
    descending order, numbered 1..n by position, then narrowed by a name search. */
module ScoreList {
  import opened Common
  import opened Records

  // ---------------------------------------------------------------------------
  // Sorting by points, descending and stable
  // ---------------------------------------------------------------------------

  /** The sort key; the sort itself is only meaningful when every record has its Points. */
  function Key(m: Member): int
  {
    OrZero(m.points)
  }

  predicate AllHavePoints(s: seq<Member>)
  {
    forall i :: 0 <= i < |s| ==> s[i].points.Some?
  }

  ghost predicate SortedDesc(s: seq<Member>)
  {
    forall i, j :: 0 <= i < j < |s| ==> Key(s[i]) >= Key(s[j])
  }

  /** The records whose key is k, in list order. */
  function WithKey(k: int): Member -> bool
  {
    (m: Member) => Key(m) == k
  }

  /** Insert x into a descending list after every record whose key is at least x's. */
  function Insert(r: seq<Member>, x: Member): (res: seq<Member>)
    ensures |res| == |r| + 1
    decreases |r|
  {
    if r == [] then [x]
    else if Key(r[0]) >= Key(x) then [r[0]] + Insert(r[1..], x)
    else [x] + r
  }

  /** The reference stable sort: insertion of each record in input order. */
  function SortDesc(s: seq<Member>): (res: seq<Member>)
    ensures |res| == |s|
    decreases |s|
  {
    if s == [] then [] else Insert(SortDesc(s[..|s| - 1]), s[|s| - 1])
  }

  /** Every record of s has key at most k. */
  ghost predicate AllAtMost(s: seq<Member>, k: int)
  {
    forall i :: 0 <= i < |s| ==> Key(s[i]) <= k
  }

  lemma ConsSorted(h: Member, t: seq<Member>)
    requires SortedDesc(t) && AllAtMost(t, Key(h))
    ensures SortedDesc([h] + t)
  {
    var s := [h] + t;
    forall i, j | 0 <= i < j < |s| ensures Key(s[i]) >= Key(s[j]) {
      assert s[j] == t[j - 1];
      if i > 0 {
        assert s[i] == t[i - 1];
      }
    }
  }

  lemma {:induction false} InsertPermutes(r: seq<Member>, x: Member)
    ensures multiset(Insert(r, x)) == multiset(r) + multiset{x}
    decreases |r|
  {
    if r != [] {
      assert r == [r[0]] + r[1..];
      if Key(r[0]) >= Key(x) {
        InsertPermutes(r[1..], x);
      }
    }
  }

  /** Inserting into a list whose keys are at most k a record whose key is at most k
      keeps every key at most k. */
  lemma InsertAtMost(r: seq<Member>, x: Member, k: int)
    requires AllAtMost(r, k) && Key(x) <= k
    ensures AllAtMost(Insert(r, x), k)
  {
    var res := Insert(r, x);
    InsertPermutes(r, x);
    forall i | 0 <= i < |res| ensures Key(res[i]) <= k {
      assert res[i] in multiset(res);
      if res[i] != x {
        assert res[i] in multiset(r);
        var m :| 0 <= m < |r| && r[m] == res[i];
      }
    }
  }

  lemma {:induction false} InsertSorted(r: seq<Member>, x: Member)
    requires SortedDesc(r)
    ensures SortedDesc(Insert(r, x))
    decreases |r|
  {
    if r != [] {
      var t := r[1..];
      assert AllAtMost(t, Key(r[0]));
      if Key(r[0]) >= Key(x) {
        InsertSorted(t, x);
        InsertAtMost(t, x, Key(r[0]));
        ConsSorted(r[0], Insert(t, x));
      } else {
        assert r == [r[0]] + t;
        ConsSorted(x, r);
      }
    }
  }

  /** The sort's result is ordered by points, highest first. */
  lemma {:induction false} SortDescSorted(s: seq<Member>)
    ensures SortedDesc(SortDesc(s))
    decreases |s|
  {
    if s != [] {
      SortDescSorted(s[..|s| - 1]);
      InsertSorted(SortDesc(s[..|s| - 1]), s[|s| - 1]);
    }
  }

  /** The sort's result holds exactly the fetched records. */
  lemma {:induction false} SortDescPermutes(s: seq<Member>)
    ensures multiset(SortDesc(s)) == multiset(s)
    decreases |s|
  {
    if s != [] {
      SortDescPermutes(s[..|s| - 1]);
      InsertPermutes(SortDesc(s[..|s| - 1]), s[|s| - 1]);
      assert s == s[..|s| - 1] + [s[|s| - 1]];
    }
  }

  /** Inserting in front of a list whose keys all lie below x's adds x's tie group. */
  lemma InsertInFront(r: seq<Member>, x: Member, k: int)
    requires forall i :: 0 <= i < |r| ==> Key(r[i]) < Key(x)
    ensures Filter([x] + r, WithKey(k)) == Filter(r, WithKey(k)) + (if Key(x) == k then [x] else [])
  {
    FilterAppend([x], r, WithKey(k));
    if Key(x) == k {
      FilterKeepsNone(r, WithKey(k));
    }
  }

  /** Filtering a non-empty list is filtering its head, then its tail. */
  lemma FilterCons(h: Member, t: seq<Member>, k: int)
    ensures Filter([h] + t, WithKey(k)) == Filter([h], WithKey(k)) + Filter(t, WithKey(k))
  {
    FilterAppend([h], t, WithKey(k));
  }

  /** Inserting a record appends it to the records of its own key and leaves the others'
      order alone. */
  lemma {:induction false} InsertKeepsTies(r: seq<Member>, x: Member, k: int)
    requires SortedDesc(r)
    ensures Filter(Insert(r, x), WithKey(k)) == Filter(r, WithKey(k)) + (if Key(x) == k then [x] else [])
    decreases |r|
  {
    if r == [] {
    } else if Key(r[0]) >= Key(x) {
      var t := r[1..];
      assert SortedDesc(t);
      InsertKeepsTies(t, x, k);
      assert Insert(r, x) == [r[0]] + Insert(t, x);
      FilterCons(r[0], Insert(t, x), k);
      assert r == [r[0]] + t;
      FilterCons(r[0], t, k);
    } else {
      assert forall i :: 0 <= i < |r| ==> Key(r[i]) <= Key(r[0]);
      InsertInFront(r, x, k);
    }
  }

  /** Stability: among records with equal points, the sorted order is the fetched order. */
  lemma {:induction false} SortDescStable(s: seq<Member>, k: int)
    ensures Filter(SortDesc(s), WithKey(k)) == Filter(s, WithKey(k))
    decreases |s|
  {
    if s != [] {
      var init, last := s[..|s| - 1], s[|s| - 1];
      SortDescStable(init, k);
      SortDescSorted(init);
      InsertKeepsTies(SortDesc(init), last, k);
      assert s == init + [last];
      FilterSnoc(init, last, k);
    }
  }

  /** Filtering a list with one more record at its end. */
  lemma FilterSnoc(init: seq<Member>, last: Member, k: int)
    ensures Filter(init + [last], WithKey(k))
            == Filter(init, WithKey(k)) + (if Key(last) == k then [last] else [])
  {
    FilterAppend(init, [last], WithKey(k));
    assert Filter([last], WithKey(k)) == (if Key(last) == k then [last] else []) + Filter([last][1..], WithKey(k));
  }

  /** Where the insertion loop stops is where `Insert` puts the record. */
  lemma {:induction false} InsertAt(r: seq<Member>, x: Member, j: int)
    requires 0 <= j <= |r|
    requires forall k :: 0 <= k < j ==> Key(r[k]) >= Key(x)
    requires forall k :: j <= k < |r| ==> Key(r[k]) < Key(x)
    ensures Insert(r, x) == r[..j] + [x] + r[j..]
    decreases |r|
  {
    if j > 0 {
      InsertAt(r[1..], x, j - 1);
      assert r[1..][..j - 1] == r[1..j];
      assert r[1..][j - 1..] == r[j..];
      assert r[..j] == [r[0]] + r[1..j];
    }
  }

  /** Sorting one more record of the input inserts it into the sorted prefix. */
  lemma SortDescStep(s: seq<Member>, i: int)
    requires 0 <= i < |s|
    ensures SortDesc(s[..i + 1]) == Insert(SortDesc(s[..i]), s[i])
  {
    assert s[..i + 1][..i] == s[..i];
  }

  /** The array after the shifting loop and the final store, read as a sequence. */
  lemma Shifted(prefix: seq<Member>, x: Member, j: int, after: seq<Member>)
    requires 0 <= j <= |prefix| && |after| == |prefix| + 1
    requires forall k :: 0 <= k < j ==> after[k] == prefix[k]
    requires after[j] == x
    requires forall k :: j < k < |after| ==> after[k] == prefix[k - 1]
    ensures after == prefix[..j] + [x] + prefix[j..]
  {
  }

  /** What one insertion step leaves in a[..i + 1]: the sorted prefix with x placed after
      every record with at least its points is exactly the reference insertion. */
  lemma InsertStep(prefix: seq<Member>, x: Member, j: int, after: seq<Member>)
    requires SortedDesc(prefix) && 0 <= j <= |prefix|
    requires forall k :: j <= k < |prefix| ==> Key(prefix[k]) < Key(x)
    requires j > 0 ==> Key(prefix[j - 1]) >= Key(x)
    requires |after| == |prefix| + 1 && after[j] == x
    requires forall k :: 0 <= k < j ==> after[k] == prefix[k]
    requires forall k :: j < k < |after| ==> after[k] == prefix[k - 1]
    ensures after == Insert(prefix, x)
  {
    assert forall k :: 0 <= k < j ==> Key(prefix[k]) >= Key(prefix[j - 1]) >= Key(x);
    InsertAt(prefix, x, j);
    Shifted(prefix, x, j, after);
  }

  /** Where x goes among a[..i]: just after the last of the records before position i
      that have at least x's points, scanning leftwards from i. Changes nothing. */
  method FindSlot(a: array<Member>, i: int, x: Member) returns (j: int)
    requires 0 <= i < a.Length
    ensures 0 <= j <= i
    ensures forall k :: j <= k < i ==> Key(a[k]) < Key(x)
    ensures j > 0 ==> Key(a[j - 1]) >= Key(x)
  {
    j := i;
    while j > 0 && Key(a[j - 1]) < Key(x)
      invariant 0 <= j <= i
      invariant forall k :: j <= k < i ==> Key(a[k]) < Key(x)
    {
      j := j - 1;
    }
  }

  /** Moves a[j..i] one place to the right, so that a[j + 1..i + 1] holds what a[j..i] held;
      a[j] keeps its old value and nothing outside a[j..i + 1] changes. */
  method ShiftUp(a: array<Member>, j: int, i: int)
    requires 0 <= j <= i < a.Length
    modifies a
    ensures forall k :: 0 <= k <= j ==> a[k] == old(a[k])
    ensures forall k :: j < k <= i ==> a[k] == old(a[k - 1])
    ensures forall k :: i < k < a.Length ==> a[k] == old(a[k])
  {
    ghost var orig := a[..];
    var t := i;
    while t > j
      invariant j <= t <= i
      invariant forall k :: 0 <= k <= t ==> a[k] == orig[k]
      invariant forall k :: t < k <= i ==> a[k] == orig[k - 1]
      invariant forall k :: i < k < a.Length ==> a[k] == orig[k]
    {
      a[t] := a[t - 1];
      t := t - 1;
    }
  }

  /** One pass of the insertion sort: slide a[i] left past the records with fewer points. */
  method InsertNext(a: array<Member>, i: int)
    requires 0 <= i < a.Length && SortedDesc(a[..i])
    modifies a
    ensures a[..i + 1] == Insert(old(a[..i]), old(a[i]))
    ensures forall k :: i < k < a.Length ==> a[k] == old(a[k])
  {
    ghost var prefix := a[..i];
    var x := a[i];
    var j := FindSlot(a, i, x);
    ShiftUp(a, j, i);
    a[j] := x;
    InsertStep(prefix, x, j, a[..i + 1]);
  }

  /** `Records.sort((a, b) => b.fields.Points - a.fields.Points)`: a stable insertion sort,
      in place. */
  method SortByPoints(a: array<Member>)
    requires AllHavePoints(a[..])
    modifies a
    ensures a[..] == SortDesc(old(a[..]))
    ensures SortedDesc(a[..]) && multiset(a[..]) == multiset(old(a[..]))
  {
    ghost var input := a[..];
    var i := 0;
    while i < a.Length
      invariant 0 <= i <= a.Length
      invariant a[..i] == SortDesc(input[..i])
      invariant forall k :: i <= k < a.Length ==> a[k] == input[k]
    {
      SortDescSorted(input[..i]);
      InsertNext(a, i);
      SortDescStep(input, i);
      i := i + 1;
    }
    assert a[..] == a[..a.Length] && input[..a.Length] == input;
    SortDescSorted(input);
    SortDescPermutes(input);
  }

  // ---------------------------------------------------------------------------
  // Ranking by position
  // ---------------------------------------------------------------------------

  datatype RankedMember = RankedMember(record: Member, rank: int)

  /** `sortedRecords.map((record, index) => ({...record, rank: index + 1}))`. */
  function Rank(sorted: seq<Member>): (r: seq<RankedMember>)
    ensures |r| == |sorted|
    ensures forall i :: 0 <= i < |r| ==> r[i].record == sorted[i] && 1 <= r[i].rank <= |sorted|
  {
    seq(|sorted|, i requires 0 <= i < |sorted| => RankedMember(sorted[i], i + 1))
  }

  /** The ranks are exactly 1..n: the first is 1, the last is n and each is one more than
      the one above it, so two records with equal points still get different ranks. */
  lemma {:induction false} RanksAreOneToN(sorted: seq<Member>)
    ensures var r := Rank(sorted);
            && (|r| > 0 ==> r[0].rank == 1 && r[|r| - 1].rank == |sorted|)
            && (forall i :: 0 <= i < |r| - 1 ==> r[i + 1].rank == r[i].rank + 1)
            && (forall i, j :: 0 <= i < j < |r| ==> r[i].rank < r[j].rank)
  {
  }

  /** On the sorted list, more points always means a better (smaller) rank number. */
  lemma RankFollowsPoints(s: seq<Member>)
    ensures var r := Rank(SortDesc(s));
            forall i, j :: 0 <= i < |r| && 0 <= j < |r| && Key(r[i].record) > Key(r[j].record)
              ==> r[i].rank < r[j].rank
  {
    SortDescSorted(s);
  }

  /** `fetchData`: sort the fetched array in place, then number it. */
  method LoadLeaderboard(records: array<Member>) returns (memberList: seq<RankedMember>)
    requires AllHavePoints(records[..])
    modifies records
    ensures records[..] == SortDesc(old(records[..]))
    ensures memberList == Rank(SortDesc(old(records[..])))
  {
    SortByPoints(records);
    memberList := seq(records.Length, i requires 0 <= i < records.Length reads records =>
                      RankedMember(records[i], i + 1));
    assert memberList == Rank(records[..]);
  }

  /** A worked case: points [50, 50, 30] get ranks [1, 2, 3], the tie broken by fetch order. */
  lemma NoTieCompression(a: Member, b: Member, c: Member)
    requires a.points == Some(50) && b.points == Some(50) && c.points == Some(30)
    ensures SortDesc([a, b, c]) == [a, b, c]
    ensures Rank(SortDesc([a, b, c]))[0].rank == 1
    ensures Rank(SortDesc([a, b, c]))[1].rank == 2
    ensures Rank(SortDesc([a, b, c]))[2].rank == 3
  {
    assert [a, b, c][..2] == [a, b];
    assert [a, b][..1] == [a];
    assert [a][..0] == [];
    assert SortDesc([a]) == [a];
    assert Insert([a], b) == [a] + Insert([], b) == [a, b];
    assert SortDesc([a, b]) == [a, b];
    assert Insert([b], c) == [b] + Insert([], c) == [b, c];
    assert Insert([a, b], c) == [a] + Insert([b], c) == [a, b, c];
  }

  // ---------------------------------------------------------------------------
  // Name search and display
  // ---------------------------------------------------------------------------

  predicate NamesPresent(list: seq<RankedMember>)
  {
    forall i :: 0 <= i < |list| ==> list[i].record.name.Some?
  }

  function NameMatches(query: string): RankedMember -> bool
  {
    (rm: RankedMember) => rm.record.name.Some? && ContainsIgnoreCase(rm.record.name.value, query)
  }

  /** `memberList.filter(r => r.fields.name.toLowerCase().includes(searchQuery.toLowerCase()))`:
      the records whose name contains the query, in ranked order, keeping their ranks. */
  function FilterByName(list: seq<RankedMember>, query: string): (r: seq<RankedMember>)
    requires NamesPresent(list)
    ensures IsSublist(r, list)
    ensures forall i :: 0 <= i < |r| ==>
              r[i].record.name.Some? && ContainsIgnoreCase(r[i].record.name.value, query)
    ensures forall i :: 0 <= i < |list| && ContainsIgnoreCase(list[i].record.name.value, query)
              ==> list[i] in r
    ensures forall x :: multiset(r)[x] == if NameMatches(query)(x) then multiset(list)[x] else 0
  {
    FilterCounts(list, NameMatches(query));
    FilterIsSublist(list, NameMatches(query));
    FilterKeepsExactly(list, NameMatches(query));
    Filter(list, NameMatches(query))
  }

  /** An empty search shows the whole leaderboard. */
  lemma EmptyQueryKeepsAll(list: seq<RankedMember>)
    requires NamesPresent(list)
    ensures FilterByName(list, "") == list
  {
    forall i | 0 <= i < |list| ensures NameMatches("")(list[i]) {
      EmptyContained(Lower(list[i].record.name.value));
    }
    FilterKeepsAll(list, NameMatches(""));
  }

  /** Icon shown in the rank column. */
  datatype RankIcon = Crown | SilverAward | BronzeAward | Number(rank: int)

  const DefaultRankColor := "text-gray-400"

  /** `getRankColor`: gold, silver and bronze for the podium, grey for everyone else. */
  function RankColor(rank: int): (c: string)
    ensures (rank == 1 || rank == 2 || rank == 3) <==> c != DefaultRankColor
  {
    if rank == 1 then "text-yellow-400"
    else if rank == 2 then "text-gray-300"
    else if rank == 3 then "text-amber-600"
    else DefaultRankColor
  }

  /** `getRankIcon`: a crown for first, award medals for second and third, the bare number otherwise. */
  function GetRankIcon(rank: int): (i: RankIcon)
    ensures (rank == 1 || rank == 2 || rank == 3) <==> !i.Number?
    ensures i.Number? ==> i.rank == rank
  {
    if rank == 1 then Crown
    else if rank == 2 then SilverAward
    else if rank == 3 then BronzeAward
    else Number(rank)
  }

  /** The three podium places are told apart by both colour and icon. */
  lemma PodiumTiersDistinct()
    ensures RankColor(1) != RankColor(2) && RankColor(2) != RankColor(3) && RankColor(1) != RankColor(3)
    ensures GetRankIcon(1) != GetRankIcon(2) && GetRankIcon(2) != GetRankIcon(3)
            && GetRankIcon(1) != GetRankIcon(3)
  {
  }

  /** The figures one leaderboard row shows. */
  datatype Row = Row(rank: int, podium: bool, points: int, coordinated: int, volunteered: int, attended: int)

  /** Absent counters and an absent points total are shown as 0; the rank badge gets its
      podium background for ranks up to 3. */
  function RowOf(rm: RankedMember): (row: Row)
    ensures row.rank == rm.rank && row.podium == (rm.rank <= 3)
    ensures rm.record.points.None? ==> row.points == 0
    ensures rm.record.eventsCoordinated.None? ==> row.coordinated == 0
    ensures rm.record.eventsVolunteer.None? ==> row.volunteered == 0
    ensures rm.record.eventsAttended.None? ==> row.attended == 0
    ensures rm.record.points.Some? ==> row.points == rm.record.points.value
    ensures rm.record.eventsCoordinated.Some? ==> row.coordinated == rm.record.eventsCoordinated.value
    ensures rm.record.eventsVolunteer.Some? ==> row.volunteered == rm.record.eventsVolunteer.value
    ensures rm.record.eventsAttended.Some? ==> row.attended == rm.record.eventsAttended.value
  {
    Row(rm.rank, rm.rank <= 3, OrZero(rm.record.points), OrZero(rm.record.eventsCoordinated),
        OrZero(rm.record.eventsVolunteer), OrZero(rm.record.eventsAttended))
  }

  /** The list area: skeletons while loading, rows when something matches, else "No members found". */
  datatype ListArea = Skeletons | Rows(rows: seq<Row>) | NoMembersFound

  function ListAreaOf(loading: bool, filtered: seq<RankedMember>): (a: ListArea)
    ensures a.Rows? ==> |a.rows| == |filtered| > 0
    ensures a.Rows? ==> forall i :: 0 <= i < |filtered| ==> a.rows[i] == RowOf(filtered[i])
    ensures a == NoMembersFound <==> !loading && filtered == []
    ensures a == Skeletons <==> loading
  {
    if loading then Skeletons
    else if |filtered| > 0 then Rows(seq(|filtered|, i requires 0 <= i < |filtered| => RowOf(filtered[i])))
    else NoMembersFound
  }
}
