/** The "My Score" page: a member finds themself by name, and the page lists the events
    they took part in, the role they held in each and the points it earned them. */
module MyScore {
  import opened Common
  import opened Records

  datatype Role = Coordinator | Volunteer | Attendee

  /** One card of the participation list: the event's display fields, the role and the points. */
  datatype Entry = Entry(
    id: string,
    name: Option<string>,
    date: Option<string>,
    venue: Option<string>,
    image: Option<string>,
    role: Role,
    points: int)

  // ---------------------------------------------------------------------------
  // Role classifier and points resolver
  // ---------------------------------------------------------------------------

  /** The role the member holds in the event. The lists are tried in the fixed order
      coordinators, volunteers, attendees, and the first one holding the member wins,
      so a member is never credited with two roles for one event. Absent lists are empty. */
  function ClassifyRole(ev: Event, userId: string): (r: Option<Role>)
    ensures r == Some(Coordinator) <==> userId in OrEmpty(ev.coordinators)
    ensures r == Some(Volunteer) <==>
              userId !in OrEmpty(ev.coordinators) && userId in OrEmpty(ev.volunteers)
    ensures r == Some(Attendee) <==>
              userId !in OrEmpty(ev.coordinators) && userId !in OrEmpty(ev.volunteers)
              && userId in OrEmpty(ev.attendees)
    ensures r == None <==>
              userId !in OrEmpty(ev.coordinators) && userId !in OrEmpty(ev.volunteers)
              && userId !in OrEmpty(ev.attendees)
  {
    if userId in OrEmpty(ev.coordinators) then Some(Coordinator)
    else if userId in OrEmpty(ev.volunteers) then Some(Volunteer)
    else if userId in OrEmpty(ev.attendees) then Some(Attendee)
    else None
  }

  /** The event's point value for a role; a role whose point field is absent earns 0,
      whatever the other roles' fields say. */
  function AwardedPoints(ev: Event, role: Role): (r: int)
    ensures role == Coordinator ==> r == OrZero(ev.pointsCoordinator)
    ensures role == Volunteer ==> r == OrZero(ev.pointsVolunteer)
    ensures role == Attendee ==> r == OrZero(ev.pointsAttendee)
  {
    match role
    case Coordinator => OrZero(ev.pointsCoordinator)
    case Volunteer => OrZero(ev.pointsVolunteer)
    case Attendee => OrZero(ev.pointsAttendee)
  }

  /** `ev.fields.Image ? ev.fields.Image[0].url : null`. */
  function ImageUrl(ev: Event): (r: Option<string>)
    ensures ev.image.None? <==> r.None?
    ensures ev.image.Some? ==> r == Some(ev.image.value[0])
  {
    match ev.image
    case None => None
    case Some(images) => Some(images[0])
  }

  // ---------------------------------------------------------------------------
  // Participation aggregator
  // ---------------------------------------------------------------------------

  /** The callback mapped over the events: an entry when the member holds a role, else null. */
  function EntryFor(ev: Event, userId: string): (r: Option<Entry>)
    ensures r.None? <==> ClassifyRole(ev, userId).None?
    ensures r.Some? ==>
              && r.value.role == ClassifyRole(ev, userId).value
              && r.value.points == AwardedPoints(ev, r.value.role)
              && r.value.id == ev.id && r.value.name == ev.name
              && r.value.date == ev.date && r.value.venue == ev.venue
              && r.value.image == ImageUrl(ev)
  {
    match ClassifyRole(ev, userId)
    case None => None
    case Some(role) =>
      Some(Entry(ev.id, ev.name, ev.date, ev.venue, ImageUrl(ev), role, AwardedPoints(ev, role)))
  }

  /** `.filter(Boolean)` over the mapped list: drop the nulls, keep the entries in order. */
  function Present(opts: seq<Option<Entry>>): (r: seq<Entry>)
    ensures |r| <= |opts|
    ensures forall i :: 0 <= i < |r| ==> Some(r[i]) in opts
    decreases |opts|
  {
    if opts == [] then []
    else (if opts[0].Some? then [opts[0].value] else []) + Present(opts[1..])
  }

  /** `loadScores`: the participation entries of one member, in event order. */
  function LoadScores(events: seq<Event>, userId: string): (r: seq<Entry>)
    ensures |r| <= |events|
    ensures forall i :: 0 <= i < |r| ==>
              exists j :: 0 <= j < |events| && EntryFor(events[j], userId) == Some(r[i])
  {
    var opts := seq(|events|, i requires 0 <= i < |events| => EntryFor(events[i], userId));
    assert forall o :: o in opts ==> exists j :: 0 <= j < |events| && EntryFor(events[j], userId) == o;
    Present(opts)
  }

  function EntryPoints(e: Entry): int
  {
    e.points
  }

  /** `events.reduce((a, b) => a + b.points, 0)`. */
  function TotalPoints(entries: seq<Entry>): (r: int)
    ensures entries == [] ==> r == 0
    ensures |entries| == 1 ==> r == entries[0].points
    ensures (forall i :: 0 <= i < |entries| ==> entries[i].points >= 0) ==> r >= 0
  {
    assert |entries| == 1 ==> entries[1..] == [];
    SumOf(entries, EntryPoints)
  }

  /** The total over two stretches of entries is the sum of their totals. */
  lemma TotalPointsAppend(a: seq<Entry>, b: seq<Entry>)
    ensures TotalPoints(a + b) == TotalPoints(a) + TotalPoints(b)
  {
    SumOfAppend(a, b, EntryPoints);
  }

  /** What one event adds to the member's total: its role's points, or nothing. */
  function Contribution(ev: Event, userId: string): int
  {
    match ClassifyRole(ev, userId)
    case None => 0
    case Some(role) => AwardedPoints(ev, role)
  }

  predicate Participates(userId: string, ev: Event)
  {
    ClassifyRole(ev, userId).Some?
  }

  function ParticipatesIn(userId: string): Event -> bool
  {
    ev => Participates(userId, ev)
  }

  /** The entry of an event the member took part in. */
  function EntryOf(ev: Event, userId: string): Entry
    requires Participates(userId, ev)
  {
    EntryFor(ev, userId).value
  }

  function EntriesOf(events: seq<Event>, userId: string): seq<Entry>
    requires forall i :: 0 <= i < |events| ==> Participates(userId, events[i])
  {
    seq(|events|, i requires 0 <= i < |events| => EntryOf(events[i], userId))
  }

  lemma {:induction false} PresentAppend(a: seq<Option<Entry>>, b: seq<Option<Entry>>)
    ensures Present(a + b) == Present(a) + Present(b)
    decreases |a|
  {
    if a == [] {
      assert a + b == b;
    } else {
      assert (a + b)[0] == a[0];
      assert (a + b)[1..] == a[1..] + b;
      PresentAppend(a[1..], b);
    }
  }

  /** Entries keep the relative order of their events: aggregating a concatenation of
      event lists concatenates the entry lists. */
  lemma LoadScoresAppend(a: seq<Event>, b: seq<Event>, userId: string)
    ensures LoadScores(a + b, userId) == LoadScores(a, userId) + LoadScores(b, userId)
  {
    var ma := seq(|a|, i requires 0 <= i < |a| => EntryFor(a[i], userId));
    var mb := seq(|b|, i requires 0 <= i < |b| => EntryFor(b[i], userId));
    var ab := a + b;
    assert seq(|ab|, i requires 0 <= i < |ab| => EntryFor(ab[i], userId)) == ma + mb;
    PresentAppend(ma, mb);
  }

  /** A single event yields its entry when the member holds a role in it, and nothing otherwise. */
  lemma LoadScoresSingle(ev: Event, userId: string)
    ensures Participates(userId, ev) ==> LoadScores([ev], userId) == [EntryOf(ev, userId)]
    ensures !Participates(userId, ev) ==> LoadScores([ev], userId) == []
  {
    var m := seq(1, i requires 0 <= i < 1 => EntryFor([ev][i], userId));
    assert m == [EntryFor(ev, userId)];
    assert Present(m) == (if m[0].Some? then [m[0].value] else []) + Present(m[1..]);
  }

  lemma EntriesOfAppend(a: seq<Event>, b: seq<Event>, userId: string)
    requires forall i :: 0 <= i < |a| ==> Participates(userId, a[i])
    requires forall i :: 0 <= i < |b| ==> Participates(userId, b[i])
    ensures EntriesOf(a + b, userId) == EntriesOf(a, userId) + EntriesOf(b, userId)
  {
  }

  /** The source's map-then-drop-nulls equals drop-the-events-without-a-role-then-map: the
      entries are exactly the participated events, in their order, each built from its event. */
  lemma {:induction false} LoadScoresIsFilterThenMap(events: seq<Event>, userId: string)
    ensures var kept := Filter(events, ParticipatesIn(userId));
            LoadScores(events, userId) == EntriesOf(kept, userId)
    decreases |events|
  {
    var p := ParticipatesIn(userId);
    if events != [] {
      var e0, rest := events[0], events[1..];
      assert events == [e0] + rest;
      LoadScoresAppend([e0], rest, userId);
      LoadScoresSingle(e0, userId);
      LoadScoresIsFilterThenMap(rest, userId);
      FilterHead(events, p);
      if p(e0) {
        EntriesOfCons(e0, Filter(rest, p), userId);
      }
    }
  }

  /** Filtering looks at the first event, then at the rest. */
  lemma FilterHead(events: seq<Event>, p: Event -> bool)
    requires events != []
    ensures Filter(events, p) == (if p(events[0]) then [events[0]] else []) + Filter(events[1..], p)
  {
  }

  lemma EntriesOfCons(ev: Event, rest: seq<Event>, userId: string)
    requires Participates(userId, ev)
    requires forall i :: 0 <= i < |rest| ==> Participates(userId, rest[i])
    ensures EntriesOf([ev] + rest, userId) == [EntryOf(ev, userId)] + EntriesOf(rest, userId)
  {
    EntriesOfAppend([ev], rest, userId);
  }

  /** Events in which the member holds no role produce no entry at all. */
  lemma NoRoleNoEntries(events: seq<Event>, userId: string)
    requires forall i :: 0 <= i < |events| ==> !Participates(userId, events[i])
    ensures LoadScores(events, userId) == []
  {
    LoadScoresIsFilterThenMap(events, userId);
    FilterKeepsNone(events, ParticipatesIn(userId));
    assert EntriesOf([], userId) == [];
  }

  /** The displayed total is the sum over all events of what each contributes, so an event
      without a role for the member adds nothing. */
  lemma {:induction false} TotalIsSumOfContributions(events: seq<Event>, userId: string)
    ensures TotalPoints(LoadScores(events, userId)) == SumOf(events, ev => Contribution(ev, userId))
    decreases |events|
  {
    if events != [] {
      assert events == [events[0]] + events[1..];
      LoadScoresAppend([events[0]], events[1..], userId);
      LoadScoresSingle(events[0], userId);
      TotalIsSumOfContributions(events[1..], userId);
      SumOfAppend(LoadScores([events[0]], userId), LoadScores(events[1..], userId), EntryPoints);
    }
  }

  /** Adding an event the member did not take part in changes neither the list nor the total. */
  lemma NonParticipationIsInvisible(events: seq<Event>, ev: Event, userId: string)
    requires !Participates(userId, ev)
    ensures LoadScores(events + [ev], userId) == LoadScores(events, userId)
    ensures TotalPoints(LoadScores(events + [ev], userId)) == TotalPoints(LoadScores(events, userId))
  {
    LoadScoresAppend(events, [ev], userId);
    LoadScoresSingle(ev, userId);
    assert LoadScores(events, userId) + [] == LoadScores(events, userId);
  }

  // ---------------------------------------------------------------------------
  // Finding the member by name
  // ---------------------------------------------------------------------------

  /** Result of `members.find(m => m.name.toLowerCase() === key)`: the first match, no match,
      or a TypeError raised by the first record without a name that the search reaches. */
  datatype Lookup = Found(index: nat) | NotFound | Throws(index: nat)

  predicate NameIs(m: Member, key: string)
  {
    m.name.Some? && Lower(m.name.value) == key
  }

  /** Records before `upTo` have a name and it does not match. */
  predicate PassedOver(members: seq<Member>, key: string, upTo: int)
    requires upTo <= |members|
  {
    forall j :: 0 <= j < upTo ==> members[j].name.Some? && !NameIs(members[j], key)
  }

  function FindFrom(members: seq<Member>, key: string, from: nat): (r: Lookup)
    requires from <= |members| && PassedOver(members, key, from)
    ensures r.Found? ==> from <= r.index < |members| && NameIs(members[r.index], key)
                          && PassedOver(members, key, r.index)
    ensures r.Throws? ==> from <= r.index < |members| && members[r.index].name.None?
                           && PassedOver(members, key, r.index)
    ensures r.NotFound? ==> PassedOver(members, key, |members|)
    decreases |members| - from
  {
    if from == |members| then NotFound
    else if members[from].name.None? then Throws(from)
    else if NameIs(members[from], key) then Found(from)
    else FindFrom(members, key, from + 1)
  }

  /** The lookup key: the input with surrounding white space removed, lower-cased. */
  function SearchKey(nameInput: string): string
  {
    Lower(Trim(nameInput))
  }

  /** `startSearch`'s `find`: the first member whose lower-cased name equals the key. */
  function FindMember(members: seq<Member>, nameInput: string): (r: Lookup)
    ensures r.Found? ==> r.index < |members| && NameIs(members[r.index], SearchKey(nameInput))
                          && PassedOver(members, SearchKey(nameInput), r.index)
    ensures r.NotFound? <==> PassedOver(members, SearchKey(nameInput), |members|)
    ensures r.Throws? ==> r.index < |members| && members[r.index].name.None?
                           && PassedOver(members, SearchKey(nameInput), r.index)
  {
    FindFrom(members, SearchKey(nameInput), 0)
  }

  /** What the page shows: the matched member, their entries and their total. The page
      starts with `ScoreView(None, [], 0)`. */
  datatype ScoreView = ScoreView(matched: Option<Member>, entries: seq<Entry>, total: int)

  /** `startSearch` followed by `loadScores` over the fetched events. A name that is not
      found (or a search that throws) selects nobody new and loads nothing: the page keeps
      showing what it showed before. */
  function StartSearch(prev: ScoreView, members: seq<Member>, nameInput: string, events: seq<Event>): (v: ScoreView)
    ensures !FindMember(members, nameInput).Found? ==> v == prev
    ensures FindMember(members, nameInput).Found? ==>
              && v.matched == Some(members[FindMember(members, nameInput).index])
              && NameIs(v.matched.value, SearchKey(nameInput))
              && v.entries == LoadScores(events, v.matched.value.id)
              && v.total == SumOf(events, ev => Contribution(ev, v.matched.value.id))
  {
    match FindMember(members, nameInput)
    case Found(i) =>
      var m := members[i];
      var entries := LoadScores(events, m.id);
      TotalIsSumOfContributions(events, m.id);
      ScoreView(Some(m), entries, TotalPoints(entries))
    case _ => prev
  }

  /** A worked case: coordinator of E1 (2 points), volunteer of E2 (1 point), absent from
      E3: two entries, in event order, and a total of 3. */
  lemma EndToEndExample()
    ensures var none := Event("", None, None, None, None, None, None, None, None, None, None, None, None, None, None);
            var e1 := none.(id := "E1", coordinators := Some(["m1"]), pointsCoordinator := Some(2));
            var e2 := none.(id := "E2", volunteers := Some(["m1"]), pointsVolunteer := Some(1));
            var e3 := none.(id := "E3", attendees := Some(["m2"]));
            var r := LoadScores([e1, e2, e3], "m1");
            |r| == 2 && r[0].id == "E1" && r[0].role == Coordinator && r[0].points == 2
            && r[1].id == "E2" && r[1].role == Volunteer && r[1].points == 1
            && TotalPoints(r) == 3
  {
    var none := Event("", None, None, None, None, None, None, None, None, None, None, None, None, None, None);
    var e1 := none.(id := "E1", coordinators := Some(["m1"]), pointsCoordinator := Some(2));
    var e2 := none.(id := "E2", volunteers := Some(["m1"]), pointsVolunteer := Some(1));
    var e3 := none.(id := "E3", attendees := Some(["m2"]));
    assert [e1, e2, e3] == [e1] + [e2, e3];
    assert [e2, e3] == [e2] + [e3];
    LoadScoresAppend([e1], [e2, e3], "m1");
    LoadScoresAppend([e2], [e3], "m1");
    LoadScoresSingle(e1, "m1");
    LoadScoresSingle(e2, "m1");
    LoadScoresSingle(e3, "m1");
    assert ClassifyRole(e1, "m1") == Some(Coordinator);
    assert ClassifyRole(e2, "m1") == Some(Volunteer);
    assert "m1" != "m2";
    assert ClassifyRole(e3, "m1") == None;
    assert LoadScores([e1], "m1") == [EntryOf(e1, "m1")];
    assert LoadScores([e2], "m1") == [EntryOf(e2, "m1")];
    assert LoadScores([e3], "m1") == [];
    assert LoadScores([e2, e3], "m1") == [EntryOf(e2, "m1")];
    var r := LoadScores([e1, e2, e3], "m1");
    assert r == [EntryOf(e1, "m1"), EntryOf(e2, "m1")];
    assert r[1..] == [r[1]] && r[1..][1..] == [];
    assert SumOf(r[1..][1..], EntryPoints) == 0;
    assert SumOf(r[1..], EntryPoints) == r[1].points;
    assert SumOf(r, EntryPoints) == r[0].points + r[1].points;
  }
}
