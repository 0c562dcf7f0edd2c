/** The event management page: which events are fetched for the signed-in user, the
    search over them, the participant sections of each event card with their per-event
    "view all" toggles, and the small lookups that decide badges, paths and controls. */
module EventDetails {
  import opened Common
  import opened Records
  import opened Session

  // ---------------------------------------------------------------------------
  // Which events are fetched
  // ---------------------------------------------------------------------------

  const CreatorFilterPrefix := "{Created_by}=\""

  /** `fetchEvents`' Airtable formula: admins fetch everything, everyone else only the
      events whose `Created_by` is their rendered display name. */
  function FetchFilter(role: Option<string>, user: Option<User>): (f: string)
    ensures HasRole(role, "admin") <==> f == ""
    ensures !HasRole(role, "admin") ==>
              CreatorFilterPrefix <= f && |f| > |CreatorFilterPrefix| && f[|f| - 1] == '"'
  {
    if HasRole(role, "admin") then ""
    else CreatorFilterPrefix + Render(DisplayNameOf(user)) + "\""
  }

  /** Reads the creator name back out of a `{Created_by}="..."` formula. */
  function CreatorOfFilter(f: string): (r: Option<string>)
    ensures r.Some? ==> CreatorFilterPrefix + r.value + "\"" == f
  {
    if |f| > |CreatorFilterPrefix| && CreatorFilterPrefix <= f && f[|f| - 1] == '"' then
      Some(f[|CreatorFilterPrefix|..|f| - 1])
    else None
  }

  /** The formula filters on exactly the user's display name as a template literal prints
      it ("undefined" with no user, "null" with no display name), and not at all for admins. */
  lemma FetchFilterNamesCreator(role: Option<string>, user: Option<User>)
    ensures HasRole(role, "admin") ==> CreatorOfFilter(FetchFilter(role, user)).None?
    ensures !HasRole(role, "admin") ==>
              CreatorOfFilter(FetchFilter(role, user)) == Some(Render(DisplayNameOf(user)))
  {
    if !HasRole(role, "admin") {
      var name := Render(DisplayNameOf(user));
      var f := FetchFilter(role, user);
      assert f == CreatorFilterPrefix + name + "\"";
      assert f[|CreatorFilterPrefix|..|f| - 1] == name;
    }
  }

  // ---------------------------------------------------------------------------
  // Search
  // ---------------------------------------------------------------------------

  /** Name, Type or Venue contains the query, ignoring case; an absent field never matches. */
  function EventMatches(query: string): Event -> bool
  {
    (ev: Event) => FieldContainsIgnoreCase(ev.name, query) || FieldContainsIgnoreCase(ev.eventType, query)
                   || FieldContainsIgnoreCase(ev.venue, query)
  }

  /** The search effect over the fetched events: a non-empty query keeps, in order, the
      events whose Name, Type or Venue contains it; an empty query shows them all. */
  function SearchEvents(events: seq<Event>, query: string): (r: seq<Event>)
    ensures IsSublist(r, events)
    ensures query == "" ==> r == events
    ensures query != "" ==> forall i :: 0 <= i < |r| ==>
              FieldContainsIgnoreCase(r[i].name, query) || FieldContainsIgnoreCase(r[i].eventType, query)
              || FieldContainsIgnoreCase(r[i].venue, query)
    ensures forall i :: 0 <= i < |events| && EventMatches(query)(events[i]) ==> events[i] in r
  {
    var r := SearchList(events, query, EventMatches(query));
    assert query != "" ==> forall i :: 0 <= i < |r| ==> EventMatches(query)(r[i]);
    r
  }

  /** With a query set, an event missing all three searched fields is never shown, while the
      empty query shows it: the empty query is not the same as filtering with "". */
  lemma FieldlessEventOnlyWithoutQuery(events: seq<Event>, query: string, i: int)
    requires 0 <= i < |events|
    requires events[i].name.None? && events[i].eventType.None? && events[i].venue.None?
    ensures query == "" ==> events[i] in SearchEvents(events, query)
    ensures query != "" ==> events[i] !in SearchEvents(events, query)
  {
    if query != "" {
      var r := SearchEvents(events, query);
      assert !EventMatches(query)(events[i]);
      assert forall j :: 0 <= j < |r| ==> r[j] != events[i];
    }
  }

  // ---------------------------------------------------------------------------
  // Member lookup
  // ---------------------------------------------------------------------------

  /** `fetchMembers` keeps the id, name, department and batch of each member record. */
  datatype MemberInfo = MemberInfo(id: string, name: Option<string>, department: Option<string>,
                                   batch: Option<string>)

  datatype MemberDetails = MemberDetails(name: Option<string>, department: Option<string>,
                                         batch: Option<string>)

  const UnknownDetails := MemberDetails(Some("Unknown Member"), Some("Unknown Department"),
                                        Some("Unknown Batch"))

  function ToMemberInfo(m: Member): MemberInfo
  {
    MemberInfo(m.id, m.name, m.department, m.batch)
  }

  function DetailsOf(m: MemberInfo): MemberDetails
  {
    MemberDetails(m.name, m.department, m.batch)
  }

  /** `members.find(record => record.id === id)`, searching from position `from`. */
  function FindById(members: seq<MemberInfo>, id: string, from: nat): (r: Option<nat>)
    requires from <= |members|
    ensures r.Some? ==> from <= r.value < |members| && members[r.value].id == id
                        && forall k :: from <= k < r.value ==> members[k].id != id
    ensures r.None? ==> forall k :: from <= k < |members| ==> members[k].id != id
    decreases |members| - from
  {
    if from == |members| then None
    else if members[from].id == id then Some(from)
    else FindById(members, id, from + 1)
  }

  /** `getMemberDetailsById`: the details of the first member with that id, or the
      "Unknown ..." placeholders when no member has it. */
  function GetMemberDetailsById(members: seq<MemberInfo>, id: string): (d: MemberDetails)
    ensures (forall k :: 0 <= k < |members| ==> members[k].id != id) ==> d == UnknownDetails
    ensures forall i :: (0 <= i < |members| && members[i].id == id
                         && forall k :: 0 <= k < i ==> members[k].id != id) ==> d == DetailsOf(members[i])
  {
    match FindById(members, id, 0)
    case None => UnknownDetails
    case Some(i) => DetailsOf(members[i])
  }

  // ---------------------------------------------------------------------------
  // Participant sections and their toggles
  // ---------------------------------------------------------------------------

  datatype Section = Coordinators | Volunteers | Attendees

  /** `record.fields.Coordinators || []` and likewise for the other two lists. */
  function ParticipantsOf(ev: Event, s: Section): (ids: seq<string>)
    ensures s == Coordinators ==> ids == OrEmpty(ev.coordinators)
    ensures s == Volunteers ==> ids == OrEmpty(ev.volunteers)
    ensures s == Attendees ==> ids == OrEmpty(ev.attendees)
  {
    match s
    case Coordinators => OrEmpty(ev.coordinators)
    case Volunteers => OrEmpty(ev.volunteers)
    case Attendees => OrEmpty(ev.attendees)
  }

  type Expanded = map<Section, map<string, bool>>

  /** `expanded[s][id]`, where a missing entry is `undefined` and reads as collapsed. */
  predicate IsExpanded(exp: Expanded, s: Section, id: string)
  {
    s in exp && id in exp[s] && exp[s][id]
  }

  /** The state update of `handleViewToggle(s, id)`. */
  function Toggle(exp: Expanded, s: Section, id: string): (r: Expanded)
    ensures IsExpanded(r, s, id) == !IsExpanded(exp, s, id)
    ensures forall t, k :: (t != s || k != id) ==> IsExpanded(r, t, k) == IsExpanded(exp, t, k)
    ensures r.Keys == exp.Keys + {s}
  {
    var inner := if s in exp then exp[s] else map[];
    exp[s := inner[id := !IsExpanded(exp, s, id)]]
  }

  /** Toggling twice shows or hides every section exactly as before. */
  lemma ToggleTwice(exp: Expanded, s: Section, id: string)
    ensures forall t, k :: IsExpanded(Toggle(Toggle(exp, s, id), s, id), t, k) == IsExpanded(exp, t, k)
  {
  }

  function Min(a: int, b: int): int
  {
    if a <= b then a else b
  }

  /** `participants.slice(0, expanded ? participants.length : 3)`. */
  function VisibleParticipants(ids: seq<string>, expanded: bool): (r: seq<string>)
    ensures r <= ids
    ensures |r| == if expanded then |ids| else Min(3, |ids|)
  {
    ids[..if expanded then |ids| else Min(3, |ids|)]
  }

  /** The collapsed view hides something exactly when the list is longer than three. */
  lemma CollapsingHidesOnlyLongLists(ids: seq<string>)
    ensures VisibleParticipants(ids, true) == ids
    ensures VisibleParticipants(ids, false) == ids <==> |ids| <= 3
  {
  }

  /** The button under a section: "Show less" when open, "View all n ..." when closed. */
  datatype ToggleButton = ShowLess | ViewAll(count: nat)

  datatype SectionView = SectionView(count: nat, shown: seq<MemberDetails>,
                                     button: Option<ToggleButton>, showsNone: bool)

  /** `ParticipantSection`: the member count, the looked-up details of the visible ids in
      list order, the toggle button when more than three are listed, and the "No ..."
      line when none are. */
  function ParticipantSection(ids: seq<string>, expanded: bool, members: seq<MemberInfo>): (v: SectionView)
    ensures v.count == |ids|
    ensures |v.shown| == |VisibleParticipants(ids, expanded)|
    ensures forall i :: 0 <= i < |v.shown| ==> v.shown[i] == GetMemberDetailsById(members, ids[i])
    ensures v.button.Some? <==> |ids| > 3
    ensures v.button.Some? ==> (v.button.value == ShowLess <==> expanded)
    ensures v.button.Some? && !expanded ==> v.button.value == ViewAll(|ids|)
    ensures v.showsNone <==> |ids| == 0
  {
    var visible := VisibleParticipants(ids, expanded);
    SectionView(|ids|,
                seq(|visible|, i requires 0 <= i < |visible| => GetMemberDetailsById(members, visible[i])),
                if |ids| > 3 then Some(if expanded then ShowLess else ViewAll(|ids|)) else None,
                |ids| == 0)
  }

  /** The toggle button appears exactly when pressing it changes what the section shows. */
  lemma ButtonOnlyWhenItMatters(ids: seq<string>, members: seq<MemberInfo>)
    ensures ParticipantSection(ids, false, members).button.Some?
            <==> VisibleParticipants(ids, false) != VisibleParticipants(ids, true)
  {
    CollapsingHidesOnlyLongLists(ids);
  }

  // ---------------------------------------------------------------------------
  // Paths, badges and controls
  // ---------------------------------------------------------------------------

  function EventsBase(role: Option<string>): string
  {
    if HasRole(role, "captain") then "/captain/events" else "/admin/events"
  }

  /** `handleNavigate(id)`: both branches of its `id === 'new'` test build base + "/" + id. */
  function EditorPath(role: Option<string>, id: string): (p: string)
    ensures |p| == |EventsBase(role)| + 1 + |id|
    ensures p[..|EventsBase(role)|] == EventsBase(role)
    ensures p[|EventsBase(role)|..] == "/" + id
  {
    if id == "new" then EventsBase(role) + "/new" else EventsBase(role) + "/" + id
  }

  /** Different events never share an editor path, and captains land under their own base. */
  lemma EditorPathInjective(role: Option<string>, a: string, b: string)
    requires EditorPath(role, a) == EditorPath(role, b)
    ensures a == b
  {
    var n := |EventsBase(role)|;
    assert "/" + a == EditorPath(role, a)[n..] == EditorPath(role, b)[n..] == "/" + b;
    assert a == ("/" + a)[1..];
  }

  lemma EditorPathBases(id: string)
    ensures EditorPath(Some("captain"), id) == "/captain/events/" + id
    ensures EditorPath(Some("admin"), id) == "/admin/events/" + id
    ensures EditorPath(None, "new") == "/admin/events/new"
  {
    var c := EditorPath(Some("captain"), id);
    assert c == c[..15] + c[15..];
    var a := EditorPath(Some("admin"), id);
    assert a == a[..13] + a[13..];
  }

  const DefaultModeBadge := "bg-gray-100 text-gray-800"

  /** `getModeBadge`: Online, Offline and Both have their own colours, anything else (an
      absent mode included) the default grey. */
  function ModeBadge(mode: Option<string>): (c: string)
    ensures mode == Some("Online") ==> c == "bg-blue-100 text-blue-800"
    ensures mode == Some("Offline") ==> c == "bg-green-100 text-green-800"
    ensures mode == Some("Both") ==> c == "bg-purple-100 text-purple-800"
    ensures c == DefaultModeBadge <==> mode !in {Some("Online"), Some("Offline"), Some("Both")}
  {
    if mode == Some("Online") then "bg-blue-100 text-blue-800"
    else if mode == Some("Offline") then "bg-green-100 text-green-800"
    else if mode == Some("Both") then "bg-purple-100 text-purple-800"
    else DefaultModeBadge
  }

  /** The delete button is rendered for admins only. */
  predicate CanDelete(role: Option<string>)
  {
    HasRole(role, "admin")
  }

  /** An admin sees every event and may delete; anyone else sees only the events created
      under their name and may not delete. */
  lemma AdminScope(role: Option<string>, user: Option<User>)
    ensures CanDelete(role) <==> FetchFilter(role, user) == ""
  {
  }

  function HeaderText(role: Option<string>): (t: string)
    ensures HasRole(role, "admin") <==> t == "All events across the organization"
    ensures !HasRole(role, "admin") ==> t == "Events created by you"
  {
    if HasRole(role, "admin") then "All events across the organization" else "Events created by you"
  }

  /** What the events grid shows. */
  datatype Grid = Loading | Cards(events: seq<Event>) | Empty(title: string, hint: string)

  function GridOf(loading: bool, filtered: seq<Event>, query: string): (g: Grid)
    ensures g.Loading? <==> loading
    ensures g.Cards? ==> g.events == filtered && filtered != []
    ensures g.Empty? <==> !loading && filtered == []
    ensures g.Empty? ==> (g.title == "No events found" <==> query != "")
    ensures g.Empty? && query == "" ==> g.title == "No events yet"
  {
    if loading then Loading
    else if |filtered| > 0 then Cards(filtered)
    else if query != "" then Empty("No events found", "Try adjusting your search query")
    else Empty("No events yet", "Get started by creating your first event")
  }

  // ---------------------------------------------------------------------------
  // The page state
  // ---------------------------------------------------------------------------

  /** The component's state: the fetched events, the list the search leaves, the member
      directory, the query and the toggle map. */
  class EventManager {
    var eventList: seq<Event>
    var filteredList: seq<Event>
    var membersList: seq<MemberInfo>
    var loading: bool
    var searchQuery: string
    var expanded: Expanded

    /** Once effects have run, the shown list is the search over the fetched list, and the
        toggle map has its three sections. */
    ghost predicate Valid()
      reads this
    {
      filteredList == SearchEvents(eventList, searchQuery)
      && expanded.Keys == {Coordinators, Volunteers, Attendees}
    }

    constructor()
      ensures Valid()
      ensures eventList == [] && filteredList == [] && membersList == []
      ensures loading && searchQuery == ""
      ensures forall s, id :: !IsExpanded(expanded, s, id)
    {
      eventList := [];
      filteredList := [];
      membersList := [];
      loading := true;
      searchQuery := "";
      expanded := map[Coordinators := map[], Volunteers := map[], Attendees := map[]];
    }

    /** A successful `fetchEvents`, followed by the search effect it triggers. */
    method EventsFetched(records: seq<Event>)
      requires Valid()
      modifies this
      ensures Valid()
      ensures eventList == records && filteredList == SearchEvents(records, searchQuery)
      ensures !loading
      ensures searchQuery == old(searchQuery) && expanded == old(expanded)
      ensures membersList == old(membersList)
    {
      eventList := records;
      filteredList := records;
      loading := false;
      filteredList := SearchEvents(eventList, searchQuery);
    }

    /** A failed `fetchEvents` only stops the loading state. */
    method EventsFailed()
      requires Valid()
      modifies this
      ensures Valid() && !loading
      ensures eventList == old(eventList) && filteredList == old(filteredList)
      ensures searchQuery == old(searchQuery) && expanded == old(expanded)
      ensures membersList == old(membersList)
    {
      loading := false;
    }

    /** `fetchMembers`: keep id, name, department and batch of every record, in order. */
    method MembersFetched(records: seq<Member>)
      requires Valid()
      modifies this
      ensures Valid()
      ensures |membersList| == |records|
      ensures forall i :: 0 <= i < |records| ==> membersList[i] == ToMemberInfo(records[i])
      ensures eventList == old(eventList) && filteredList == old(filteredList)
      ensures searchQuery == old(searchQuery) && expanded == old(expanded)
      ensures loading == old(loading)
    {
      membersList := seq(|records|, i requires 0 <= i < |records| => ToMemberInfo(records[i]));
    }

    /** Typing in the search box, followed by the search effect. */
    method SetSearchQuery(query: string)
      requires Valid()
      modifies this
      ensures Valid()
      ensures searchQuery == query && filteredList == SearchEvents(eventList, query)
      ensures eventList == old(eventList) && expanded == old(expanded)
      ensures membersList == old(membersList) && loading == old(loading)
    {
      searchQuery := query;
      if query != "" {
        filteredList := Filter(eventList, EventMatches(query));
      } else {
        filteredList := eventList;
      }
      assert filteredList == SearchList(eventList, query, EventMatches(query));
    }

    /** `handleViewToggle(s, id)`: flips the one entry and nothing else. */
    method HandleViewToggle(s: Section, id: string)
      requires Valid()
      modifies this
      ensures Valid()
      ensures expanded == Toggle(old(expanded), s, id)
      ensures IsExpanded(expanded, s, id) == !old(IsExpanded(expanded, s, id))
      ensures forall t, k :: (t != s || k != id) ==> IsExpanded(expanded, t, k) == old(IsExpanded(expanded, t, k))
      ensures eventList == old(eventList) && filteredList == old(filteredList)
      ensures searchQuery == old(searchQuery) && membersList == old(membersList)
      ensures loading == old(loading)
    {
      expanded := expanded[s := expanded[s][id := !IsExpanded(expanded, s, id)]];
    }

    /** The section of an event card as currently rendered. */
    function SectionFor(ev: Event, s: Section): (v: SectionView)
      reads this
    {
      ParticipantSection(ParticipantsOf(ev, s), IsExpanded(expanded, s, ev.id), membersList)
    }
  }
}
