# Club portal: participation scores, the leaderboard and the view rules

A Dafny model of the computational core of a club's member portal. The portal is a React
front end over two Airtable tables, `Events` and `members`. The model covers:

- **My Score** (`MyScore`): a member finds themself by name. For each event, the page
  decides which role the member held (coordinator, then volunteer, then attendee, with the
  first list that holds them winning). It awards that role's points, drops the events with
  no role, and sums the points.
- **Leaderboard** (`ScoreList`): the fetched member records are sorted in place by `Points`,
  descending and stably. They are numbered 1..n by position, so ties still get distinct
  ranks. The view is then narrowed by a name search that keeps the ranks.
- **Event management** (`EventDetails`): the creator filter formula that decides which
  events are fetched, and the search over them. Also the participant sections of each card,
  with their truncate-to-three rule and per-event "view all" toggles, and the
  "Unknown Member" lookup. It also covers the editor paths, mode badges, and who may delete.
  The component's state (`eventList`, `filteredList`, `expanded`, …) is a class whose
  methods are the fetch handlers, the search effect and `handleViewToggle`.
- **Member directory** (`MembersDetail`), **teams overview** (`Teams`) and **coordinator's
  team** (`MyTeam`):
  - the case-insensitive searches;
  - the statistics footers: active count, points total, distinct departments, team totals;
  - the badge colour lookups and the empty states.
- **Event form** (`EventForm`):
  - the schema's field rules;
  - the values a loaded event puts into the form;
  - the permission gate of the submit handler;
  - the request body it builds, with `Updated_by` always and `Created_by` only when
    creating.

  `onSubmit` is a method on the form's state that raises and lowers `submitLoading` and
  resets the form after a successful creation. It is proved equal to a reference function.

Shared pieces live in `Common` (optional values, ASCII lower-casing, substring search,
`trim`, filtering, sums), `Records` (the two tables' rows, with every field but the id
optional, as Airtable omits empty fields) and `Session` (the signed-in user and role, with
JavaScript's `undefined`/`null` distinction for `user?.displayName`).

Where the documented behaviour and the code differ, the model follows the code:

- A name that is not found on the My Score page leaves the page as it was: the previous
  member and scores stay on screen.
- A member with no display name renders as `"null"` in the creator filter formula, and
  `"undefined"` when nobody is signed in.
- The empty search query shows the full list, which is not the same as filtering with `""`.
  An event or member missing every searched field is shown only when no query is set.

## Model

| member | source | states |
|---|---|---|
| MyScore.ClassifyRole | src/pages/Myscore/index.jsx:57-74 | The role is Coordinator iff the member is in the coordinators list; Volunteer iff not a coordinator but a volunteer; Attendee iff only an attendee; none iff in no list. Absent lists are empty. |
| MyScore.AwardedPoints | src/pages/Myscore/index.jsx:65-71 | The points are exactly the resolved role's point field, 0 when that field is absent. |
| MyScore.ImageUrl | src/pages/Myscore/index.jsx:81 | The entry's image is the first attachment's url when the Image field exists, otherwise null. |
| MyScore.EntryFor | src/pages/Myscore/index.jsx:56-85 | An event yields an entry iff the member holds a role in it. The entry carries the event's id, name, date, venue and image, the role and that role's points. |
| MyScore.LoadScoresIsFilterThenMap | src/pages/Myscore/index.jsx:55-86 | Mapping then dropping nulls equals keeping exactly the events the member took part in, in their order, and building each entry from its own event. |
| MyScore.LoadScores | src/pages/Myscore/index.jsx:55-86 | At most one entry per event, and every entry is the entry an event yields for the member. |
| MyScore.LoadScoresAppend | src/pages/Myscore/index.jsx:55-86 | Entries keep the relative order of their events: the entries of a concatenation are the concatenation of the entries. |
| MyScore.LoadScoresSingle | src/pages/Myscore/index.jsx:74-86 | One event yields its entry when the member holds a role and nothing otherwise. |
| MyScore.NoRoleNoEntries | src/pages/Myscore/index.jsx:74-86 | Events that hold no role for the member produce no entries. |
| MyScore.NonParticipationIsInvisible | src/pages/Myscore/index.jsx:74-92 | Adding an event the member did not take part in changes neither the entry list nor the total. |
| MyScore.TotalIsSumOfContributions | src/pages/Myscore/index.jsx:92 | The total (the reduce over the entries, 0 when there are none) equals the sum over all events of each event's contribution: its role's points, or 0. |
| MyScore.TotalPoints | src/pages/Myscore/index.jsx:92 | The reduce gives 0 for no entries, the points of a single entry, and a non-negative total when every entry's points are. |
| MyScore.TotalPointsAppend | src/pages/Myscore/index.jsx:92 | The total of two stretches of entries is the sum of their totals. |
| MyScore.FindMember | src/pages/Myscore/index.jsx:36-38 | The lookup finds the first member whose lower-cased name equals the trimmed, lower-cased input. It reports no match iff every member has a name and none matches. It throws at a nameless record only when every record before it has a name that does not match. |
| MyScore.StartSearch | src/pages/Myscore/index.jsx:35-48 | On a match, the selected member is exactly the first match the lookup returns, and the page shows their entries and a total equal to the sum of their contributions. Otherwise (no match, or the lookup throws) the page is unchanged. |
| MyScore.EndToEndExample | src/pages/Myscore/index.jsx:55-92 | Coordinator of E1 (2 points), volunteer of E2 (1 point), absent from E3: two entries in event order, total 3. |
| ScoreList.SortByPoints | src/pages/ScoreList/index.jsx:44 | The in-place sort leaves the array equal to the reference stable sort of its old contents. The result is non-increasing in Points and a permutation of the input. |
| ScoreList.FindSlot | src/pages/ScoreList/index.jsx:44 | The insertion position of the next record: every record between it and the record has fewer points, and the record just before it has at least as many. |
| ScoreList.ShiftUp | src/pages/ScoreList/index.jsx:44 | The records in the slice move one place to the right and every other cell keeps its value. |
| ScoreList.InsertNext | src/pages/ScoreList/index.jsx:44 | One insertion step places the next record after every earlier record with at least its points and leaves the rest of the array alone. |
| ScoreList.SortDescSorted | src/pages/ScoreList/index.jsx:44 | The reference sort is non-increasing in Points. |
| ScoreList.SortDescPermutes | src/pages/ScoreList/index.jsx:44 | The reference sort is a permutation of its input. |
| ScoreList.SortDescStable | src/pages/ScoreList/index.jsx:44 | For every Points value, the records with that value appear in the sorted list in their fetched order. |
| ScoreList.Rank | src/pages/ScoreList/index.jsx:45-48 | Each ranked record is the record at that position, with a rank between 1 and n. |
| ScoreList.RanksAreOneToN | src/pages/ScoreList/index.jsx:45-48 | The ranks are exactly 1..n by position: the first is 1, the last is n, each is one more than the previous, so tied records get distinct ranks. |
| ScoreList.RankFollowsPoints | src/pages/ScoreList/index.jsx:44-48 | On the sorted list, more points always means a smaller rank number. |
| ScoreList.LoadLeaderboard | src/pages/ScoreList/index.jsx:44-49 | The fetched array ends up sorted in place, and the member list is the ranking of the sorted records. |
| ScoreList.NoTieCompression | src/pages/ScoreList/index.jsx:44-48 | Points 50, 50, 30 keep their order and get ranks 1, 2, 3. |
| ScoreList.FilterByName | src/pages/ScoreList/index.jsx:63-65 | The name filter keeps, in ranked order and with their ranks, exactly the records whose lower-cased name contains the lower-cased query, each with as many copies as the list holds. |
| ScoreList.EmptyQueryKeepsAll | src/pages/ScoreList/index.jsx:63-65 | An empty query keeps every record. |
| ScoreList.RankColor | src/pages/ScoreList/index.jsx:68-73 | Ranks 1, 2 and 3 get their own colours; every other rank gets the default grey. |
| ScoreList.GetRankIcon | src/pages/ScoreList/index.jsx:75-80 | Ranks 1, 2 and 3 get a crown or a medal; every other rank shows its own number. |
| ScoreList.PodiumTiersDistinct | src/pages/ScoreList/index.jsx:68-80 | The three podium ranks have pairwise distinct colours and icons. |
| ScoreList.RowOf | src/pages/ScoreList/index.jsx:247-285 | A row shows the record's rank, the podium background for ranks up to 3, and its Points and three counters: each the record's value when present and 0 when absent. |
| ScoreList.ListAreaOf | src/pages/ScoreList/index.jsx:186-346 | Skeletons iff loading. Otherwise the i-th row is the row of the i-th filtered record, or "No members found" iff nothing is left. |
| Session.DisplayNameOf | src/pages/ProtectedRoutes/Events/Details.jsx:70 | `user?.displayName` is undefined iff there is no user, null iff the user has no display name, otherwise the name. |
| Session.Render | src/pages/ProtectedRoutes/Events/Details.jsx:70 | A template literal prints undefined as "undefined", null as "null" and a string as itself. |
| EventDetails.FetchFilter | src/pages/ProtectedRoutes/Events/Details.jsx:68-71 | The formula is empty iff the role is admin; otherwise it has the form `{Created_by}="…"`. |
| EventDetails.FetchFilterNamesCreator | src/pages/ProtectedRoutes/Events/Details.jsx:68-71 | A non-admin's formula names exactly the rendered display name as creator; an admin's names nobody. |
| EventDetails.CreatorOfFilter | src/pages/ProtectedRoutes/Events/Details.jsx:70 | The reading-back partner of the formula: any creator it returns rebuilds the formula. |
| EventDetails.SearchEvents | src/pages/ProtectedRoutes/Events/Details.jsx:102-113 | The result is an order-preserving sublist. An empty query keeps every event. Otherwise it keeps exactly the events whose Name, Type or Venue contains the query ignoring case. |
| EventDetails.FieldlessEventOnlyWithoutQuery | src/pages/ProtectedRoutes/Events/Details.jsx:102-113 | An event without Name, Type and Venue is shown iff the query is empty: an absent field never matches. |
| EventDetails.FindById | src/pages/ProtectedRoutes/Events/Details.jsx:116 | `find` returns the first member with the id, or reports that none has it. |
| EventDetails.GetMemberDetailsById | src/pages/ProtectedRoutes/Events/Details.jsx:115-118 | The details of the first member with the id; "Unknown Member" / "Unknown Department" / "Unknown Batch" when no member has it. |
| EventDetails.ParticipantsOf | src/pages/ProtectedRoutes/Events/Details.jsx:222-224 | An absent Coordinators, Volunteers or Attendees list is the empty list. |
| EventDetails.Toggle | src/pages/ProtectedRoutes/Events/Details.jsx:120-128 | The toggle flips the one (section, event) entry, treating a missing entry as collapsed, and leaves every other entry as it was. |
| EventDetails.ToggleTwice | src/pages/ProtectedRoutes/Events/Details.jsx:120-128 | Toggling the same entry twice shows or hides every section exactly as before. |
| EventDetails.VisibleParticipants | src/pages/ProtectedRoutes/Events/Details.jsx:439 | The shown ids are a prefix of the list: all n when expanded, the first min(3, n) when collapsed. |
| EventDetails.CollapsingHidesOnlyLongLists | src/pages/ProtectedRoutes/Events/Details.jsx:439 | The collapsed view hides something iff the list is longer than three. |
| EventDetails.ParticipantSection | src/pages/ProtectedRoutes/Events/Details.jsx:431-467 | The section shows the count and the looked-up details of the visible ids in order. The toggle button appears iff there are more than 3 ids; it reads "Show less" iff expanded and "View all n" when collapsed. The "No …" line appears iff there are no ids. |
| EventDetails.ButtonOnlyWhenItMatters | src/pages/ProtectedRoutes/Events/Details.jsx:439-461 | The toggle button appears exactly when pressing it changes what the section shows. |
| EventDetails.EditorPath | src/pages/ProtectedRoutes/Events/Details.jsx:130-133 | Both branches build the role's base, then "/", then the id. |
| EventDetails.EditorPathInjective | src/pages/ProtectedRoutes/Events/Details.jsx:130-133 | Different ids never share an editor path. |
| EventDetails.EditorPathBases | src/pages/ProtectedRoutes/Events/Details.jsx:131-132 | Captains go to `/captain/events/<id>`, admins to `/admin/events/<id>`, and "new" to `<base>/new`. |
| EventDetails.ModeBadge | src/pages/ProtectedRoutes/Events/Details.jsx:154-161 | Online, Offline and Both get their own classes. Any other mode, an absent one included, gets the default grey. |
| EventDetails.AdminScope | src/pages/ProtectedRoutes/Events/Details.jsx:68-71 | The delete control is offered iff the role is admin, which is exactly when every event is fetched. See also line 253. |
| EventDetails.HeaderText | src/pages/ProtectedRoutes/Events/Details.jsx:183 | Admins see "All events across the organization", and everyone else sees "Events created by you". |
| EventDetails.GridOf | src/pages/ProtectedRoutes/Events/Details.jsx:215-423 | Skeletons iff loading; cards iff something is left; otherwise "No events found" iff a query is set, else "No events yet". |
| EventDetails.EventManager.constructor | src/pages/ProtectedRoutes/Events/Details.jsx:54-59 | Empty lists, loading, an empty query, and the three sections with nothing expanded. |
| EventDetails.EventManager.EventsFetched | src/pages/ProtectedRoutes/Events/Details.jsx:72-75 | The fetched records become the event list, loading ends, and the shown list is the search over them. See also lines 102-113. |
| EventDetails.EventManager.EventsFailed | src/pages/ProtectedRoutes/Events/Details.jsx:76-79 | A failed fetch only ends loading. |
| EventDetails.EventManager.MembersFetched | src/pages/ProtectedRoutes/Events/Details.jsx:82-95 | The member directory keeps the id, name, department and batch of each record, in order. |
| EventDetails.EventManager.SetSearchQuery | src/pages/ProtectedRoutes/Events/Details.jsx:102-113 | After the search effect runs, the shown list is the search of the event list by the new query; nothing else changes. |
| EventDetails.EventManager.HandleViewToggle | src/pages/ProtectedRoutes/Events/Details.jsx:120-128 | The toggle map becomes the toggle of the old map: the one entry flips and every other entry keeps its value. |
| MembersDetail.SearchMembers | src/pages/ProtectedRoutes/Admin/Members/Detail.jsx:54-65 | The result is an order-preserving sublist. An empty query keeps every record. Otherwise it keeps exactly the records whose name, department or Position contains the query ignoring case; absent fields never match. |
| MembersDetail.ActiveCount | src/pages/ProtectedRoutes/Admin/Members/Detail.jsx:297 | The active count is at most the number shown, and equals it iff every shown record is active. |
| MembersDetail.ActiveAndInactive | src/pages/ProtectedRoutes/Admin/Members/Detail.jsx:292 | Active and inactive records add up to the total shown. See also line 297. |
| MembersDetail.TotalPoints | src/pages/ProtectedRoutes/Admin/Members/Detail.jsx:303 | The total is 0 for no records, and non-negative when every record's points are. Its value is fixed by TotalPointsSingle and TotalPointsAppend. |
| MembersDetail.TotalPointsSingle | src/pages/ProtectedRoutes/Admin/Members/Detail.jsx:303 | One record contributes its Points, or 0 when it has none. |
| MembersDetail.TotalPointsAppend | src/pages/ProtectedRoutes/Admin/Members/Detail.jsx:303 | The total over two stretches of the list is the sum of their totals, so the total is the sum of Points over the shown records. |
| MembersDetail.PointlessRecordAddsNothing | src/pages/ProtectedRoutes/Admin/Members/Detail.jsx:303 | A record without Points counts as 0 wherever it sits. |
| MembersDetail.SearchNeverRaisesTotal | src/pages/ProtectedRoutes/Admin/Members/Detail.jsx:54-65 | Narrowing the search never raises the points total when points are non-negative. See also line 303. |
| MembersDetail.Departments | src/pages/ProtectedRoutes/Admin/Members/Detail.jsx:309 | Exactly the set of department values of the shown records, an absent one counted as one value. There are at most as many as records, and at least one when any record is shown. |
| MembersDetail.DepartmentsComeFromRecords | src/pages/ProtectedRoutes/Admin/Members/Detail.jsx:309 | Every counted department belongs to some shown record. |
| MembersDetail.DepartmentCount | src/pages/ProtectedRoutes/Admin/Members/Detail.jsx:309 | The size of the set of shown department values: at most the number of records, and at least 1 when any is shown. |
| MembersDetail.StatsFooter | src/pages/ProtectedRoutes/Admin/Members/Detail.jsx:288-312 | The footer appears iff loading is over and the list is non-empty. It shows the count, the active count, the points total and the number of distinct departments, which lies between 1 and the count. |
| MembersDetail.PositionColor | src/pages/ProtectedRoutes/Admin/Members/Detail.jsx:94-108 | Each listed position has its colour. The default grey goes exactly to positions not among the nine coloured ones: "Working member" maps to the same grey. |
| MembersDetail.StatusBadgeOf | src/pages/ProtectedRoutes/Admin/Members/Detail.jsx:110-116 | The Active badge iff the record is active. |
| MembersDetail.EditPath | src/pages/ProtectedRoutes/Admin/Members/Detail.jsx:90-92 | The edit path is `/admin/members/` followed by the id. |
| MembersDetail.EditPathInjective | src/pages/ProtectedRoutes/Admin/Members/Detail.jsx:90-92 | Different ids never share an edit path. |
| MembersDetail.EmptyStateHint | src/pages/ProtectedRoutes/Admin/Members/Detail.jsx:281 | The hint suggests adjusting the query iff a query is set. |
| Teams.SearchTeams | src/pages/ProtectedRoutes/Admin/Teams.jsx:122-134 | The result is an order-preserving sublist. An empty query keeps every team. Otherwise it keeps exactly the teams whose name, or some captain's name, contains the query ignoring case. |
| Teams.CaptainFindsTeam | src/pages/ProtectedRoutes/Admin/Teams.jsx:126-128 | Searching for a captain's name always shows that captain's team. |
| Teams.FooterOf | src/pages/ProtectedRoutes/Admin/Teams.jsx:331-356 | The team count is the number of teams, and the captain count is non-negative. The member total is non-negative when every team's is. Everything is 0 for no teams. The sums are fixed by FooterSingle and FooterAppend. |
| Teams.FooterSingle | src/pages/ProtectedRoutes/Admin/Teams.jsx:331-356 | One team's footer is one team, its members, its points and its number of captains. |
| Teams.FooterAppend | src/pages/ProtectedRoutes/Admin/Teams.jsx:331-356 | Every footer figure over two stretches of the team list is the sum of the figures of each, so members, points and captains are sums over all teams. |
| Teams.PageOf | src/pages/ProtectedRoutes/Admin/Teams.jsx:331-356 | The page shows the search result and the footer of the whole team list. See also lines 122-134. |
| Teams.FooterIgnoresSearch | src/pages/ProtectedRoutes/Admin/Teams.jsx:334-351 | Every query shows the same footer totals. |
| Teams.MockFooter | src/pages/ProtectedRoutes/Admin/Teams.jsx:24-106 | The shipped team list gives 3 teams, 87 members, 4580 points and 6 captains. See also lines 331-356. |
| Teams.PerformanceColor | src/pages/ProtectedRoutes/Admin/Teams.jsx:136-143 | Excellent, Good and Improving get their classes; anything else gets the default grey. |
| Teams.RankBadge | src/pages/ProtectedRoutes/Admin/Teams.jsx:145-152 | Ranks 1, 2 and 3 get their classes; every other rank gets the default blue. |
| Teams.EmptyState | src/pages/ProtectedRoutes/Admin/Teams.jsx:320-327 | "No teams found" appears iff nothing is shown, and its hint suggests adjusting the query iff a query is set. |
| MyTeam.SearchMembers | src/pages/ProtectedRoutes/Coordinator/MyTeam.jsx:143-154 | The result is an order-preserving sublist. An empty query keeps every member. Otherwise it keeps exactly the members whose name, position or email contains the query ignoring case. |
| MyTeam.SearchIgnoresQueryCase | src/pages/ProtectedRoutes/Coordinator/MyTeam.jsx:143-154 | Searching with the query or its lower-cased form gives the same list. |
| MyTeam.PerformanceColor | src/pages/ProtectedRoutes/Coordinator/MyTeam.jsx:156-163 | Excellent, Good and Average get their classes; anything else gets the default grey. |
| MyTeam.StatusColor | src/pages/ProtectedRoutes/Coordinator/MyTeam.jsx:165-169 | Green iff the status is exactly "active", grey otherwise. |
| MyTeam.EmptyState | src/pages/ProtectedRoutes/Coordinator/MyTeam.jsx:488-496 | The block appears iff the members tab is active and nothing is shown. Its hint suggests adjusting the query iff a query is set. |
| MyTeam.EmptyWithoutQueryMeansNoMembers | src/pages/ProtectedRoutes/Coordinator/MyTeam.jsx:488-496 | With no query, the empty state means the team has no members. See also lines 143-154. |
| EventForm.Validate | src/pages/ProtectedRoutes/Events/EventForm.jsx:39-49 | The values parse iff Name, Date, Venue, Type and Description are non-empty strings, Mode is Online, Offline or Both, and each participant list, when present, is a list of strings. On failure, the issues are exactly the failing fields. |
| EventForm.SchemaOkIffFieldsOk | src/pages/ProtectedRoutes/Events/EventForm.jsx:39-49 | The whole schema holds iff each of its nine field rules holds. |
| EventForm.DefaultsRejected | src/pages/ProtectedRoutes/Events/EventForm.jsx:66-76 | The default values fail exactly on Name, Date, Mode, Venue, Type and Description, in that order. See also lines 39-49. |
| EventForm.EditValues | src/pages/ProtectedRoutes/Events/EventForm.jsx:93-102 | Loading an event sets exactly the nine schema fields. |
| EventForm.LoadedRecordValid | src/pages/ProtectedRoutes/Events/EventForm.jsx:93-102 | A loaded record can be saved unchanged iff its required text fields are non-empty and its Mode is one of the three. See also lines 39-49. |
| EventForm.LoadedRecordData | src/pages/ProtectedRoutes/Events/EventForm.jsx:93-102 | A loaded record's strings come back unchanged, and its absent participant lists come back as empty lists. |
| EventForm.WhoPassesTheGate | src/pages/ProtectedRoutes/Events/EventForm.jsx:135-136 | Admins are never denied. Creating (no event loaded) is never denied. The event's own creator is not denied. |
| EventForm.Denied | src/pages/ProtectedRoutes/Events/EventForm.jsx:135-136 | A non-admin editing a loaded event is denied unless its creator and the user match under strict equality: both absent, or the user's display name equal to the creator. |
| EventForm.NamelessUserDenied | src/pages/ProtectedRoutes/Events/EventForm.jsx:135-136 | A non-admin without a display name is denied every loaded event, even one without `Created_by`. |
| EventForm.Author | src/pages/ProtectedRoutes/Events/EventForm.jsx:150 | The author is the display name unless it is absent or empty, then the email. With no user, the expression throws. See also line 155. |
| EventForm.DataFields | src/pages/ProtectedRoutes/Events/EventForm.jsx:147-152 | The body's data part never carries `Updated_by` or `Created_by`. |
| EventForm.Body | src/pages/ProtectedRoutes/Events/EventForm.jsx:147-155 | The body holds every submitted field unchanged and `Updated_by` set to the author. It holds `Created_by`, set to the same author, iff creating, and nothing else. |
| EventForm.BodyParsesBack | src/pages/ProtectedRoutes/Events/EventForm.jsx:147-155 | The body validates to the same data as the submitted values: the schema ignores the two author fields. See also lines 39-49. |
| EventForm.SubmitData | src/pages/ProtectedRoutes/Events/EventForm.jsx:132-171 | The handler denies iff the gate denies. It stops at the missing user iff the gate passes and nobody is signed in. Otherwise it sends a POST iff creating, reporting the table's answer. |
| EventForm.SubmitOutcome | src/pages/ProtectedRoutes/Events/EventForm.jsx:132-171 | The values are rejected iff the schema fails. Permission is denied iff they pass and the gate denies. A request goes out only for valid values, a passing gate and a signed-in user: POST iff creating. See also lines 39-49. |
| EventForm.SentBodyContents | src/pages/ProtectedRoutes/Events/EventForm.jsx:147-155 | A sent body carries every submitted field and `Updated_by` set to the author. It carries `Created_by`, set to the same author, iff creating, and parses back to the submitted data. |
| EventForm.EditPatchesRoute | src/pages/ProtectedRoutes/Events/EventForm.jsx:163-164 | An edit sends its PATCH to the record the route names. |
| EventForm.SignedOutEditorStoppedByMissingUser | src/pages/ProtectedRoutes/Events/EventForm.jsx:135-150 | A signed-out visitor editing an event without `Created_by` passes the gate (undefined equals undefined) and is stopped only when the author is read. |
| EventForm.EventFormState.constructor | src/pages/ProtectedRoutes/Events/EventForm.jsx:64-88 | The form starts in create mode with the default values, and starts loading when the route names an event. |
| EventForm.EventFormState.EventLoaded | src/pages/ProtectedRoutes/Events/EventForm.jsx:90-106 | Loading overwrites the nine schema fields with the record's values and switches to editing that record. |
| EventForm.EventFormState.EventLoadFailed | src/pages/ProtectedRoutes/Events/EventForm.jsx:107-110 | A failed load only ends loading and stays in create mode. |
| EventForm.EventFormState.SetValue | src/pages/ProtectedRoutes/Events/EventForm.jsx:66-76 | Editing one field changes that value only. |
| EventForm.EventFormState.HandleSubmit | src/pages/ProtectedRoutes/Events/EventForm.jsx:132-182 | The outcome is the reference outcome of the old state. The values reset to the defaults only after an accepted creation, and `submitLoading` is back to false. See also lines 39-49. |
| EventForm.EventFormState.OnSubmit | src/pages/ProtectedRoutes/Events/EventForm.jsx:132-182 | The step-by-step handler's outcome is the reference reading of `onSubmit`. The values reset to the defaults only after an accepted POST, and `submitLoading` is lowered on every path. |
| Common.Trim | src/pages/Myscore/index.jsx:37 | The result has no leading or trailing white space and is the input with only white space removed from both ends. |
| Common.Lower | src/pages/Myscore/index.jsx:37 | Lower-casing keeps the length and maps each character to its lower-case form. |
| Common.ContainsIffOccurs | src/pages/ProtectedRoutes/Events/Details.jsx:105-107 | `includes` holds iff the query occurs at some position of the text. |
| Common.IgnoresQueryCase | src/pages/ProtectedRoutes/Events/Details.jsx:105-107 | Case-insensitive containment gives the same answer for the query and its lower-cased form. |
| Common.SearchList | src/pages/ProtectedRoutes/Events/Details.jsx:102-113 | The shared search shape: an order-preserving sublist, the whole list for the empty query, and otherwise exactly the matching elements with every copy kept. |

## Left out

- I/O: the Airtable requests (`fetchRecords`, `fetchSingleRecord`, `CrudRecords`) and Firebase sign-in are not part of this model. Fetched records are inputs, and the outcome of a write is the parameter `accepted`.
- React effects, async ordering, toasts, `alert`, `navigate` (including `navigate(-1)` after an edit), animations and loading skeletons are not modelled beyond the state they set.
- Deleting an event or a member (`handleDelete`) is only a request followed by a refetch, so it is left out with the rest of I/O.
- Date formatting with `toLocaleDateString` depends on locale data and is left out.
- Common.Lower: lower-cases ASCII letters only; JavaScript's `toLowerCase` follows Unicode case mapping, which is not modelled.
- The `Image` attachment field is always non-empty when present: Airtable omits an empty attachment field. A present but empty `Image` array would make the My Score page throw, because `[]` is truthy in JavaScript. That case is not modelled.
- ScoreList.SortByPoints: requires every record to have Points. With an absent Points, the source's comparator returns NaN and the order is not consistent, so nothing is claimed for that case.
- ScoreList.FilterByName: requires every record to have a name. The source throws on a nameless record, and that failure path is not modelled.
- On the My Score page, a nameless record reached by the lookup throws. The model keeps the page unchanged, as the uncaught rejection does. The console error it prints is not modelled.
- The colour lookups of the source index plain objects, so a key such as `constructor` would return an inherited property. Only string keys that are not inherited names are modelled.
- EventForm.Validate: reports the failing fields but not zod's error messages.
- A loaded event without a `fields` object (the `Records && Records.fields` guard) is not modelled: every loaded record has its fields.
- EventForm.EventFormState.HandleSubmit and OnSubmit: the request is not sent from inside the method. The table's answer is the `accepted` parameter, and an error it raises is `accepted == false`.
- The coordinator team page's mock member list and its other tabs (performance, events) are display data and are not modelled. The search, badges and empty state are modelled over any member list.
- The teams page's one-second loading timer is not modelled.
