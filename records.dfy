/** The two Airtable tables the views read, as the records `fetchRecords` returns them.
    Airtable leaves a field out of a record when it is empty, so every field except the
    record id may be absent. */
module Records {
  import opened Common

  /** The `Image` attachment field: Airtable sends at least one attachment or omits the field. */
  type Attachments = s: seq<string> | |s| > 0 witness [""]

  /** A row of the `Events` table. */
  datatype Event = Event(
    id: string,
    name: Option<string>,
    date: Option<string>,
    venue: Option<string>,
    eventType: Option<string>,
    mode: Option<string>,
    description: Option<string>,
    createdBy: Option<string>,
    image: Option<Attachments>,
    coordinators: Option<seq<string>>,
    volunteers: Option<seq<string>>,
    attendees: Option<seq<string>>,
    pointsCoordinator: Option<int>,
    pointsVolunteer: Option<int>,
    pointsAttendee: Option<int>)

  /** A row of the `members` table. `active` is a checkbox: Airtable omits it when unticked. */
  datatype Member = Member(
    id: string,
    name: Option<string>,
    department: Option<string>,
    batch: Option<string>,
    position: Option<string>,
    active: bool,
    points: Option<int>,
    eventsCoordinated: Option<int>,
    eventsVolunteer: Option<int>,
    eventsAttended: Option<int>)
}
