/** The event create/edit form: the field rules of its schema, the values loaded into it
    for editing, and the submit handler that checks the editor's permission and builds the
    request body sent to the `Events` table. */
module EventForm {
  import opened Common
  import opened Records
  import opened Session

  // ---------------------------------------------------------------------------
  // Form values and the schema
  // ---------------------------------------------------------------------------

  /** A form value as the schema sees it. */
  datatype Value = Absent | Str(s: string) | Arr(items: seq<Value>) | Num(n: int)

  /** The `Events` fields the form and its request body use. */
  datatype Field = Name | Date | Mode | Venue | Type | Description | Coordinators | Attendees
                 | Volunteers | UpdatedBy | CreatedBy

  /** The Airtable column each field is sent as. */
  function ColumnName(f: Field): string
  {
    match f
    case Name => "Name"
    case Date => "Date"
    case Mode => "Mode"
    case Venue => "Venue"
    case Type => "Type"
    case Description => "Description"
    case Coordinators => "Coordinators"
    case Attendees => "Attendees"
    case Volunteers => "Volunteers"
    case UpdatedBy => "Updated_by"
    case CreatedBy => "Created_by"
  }

  /** The form's values by field; a missing key is an absent value. */
  type Form = map<Field, Value>

  function Get(form: Form, k: Field): Value
  {
    if k in form then form[k] else Absent
  }

  /** The fields the schema knows, in declaration order. */
  const SchemaFields: seq<Field> :=
    [Name, Date, Mode, Venue, Type, Description, Coordinators, Attendees, Volunteers]

  const Modes: set<string> := {"Online", "Offline", "Both"}

  /** `z.string().min(1)`: a string of at least one character (white space counts). */
  predicate TextOk(v: Value)
  {
    v.Str? && |v.s| >= 1
  }

  /** `z.enum(['Online', 'Offline', 'Both'])`. */
  predicate ModeOk(v: Value)
  {
    v.Str? && v.s in Modes
  }

  predicate IsStringList(v: Value)
  {
    v.Arr? && forall i :: 0 <= i < |v.items| ==> v.items[i].Str?
  }

  /** `z.array(z.string()).optional()`. */
  predicate OptionalListOk(v: Value)
  {
    v.Absent? || IsStringList(v)
  }

  /** The whole schema, field by field. */
  predicate SchemaOk(form: Form)
  {
    TextOk(Get(form, Name)) && TextOk(Get(form, Date)) && ModeOk(Get(form, Mode))
    && TextOk(Get(form, Venue)) && TextOk(Get(form, Type)) && TextOk(Get(form, Description))
    && OptionalListOk(Get(form, Coordinators)) && OptionalListOk(Get(form, Attendees))
    && OptionalListOk(Get(form, Volunteers))
  }

  /** The rule the schema applies to one field name; other names are not checked. */
  predicate FieldOk(form: Form, k: Field)
  {
    var v := Get(form, k);
    match k
    case Mode => ModeOk(v)
    case Name | Date | Venue | Type | Description => TextOk(v)
    case Coordinators | Attendees | Volunteers => OptionalListOk(v)
    case UpdatedBy | CreatedBy => true
  }

  function Fails(form: Form): Field -> bool
  {
    (k: Field) => !FieldOk(form, k)
  }

  lemma SchemaOkIffFieldsOk(form: Form)
    ensures SchemaOk(form) <==> forall i :: 0 <= i < |SchemaFields| ==> FieldOk(form, SchemaFields[i])
  {
    if !SchemaOk(form) {
      if !TextOk(Get(form, Name)) { assert !FieldOk(form, SchemaFields[0]); }
      else if !TextOk(Get(form, Date)) { assert !FieldOk(form, SchemaFields[1]); }
      else if !ModeOk(Get(form, Mode)) { assert !FieldOk(form, SchemaFields[2]); }
      else if !TextOk(Get(form, Venue)) { assert !FieldOk(form, SchemaFields[3]); }
      else if !TextOk(Get(form, Type)) { assert !FieldOk(form, SchemaFields[4]); }
      else if !TextOk(Get(form, Description)) { assert !FieldOk(form, SchemaFields[5]); }
      else if !OptionalListOk(Get(form, Coordinators)) { assert !FieldOk(form, SchemaFields[6]); }
      else if !OptionalListOk(Get(form, Attendees)) { assert !FieldOk(form, SchemaFields[7]); }
      else { assert !FieldOk(form, SchemaFields[8]); }
    }
  }

  /** The parsed values `onSubmit` receives. */
  datatype EventData = EventData(name: string, date: string, mode: string, venue: string,
                                 eventType: string, description: string,
                                 coordinators: Option<seq<string>>, attendees: Option<seq<string>>,
                                 volunteers: Option<seq<string>>)

  function Strings(v: Value): (r: seq<string>)
    requires IsStringList(v)
    ensures |r| == |v.items|
  {
    seq(|v.items|, i requires 0 <= i < |v.items| => v.items[i].s)
  }

  function OptionalStrings(v: Value): Option<seq<string>>
    requires OptionalListOk(v)
  {
    if v.Absent? then None else Some(Strings(v))
  }

  function DataOf(form: Form): EventData
    requires SchemaOk(form)
  {
    EventData(Get(form, Name).s, Get(form, Date).s, Get(form, Mode).s, Get(form, Venue).s,
              Get(form, Type).s, Get(form, Description).s,
              OptionalStrings(Get(form, Coordinators)), OptionalStrings(Get(form, Attendees)),
              OptionalStrings(Get(form, Volunteers)))
  }

  datatype Validation = Valid(data: EventData) | Invalid(issues: seq<Field>)

  /** The schema's verdict: the parsed data when every rule holds, otherwise the failing
      fields in declaration order. */
  function Validate(form: Form): (r: Validation)
    ensures r.Valid? <==> SchemaOk(form)
    ensures r.Valid? ==> r.data == DataOf(form)
    ensures r.Invalid? ==> r.issues != []
    ensures r.Invalid? ==> forall i :: 0 <= i < |r.issues| ==>
              r.issues[i] in SchemaFields && !FieldOk(form, r.issues[i])
    ensures r.Invalid? ==> forall i :: 0 <= i < |SchemaFields| && !FieldOk(form, SchemaFields[i]) ==>
              SchemaFields[i] in r.issues
  {
    IssuesExact(form);
    var issues := Filter(SchemaFields, Fails(form));
    if issues == [] then Valid(DataOf(form)) else Invalid(issues)
  }

  /** The failing fields, in declaration order, are exactly the schema fields whose rule
      fails, and there are none exactly when the whole schema holds. */
  lemma IssuesExact(form: Form)
    ensures var issues := Filter(SchemaFields, Fails(form));
            && (issues == [] <==> SchemaOk(form))
            && (forall i :: 0 <= i < |issues| ==> issues[i] in SchemaFields && !FieldOk(form, issues[i]))
            && (forall i :: 0 <= i < |SchemaFields| && !FieldOk(form, SchemaFields[i]) ==>
                  SchemaFields[i] in issues)
  {
    FilterKeepsExactly(SchemaFields, Fails(form));
    SchemaOkIffFieldsOk(form);
  }

  // ---------------------------------------------------------------------------
  // The values the form starts with and is loaded with
  // ---------------------------------------------------------------------------

  function ListValue(ids: seq<string>): (v: Value)
    ensures IsStringList(v) && Strings(v) == ids
  {
    Arr(seq(|ids|, i requires 0 <= i < |ids| => Str(ids[i])))
  }

  const SchemaFieldSet: set<Field> :=
    {Name, Date, Mode, Venue, Type, Description, Coordinators, Attendees, Volunteers}

  /** `defaultValues`: '' for every text field and the mode, [] for every list. */
  function DefaultValue(k: Field): Value
  {
    if k in {Coordinators, Attendees, Volunteers} then ListValue([]) else Str("")
  }

  const DefaultValues: Form := map k | k in SchemaFieldSet :: DefaultValue(k)

  /** The six required fields, in schema order, and the three participant lists. */
  const RequiredFields: seq<Field> := [Name, Date, Mode, Venue, Type, Description]
  const ListFields: seq<Field> := [Coordinators, Attendees, Volunteers]

  /** Every required field fails on its default value. */
  lemma RequiredFail()
    ensures Filter(RequiredFields, Fails(DefaultValues)) == RequiredFields
  {
    var f := DefaultValues;
    assert Get(f, Name) == Str("") && Get(f, Date) == Str("") && Get(f, Mode) == Str("");
    assert Get(f, Venue) == Str("") && Get(f, Type) == Str("") && Get(f, Description) == Str("");
    FilterKeepsAll(RequiredFields, Fails(f));
  }

  /** Every participant list passes on its default value. */
  lemma ListsPass()
    ensures Filter(ListFields, Fails(DefaultValues)) == []
  {
    var f := DefaultValues;
    assert Get(f, Coordinators) == ListValue([]) && Get(f, Attendees) == ListValue([]);
    assert Get(f, Volunteers) == ListValue([]);
    FilterKeepsNone(ListFields, Fails(f));
  }

  /** A fresh form cannot be submitted: the six required fields are reported, in order. */
  lemma DefaultsRejected()
    ensures Validate(DefaultValues) == Invalid([Name, Date, Mode, Venue, Type, Description])
  {
    DefaultIssues();
    assert Filter(SchemaFields, Fails(DefaultValues)) != [];
  }

  /** The failing fields of the default values. */
  lemma DefaultIssues()
    ensures Filter(SchemaFields, Fails(DefaultValues)) == [Name, Date, Mode, Venue, Type, Description]
  {
    RequiredFail();
    ListsPass();
    FilterOfSplit(RequiredFields, ListFields, Fails(DefaultValues));
    assert SchemaFields == RequiredFields + ListFields;
  }

  function TextOr(o: Option<string>): string
  {
    if o.Some? then o.value else ""
  }

  /** `fetchEventData`'s `setValue` for one field: the record's value, with '' for an absent
      text field (Mode included) and [] for an absent participant list. */
  function EditValue(rec: Event, k: Field): Value
  {
    match k
    case Name => Str(TextOr(rec.name))
    case Date => Str(TextOr(rec.date))
    case Mode => Str(TextOr(rec.mode))
    case Venue => Str(TextOr(rec.venue))
    case Type => Str(TextOr(rec.eventType))
    case Description => Str(TextOr(rec.description))
    case Coordinators => ListValue(OrEmpty(rec.coordinators))
    case Attendees => ListValue(OrEmpty(rec.attendees))
    case Volunteers => ListValue(OrEmpty(rec.volunteers))
    case UpdatedBy | CreatedBy => Absent
  }

  /** The nine values `fetchEventData` sets. */
  function EditValues(rec: Event): (f: Form)
    ensures forall k :: k in f <==> k in SchemaFieldSet
    ensures forall k :: Get(f, k) == EditValue(rec, k)
  {
    map k | k in SchemaFieldSet :: EditValue(rec, k)
  }

  /** Whether a record passes the schema once loaded into the form: its required fields
      are present and non-empty and its Mode is one of the three modes. */
  predicate LoadableRecord(rec: Event)
  {
    TextOr(rec.name) != "" && TextOr(rec.date) != "" && TextOr(rec.mode) in Modes
    && TextOr(rec.venue) != "" && TextOr(rec.eventType) != "" && TextOr(rec.description) != ""
  }

  lemma EditValuesSchema(rec: Event)
    ensures SchemaOk(EditValues(rec)) <==> LoadableRecord(rec)
  {
    var f := EditValues(rec);
    assert TextOk(Get(f, Name)) <==> TextOr(rec.name) != "";
    assert TextOk(Get(f, Date)) <==> TextOr(rec.date) != "";
    assert ModeOk(Get(f, Mode)) <==> TextOr(rec.mode) in Modes;
    assert TextOk(Get(f, Venue)) <==> TextOr(rec.venue) != "";
    assert TextOk(Get(f, Type)) <==> TextOr(rec.eventType) != "";
    assert TextOk(Get(f, Description)) <==> TextOr(rec.description) != "";
    assert OptionalListOk(Get(f, Coordinators)) && OptionalListOk(Get(f, Attendees))
           && OptionalListOk(Get(f, Volunteers));
  }

  /** A loaded record can be saved again unchanged exactly when it is loadable. */
  lemma LoadedRecordValid(rec: Event)
    ensures Validate(EditValues(rec)).Valid? <==> LoadableRecord(rec)
  {
    EditValuesSchema(rec);
  }

  /** What a loaded record puts back into the parsed data: its own strings and lists, absent
      lists becoming empty ones. */
  lemma LoadedRecordData(rec: Event)
    requires LoadableRecord(rec)
    ensures Validate(EditValues(rec)).Valid?
    ensures var d := Validate(EditValues(rec)).data;
            Some(d.name) == rec.name && Some(d.date) == rec.date && Some(d.mode) == rec.mode
            && Some(d.venue) == rec.venue && Some(d.eventType) == rec.eventType
            && Some(d.description) == rec.description
            && d.coordinators == Some(OrEmpty(rec.coordinators))
            && d.attendees == Some(OrEmpty(rec.attendees))
            && d.volunteers == Some(OrEmpty(rec.volunteers))
  {
    DataOfEditValues(rec);
    ValidatesTo(EditValues(rec));
  }

  /** Values the schema accepts validate to their parsed data. */
  lemma ValidatesTo(form: Form)
    requires SchemaOk(form)
    ensures Validate(form) == Valid(DataOf(form))
  {
  }

  /** The parsed data of a loadable record's values. */
  lemma DataOfEditValues(rec: Event)
    requires LoadableRecord(rec)
    ensures SchemaOk(EditValues(rec))
    ensures DataOf(EditValues(rec))
            == EventData(rec.name.value, rec.date.value, rec.mode.value, rec.venue.value,
                         rec.eventType.value, rec.description.value,
                         Some(OrEmpty(rec.coordinators)), Some(OrEmpty(rec.attendees)),
                         Some(OrEmpty(rec.volunteers)))
  {
    EditValuesSchema(rec);
    EditValuesAt(rec);
  }

  /** The nine loaded values, field by field. */
  lemma EditValuesAt(rec: Event)
    ensures var f := EditValues(rec);
            && Get(f, Name) == Str(TextOr(rec.name)) && Get(f, Date) == Str(TextOr(rec.date))
            && Get(f, Mode) == Str(TextOr(rec.mode)) && Get(f, Venue) == Str(TextOr(rec.venue))
            && Get(f, Type) == Str(TextOr(rec.eventType))
            && Get(f, Description) == Str(TextOr(rec.description))
            && Get(f, Coordinators) == ListValue(OrEmpty(rec.coordinators))
            && Get(f, Attendees) == ListValue(OrEmpty(rec.attendees))
            && Get(f, Volunteers) == ListValue(OrEmpty(rec.volunteers))
  {
  }

  // ---------------------------------------------------------------------------
  // The permission gate and the author
  // ---------------------------------------------------------------------------

  /** `createdBy !== user?.displayName` with JavaScript's strict equality: an absent
      `Created_by` equals only `undefined`, never `null`. */
  predicate StrictEquals(field: Option<string>, v: JsText)
  {
    match field
    case None => v.Undefined?
    case Some(s) => v == Text(s)
  }

  /** The permission gate of `onSubmit`: a non-admin editing an event is turned away unless
      the event's creator is the signed-in user's display name. Strict equality makes an
      event without a creator editable only when nobody is signed in, and an event with one
      never editable by a signed-out user or by a user without a display name. */
  function Denied(event: Option<Event>, role: Option<string>, user: Option<User>): (d: bool)
    ensures d <==> event.Some? && role != Some("admin")
                   && !(|| (user.None? && event.value.createdBy.None?)
                        || (user.Some? && event.value.createdBy.Some?
                            && user.value.displayName == event.value.createdBy))
  {
    event.Some? && !HasRole(role, "admin") && !StrictEquals(event.value.createdBy, DisplayNameOf(user))
  }

  /** Admins, and anyone creating (no event loaded), pass the gate. */
  lemma WhoPassesTheGate(event: Option<Event>, role: Option<string>, user: Option<User>)
    ensures HasRole(role, "admin") ==> !Denied(event, role, user)
    ensures event.None? ==> !Denied(event, role, user)
    ensures event.Some? && user.Some? && user.value.displayName.Some?
            && event.value.createdBy == user.value.displayName
            ==> !Denied(event, role, user)
  {
  }

  /** A signed-in user without a display name is denied every event, even one without a
      `Created_by`: `undefined !== null`. */
  lemma NamelessUserDenied(event: Event, role: Option<string>, email: string)
    requires !HasRole(role, "admin")
    ensures Denied(Some(event), role, Some(User(None, email)))
  {
  }

  /** `user?.displayName || user.email`: the display name unless it is null or empty, then
      the email; with no user at all the second operand throws (None). */
  function Author(user: Option<User>): (a: Option<string>)
    ensures a.None? <==> user.None?
    ensures user.Some? && user.value.displayName.Some? && user.value.displayName.value != "" ==>
              a == user.value.displayName
    ensures user.Some? && (user.value.displayName.None? || user.value.displayName.value == "") ==>
              a == Some(user.value.email)
  {
    match user
    case None => None
    case Some(u) => if u.displayName.Some? && u.displayName.value != "" then u.displayName else Some(u.email)
  }

  // ---------------------------------------------------------------------------
  // The request body
  // ---------------------------------------------------------------------------

  /** The value `...data` puts under one field: the parsed strings, an optional list only
      when it is present, and nothing under the two author fields. */
  function DataValue(data: EventData, k: Field): Value
  {
    match k
    case Name => Str(data.name)
    case Date => Str(data.date)
    case Mode => Str(data.mode)
    case Venue => Str(data.venue)
    case Type => Str(data.eventType)
    case Description => Str(data.description)
    case Coordinators => if data.coordinators.Some? then ListValue(data.coordinators.value) else Absent
    case Attendees => if data.attendees.Some? then ListValue(data.attendees.value) else Absent
    case Volunteers => if data.volunteers.Some? then ListValue(data.volunteers.value) else Absent
    case UpdatedBy | CreatedBy => Absent
  }

  /** `...data`: the parsed fields, optional lists only when present. */
  function DataFields(data: EventData): (f: Form)
    ensures UpdatedBy !in f && CreatedBy !in f
    ensures forall k :: Get(f, k) == DataValue(data, k)
  {
    map k | k in SchemaFieldSet && DataValue(data, k) != Absent :: DataValue(data, k)
  }

  /** `bodyData.fields`: the data plus `Updated_by`, and `Created_by` too when creating. */
  function Body(data: EventData, author: string, creating: bool): (b: Form)
    ensures forall k :: k in DataFields(data) ==> k in b && b[k] == DataFields(data)[k]
    ensures UpdatedBy in b && b[UpdatedBy] == Str(author)
    ensures CreatedBy in b <==> creating
    ensures creating ==> b[CreatedBy] == Str(author)
    ensures b.Keys == DataFields(data).Keys + {UpdatedBy} + (if creating then {CreatedBy} else {})
  {
    var fields := DataFields(data)[UpdatedBy := Str(author)];
    if creating then fields[CreatedBy := Str(author)] else fields
  }

  /** A string list is rebuilt unchanged from its strings. */
  lemma ListValueOfStrings(v: Value)
    requires IsStringList(v)
    ensures ListValue(Strings(v)) == v
  {
    assert ListValue(Strings(v)).items == v.items;
  }

  /** On every schema field the body holds exactly the submitted value. */
  lemma BodyAgrees(form: Form, author: string, creating: bool, k: Field)
    requires SchemaOk(form) && k in SchemaFieldSet
    ensures Get(Body(DataOf(form), author, creating), k) == Get(form, k)
  {
    var d := DataOf(form);
    assert Get(Body(d, author, creating), k) == DataValue(d, k);
    match k
    case Coordinators => if Get(form, k).Arr? { ListValueOfStrings(Get(form, k)); }
    case Attendees => if Get(form, k).Arr? { ListValueOfStrings(Get(form, k)); }
    case Volunteers => if Get(form, k).Arr? { ListValueOfStrings(Get(form, k)); }
    case _ =>
  }

  /** The body parses back to the submitted data: the schema ignores the two author fields. */
  lemma BodyParsesBack(form: Form, author: string, creating: bool)
    requires SchemaOk(form)
    ensures Validate(Body(DataOf(form), author, creating)) == Validate(form)
  {
    var b := Body(DataOf(form), author, creating);
    BodyAgrees(form, author, creating, Name);
    BodyAgrees(form, author, creating, Date);
    BodyAgrees(form, author, creating, Mode);
    BodyAgrees(form, author, creating, Venue);
    BodyAgrees(form, author, creating, Type);
    BodyAgrees(form, author, creating, Description);
    BodyAgrees(form, author, creating, Coordinators);
    BodyAgrees(form, author, creating, Attendees);
    BodyAgrees(form, author, creating, Volunteers);
    assert SchemaOk(b);
    assert DataOf(b) == DataOf(form);
  }

  // ---------------------------------------------------------------------------
  // Submitting
  // ---------------------------------------------------------------------------

  /** `mode`: 'create', or 'edit' of the record named by the route's id. */
  datatype FormMode = Create | Edit(id: string)

  datatype Request = Post(body: Form) | Patch(id: string, body: Form)

  /** What a submit attempt does: the schema rejects the values and `onSubmit` is never
      called; the gate denies; reading `user.email` throws; or a request is sent, which the
      table accepts or not. */
  datatype Outcome = Rejected(issues: seq<Field>) | PermissionDenied | NoUser | Sent(request: Request, ok: bool)

  /** The reference reading of `onSubmit(data)`: the gate, then the author, then the request. */
  function SubmitData(mode: FormMode, event: Option<Event>, data: EventData, role: Option<string>,
                      user: Option<User>, accepted: bool): (o: Outcome)
    ensures !o.Rejected?
    ensures o.PermissionDenied? <==> Denied(event, role, user)
    ensures o.NoUser? <==> !Denied(event, role, user) && user.None?
    ensures o.Sent? ==> (o.request.Post? <==> mode.Create?) && o.ok == accepted
  {
    if Denied(event, role, user) then PermissionDenied
    else match Author(user)
      case None => NoUser
      case Some(author) =>
        if mode.Create? then Sent(Post(Body(data, author, true)), accepted)
        else Sent(Patch(mode.id, Body(data, author, false)), accepted)
  }

  /** The reference reading of `form.handleSubmit(onSubmit)`: `onSubmit` runs only on values
      the schema accepts. */
  function SubmitOutcome(mode: FormMode, event: Option<Event>, form: Form, role: Option<string>,
                         user: Option<User>, accepted: bool): (o: Outcome)
    ensures o.Rejected? <==> !SchemaOk(form)
    ensures o.PermissionDenied? <==> SchemaOk(form) && Denied(event, role, user)
    ensures o.Sent? ==> SchemaOk(form) && !Denied(event, role, user) && user.Some?
    ensures o.Sent? ==> (o.request.Post? <==> mode.Create?)
  {
    match Validate(form)
    case Invalid(issues) => Rejected(issues)
    case Valid(data) => SubmitData(mode, event, data, role, user, accepted)
  }

  /** A sent body carries every submitted field, `Updated_by` set to the author, and
      `Created_by` set to the same author exactly when creating. */
  lemma SentBodyContents(mode: FormMode, event: Option<Event>, form: Form, role: Option<string>,
                         user: Option<User>, accepted: bool)
    requires SubmitOutcome(mode, event, form, role, user, accepted).Sent?
    ensures var b := SubmitOutcome(mode, event, form, role, user, accepted).request.body;
            var author := Author(user).value;
            (forall k :: k in DataFields(DataOf(form)) ==> k in b && b[k] == DataFields(DataOf(form))[k])
            && b[UpdatedBy] == Str(author)
            && (CreatedBy in b <==> mode.Create?)
            && (mode.Create? ==> b[CreatedBy] == Str(author))
            && Validate(b) == Validate(form)
  {
    BodyParsesBack(form, Author(user).value, mode.Create?);
  }

  /** Editing goes to the record the route names. */
  lemma EditPatchesRoute(id: string, event: Option<Event>, form: Form, role: Option<string>,
                         user: Option<User>, accepted: bool)
    requires SubmitOutcome(Edit(id), event, form, role, user, accepted).Sent?
    ensures SubmitOutcome(Edit(id), event, form, role, user, accepted).request.id == id
  {
  }

  /** A signed-out visitor editing an event that has no `Created_by` gets past the gate,
      since `undefined === undefined`, and is stopped only by the missing user. */
  lemma SignedOutEditorStoppedByMissingUser(id: string, event: Event, form: Form, role: Option<string>,
                                            accepted: bool)
    requires SchemaOk(form) && event.createdBy.None?
    ensures !Denied(Some(event), role, None)
    ensures SubmitOutcome(Edit(id), Some(event), form, role, None, accepted) == NoUser
  {
  }

  /** The form component's state. */
  class EventFormState {
    var mode: FormMode
    var event: Option<Event>
    var values: Form
    var submitLoading: bool
    var loadingData: bool

    /** A loaded event and the edit mode go together, and no submit is in flight between
        handler runs. */
    ghost predicate Valid()
      reads this
    {
      (mode.Edit? <==> event.Some?) && !submitLoading
    }

    /** A fresh form; with an id in the route it starts loading that event. */
    constructor(routeId: Option<string>)
      ensures Valid()
      ensures mode == Create && event.None? && values == DefaultValues
      ensures loadingData == routeId.Some?
    {
      mode := Create;
      event := None;
      values := DefaultValues;
      submitLoading := false;
      loadingData := routeId.Some?;
    }

    /** `fetchEventData` succeeding: fill the nine fields, keep the record, switch to edit. */
    method EventLoaded(id: string, rec: Event)
      requires Valid()
      modifies this
      ensures Valid()
      ensures values == old(values) + EditValues(rec)
      ensures mode == Edit(id) && event == Some(rec) && !loadingData
    {
      values := values + EditValues(rec);
      loadingData := false;
      event := Some(rec);
      mode := Edit(id);
    }

    /** `fetchEventData` failing: stop loading, stay in create mode. */
    method EventLoadFailed()
      requires Valid()
      modifies this
      ensures Valid()
      ensures !loadingData && mode == old(mode) && event == old(event) && values == old(values)
    {
      loadingData := false;
    }

    /** The user editing one field. */
    method SetValue(k: Field, v: Value)
      requires Valid()
      modifies this
      ensures Valid()
      ensures values == old(values)[k := v]
      ensures mode == old(mode) && event == old(event) && loadingData == old(loadingData)
    {
      values := values[k := v];
    }

    /** `form.handleSubmit(onSubmit)`: run `onSubmit` only on values the schema accepts. */
    method HandleSubmit(role: Option<string>, user: Option<User>, accepted: bool) returns (outcome: Outcome)
      requires Valid()
      modifies this
      ensures Valid()
      ensures outcome == SubmitOutcome(old(mode), old(event), old(values), role, user, accepted)
      ensures values == if outcome.Sent? && outcome.request.Post? && accepted then DefaultValues
                        else old(values)
      ensures mode == old(mode) && event == old(event) && loadingData == old(loadingData)
    {
      var validation := Validate(values);
      if validation.Invalid? {
        return Rejected(validation.issues);
      }
      outcome := OnSubmit(validation.data, role, user, accepted);
    }

    /** `onSubmit`, step by step: raise `submitLoading`, apply the gate, build the body,
        add `Created_by` when creating, send, reset the form after a successful creation,
        and lower `submitLoading` on every path. The request is sent by the caller, whose
        answer is `accepted`. */
    method OnSubmit(data: EventData, role: Option<string>, user: Option<User>, accepted: bool)
      returns (outcome: Outcome)
      requires Valid()
      modifies this
      ensures Valid()
      ensures outcome == SubmitData(old(mode), old(event), data, role, user, accepted)
      ensures values == if outcome.Sent? && outcome.request.Post? && accepted then DefaultValues
                        else old(values)
      ensures mode == old(mode) && event == old(event) && loadingData == old(loadingData)
    {
      submitLoading := true;
      if event.Some? && !HasRole(role, "admin") {
        if !StrictEquals(event.value.createdBy, DisplayNameOf(user)) {
          submitLoading := false;
          return PermissionDenied;
        }
      }
      var author := Author(user);
      if author.None? {
        outcome := NoUser;
      } else {
        var body := DataFields(data)[UpdatedBy := Str(author.value)];
        if mode.Create? {
          body := body[CreatedBy := Str(author.value)];
          outcome := Sent(Post(body), accepted);
          if accepted {
            values := DefaultValues;
          }
        } else {
          outcome := Sent(Patch(mode.id, body), accepted);
        }
      }
      submitLoading := false;
    }
  }
}
