/** `projectForExternal`, packages/cli/src/mcp-server.ts:254-305: what an external caller receives of a
    row. A party it may not see goes, wherever the row names it.

    A row is read from JSON. A field that is absent is JavaScript's `undefined`; a rebuilt record whose
    field is undefined is written without it. */
module ExternalProjection {
  import opened Options
  import opened NoteMask
  import opened MaskingLaws

  /** The fields the projection knows by name, and any other. */
  datatype Field =
    | QitemId | State | DestinationSession | ClosureReason | ClosureTarget | TransitionNote
    | HandedOffTo | BlockedOn | ClosingTransition | HandoffAdvisory | Wake | Waiting | Pickup
    | Ref | Target | Owner | Other(name: string)

  datatype Value =
    | Null
    | Bool(b: bool)
    | Number(n: int)
    | Text(text: string)
    | List(items: seq<Value>)
    | Record(fields: map<Field, Value>)

  type Row = map<Field, Value>

  /** What the caller's scope says of a party, and of a seat inside a note; and how a value prints. */
  datatype Scope = Scope(shows: Option<Value> -> bool, names: string -> bool, printed: Option<Value> -> string)

  function Get(row: Row, k: Field): Option<Value> {
    if k in row then Some(row[k]) else None
  }

  /** `typeof v === "object"`, null apart. */
  predicate IsObject(v: Option<Value>) {
    v.Some? && (v.value.Record? || v.value.List?)
  }

  function Member(v: Option<Value>, k: Field): Option<Value> {
    if v.Some? && v.value.Record? then Get(v.value.fields, k) else None
  }

  /** `v != null`. */
  predicate Given(v: Option<Value>) {
    v.Some? && !v.value.Null?
  }

  predicate IsText(v: Option<Value>) {
    v.Some? && v.value.Text?
  }

  /** `===` between values of one parsed row: two objects are never the same one. */
  predicate Identical(a: Option<Value>, b: Option<Value>) {
    a == b && !IsObject(a)
  }

  // ---------------------------------------------------------------------------------------------
  // A closure target

  /** A reason that always names a party. */
  predicate PartyReason(reason: Option<Value>) {
    || reason == Some(Text("handed_off_to"))
    || reason == Some(Text("escalation"))
    || reason == Some(Text("superseded"))
    || reason == Some(Text("blocked_on"))
  }

  predicate Blocked(state: Option<Value>) {
    state == Some(Text("blocked"))
  }

  /** /^qitem-|@/. */
  predicate NamesSeatOrItem(text: string) {
    "qitem-" <= text || '@' in text
  }

  /** `namesParty`. */
  predicate NamesParty(row: Row) {
    var target := Get(row, ClosureTarget);
    || PartyReason(Get(row, ClosureReason))
    || Blocked(Get(row, State))
    || (IsText(target) && NamesSeatOrItem(target.value.text))
  }

  predicate HiddenClosure(row: Row, scope: Scope) {
    var target := Get(row, ClosureTarget);
    Given(target) && !scope.shows(target) && NamesParty(row)
  }

  /** The note that stands for a hidden closure: the fact, without the party. */
  function ReasonNote(reason: Option<Value>, state: Option<Value>, scope: Scope): string {
    if IsText(reason) then
      var r := reason.value.text;
      if r == "" then ""
      else if r == "handed_off_to" then "handed on (out of scope)"
      else if r == "escalation" then "escalated (out of scope)"
      else if r == "superseded" then "superseded (out of scope)"
      else if r == "blocked_on" then "parked (out of scope)"
      else r + " (out of scope)"
    else if Blocked(state) then "parked (out of scope)"
    else scope.printed(state) + " (out of scope)"
  }

  function ClosureNote(row: Row, scope: Scope): string {
    ReasonNote(Get(row, ClosureReason), Get(row, State), scope)
  }

  function OwnId(row: Row): Option<string> {
    var id := Get(row, QitemId);
    if IsText(id) then Some(id.value.text) else None
  }

  function NoteView(row: Row, scope: Scope): View {
    View(OwnId(row), scope.names)
  }

  // ---------------------------------------------------------------------------------------------
  // What is shown under each key, from the original row alone

  function ShownNote(row: Row, scope: Scope): Option<Value> {
    var note := Get(row, TransitionNote);
    if note.None? then None
    else if HiddenClosure(row, scope) then Some(Text(ClosureNote(row, scope)))
    else if note.value.Text? then Some(Text(Mask(note.value.text, NoteView(row, scope))))
    else note
  }

  predicate HiddenWake(wake: Option<Value>, scope: Scope) {
    IsObject(wake) && Given(Member(wake, Ref)) && !scope.shows(Member(wake, Ref))
  }

  function ShownWake(wake: Option<Value>, scope: Scope): Option<Value> {
    if HiddenWake(wake, scope) then None else wake
  }

  function ShownOwner(owner: Option<Value>, scope: Scope): Option<Value> {
    if IsText(owner) && !scope.shows(owner) then Some(Null) else owner
  }

  function ShownClosure(row: Row, scope: Scope): Option<Value> {
    if HiddenClosure(row, scope) then Some(Null) else Get(row, ClosureTarget)
  }

  function ShownBlocker(blocker: Option<Value>, scope: Scope): Option<Value> {
    if Given(blocker) && !scope.shows(blocker) then Some(Null) else blocker
  }

  function ShownAdvisory(advisory: Option<Value>, scope: Scope): Option<Value> {
    if HiddenAdvisory(advisory, scope) then None else advisory
  }

  predicate HiddenAdvisory(advisory: Option<Value>, scope: Scope) {
    IsObject(advisory) && !scope.shows(Member(advisory, Target))
  }

  function Pair(k: Field, a: Option<Value>, l: Field, b: Option<Value>): Value {
    var first := if a.Some? then map[k := a.value] else map[];
    Record(if b.Some? then first[l := b.value] else first)
  }

  function ShownWaiting(row: Row): Option<Value> {
    var waiting := Get(row, Waiting);
    if !IsObject(waiting) then waiting
    else if Identical(Member(waiting, Owner), Get(row, DestinationSession)) then
      Some(Pair(Owner, Member(waiting, Owner), State, Member(waiting, State)))
    else None
  }

  function ShownPickup(pickup: Option<Value>): Option<Value> {
    if IsObject(pickup) then Some(Pair(State, Member(pickup, State), State, None)) else pickup
  }

  function Shown(it: Value, k: Field, scope: Scope): Option<Value>
    requires it.Record?
    decreases it, 0
  {
    var row := it.fields;
    var v := Get(row, k);
    if k == TransitionNote then ShownNote(row, scope)
    else if k == Wake then ShownWake(v, scope)
    else if k == HandedOffTo then ShownOwner(v, scope)
    else if k == ClosureTarget then ShownClosure(row, scope)
    else if k == BlockedOn then ShownBlocker(v, scope)
    else if k == ClosingTransition then (if k in row then Some(Project(row[k], scope)) else None)
    else if k == HandoffAdvisory then ShownAdvisory(v, scope)
    else if k == Waiting then ShownWaiting(row)
    else if k == Pickup then ShownPickup(v)
    else v
  }

  function Project(it: Value, scope: Scope): Value
    decreases it, 1
  {
    if it.Record? then Record(map k | k in it.fields && Shown(it, k, scope).Some? :: Shown(it, k, scope).value)
    else it
  }

  // ---------------------------------------------------------------------------------------------
  // `projectForExternal` itself: a copied record, edited field by field

  /** A row after one field is written, or deleted. */
  function Put(row: Row, k: Field, v: Option<Value>): (r: Row)
    ensures Get(r, k) == v
    ensures forall j :: j != k ==> Get(r, j) == Get(row, j)
  {
    if v.Some? then row[k := v.value] else row - {k}
  }

  /** `b` is `a` but for these fields. */
  ghost predicate Only(a: Row, b: Row, ks: set<Field>) {
    forall k :: k !in ks ==> Get(a, k) == Get(b, k)
  }

  lemma OwnNoteDecidesNothing(a: Row, b: Row, scope: Scope)
    requires Only(a, b, {TransitionNote})
    ensures HiddenClosure(a, scope) == HiddenClosure(b, scope)
    ensures ClosureNote(a, scope) == ClosureNote(b, scope)
  {
  }

  method EditNote(row: Row, scope: Scope) returns (fields: Row)
    ensures Only(row, fields, {TransitionNote})
    ensures var note := Get(row, TransitionNote);
      Get(fields, TransitionNote) ==
      if IsText(note) then Some(Text(Mask(note.value.text, NoteView(row, scope)))) else note
  {
    fields := row;
    var note := Get(fields, TransitionNote);
    if IsText(note) {
      var masked := MaskNote(note.value.text, NoteView(fields, scope));
      fields := Put(fields, TransitionNote, Some(Text(masked)));
    }
  }

  method EditOwners(row: Row, scope: Scope) returns (fields: Row)
    ensures Only(row, fields, {Wake, HandedOffTo})
    ensures Get(fields, Wake) == ShownWake(Get(row, Wake), scope)
    ensures Get(fields, HandedOffTo) == ShownOwner(Get(row, HandedOffTo), scope)
  {
    fields := row;
    if HiddenWake(Get(fields, Wake), scope) {
      fields := Put(fields, Wake, None);
    }
    var handedOffTo := Get(fields, HandedOffTo);
    if IsText(handedOffTo) && !scope.shows(handedOffTo) {
      fields := Put(fields, HandedOffTo, Some(Null));
    }
  }

  method EditClosure(row: Row, scope: Scope) returns (fields: Row)
    ensures Only(row, fields, {ClosureTarget, TransitionNote})
    ensures Get(fields, ClosureTarget) == ShownClosure(row, scope)
    ensures Get(fields, TransitionNote) ==
      if HiddenClosure(row, scope) && TransitionNote in row then Some(Text(ClosureNote(row, scope)))
      else Get(row, TransitionNote)
  {
    fields := row;
    if HiddenClosure(fields, scope) {
      fields := Put(fields, ClosureTarget, Some(Null));
      if TransitionNote in fields {
        fields := Put(fields, TransitionNote, Some(Text(ClosureNote(fields, scope))));
      }
    }
  }

  /** `b` is `a` with the parties it names in fields of their own edited, and its note. */
  ghost predicate PartiesEdited(a: Row, b: Row, scope: Scope) {
    && Only(a, b, {TransitionNote, Wake, HandedOffTo, ClosureTarget, BlockedOn})
    && Get(b, TransitionNote) == ShownNote(a, scope)
    && Get(b, Wake) == ShownWake(Get(a, Wake), scope)
    && Get(b, HandedOffTo) == ShownOwner(Get(a, HandedOffTo), scope)
    && Get(b, ClosureTarget) == ShownClosure(a, scope)
    && Get(b, BlockedOn) == ShownBlocker(Get(a, BlockedOn), scope)
  }

  /** `b` is `a` with the views the daemon adds edited. */
  ghost predicate ViewsEdited(a: Row, b: Row, scope: Scope) {
    && Only(a, b, {HandoffAdvisory, Waiting, Pickup})
    && Get(b, HandoffAdvisory) == ShownAdvisory(Get(a, HandoffAdvisory), scope)
    && Get(b, Waiting) == ShownWaiting(a)
    && Get(b, Pickup) == ShownPickup(Get(a, Pickup))
  }

  /** Lines 279-292. */
  method EditParties(row: Row, scope: Scope) returns (fields: Row)
    ensures PartiesEdited(row, fields, scope)
  {
    var noted := EditNote(row, scope);
    OwnNoteDecidesNothing(row, noted, scope);
    var owned := EditOwners(noted, scope);
    OwnersDecideNothing(noted, owned, scope);
    var closed := EditClosure(owned, scope);
    fields := closed;
    var blockedOn := Get(fields, BlockedOn);
    if Given(blockedOn) && !scope.shows(blockedOn) {
      fields := Put(fields, BlockedOn, Some(Null));
    }
    assert Only(closed, fields, {BlockedOn}) && Get(fields, BlockedOn) == ShownBlocker(Get(closed, BlockedOn), scope);
    PartiesCompose(row, noted, owned, closed, fields, scope);
  }

  lemma OwnersDecideNothing(a: Row, b: Row, scope: Scope)
    requires Only(a, b, {Wake, HandedOffTo})
    ensures HiddenClosure(a, scope) == HiddenClosure(b, scope)
    ensures ClosureNote(a, scope) == ClosureNote(b, scope)
  {
  }

  lemma PartiesCompose(row: Row, noted: Row, owned: Row, closed: Row, fields: Row, scope: Scope)
    requires Only(row, noted, {TransitionNote}) && Only(noted, owned, {Wake, HandedOffTo})
    requires Only(owned, closed, {ClosureTarget, TransitionNote}) && Only(closed, fields, {BlockedOn})
    requires var note := Get(row, TransitionNote);
      Get(noted, TransitionNote) ==
      if IsText(note) then Some(Text(Mask(note.value.text, NoteView(row, scope)))) else note
    requires Get(owned, Wake) == ShownWake(Get(noted, Wake), scope)
    requires Get(owned, HandedOffTo) == ShownOwner(Get(noted, HandedOffTo), scope)
    requires Get(closed, ClosureTarget) == ShownClosure(owned, scope)
    requires Get(closed, TransitionNote) ==
      if HiddenClosure(owned, scope) && TransitionNote in owned then Some(Text(ClosureNote(owned, scope)))
      else Get(owned, TransitionNote)
    requires HiddenClosure(owned, scope) == HiddenClosure(row, scope)
    requires ClosureNote(owned, scope) == ClosureNote(row, scope)
    requires Get(fields, BlockedOn) == ShownBlocker(Get(closed, BlockedOn), scope)
    ensures PartiesEdited(row, fields, scope)
  {
    assert TransitionNote in owned <==> Get(owned, TransitionNote).Some?;
    assert TransitionNote in row <==> Get(row, TransitionNote).Some?;
  }

  /** Lines 294-303. */
  method EditViews(row: Row, scope: Scope) returns (fields: Row)
    ensures ViewsEdited(row, fields, scope)
  {
    fields := row;
    if HiddenAdvisory(Get(fields, HandoffAdvisory), scope) {
      fields := Put(fields, HandoffAdvisory, None);
    }
    if IsObject(Get(fields, Waiting)) {
      fields := Put(fields, Waiting, ShownWaiting(fields));
    }
    if IsObject(Get(fields, Pickup)) {
      fields := Put(fields, Pickup, ShownPickup(Get(fields, Pickup)));
    }
  }

  method ProjectForExternal(it: Value, scope: Scope) returns (r: Value)
    ensures r == Project(it, scope)
    decreases it
  {
    if !it.Record? {
      return it;
    }
    var row := it.fields;
    var parties := EditParties(row, scope);
    var fields := parties;
    if ClosingTransition in row {
      var closing := ProjectForExternal(row[ClosingTransition], scope);
      fields := Put(fields, ClosingTransition, Some(closing));
    }
    var whole := EditViews(fields, scope);
    EditsCompose(it, parties, fields, whole, scope);
    r := Record(whole);
  }

  /** The edits together give each field what it is to show. */
  lemma EditsCompose(it: Value, a: Row, b: Row, c: Row, scope: Scope)
    requires it.Record? && PartiesEdited(it.fields, a, scope)
    requires Only(a, b, {ClosingTransition}) && ViewsEdited(b, c, scope)
    requires Get(b, ClosingTransition) ==
      if ClosingTransition in it.fields then Some(Project(it.fields[ClosingTransition], scope)) else None
    ensures Record(c) == Project(it, scope)
  {
    forall k ensures Get(c, k) == if k in it.fields then Shown(it, k, scope) else None {
      if k in {TransitionNote, Wake, HandedOffTo, ClosureTarget, BlockedOn} {
        PartyLookup(it, a, k, scope);
        assert Get(c, k) == Get(b, k) == Get(a, k);
      } else {
        ViewLookup(it, a, b, c, k, scope);
      }
    }
    ProjectIs(it, c, scope);
  }

  lemma PartyLookup(it: Value, a: Row, k: Field, scope: Scope)
    requires it.Record? && PartiesEdited(it.fields, a, scope)
    requires k in {TransitionNote, Wake, HandedOffTo, ClosureTarget, BlockedOn}
    ensures Get(a, k) == if k in it.fields then Shown(it, k, scope) else None
  {
  }

  lemma ViewLookup(it: Value, a: Row, b: Row, c: Row, k: Field, scope: Scope)
    requires it.Record? && Only(it.fields, a, {TransitionNote, Wake, HandedOffTo, ClosureTarget, BlockedOn})
    requires Only(a, b, {ClosingTransition}) && ViewsEdited(b, c, scope)
    requires Get(b, ClosingTransition) ==
      if ClosingTransition in it.fields then Some(Project(it.fields[ClosingTransition], scope)) else None
    requires k !in {TransitionNote, Wake, HandedOffTo, ClosureTarget, BlockedOn}
    ensures Get(c, k) == if k in it.fields then Shown(it, k, scope) else None
  {
    if k == Waiting {
      SameWaiting(it.fields, b);
    } else if k != ClosingTransition {
      assert Get(b, k) == Get(a, k) == Get(it.fields, k);
    }
  }

  lemma SameWaiting(a: Row, b: Row)
    requires Get(a, Waiting) == Get(b, Waiting) && Get(a, DestinationSession) == Get(b, DestinationSession)
    ensures ShownWaiting(a) == ShownWaiting(b)
  {
  }

  lemma ProjectIs(it: Value, fields: Row, scope: Scope)
    requires it.Record?
    requires forall k :: Get(fields, k) == if k in it.fields then Shown(it, k, scope) else None
    ensures Record(fields) == Project(it, scope)
  {
    forall k ensures Get(fields, k) == Get(Project(it, scope).fields, k) {
      ProjectLookup(it, k, scope);
    }
    SameLookups(fields, Project(it, scope).fields);
  }

  lemma SameLookups(a: Row, b: Row)
    requires forall k :: Get(a, k) == Get(b, k)
    ensures a == b
  {
    forall k ensures k in a <==> k in b {
      assert Get(a, k) == Get(b, k);
    }
    forall k | k in a ensures a[k] == b[k] {
      assert Get(a, k) == Get(b, k);
    }
  }

  lemma ProjectLookup(it: Value, k: Field, scope: Scope)
    requires it.Record?
    ensures Get(Project(it, scope).fields, k) == if k in it.fields then Shown(it, k, scope) else None
  {
  }

  // ---------------------------------------------------------------------------------------------
  // The projection does not tell which hidden party a row names

  /** Both notes are there, and the caller gets the same of each: a hidden closure's note is replaced
      whole; any other note is masked word by word. */
  predicate NotesAlike(a: Row, b: Row, scope: Scope) {
    var v, w := Get(a, TransitionNote), Get(b, TransitionNote);
    && v.Some? && w.Some?
    && ((HiddenClosure(a, scope) && HiddenClosure(b, scope))
        || (v.value.Text? && w.value.Text? && NulFree(v.value.text) && NulFree(w.value.text)
            && DifferInHiddenParties(v.value.text, w.value.text, NoteView(a, scope))))
  }

  /** The waiting view names the row's own destination as the one who owes the next step. */
  predicate OwnerWaits(row: Row) {
    Identical(Member(Get(row, Waiting), Owner), Get(row, DestinationSession))
  }

  predicate WaitingAlike(a: Row, b: Row) {
    var v, w := Get(a, Waiting), Get(b, Waiting);
    && IsObject(v) && IsObject(w)
    && OwnerWaits(a) == OwnerWaits(b)
    && (OwnerWaits(a) ==> Member(v, State) == Member(w, State))
  }

  /** The two values of one field differ at most in a party the caller may not see. */
  ghost predicate FieldsAlike(a: Value, b: Value, k: Field, scope: Scope)
    requires a.Record? && b.Record?
    decreases a, 0
  {
    var v, w := Get(a.fields, k), Get(b.fields, k);
    v == w || match k
      case TransitionNote => NotesAlike(a.fields, b.fields, scope)
      case Wake => HiddenWake(v, scope) && HiddenWake(w, scope)
      case HandedOffTo => IsText(v) && IsText(w) && !scope.shows(v) && !scope.shows(w)
      case ClosureTarget => HiddenClosure(a.fields, scope) && HiddenClosure(b.fields, scope)
      case BlockedOn => Given(v) && Given(w) && !scope.shows(v) && !scope.shows(w)
      case ClosingTransition =>
        k in a.fields && k in b.fields && DifferInHidden(a.fields[k], b.fields[k], scope)
      case HandoffAdvisory => HiddenAdvisory(v, scope) && HiddenAdvisory(w, scope)
      case Waiting => WaitingAlike(a.fields, b.fields)
      case Pickup => IsObject(v) && IsObject(w) && Member(v, State) == Member(w, State)
      case _ => false
  }

  /** Two rows, with closing transitions nested to any depth, that are the same but for which hidden
      parties they name. */
  ghost predicate DifferInHidden(a: Value, b: Value, scope: Scope)
    decreases a, 1
  {
    a == b || (a.Record? && b.Record? && forall k :: FieldsAlike(a, b, k, scope))
  }

  lemma AlikeFacts(a: Value, b: Value, scope: Scope)
    requires a.Record? && b.Record? && forall k :: FieldsAlike(a, b, k, scope)
    ensures forall k | k in {QitemId, State, ClosureReason, DestinationSession} :: Get(a.fields, k) == Get(b.fields, k)
    ensures HiddenClosure(a.fields, scope) == HiddenClosure(b.fields, scope)
    ensures NoteView(a.fields, scope) == NoteView(b.fields, scope)
    ensures ClosureNote(a.fields, scope) == ClosureNote(b.fields, scope)
  {
    forall k | k in {QitemId, State, ClosureReason, DestinationSession}
      ensures Get(a.fields, k) == Get(b.fields, k)
    {
      assert FieldsAlike(a, b, k, scope);
    }
    assert FieldsAlike(a, b, ClosureTarget, scope);
  }

  lemma AlikeNotesShowAlike(a: Value, b: Value, scope: Scope)
    requires a.Record? && b.Record? && forall k :: FieldsAlike(a, b, k, scope)
    ensures ShownNote(a.fields, scope) == ShownNote(b.fields, scope)
  {
    AlikeFacts(a, b, scope);
    assert FieldsAlike(a, b, TransitionNote, scope);
    var v, w := Get(a.fields, TransitionNote), Get(b.fields, TransitionNote);
    if v != w && !HiddenClosure(a.fields, scope) {
      MaskHidesWhichParty(v.value.text, w.value.text, NoteView(a.fields, scope));
    }
  }

  lemma AlikeWaitingShowsAlike(a: Value, b: Value, scope: Scope)
    requires a.Record? && b.Record? && forall k :: FieldsAlike(a, b, k, scope)
    ensures ShownWaiting(a.fields) == ShownWaiting(b.fields)
  {
    AlikeFacts(a, b, scope);
    assert FieldsAlike(a, b, Waiting, scope);
  }

  lemma {:induction false} AlikeFieldShowsAlike(a: Value, b: Value, k: Field, scope: Scope)
    requires a.Record? && b.Record? && forall j :: FieldsAlike(a, b, j, scope)
    ensures Get(Project(a, scope).fields, k) == Get(Project(b, scope).fields, k)
    decreases a, 0
  {
    assert FieldsAlike(a, b, k, scope);
    ProjectLookup(a, k, scope);
    ProjectLookup(b, k, scope);
    match k
    case TransitionNote => AlikeNotesShowAlike(a, b, scope);
    case Waiting => AlikeWaitingShowsAlike(a, b, scope);
    case ClosingTransition =>
      if k in a.fields && k in b.fields {
        ProjectionHidesWhichParty(a.fields[k], b.fields[k], scope);
      }
    case ClosureTarget => AlikeFacts(a, b, scope);
    case _ =>
  }

  /** The projection does not depend on which hidden parties a row names. */
  lemma {:induction false} ProjectionHidesWhichParty(a: Value, b: Value, scope: Scope)
    requires DifferInHidden(a, b, scope)
    ensures Project(a, scope) == Project(b, scope)
    decreases a, 1
  {
    if a != b {
      forall k ensures Get(Project(a, scope).fields, k) == Get(Project(b, scope).fields, k) {
        AlikeFieldShowsAlike(a, b, k, scope);
      }
      SameLookups(Project(a, scope).fields, Project(b, scope).fields);
    }
  }

  /** One thing about a hidden party does show: whether the waiting view's owner is the row's own
      destination. Rows whose waiting views alone differ project alike exactly when that answer, and
      the state beside it, agree. */
  lemma {:induction false} WaitingTellsOwnership(a: Value, b: Value, scope: Scope)
    requires a.Record? && b.Record? && Only(a.fields, b.fields, {Waiting})
    requires IsObject(Get(a.fields, Waiting)) && IsObject(Get(b.fields, Waiting))
    ensures Project(a, scope) == Project(b, scope) <==> WaitingAlike(a.fields, b.fields)
  {
    if WaitingAlike(a.fields, b.fields) {
      forall k ensures FieldsAlike(a, b, k, scope) {
      }
      ProjectionHidesWhichParty(a, b, scope);
    } else {
      ProjectLookup(a, Waiting, scope);
      ProjectLookup(b, Waiting, scope);
      WaitingShows(a.fields, b.fields);
    }
  }

  lemma WaitingShows(a: Row, b: Row)
    requires IsObject(Get(a, Waiting)) && IsObject(Get(b, Waiting)) && !WaitingAlike(a, b)
    ensures ShownWaiting(a) != ShownWaiting(b)
  {
    assert OwnerWaits(a) && OwnerWaits(b) ==> Member(ShownWaiting(a), State) != Member(ShownWaiting(b), State);
  }

  // ---------------------------------------------------------------------------------------------
  // What is left names no hidden party, and the row's facts stay

  /** Every named party may be seen; a note holds only the row's own id and permitted seats, or stands
      for a hidden closure. */
  predicate NamesNoHidden(it: Value, scope: Scope)
    decreases it
  {
    it.Record? ==>
      var row := it.fields;
      && !HiddenWake(Get(row, Wake), scope)
      && (IsText(Get(row, HandedOffTo)) ==> scope.shows(Get(row, HandedOffTo)))
      && !HiddenClosure(row, scope)
      && (Given(Get(row, BlockedOn)) ==> scope.shows(Get(row, BlockedOn)))
      && !HiddenAdvisory(Get(row, HandoffAdvisory), scope)
      && (IsObject(Get(row, Waiting)) ==> OwnerWaits(row))
      && (IsText(Get(row, TransitionNote)) ==>
            Settled(row[TransitionNote].text, NoteView(row, scope))
            || row[TransitionNote].text == ClosureNote(row, scope))
      && (ClosingTransition in row ==> NamesNoHidden(row[ClosingTransition], scope))
  }

  /** No note, at any depth, holds a NUL. */
  predicate NotesNulFree(it: Value)
    decreases it
  {
    it.Record? ==>
      && (IsText(Get(it.fields, TransitionNote)) ==> NulFree(it.fields[TransitionNote].text))
      && (ClosingTransition in it.fields ==> NotesNulFree(it.fields[ClosingTransition]))
  }

  lemma FactsStay(it: Value, scope: Scope)
    requires it.Record?
    ensures Only(it.fields, Project(it, scope).fields, {TransitionNote, Wake, HandedOffTo, ClosureTarget, BlockedOn,
              ClosingTransition, HandoffAdvisory, Waiting, Pickup})
  {
    var edited := {TransitionNote, Wake, HandedOffTo, ClosureTarget, BlockedOn, ClosingTransition, HandoffAdvisory,
                   Waiting, Pickup};
    forall k | k !in edited ensures Get(Project(it, scope).fields, k) == Get(it.fields, k) {
      ProjectLookup(it, k, scope);
    }
  }

  lemma {:induction false} NoteIsSafe(it: Value, scope: Scope)
    requires it.Record? && NotesNulFree(it)
    ensures var row := Project(it, scope).fields;
      IsText(Get(row, TransitionNote)) ==>
        Settled(row[TransitionNote].text, NoteView(row, scope))
        || row[TransitionNote].text == ClosureNote(row, scope)
  {
    var row := Project(it, scope).fields;
    FactsStay(it, scope);
    SameNoteContext(it.fields, row, scope);
    ProjectLookup(it, TransitionNote, scope);
    ShownNoteIsSafe(it.fields, scope);
  }

  lemma SameNoteContext(a: Row, b: Row, scope: Scope)
    requires Get(a, QitemId) == Get(b, QitemId)
    requires Get(a, State) == Get(b, State) && Get(a, ClosureReason) == Get(b, ClosureReason)
    ensures NoteView(a, scope) == NoteView(b, scope) && ClosureNote(a, scope) == ClosureNote(b, scope)
  {
  }

  lemma ShownNoteIsSafe(row: Row, scope: Scope)
    requires IsText(Get(row, TransitionNote)) ==> NulFree(row[TransitionNote].text)
    ensures var shown := ShownNote(row, scope);
      IsText(shown) ==>
        Settled(shown.value.text, NoteView(row, scope)) || shown.value.text == ClosureNote(row, scope)
  {
    var note := Get(row, TransitionNote);
    if IsText(note) {
      MaskingSettles(note.value.text, NoteView(row, scope));
    }
  }

  /** Nothing an external caller receives names a party it may not see. */
  lemma {:induction false} ProjectionNamesNoHidden(it: Value, scope: Scope)
    requires NotesNulFree(it)
    ensures NamesNoHidden(Project(it, scope), scope)
    decreases it
  {
    if it.Record? {
      NoteIsSafe(it, scope);
      PartiesAreHidden(it, scope);
      ViewsAreHidden(it, scope);
      ProjectLookup(it, ClosingTransition, scope);
      if ClosingTransition in it.fields {
        ProjectionNamesNoHidden(it.fields[ClosingTransition], scope);
      }
    }
  }

  lemma {:induction false} ClosureIsHidden(it: Value, scope: Scope)
    requires it.Record?
    ensures !HiddenClosure(Project(it, scope).fields, scope)
  {
    FactsStay(it, scope);
    ProjectLookup(it, ClosureTarget, scope);
  }

  lemma {:induction false} PartiesAreHidden(it: Value, scope: Scope)
    requires it.Record?
    ensures var row := Project(it, scope).fields;
      && !HiddenWake(Get(row, Wake), scope)
      && (IsText(Get(row, HandedOffTo)) ==> scope.shows(Get(row, HandedOffTo)))
      && !HiddenClosure(row, scope)
      && (Given(Get(row, BlockedOn)) ==> scope.shows(Get(row, BlockedOn)))
  {
    ClosureIsHidden(it, scope);
    ProjectLookup(it, Wake, scope);
    ProjectLookup(it, HandedOffTo, scope);
    ProjectLookup(it, BlockedOn, scope);
  }

  lemma {:induction false} ViewsAreHidden(it: Value, scope: Scope)
    requires it.Record?
    ensures var row := Project(it, scope).fields;
      && !HiddenAdvisory(Get(row, HandoffAdvisory), scope)
      && (IsObject(Get(row, Waiting)) ==> OwnerWaits(row))
  {
    FactsStay(it, scope);
    ProjectLookup(it, HandoffAdvisory, scope);
    ProjectLookup(it, Waiting, scope);
  }
}
