/** What an authenticated caller may reach: `scopeFor` and `externalScope`,
    packages/cli/src/mcp-server.ts:307-391. */
module ExternalScope {
  import opened Options
  import opened NoteMask
  import ExternalProjection

  /** A grant's rigs, and whether it takes part in its rigs' team (team/list). `seat` is the caller's. */
  datatype Access = Access(seat: Option<string>, rigs: set<string>, participant: bool)

  /** A row names its sender and its owner; None is anything but text. */
  datatype Row = Row(source: Option<string>, destination: Option<string>)

  const EXTERNAL := "external"

  /** `value.split("@")`. */
  function Split(s: string): (parts: seq<string>)
    ensures parts != [] && forall i :: 0 <= i < |parts| ==> '@' !in parts[i]
  {
    if s == "" then [""]
    else
      var rest := Split(s[1..]);
      if s[0] == '@' then [""] + rest else [[s[0]] + rest[0]] + rest[1..]
  }

  function JoinParts(parts: seq<string>): string
    requires parts != []
  {
    if |parts| == 1 then parts[0] else parts[0] + "@" + JoinParts(parts[1..])
  }

  lemma {:induction false} SplitUndone(s: string)
    ensures JoinParts(Split(s)) == s
  {
    if s != "" {
      var rest := Split(s[1..]);
      SplitUndone(s[1..]);
      if s[0] == '@' {
        assert ([""] + rest)[1..] == rest;
        assert "" + "@" + s[1..] == s;
      } else {
        var parts := [[s[0]] + rest[0]] + rest[1..];
        assert parts[1..] == rest[1..];
        assert |rest| > 1 ==> ([s[0]] + rest[0]) + "@" + JoinParts(rest[1..]) == [s[0]] + (rest[0] + "@" + JoinParts(rest[1..]));
        assert [s[0]] + s[1..] == s;
      }
    }
  }

  // ---------------------------------------------------------------------------------------------
  // A work grant: `scopeFor`

  predicate WorkSession(a: Access, v: Option<string>) {
    && v.Some? && v.value != ""
    && (|| (a.seat.Some? && a.seat.value != "" && (v.value == a.seat.value || a.seat.value + "@" <= v.value))
        || (var parts := Split(v.value); |parts| > 1 && parts[1] != EXTERNAL && parts[1] in a.rigs))
  }

  predicate WorkItem(a: Access, row: Row) {
    WorkSession(a, row.source) || WorkSession(a, row.destination)
  }

  predicate WorkOwner(a: Access, row: Row) {
    WorkSession(a, row.destination)
  }

  // ---------------------------------------------------------------------------------------------
  // An external grant: `externalScope`

  predicate Caller(a: Access, v: Option<string>) {
    v.Some? && v.value != "" && v == a.seat
  }

  /** A seat of one of the grant's rigs on this instance. */
  predicate Member(a: Access, v: Option<string>) {
    v.Some? && (
      var parts := Split(v.value);
      |parts| == 2 && parts[0] != "" && parts[1] != EXTERNAL && parts[1] in a.rigs)
  }

  /** /^cus-[^@]+-[^@]+@[^@]+$/. */
  predicate CallerShaped(v: string) {
    var parts := Split(v);
    && |parts| == 2 && parts[1] != "" && "cus-" <= parts[0]
    && exists i :: 5 <= i < |parts[0]| - 1 && parts[0][i] == '-'
  }

  predicate Team(a: Access, v: Option<string>) {
    Member(a, v) && !Caller(a, v) && (a.participant || !CallerShaped(v.value))
  }

  predicate Named(a: Access, v: Option<string>) {
    Caller(a, v) || Team(a, v)
  }

  predicate Item(a: Access, row: Row) {
    Caller(a, row.source) || (Caller(a, row.destination) && Team(a, row.source))
  }

  predicate Owner(a: Access, row: Row) {
    Caller(a, row.destination) && Item(a, row)
  }

  /** An external grant reaches nothing that a work grant for the same seat and rigs does not. */
  lemma ExternalIsNarrower(a: Access, v: Option<string>, row: Row)
    ensures Named(a, v) ==> WorkSession(a, v)
    ensures Item(a, row) ==> WorkItem(a, row)
    ensures Owner(a, row) ==> WorkOwner(a, row)
  {
    forall u | Named(a, u) ensures WorkSession(a, u) {
      if Team(a, u) {
        SplitUndone(u.value);
      }
    }
  }

  /** Two external callers read one item exactly when one of them sent it to the other and the other may name
      the sender; never do both change it. */
  lemma CallersShareOnlyTheirOwn(a: Access, b: Access, row: Row)
    requires a.seat != b.seat
    ensures Item(a, row) && Item(b, row) <==> Sent(a, b, row) || Sent(b, a, row)
    ensures !(Owner(a, row) && Owner(b, row))
  {
  }

  /** `a` sent the item to `b`, which may name `a`. */
  predicate Sent(a: Access, b: Access, row: Row) {
    Caller(a, row.source) && Caller(b, row.destination) && Team(b, a.seat)
  }

  /** Connected assistants that take no part in a team read nothing in common, and none hands a task to another,
      whatever their rigs. */
  lemma AssistantsAreApart(a: Access, b: Access, row: Row)
    requires a.seat.Some? && b.seat.Some? && a.seat != b.seat && CallerShaped(a.seat.value) && CallerShaped(b.seat.value)
    requires !a.participant && !b.participant
    ensures !(Item(a, row) && Item(b, row))
    ensures !Team(a, b.seat)
  {
    CallersShareOnlyTheirOwn(a, b, row);
  }

  /** An item between two others is no business of a third external caller; one that it handed to a seat it may
      hand tasks to it still reads and no longer changes, and it may name whoever sent it what it may change. */
  lemma ExternalIsAParty(a: Access, row: Row)
    ensures row.source != a.seat && row.destination != a.seat ==> !Item(a, row)
    ensures Caller(a, row.source) && Team(a, row.destination) ==> Item(a, row) && !Owner(a, row)
    ensures Owner(a, row) ==> Named(a, row.source) && !Team(a, row.destination)
  {
  }

  /** A person is never named to an external caller, save as its own seat. */
  lemma NeverAPerson(a: Access, person: string)
    requires '@' !in person
    ensures var v := Some(person + "@" + EXTERNAL); Named(a, v) ==> v == a.seat
  {
    SplitOfJoin(person, EXTERNAL);
    SplitOfText(EXTERNAL);
  }

  /** Nor is a seat of another host. */
  lemma NeverFar(a: Access, member: string, rig: string, host: string)
    requires '@' !in member && '@' !in rig && '@' !in host
    ensures var v := Some(member + "@" + (rig + "@" + host)); Named(a, v) ==> v == a.seat
  {
    SplitOfText(host);
    SplitOfJoin(rig, host);
    SplitOfJoin(member, rig + "@" + host);
  }

  lemma {:induction false} SplitOfText(s: string)
    requires '@' !in s
    ensures Split(s) == [s]
  {
    if s != "" {
      SplitOfText(s[1..]);
      assert [s[0]] + s[1..] == s;
    }
  }

  lemma {:induction false} SplitOfJoin(s: string, rest: string)
    requires '@' !in s
    ensures Split(s + "@" + rest) == [s] + Split(rest)
  {
    var whole := s + "@" + rest;
    if s == "" {
      assert whole[1..] == rest;
    } else {
      assert whole[1..] == s[1..] + "@" + rest;
      SplitOfJoin(s[1..], rest);
      assert [s[0]] + s[1..] == s;
    }
  }

  // ---------------------------------------------------------------------------------------------
  // The projection under this scope

  function TextOf(v: Option<ExternalProjection.Value>): Option<string> {
    if ExternalProjection.IsText(v) then Some(v.value.text) else None
  }

  function ProjectionScope(a: Access, printed: Option<ExternalProjection.Value> -> string): ExternalProjection.Scope {
    ExternalProjection.Scope(v => Caller(a, TextOf(v)), s => Named(a, Some(s)), printed)
  }

  /** Whoever handed an item on, an external caller is shown no new owner but its own seat. */
  lemma OnlyOwnSeatIsShown(a: Access, printed: Option<ExternalProjection.Value> -> string, it: ExternalProjection.Value)
    requires ExternalProjection.NotesNulFree(it)
    ensures var shown := ExternalProjection.Project(it, ProjectionScope(a, printed));
      shown.Record? ==>
        var owner := ExternalProjection.Get(shown.fields, ExternalProjection.HandedOffTo);
        ExternalProjection.IsText(owner) ==> TextOf(owner) == a.seat
  {
    ExternalProjection.ProjectionNamesNoHidden(it, ProjectionScope(a, printed));
  }
}
