/** The registry of other hosts: validation, and the three edits that go through it.
    packages/cli/src/host-registry.ts:122-124, 165-289, 299-374 and 376-499.

    The file is a list of raw entries, as YAML gives them; text syntax and error wording are left out, the
    kind and place of each error are not. */
module HostRegistry {
  import opened Options
  import opened JsText

  // ---------------------------------------------------------------------------------------------
  // Entries

  datatype Field = Id | HostId | TransportName | Target | User | Url | BearerEnv | BearerFile | Notes | Unknown(name: string)

  /** A field's value: absent and `undefined` are one; everything that is not text is another kind. */
  datatype Value = Undefined | Str(text: string) | NotText

  datatype Raw = NotObject | Object(fields: map<Field, Value>)

  datatype Link =
    | Ssh(target: string, user: Option<string>)
    | Http(url: string, bearerEnv: Option<string>, bearerFile: Option<string>)

  datatype Entry = Entry(id: string, hostId: Option<string>, link: Link, notes: Option<string>)

  function Get(m: map<Field, Value>, k: Field): Value {
    if k in m then m[k] else Undefined
  }

  function Optional(m: map<Field, Value>, k: Field): Option<string> {
    if Get(m, k).Str? then Some(Get(m, k).text) else None
  }

  // ---------------------------------------------------------------------------------------------
  // `validateHostRegistry`

  datatype Problem =
    | NeedsObject | NeedsId | DuplicateId | ReservedId | BadId | BadTransport | BadNotes | BadHostId | ReservedHostId
    | NeedsTarget | BadUser | NeedsUrl | TwoBearers | BadBearerEnv | BadBearerFile

  datatype Result<+T> = Ok(value: T) | Err(at: nat, problem: Problem)

  /** RESERVED_HOST_IDS. */
  predicate Reserved(id: string) {
    id == "kernel" || id == "host" || id == "local" || id == "external"
  }

  predicate NamesSsh(v: Value) {
    v == Str("ssh")
  }

  predicate NamesHttp(v: Value) {
    v == Str("http")
  }

  predicate Alnum(c: char) {
    'a' <= c <= 'z' || 'A' <= c <= 'Z' || '0' <= c <= '9'
  }

  /** /^[A-Za-z0-9][A-Za-z0-9._-]*$/. */
  predicate HostIdShape(s: string) {
    s != "" && Alnum(s[0]) && HostIdChars(s)
  }

  predicate HostIdChars(s: string) {
    s == "" || ((Alnum(s[0]) || s[0] == '.' || s[0] == '_' || s[0] == '-') && HostIdChars(s[1..]))
  }

  predicate Filled(v: Value) {
    v.Str? && !Blank(v.text)
  }

  predicate AbsentOrFilled(v: Value) {
    v.Undefined? || Filled(v)
  }

  /** The first thing wrong with an entry after others with the ids in `seen`. */
  function ProblemOf(raw: Raw, seen: set<string>): Option<Problem> {
    if raw.NotObject? then Some(NeedsObject)
    else
      var m := raw.fields;
      var id, notes, hostId := Get(m, Id), Get(m, Notes), Get(m, HostId);
      if !Filled(id) then Some(NeedsId)
      else if id.text in seen then Some(DuplicateId)
      else if Reserved(id.text) then Some(ReservedId)
      else if !HostIdShape(id.text) then Some(BadId)
      else if !NamesSsh(Get(m, TransportName)) && !NamesHttp(Get(m, TransportName)) then Some(BadTransport)
      else if notes.NotText? then Some(BadNotes)
      else if !AbsentOrFilled(hostId) then Some(BadHostId)
      else if hostId.Str? && Reserved(hostId.text) then Some(ReservedHostId)
      else if hostId.Str? && !HostIdShape(hostId.text) then Some(BadHostId)
      else if NamesSsh(Get(m, TransportName)) then
        if !Filled(Get(m, Target)) then Some(NeedsTarget)
        else if !AbsentOrFilled(Get(m, User)) then Some(BadUser)
        else None
      else
        if !Filled(Get(m, Url)) then Some(NeedsUrl)
        else if !Get(m, BearerEnv).Undefined? && !Get(m, BearerFile).Undefined? then Some(TwoBearers)
        else if !AbsentOrFilled(Get(m, BearerEnv)) then Some(BadBearerEnv)
        else if !AbsentOrFilled(Get(m, BearerFile)) then Some(BadBearerFile)
        else None
  }

  /** The entry that is kept: known fields of its transport, nothing else. */
  function EntryOf(m: map<Field, Value>): Entry
    requires ProblemOf(Object(m), {}).None?
  {
    Entry(
      Get(m, Id).text,
      Optional(m, HostId),
      if NamesSsh(Get(m, TransportName)) then Ssh(Get(m, Target).text, Optional(m, User))
      else Http(Get(m, Url).text, Optional(m, BearerEnv), Optional(m, BearerFile)),
      Optional(m, Notes))
  }

  lemma FewerSeen(raw: Raw, seen: set<string>)
    requires ProblemOf(raw, seen).None?
    ensures ProblemOf(raw, {}).None? && raw.Object?
    ensures EntryOf(raw.fields).id !in seen
  {
  }

  function Ids(es: seq<Entry>): set<string> {
    set i | 0 <= i < |es| :: es[i].id
  }

  /** The entries from place `at` on, after others with the ids in `seen`. */
  function Validate(raws: seq<Raw>, seen: set<string>, at: nat): Result<seq<Entry>> {
    if raws == [] then Ok([])
    else
      var p := ProblemOf(raws[0], seen);
      if p.Some? then Err(at, p.value)
      else
        FewerSeen(raws[0], seen);
        var e := EntryOf(raws[0].fields);
        Prepend([e], Validate(raws[1..], seen + {e.id}, at + 1))
  }

  function Prepend(es: seq<Entry>, r: Result<seq<Entry>>): Result<seq<Entry>> {
    if r.Ok? then Ok(es + r.value) else r
  }

  lemma PrependTwice(es: seq<Entry>, fs: seq<Entry>, r: Result<seq<Entry>>)
    ensures Prepend(es, Prepend(fs, r)) == Prepend(es + fs, r)
    ensures Prepend([], r) == r
  {
    if r.Ok? {
      assert es + (fs + r.value) == (es + fs) + r.value;
      assert [] + r.value == r.value;
    }
  }

  /** `validateHostRegistry` of a list of hosts. */
  method ValidateHostRegistry(raws: seq<Raw>) returns (r: Result<seq<Entry>>)
    ensures r == Validate(raws, {}, 0)
  {
    var seen: set<string> := {};
    var validated: seq<Entry> := [];
    var i := 0;
    assert raws[0..] == raws;
    PrependTwice([], [], Validate(raws, {}, 0));
    while i < |raws|
      invariant 0 <= i <= |raws|
      invariant Validate(raws, {}, 0) == Prepend(validated, Validate(raws[i..], seen, i))
    {
      var p := ProblemOf(raws[i], seen);
      assert raws[i..][0] == raws[i] && raws[i..][1..] == raws[i + 1..];
      if p.Some? {
        return Err(i, p.value);
      }
      FewerSeen(raws[i], seen);
      var e := EntryOf(raws[i].fields);
      PrependTwice(validated, [e], Validate(raws[i + 1..], seen + {e.id}, i + 1));
      seen, validated, i := seen + {e.id}, validated + [e], i + 1;
    }
    assert raws[i..] == [];
    assert validated + [] == validated;
    return Ok(validated);
  }

  // ---------------------------------------------------------------------------------------------
  // What validates, validates to itself

  /** An entry written to the file. */
  function RawOf(e: Entry): map<Field, Value> {
    var common := Keep(Keep(map[Id := Str(e.id)], HostId, e.hostId), Notes, e.notes);
    match e.link
    case Ssh(target, user) => Keep(common[TransportName := Str("ssh")][Target := Str(target)], User, user)
    case Http(url, env, file) =>
      Keep(Keep(common[TransportName := Str("http")][Url := Str(url)], BearerEnv, env), BearerFile, file)
  }

  function Keep(m: map<Field, Value>, k: Field, v: Option<string>): map<Field, Value> {
    if v.Some? then m[k := Str(v.value)] else m
  }

  function Raws(es: seq<Entry>): (r: seq<Raw>)
    ensures |r| == |es|
  {
    if es == [] then [] else [Object(RawOf(es[0]))] + Raws(es[1..])
  }

  lemma {:induction false} RawAt(es: seq<Entry>, i: nat)
    requires i < |es|
    ensures Raws(es)[i] == Object(RawOf(es[i]))
  {
    if i > 0 {
      RawAt(es[1..], i - 1);
    }
  }

  predicate FilledText(s: string) {
    !Blank(s)
  }

  predicate OptionFilled(o: Option<string>) {
    o.Some? ==> FilledText(o.value)
  }

  /** An entry that may stand in a registry. */
  predicate Sound(e: Entry) {
    && FilledText(e.id) && !Reserved(e.id) && HostIdShape(e.id)
    && (e.hostId.Some? ==> FilledText(e.hostId.value) && !Reserved(e.hostId.value) && HostIdShape(e.hostId.value))
    && match e.link
       case Ssh(target, user) => FilledText(target) && OptionFilled(user)
       case Http(url, env, file) =>
         FilledText(url) && OptionFilled(env) && OptionFilled(file) && (env.None? || file.None?)
  }

  lemma KeptIsSound(m: map<Field, Value>)
    requires ProblemOf(Object(m), {}).None?
    ensures Sound(EntryOf(m))
  {
  }

  /** What the fields of a written entry are. */
  lemma WrittenFields(e: Entry)
    ensures var m := RawOf(e);
      && Get(m, Id) == Str(e.id) && Optional(m, HostId) == e.hostId && Optional(m, Notes) == e.notes
      && !Get(m, HostId).NotText? && !Get(m, Notes).NotText?
      && NamesSsh(Get(m, TransportName)) == e.link.Ssh? && NamesHttp(Get(m, TransportName)) == e.link.Http?
    ensures var m := RawOf(e);
      e.link.Ssh? ==>
        Get(m, Target) == Str(e.link.target) && Optional(m, User) == e.link.user && !Get(m, User).NotText?
    ensures var m := RawOf(e);
      e.link.Http? ==>
        && Get(m, Url) == Str(e.link.url) && Optional(m, BearerEnv) == e.link.bearerEnv && !Get(m, BearerEnv).NotText?
        && Optional(m, BearerFile) == e.link.bearerFile && !Get(m, BearerFile).NotText?
  {
  }

  lemma SoundIsKept(e: Entry, seen: set<string>)
    requires Sound(e)
    ensures ProblemOf(Object(RawOf(e)), seen) == if e.id in seen then Some(DuplicateId) else None
    ensures ProblemOf(Object(RawOf(e)), {}).None? && EntryOf(RawOf(e)) == e
  {
    WrittenFields(e);
  }

  /** A registry: sound entries with unique ids. */
  predicate Registry(es: seq<Entry>) {
    (forall i :: 0 <= i < |es| ==> Sound(es[i])) && forall i, j :: 0 <= i < j < |es| ==> es[i].id != es[j].id
  }

  lemma {:induction false} ValidatedIsRegistry(raws: seq<Raw>, seen: set<string>, at: nat)
    requires Validate(raws, seen, at).Ok?
    ensures var es := Validate(raws, seen, at).value;
      |es| == |raws| && Registry(es) && Ids(es) !! seen
    decreases |raws|
  {
    if raws != [] {
      FewerSeen(raws[0], seen);
      var e := EntryOf(raws[0].fields);
      KeptIsSound(raws[0].fields);
      ValidatedIsRegistry(raws[1..], seen + {e.id}, at + 1);
      FirstOfRegistry(e, Validate(raws[1..], seen + {e.id}, at + 1).value, seen);
    }
  }

  lemma FirstOfRegistry(e: Entry, rest: seq<Entry>, seen: set<string>)
    requires Sound(e) && e.id !in seen && Registry(rest) && Ids(rest) !! seen + {e.id}
    ensures Registry([e] + rest) && Ids([e] + rest) !! seen
  {
    var es := [e] + rest;
    IdsOfFirst(e, rest);
    forall i, j | 0 <= i < j < |es| ensures es[i].id != es[j].id {
      if i > 0 {
        assert rest[i - 1].id != rest[j - 1].id;
      } else {
        assert rest[j - 1].id in Ids(rest);
      }
    }
  }

  lemma IdsOfFirst(e: Entry, rest: seq<Entry>)
    ensures Ids([e] + rest) == {e.id} + Ids(rest)
  {
    var es := [e] + rest;
    forall i | 1 <= i < |es| ensures es[i].id in Ids(rest) {
      assert es[i] == rest[i - 1];
    }
    forall i | 0 <= i < |rest| ensures rest[i].id in Ids(es) {
      assert es[i + 1] == rest[i];
    }
    assert es[0].id in Ids(es);
  }

  /** Sound entries with distinct ids not seen before validate to themselves, and then what follows is
      validated. */
  lemma ValidateHead(raws: seq<Raw>, seen: set<string>, at: nat, e: Entry)
    requires raws != [] && raws[0] == Object(RawOf(e)) && Sound(e) && e.id !in seen
    ensures Validate(raws, seen, at) == Prepend([e], Validate(raws[1..], seen + {e.id}, at + 1))
  {
    SoundIsKept(e, seen);
  }

  lemma SeenOne(es: seq<Entry>, seen: set<string>)
    requires Registry(es) && es != [] && Ids(es) !! seen
    ensures var e := es[0];
      && Sound(e) && e.id !in seen && Registry(es[1..])
      && Ids(es[1..]) !! seen + {e.id} && seen + {e.id} + Ids(es[1..]) == seen + Ids(es)
  {
    IdsSplit(es);
    assert es[0].id in Ids(es);
  }

  lemma {:induction false} RegistryValidates(es: seq<Entry>, more: seq<Raw>, seen: set<string>, at: nat,
                                             after: set<string>, end: nat)
    requires Registry(es) && Ids(es) !! seen
    requires after == seen + Ids(es) && end == at + |es|
    ensures Validate(Raws(es) + more, seen, at) == Prepend(es, Validate(more, after, end))
    decreases |es|
  {
    if es == [] {
      NothingFirst(more, seen, at);
      assert seen == after;
    } else {
      SeenOne(es, seen);
      RegistryValidates(es[1..], more, seen + {es[0].id}, at + 1, after, end);
      RegistryStep(es, more, seen, at, Validate(more, after, end));
    }
  }

  lemma NothingFirst(more: seq<Raw>, seen: set<string>, at: nat)
    ensures Validate(Raws([]) + more, seen, at) == Prepend([], Validate(more, seen, at))
  {
    assert Raws([]) + more == more;
    PrependTwice([], [], Validate(more, seen, at));
  }

  lemma RegistryStep(es: seq<Entry>, more: seq<Raw>, seen: set<string>, at: nat, rest: Result<seq<Entry>>)
    requires es != [] && Sound(es[0]) && es[0].id !in seen
    requires Validate(Raws(es[1..]) + more, seen + {es[0].id}, at + 1) == Prepend(es[1..], rest)
    ensures Validate(Raws(es) + more, seen, at) == Prepend(es, rest)
  {
    RawsSplit(es, more);
    ValidateHead(Raws(es) + more, seen, at, es[0]);
    PrependTwice([es[0]], es[1..], rest);
    assert [es[0]] + es[1..] == es;
  }

  lemma RawsSplit(es: seq<Entry>, more: seq<Raw>)
    requires es != []
    ensures var raws := Raws(es) + more;
      raws != [] && raws[0] == Object(RawOf(es[0])) && raws[1..] == Raws(es[1..]) + more
  {
    HeadOf(Object(RawOf(es[0])), Raws(es[1..]), more);
  }

  lemma HeadOf<T>(x: T, rest: seq<T>, more: seq<T>)
    ensures var s := ([x] + rest) + more;
      s != [] && s[0] == x && s[1..] == rest + more
  {
  }

  lemma IdsSplit(es: seq<Entry>)
    requires Registry(es) && es != []
    ensures Ids(es) == Ids(es[1..]) + {es[0].id} && es[0].id !in Ids(es[1..]) && Registry(es[1..])
  {
    var tail := es[1..];
    forall x | x in Ids(tail) ensures x in Ids(es) && x != es[0].id {
      var i :| 0 <= i < |tail| && tail[i].id == x;
      assert es[i + 1].id == x;
    }
    forall x | x in Ids(es) ensures x in Ids(tail) + {es[0].id} {
      var i :| 0 <= i < |es| && es[i].id == x;
      assert i > 0 ==> tail[i - 1].id == x;
    }
  }

  /** What is written reads back as it was. */
  lemma {:induction false} WrittenReadsBack(es: seq<Entry>)
    requires Registry(es)
    ensures Validate(Raws(es), {}, 0) == Ok(es) && Validated(Raws(es)) == Some(es)
  {
    RegistryValidates(es, [], {}, 0, Ids(es), |es|);
    assert Raws(es) + [] == Raws(es) && es + [] == es;
  }

  // ---------------------------------------------------------------------------------------------
  // The edits

  /** The registry file; `Unreadable` is one that is not YAML, or not an object with a list of hosts. */
  datatype File = Missing | Unreadable | Listed(raws: seq<Raw>)

  /** `loadHostRegistry`, for a file that is there. */
  function Load(f: File): Option<seq<Entry>> {
    if f.Listed? then Validated(f.raws) else None
  }

  function Validated(raws: seq<Raw>): Option<seq<Entry>> {
    var r := Validate(raws, {}, 0);
    if r.Ok? then Some(r.value) else None
  }

  datatype Edit =
    | AddHost(raw: Raw)
    | UpdateHost(id: string, changes: map<Field, Value>)
    | RemoveHost(target: string)

  /** The place of the entry with the id, or the length. */
  function Find(es: seq<Entry>, id: string): (i: nat)
    ensures i <= |es| && (i < |es| ==> es[i].id == id)
    ensures forall j :: 0 <= j < i ==> es[j].id != id
  {
    if es == [] || es[0].id == id then 0 else 1 + Find(es[1..], id)
  }

  predicate Editable(link: Link, k: Field) {
    if link.Ssh? then k == Target || k == User || k == Notes else k == Url || k == Notes
  }

  predicate Clearable(k: Field) {
    k == User || k == Notes
  }

  /** An edit may echo the id, and otherwise touches only fields that may be edited, and at least one. */
  predicate ChangesAllowed(e: Entry, changes: map<Field, Value>) {
    && (Id in changes ==> changes[Id] == Str(e.id) || changes[Id] == Undefined)
    && (forall k :: k in changes && k != Id ==> Editable(e.link, k))
    && exists k :: k in changes && k != Id
  }

  function NewValue(e: Entry, changes: map<Field, Value>, k: Field): Value {
    if k == Id || k !in changes then Get(RawOf(e), k)
    else if Clearable(k) && changes[k] == Str("") then Undefined
    else changes[k]
  }

  /** The entry's fields after the changes: an empty text clears an optional field. */
  function Changed(e: Entry, changes: map<Field, Value>): (r: map<Field, Value>)
    ensures forall k :: Get(r, k) == NewValue(e, changes, k)
  {
    var m := RawOf(e);
    var cleared := set k | k in changes && Clearable(k) && changes[k] == Str("");
    m + (changes - {Id}) - (cleared - {Id})
  }

  function Except(es: seq<Entry>, i: nat): (r: seq<Entry>)
    requires i < |es|
    ensures |r| == |es| - 1 && forall j :: 0 <= j < |r| ==> r[j] == es[if j < i then j else j + 1]
  {
    es[..i] + es[i + 1..]
  }

  /** The candidate registry an edit gives, None when the edit is refused before validation. */
  function Candidate(f: File, edit: Edit): Option<seq<Raw>> {
    match edit
    case AddHost(raw) =>
      var es := if f.Missing? then Some([]) else Load(f);
      if es.None? then None else Some(Raws(es.value) + [raw])
    case UpdateHost(id, changes) =>
      var es := Load(f);
      if es.None? then None
      else
        var i := Find(es.value, id);
        if i == |es.value| || !ChangesAllowed(es.value[i], changes) then None
        else Some(Raws(es.value)[i := Object(Changed(es.value[i], changes))])
    case RemoveHost(id) =>
      var es := Load(f);
      if es.None? then None
      else
        var i := Find(es.value, id);
        if i == |es.value| then None else Some(Raws(Except(es.value, i)))
  }

  /** The entries an accepted edit writes. */
  function Edited(f: File, edit: Edit): Option<seq<Entry>> {
    var c := Candidate(f, edit);
    if c.Some? then Validated(c.value) else None
  }

  /** Edits go through one door: load, change, validate the whole, replace the file. */
  class RegistryFile {
    var file: File

    constructor (f: File)
      ensures file == f
    {
      file := f;
    }

    /** `addHostEntry`, `updateHostEntry` and `removeHostEntry`; `writes` is whether the file can be written. */
    method Apply(edit: Edit, writes: bool) returns (ok: bool)
      modifies this
      ensures ok <==> writes && Edited(old(file), edit).Some?
      ensures file == if ok then Listed(Raws(Edited(old(file), edit).value)) else old(file)
    {
      var candidate := Candidate(file, edit);
      if candidate.None? {
        return false;
      }
      var validated := ValidateHostRegistry(candidate.value);
      if validated.Err? || !writes {
        return false;
      }
      file := Listed(Raws(validated.value));
      return true;
    }
  }

  // ---------------------------------------------------------------------------------------------
  // What the edits keep

  lemma {:induction false} LoadedIsRegistry(f: File)
    ensures Load(f).Some? ==> Registry(Load(f).value)
    ensures f.Listed? && Load(f).Some? ==> |Load(f).value| == |f.raws|
  {
    if Load(f).Some? {
      ValidatedIsRegistry(f.raws, {}, 0);
    }
  }

  /** Every registry an accepted edit writes is sound, with unique ids that are not reserved and at most
      one bearer an entry, and it reads back as it was written. */
  lemma {:induction false} EditedIsRegistry(f: File, edit: Edit)
    requires Edited(f, edit).Some?
    ensures var es := Edited(f, edit).value; Registry(es) && Load(Listed(Raws(es))) == Some(es)
  {
    var c := Candidate(f, edit).value;
    ValidatedIsRegistry(c, {}, 0);
    WrittenReadsBack(Edited(f, edit).value);
  }

  function Run(f: File, edits: seq<Edit>): File
    decreases |edits|
  {
    if edits == [] then f
    else Run(if Edited(f, edits[0]).Some? then Listed(Raws(Edited(f, edits[0]).value)) else f, edits[1..])
  }

  /** After any run of edits the file is the one there was, every edit having been refused, or it loads as a
      registry and is exactly what writing that registry gives. */
  lemma {:induction false} RunsKeepRegistries(f: File, edits: seq<Edit>)
    ensures var end := Run(f, edits);
      end == f || (Load(end).Some? && Registry(Load(end).value) && end == Listed(Raws(Load(end).value)))
    decreases |edits|
  {
    if edits != [] {
      var next := if Edited(f, edits[0]).Some? then Listed(Raws(Edited(f, edits[0]).value)) else f;
      if Edited(f, edits[0]).Some? {
        EditedIsRegistry(f, edits[0]);
      }
      RunsKeepRegistries(next, edits[1..]);
    }
  }

  /** A host is added, last, exactly when nothing is wrong with its entry beside those there. */
  lemma {:induction false} AddAppends(f: File, raw: Raw)
    requires f.Missing? || Load(f).Some?
    ensures var es := if f.Missing? then [] else Load(f).value;
      && (Edited(f, AddHost(raw)).Some? <==> ProblemOf(raw, Ids(es)).None?)
      && (ProblemOf(raw, Ids(es)).None? ==>
            (ProblemOf(raw, {}).None? && raw.Object? && Edited(f, AddHost(raw)) == Some(es + [EntryOf(raw.fields)])))
  {
    var es := if f.Missing? then [] else Load(f).value;
    LoadedIsRegistry(f);
    RegistryValidates(es, [raw], {}, 0, Ids(es), |es|);
    if ProblemOf(raw, Ids(es)).None? {
      FewerSeen(raw, Ids(es));
      var e := EntryOf(raw.fields);
      assert [raw][1..] == [];
      assert Validate([], Ids(es) + {e.id}, |es| + 1) == Ok([]);
      assert [e] + [] == [e];
      assert Validate([raw], Ids(es), |es|) == Ok([e]);
    }
  }

  lemma {:induction false} UniqueIsFound(es: seq<Entry>, i: nat)
    requires Registry(es) && i < |es|
    ensures Find(es, es[i].id) == i
  {
  }

  lemma ExceptIsRegistry(es: seq<Entry>, i: nat)
    requires Registry(es) && i < |es|
    ensures Registry(Except(es, i))
  {
    var r := Except(es, i);
    forall j, k | 0 <= j < k < |r| ensures r[j].id != r[k].id {
      assert r[j] == es[if j < i then j else j + 1] && r[k] == es[if k < i then k else k + 1];
    }
  }

  /** Removing takes out the one entry with the id; the others keep their values and order. It is refused
      only for an id that is not there. */
  lemma {:induction false} RemoveTakesOne(f: File, es: seq<Entry>, id: string)
    requires Load(f) == Some(es)
    ensures var i := Find(es, id);
      Edited(f, RemoveHost(id)) == if i < |es| then Some(es[..i] + es[i + 1..]) else None
  {
    var i := Find(es, id);
    if i < |es| {
      LoadedIsRegistry(f);
      ExceptIsRegistry(es, i);
      ExceptReadsBack(f, id, Except(es, i));
    }
  }

  lemma ExceptReadsBack(f: File, id: string, others: seq<Entry>)
    requires Candidate(f, RemoveHost(id)) == Some(Raws(others)) && Registry(others)
    ensures Edited(f, RemoveHost(id)) == Some(others)
  {
    WrittenReadsBack(others);
  }

  /** Removing a host just added gives back the entries there were. */
  lemma {:induction false} RemoveUndoesAdd(f: File, es: seq<Entry>, raw: Raw, added: seq<Entry>)
    requires if f.Missing? then es == [] else Load(f) == Some(es)
    requires Edited(f, AddHost(raw)) == Some(added)
    ensures added != [] && Edited(Listed(Raws(added)), RemoveHost(added[|added| - 1].id)) == Some(es)
  {
    AddAppends(f, raw);
    EditedIsRegistry(f, AddHost(raw));
    RemoveLast(Listed(Raws(added)), es, added);
  }

  lemma {:induction false} RemoveLast(f: File, es: seq<Entry>, added: seq<Entry>)
    requires Load(f) == Some(added) && Registry(added) && |added| == |es| + 1 && added[..|es|] == es
    ensures Edited(f, RemoveHost(added[|es|].id)) == Some(es)
  {
    var e := added[|es|];
    assert added == es + [e];
    LastOff(es, e);
    UniqueIsFound(added, |es|);
    RemoveTakesOne(f, added, e.id);
  }

  lemma LastOff(es: seq<Entry>, e: Entry)
    ensures var added := es + [e];
      added[..|es|] + added[|es| + 1..] == es
  {
  }

  /** An accepted update changes the entry with the id alone: the fields it names get what it says, and the
      id, the transport, the join key and the bearer stay. */
  lemma {:induction false} UpdateChangesOne(f: File, es: seq<Entry>, id: string, changes: map<Field, Value>, us: seq<Entry>)
    requires Load(f) == Some(es) && Edited(f, UpdateHost(id, changes)) == Some(us)
    ensures var i := Find(es, id);
      i < |es| == |us| && us == es[i := us[i]] && UpdatedBy(es[i], changes, us[i]) && us[i].id == id
  {
    var i := Find(es, id);
    var m := Changed(es[i], changes);
    var raws := Raws(es)[i := Object(m)];
    assert Candidate(f, UpdateHost(id, changes)) == Some(raws);
    LoadedIsRegistry(f);
    ReplacedOne(es, i, m, us);
    ChangedKeeps(es[i], changes);
  }

  /** A registry with one entry's fields replaced. */
  lemma {:induction false} ReplacedOne(es: seq<Entry>, i: nat, m: map<Field, Value>, us: seq<Entry>)
    requires Registry(es) && i < |es| && Validate(Raws(es)[i := Object(m)], {}, 0) == Ok(us)
    ensures ProblemOf(Object(m), {}).None? && us == es[i := EntryOf(m)]
  {
    var raws := Raws(es)[i := Object(m)];
    ValidatedIsRegistry(raws, {}, 0);
    EntryByEntry(raws, {}, 0, i);
    forall j | 0 <= j < |es| ensures us[j] == es[i := EntryOf(m)][j] {
      EntryByEntry(raws, {}, 0, j);
      RawAt(es, j);
      SoundIsKept(es[j], {});
    }
  }

  /** Each validated entry is what its own fields give. */
  lemma {:induction false} EntryByEntry(raws: seq<Raw>, seen: set<string>, at: nat, j: nat)
    requires Validate(raws, seen, at).Ok? && j < |raws|
    ensures raws[j].Object? && ProblemOf(raws[j], {}).None?
    ensures j < |Validate(raws, seen, at).value| && Validate(raws, seen, at).value[j] == EntryOf(raws[j].fields)
    decreases |raws|
  {
    FewerSeen(raws[0], seen);
    if j > 0 {
      EntryByEntry(raws[1..], seen + {EntryOf(raws[0].fields).id}, at + 1, j - 1);
    }
  }

  /** The text an update leaves in an optional field: an empty text clears it. */
  function Wanted(changes: map<Field, Value>, k: Field, before: Option<string>): Option<string> {
    if k !in changes then before
    else if changes[k].Str? && !(Clearable(k) && changes[k].text == "") then Some(changes[k].text)
    else None
  }

  /** What an update does to an entry: the fields it names get what it says, and the id, the transport, the
      join key and the bearer stay. */
  predicate UpdatedBy(e: Entry, changes: map<Field, Value>, u: Entry) {
    && u.id == e.id && u.hostId == e.hostId && u.notes == Wanted(changes, Notes, e.notes)
    && u.link.Ssh? == e.link.Ssh?
    && (e.link.Ssh? && u.link.Ssh? ==>
          Some(u.link.target) == Wanted(changes, Target, Some(e.link.target))
          && u.link.user == Wanted(changes, User, e.link.user))
    && (e.link.Http? && u.link.Http? ==>
          Some(u.link.url) == Wanted(changes, Url, Some(e.link.url))
          && u.link.bearerEnv == e.link.bearerEnv && u.link.bearerFile == e.link.bearerFile)
  }

  lemma ChangedKeeps(e: Entry, changes: map<Field, Value>)
    requires ChangesAllowed(e, changes) && ProblemOf(Object(Changed(e, changes)), {}).None?
    ensures UpdatedBy(e, changes, EntryOf(Changed(e, changes)))
  {
    CommonAfter(e, changes);
    var m := Changed(e, changes);
    if e.link.Ssh? {
      SshAfter(e, changes);
      assert EntryOf(m).link == Ssh(Get(m, Target).text, Optional(m, User));
    } else {
      HttpAfter(e, changes);
      assert EntryOf(m).link == Http(Get(m, Url).text, Optional(m, BearerEnv), Optional(m, BearerFile));
    }
  }

  lemma CommonAfter(e: Entry, changes: map<Field, Value>)
    requires ChangesAllowed(e, changes)
    ensures var m := Changed(e, changes);
      && Get(m, Id) == Str(e.id) && Optional(m, HostId) == e.hostId && Optional(m, Notes) == Wanted(changes, Notes, e.notes)
      && NamesSsh(Get(m, TransportName)) == e.link.Ssh?
  {
    WrittenFields(e);
    TransportAfter(e, changes);
    FieldAfter(e, changes, HostId, e.hostId);
    FieldAfter(e, changes, Notes, e.notes);
  }

  lemma SshAfter(e: Entry, changes: map<Field, Value>)
    requires e.link.Ssh?
    ensures var m := Changed(e, changes);
      && Optional(m, Target) == Wanted(changes, Target, Some(e.link.target))
      && Optional(m, User) == Wanted(changes, User, e.link.user)
  {
    WrittenFields(e);
    FieldAfter(e, changes, Target, Some(e.link.target));
    FieldAfter(e, changes, User, e.link.user);
  }

  lemma HttpAfter(e: Entry, changes: map<Field, Value>)
    requires e.link.Http? && ChangesAllowed(e, changes)
    ensures var m := Changed(e, changes);
      && Optional(m, Url) == Wanted(changes, Url, Some(e.link.url))
      && Optional(m, BearerEnv) == e.link.bearerEnv && Optional(m, BearerFile) == e.link.bearerFile
  {
    WrittenFields(e);
    FieldAfter(e, changes, Url, Some(e.link.url));
    FieldAfter(e, changes, BearerEnv, e.link.bearerEnv);
    FieldAfter(e, changes, BearerFile, e.link.bearerFile);
  }

  lemma FieldAfter(e: Entry, changes: map<Field, Value>, k: Field, before: Option<string>)
    requires k != Id && Optional(RawOf(e), k) == before
    ensures Optional(Changed(e, changes), k) == Wanted(changes, k, before)
  {
    assert Get(Changed(e, changes), k) == NewValue(e, changes, k);
  }

  lemma TransportAfter(e: Entry, changes: map<Field, Value>)
    requires ChangesAllowed(e, changes)
    ensures Get(Changed(e, changes), TransportName) == Get(RawOf(e), TransportName)
    ensures Get(Changed(e, changes), Id) == Str(e.id)
  {
    assert Get(Changed(e, changes), TransportName) == NewValue(e, changes, TransportName);
    assert Get(Changed(e, changes), Id) == NewValue(e, changes, Id);
    WrittenFields(e);
  }
}
