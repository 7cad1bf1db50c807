/** Closing the daemon's HTTP server: `trackHttpServerResponses` and `closeHttpServer`,
    packages/daemon/src/daemon-shutdown.ts:34-101. Requests in flight are tracked; after a grace period
    event streams are ended, so that the server can close, and ordinary responses are left to finish. */
module HttpClose {
  import opened Options

  /** What a content type says. */
  datatype Kind = EventStream | Ordinary

  /** A tracked response: the type its headers show so far, the type its head went out with, the type the
      tracker noted, and whether the shutdown ended it. */
  datatype Response = Response(id: nat, header: Kind, sent: Option<Kind>, noted: Option<Kind>, ended: bool)

  datatype Settlement = Pending | Resolved | Rejected

  /** `late` is set once the grace period is over; `scheduled` is the responses an immediate will end. */
  datatype Server = Server(responses: seq<Response>, late: bool, scheduled: seq<nat>, settled: Settlement)

  /** Callbacks, in the order the event loop runs them. `broken` is the responses whose `end` throws. */
  datatype Event =
    | Arrives(id: nat)
    | HeaderSet(id: nat, kind: Kind)
    | HeadWritten(id: nat, direct: Option<Kind>)
    | Closes(id: nat)
    | GraceEnds(broken: set<nat>)
    | Immediate(broken: set<nat>)
    | ServerClosed(failed: bool)

  /** What the tracker takes the response for. */
  function KindOf(r: Response): Kind {
    if r.noted.Some? then r.noted.value else r.header
  }

  /** What the response is. */
  function Actual(r: Response): Kind {
    if r.sent.Some? then r.sent.value else r.header
  }

  /** The promise settles once. */
  function Finish(s: Server, failed: bool): Server {
    if s.settled.Pending? then s.(settled := if failed then Rejected else Resolved) else s
  }

  /** The responses after those with the id are changed. */
  function Each(rs: seq<Response>, id: nat, f: Response -> Response): (out: seq<Response>)
    ensures |out| == |rs| && forall i :: 0 <= i < |rs| ==> out[i] == if rs[i].id == id then f(rs[i]) else rs[i]
  {
    seq(|rs|, i requires 0 <= i < |rs| => if rs[i].id == id then f(rs[i]) else rs[i])
  }

  function Without(rs: seq<Response>, id: nat): (out: seq<Response>)
    ensures forall r :: r in out <==> r in rs && r.id != id
  {
    if rs == [] then []
    else if rs[0].id == id then Without(rs[1..], id)
    else [rs[0]] + Without(rs[1..], id)
  }

  function SetHeader(r: Response, kind: Kind): Response {
    if r.sent.None? then r.(header := kind) else r
  }

  /** The type is noted before the head is written; a second head is noted too, and then throws. */
  function WriteHead(r: Response, direct: Option<Kind>): Response {
    var kind := if direct.Some? then direct.value else r.header;
    r.(noted := Some(kind), sent := if r.sent.None? then Some(kind) else r.sent)
  }

  /** Ending a response sends its head, if that has not gone out. */
  function End(r: Response): Response {
    if r.sent.None? then WriteHead(r, None).(ended := true) else r.(ended := true)
  }

  /** Event streams are ended in order; the first whose `end` throws stops the sweep. */
  function Sweep(rs: seq<Response>, broken: set<nat>): (r: (seq<Response>, bool))
    ensures |r.0| == |rs|
  {
    if rs == [] then ([], false)
    else if KindOf(rs[0]) == Ordinary then
      var rest := Sweep(rs[1..], broken);
      ([rs[0]] + rest.0, rest.1)
    else if rs[0].id in broken then (rs, true)
    else
      var rest := Sweep(rs[1..], broken);
      ([End(rs[0])] + rest.0, rest.1)
  }

  predicate Becomes(s: Server, id: nat, direct: Option<Kind>) {
    exists r :: r in s.responses && r.id == id && r.sent.None? && KindOf(WriteHead(r, direct)) == EventStream
  }

  function Step(s: Server, e: Event): Server {
    match e
    case Arrives(id) => s.(responses := s.responses + [Response(id, Ordinary, None, None, false)])
    case HeaderSet(id, kind) => s.(responses := Each(s.responses, id, r => SetHeader(r, kind)))
    case HeadWritten(id, direct) =>
      s.(responses := Each(s.responses, id, r => WriteHead(r, direct)),
         scheduled := if s.late && Becomes(s, id, direct) then s.scheduled + [id] else s.scheduled)
    case Closes(id) => s.(responses := Without(s.responses, id))
    case GraceEnds(broken) =>
      if !s.settled.Pending? then s
      else
        var (swept, threw) := Sweep(s.responses, broken);
        var t := s.(responses := swept, late := true);
        if threw then Finish(t, true) else t
    case Immediate(broken) =>
      if s.scheduled == [] then s
      else
        var id := s.scheduled[0];
        var t := s.(scheduled := s.scheduled[1..]);
        if id in broken then Finish(t, true)
        else t.(responses := Each(s.responses, id, r => End(r)))
    case ServerClosed(failed) => Finish(s, failed)
  }

  /** The sweep of the grace timer. */
  method SweepStreams(rs: seq<Response>, broken: set<nat>) returns (swept: seq<Response>, threw: bool)
    ensures (swept, threw) == Sweep(rs, broken)
  {
    swept, threw := [], false;
    var i := 0;
    assert rs[0..] == rs && [] + Sweep(rs, broken).0 == Sweep(rs, broken).0;
    while i < |rs|
      invariant 0 <= i <= |rs|
      invariant Sweep(rs, broken).0 == swept + Sweep(rs[i..], broken).0
      invariant Sweep(rs, broken).1 == Sweep(rs[i..], broken).1
    {
      var r := rs[i];
      assert rs[i..][0] == r && rs[i..][1..] == rs[i + 1..];
      if KindOf(r) == EventStream {
        if r.id in broken {
          assert Sweep(rs[i..], broken) == (rs[i..], true);
          swept, threw := swept + rs[i..], true;
          return;
        }
        r := End(r);
      }
      ghost var rest := Sweep(rs[i + 1..], broken);
      assert Sweep(rs[i..], broken) == ([r] + rest.0, rest.1);
      assert swept + ([r] + rest.0) == swept + [r] + rest.0;
      swept, i := swept + [r], i + 1;
    }
    assert rs[i..] == [] && swept + [] == swept;
  }

  function Begun(): Server {
    Server([], false, [], Pending)
  }

  function After(s: Server, events: seq<Event>): Server {
    if events == [] then s else Step(After(s, events[..|events| - 1]), events[|events| - 1])
  }

  // ---------------------------------------------------------------------------------------------

  /** The shutdown ends event streams only, and what an immediate will end is one. */
  predicate OnlyStreamsEnd(s: Server) {
    && (forall r :: r in s.responses && r.ended ==> r.sent == Some(EventStream))
    && (forall r :: r in s.responses && r.id in s.scheduled ==> r.sent == Some(EventStream))
  }

  /** The tracker is right about every response that is still open. */
  predicate NotedRight(rs: seq<Response>) {
    forall i :: 0 <= i < |rs| ==> rs[i].ended || KindOf(rs[i]) == Actual(rs[i])
  }

  /** A type is noted exactly with a head. */
  predicate NotedWithHead(s: Server) {
    forall r :: r in s.responses ==> (r.noted.Some? <==> r.sent.Some?)
  }

  /** Each id is tracked once; the ids an immediate will end are not free for others. */
  predicate Tracked(s: Server) {
    forall i, j :: 0 <= i < j < |s.responses| ==> s.responses[i].id != s.responses[j].id
  }

  /** A response arrives with an id of its own. */
  predicate Proper(s: Server, e: Event) {
    e.Arrives? ==> e.id !in s.scheduled && forall r :: r in s.responses ==> r.id != e.id
  }

  /** No head that went out is written again with another type, while its response is open. */
  predicate OneHead(s: Server, e: Event) {
    e.HeadWritten? ==>
      forall r :: r in s.responses && r.id == e.id && r.sent.Some? && !r.ended ==>
        KindOf(WriteHead(r, e.direct)) == Actual(r)
  }

  predicate AllProper(s: Server, events: seq<Event>) {
    events == [] || (AllProper(s, events[..|events| - 1])
                     && Proper(After(s, events[..|events| - 1]), events[|events| - 1]))
  }

  predicate AllOneHead(s: Server, events: seq<Event>) {
    events == [] || (AllOneHead(s, events[..|events| - 1])
                     && OneHead(After(s, events[..|events| - 1]), events[|events| - 1]))
  }

  lemma {:induction false} SweepEndsStreams(rs: seq<Response>, broken: set<nat>)
    ensures var (swept, threw) := Sweep(rs, broken);
      && (forall i :: 0 <= i < |rs| ==>
            swept[i] == rs[i] || (KindOf(rs[i]) == EventStream && swept[i] == End(rs[i])))
      && (!threw ==> forall i :: 0 <= i < |rs| ==> (KindOf(swept[i]) == EventStream ==> swept[i].ended))
      && (threw <==> exists i :: 0 <= i < |rs| && KindOf(rs[i]) == EventStream && rs[i].id in broken)
  {
    if rs != [] {
      SweepEndsStreams(rs[1..], broken);
      if KindOf(rs[0]) == EventStream && rs[0].id in broken {
      } else {
        var rest := Sweep(rs[1..], broken).0;
        var swept := Sweep(rs, broken).0;
        assert forall i :: 1 <= i < |rs| ==> swept[i] == rest[i - 1] && rs[i] == rs[1..][i - 1];
      }
    }
  }

  /** A stream past the grace period is ended, or an immediate will end it, while the promise is open. */
  predicate LateStreamsEnd(s: Server) {
    s.late && s.settled.Pending? ==>
      forall r :: r in s.responses && r.sent == Some(EventStream) ==> r.ended || r.id in s.scheduled
  }

  predicate Sound(s: Server) {
    Tracked(s) && OnlyStreamsEnd(s) && LateStreamsEnd(s) && NotedWithHead(s) && NotedRight(s.responses)
  }

  /** What `Sound` says of one response. */
  predicate SoundAt(s: Server, r: Response) {
    && (r.ended ==> r.sent == Some(EventStream))
    && (r.id in s.scheduled ==> r.sent == Some(EventStream))
    && (s.late && s.settled.Pending? && r.sent == Some(EventStream) ==> r.ended || r.id in s.scheduled)
    && (r.noted.Some? <==> r.sent.Some?)
    && (r.ended || KindOf(r) == Actual(r))
  }

  lemma SoundByEach(s: Server)
    ensures Sound(s) <==> Tracked(s) && forall i :: 0 <= i < |s.responses| ==> SoundAt(s, s.responses[i])
  {
    if Sound(s) {
      forall i | 0 <= i < |s.responses| ensures SoundAt(s, s.responses[i]) {
        assert s.responses[i] in s.responses;
      }
    }
  }

  /** A sweep that runs to its end ends exactly the streams, if and only if the tracker is right about every
      open response. */
  lemma {:induction false} SweepIsExact(rs: seq<Response>, broken: set<nat>)
    requires !Sweep(rs, broken).1
    ensures var swept := Sweep(rs, broken).0;
      (forall i :: 0 <= i < |rs| ==> (swept[i].ended <==> rs[i].ended || Actual(rs[i]) == EventStream))
      <==> NotedRight(rs)
  {
    SweepEndsStreams(rs, broken);
    var swept := Sweep(rs, broken).0;
    assert forall i :: 0 <= i < |rs| ==> (swept[i].ended <==> rs[i].ended || KindOf(rs[i]) == EventStream);
    if NotedRight(rs) {
    } else {
      var i :| 0 <= i < |rs| && !rs[i].ended && KindOf(rs[i]) != Actual(rs[i]);
      assert swept[i].ended <==> Actual(rs[i]) != EventStream;
    }
  }

  predicate Unique(rs: seq<Response>) {
    rs == [] || ((forall r :: r in rs[1..] ==> r.id != rs[0].id) && Unique(rs[1..]))
  }

  lemma {:induction false} UniqueByIndex(rs: seq<Response>)
    ensures Unique(rs) <==> forall i, j :: 0 <= i < j < |rs| ==> rs[i].id != rs[j].id
  {
    if rs != [] {
      var rest := rs[1..];
      UniqueByIndex(rest);
      assert forall j :: 1 <= j < |rs| ==> rs[j] == rest[j - 1] && rs[j] in rest;
      if forall i, j :: 0 <= i < j < |rs| ==> rs[i].id != rs[j].id {
        forall r | r in rest ensures r.id != rs[0].id {
          var k :| 0 <= k < |rest| && rest[k] == r;
          assert rs[k + 1] == r;
        }
        assert forall i, j :: 0 <= i < j < |rest| ==> rest[i] == rs[i + 1] && rest[j] == rs[j + 1];
      }
    }
  }

  lemma {:induction false} WithoutIsUnique(rs: seq<Response>, id: nat)
    requires Unique(rs)
    ensures Unique(Without(rs, id))
  {
    if rs != [] {
      WithoutIsUnique(rs[1..], id);
      assert rs[0].id != id ==> Without(rs, id)[1..] == Without(rs[1..], id);
    }
  }

  lemma SweptIsSound(s: Server, t: Server, r: Response, after: Response)
    requires SoundAt(s, r) && t.scheduled == s.scheduled
    requires after == r || (KindOf(r) == EventStream && after == End(r))
    requires t.settled.Pending? && KindOf(after) == EventStream ==> after.ended
    ensures SoundAt(t, after) && after.id == r.id
  {
  }

  lemma {:induction false} GraceKeeps(s: Server, broken: set<nat>)
    requires Sound(s)
    ensures Sound(Step(s, GraceEnds(broken)))
  {
    if s.settled.Pending? {
      var rs := s.responses;
      var (swept, threw) := Sweep(rs, broken);
      SweepEndsStreams(rs, broken);
      SoundByEach(s);
      var t := Step(s, GraceEnds(broken));
      assert t.responses == swept && t.scheduled == s.scheduled && t.late && (t.settled.Pending? ==> !threw);
      forall i | 0 <= i < |swept| ensures SoundAt(t, swept[i]) {
        SweptIsSound(s, t, rs[i], swept[i]);
      }
      SoundByEach(t);
    }
  }

  /** Writing a head leaves the tracker right exactly when it is no second head of another type. */
  lemma HeadKeepsIff(s: Server, id: nat, direct: Option<Kind>)
    requires Sound(s)
    ensures Sound(Step(s, HeadWritten(id, direct))) <==> OneHead(s, HeadWritten(id, direct))
  {
    var t := Step(s, HeadWritten(id, direct));
    if OneHead(s, HeadWritten(id, direct)) {
      HeadKeeps(s, id, direct);
    } else {
      var r :| r in s.responses && r.id == id && r.sent.Some? && !r.ended && KindOf(WriteHead(r, direct)) != Actual(r);
      var i :| 0 <= i < |s.responses| && s.responses[i] == r;
      assert t.responses[i] == WriteHead(r, direct);
      assert !NotedRight(t.responses);
    }
  }

  lemma {:induction false} HeadKeeps(s: Server, id: nat, direct: Option<Kind>)
    requires Sound(s) && OneHead(s, HeadWritten(id, direct))
    ensures Sound(Step(s, HeadWritten(id, direct)))
  {
    SoundByEach(s);
    var t := Step(s, HeadWritten(id, direct));
    forall i | 0 <= i < |t.responses| ensures SoundAt(t, t.responses[i]) {
      var before := s.responses[i];
      assert before in s.responses && SoundAt(s, before);
      if before.id == id && Becomes(s, id, direct) {
        var r :| r in s.responses && r.id == id && r.sent.None? && KindOf(WriteHead(r, direct)) == EventStream;
        var j :| 0 <= j < |s.responses| && s.responses[j] == r;
        assert i == j;
      }
    }
    SoundByEach(t);
  }

  lemma {:induction false} ImmediateKeeps(s: Server, broken: set<nat>)
    requires Sound(s)
    ensures Sound(Step(s, Immediate(broken)))
  {
    var t := Step(s, Immediate(broken));
    if s.scheduled != [] {
      var id := s.scheduled[0];
      SoundByEach(s);
      assert forall x :: x in s.scheduled ==> x == id || x in s.scheduled[1..];
      assert forall x :: x in s.scheduled[1..] ==> x in s.scheduled;
      forall i | 0 <= i < |t.responses| ensures SoundAt(t, t.responses[i]) {
        assert SoundAt(s, s.responses[i]);
      }
      SoundByEach(t);
    }
  }

  lemma {:induction false} ClosesKeeps(s: Server, id: nat)
    requires Sound(s)
    ensures Sound(Step(s, Closes(id)))
  {
    var t := Step(s, Closes(id));
    UniqueByIndex(s.responses);
    WithoutIsUnique(s.responses, id);
    UniqueByIndex(t.responses);
    SoundByEach(s);
    forall i | 0 <= i < |t.responses| ensures SoundAt(t, t.responses[i]) {
      assert t.responses[i] in s.responses;
      var j :| 0 <= j < |s.responses| && s.responses[j] == t.responses[i];
      assert SoundAt(s, s.responses[j]);
    }
    SoundByEach(t);
  }

  lemma {:induction false} ArrivesKeeps(s: Server, id: nat)
    requires Sound(s) && Proper(s, Arrives(id))
    ensures Sound(Step(s, Arrives(id)))
  {
    var t := Step(s, Arrives(id));
    SoundByEach(s);
    forall i | 0 <= i < |t.responses| ensures SoundAt(t, t.responses[i]) {
      if i < |s.responses| {
        assert SoundAt(s, s.responses[i]);
      }
    }
    forall i, j | 0 <= i < j < |t.responses| ensures t.responses[i].id != t.responses[j].id {
      assert s.responses[i] in s.responses;
    }
    SoundByEach(t);
  }

  lemma {:induction false} HeaderKeeps(s: Server, id: nat, kind: Kind)
    requires Sound(s)
    ensures Sound(Step(s, HeaderSet(id, kind)))
  {
    var t := Step(s, HeaderSet(id, kind));
    SoundByEach(s);
    forall i | 0 <= i < |t.responses| ensures SoundAt(t, t.responses[i]) {
      assert SoundAt(s, s.responses[i]);
    }
    SoundByEach(t);
  }

  lemma {:induction false} StepKeeps(s: Server, e: Event)
    requires Sound(s) && Proper(s, e) && OneHead(s, e)
    ensures Sound(Step(s, e))
  {
    match e
    case Arrives(id) => ArrivesKeeps(s, id);
    case HeaderSet(id, kind) => HeaderKeeps(s, id, kind);
    case HeadWritten(id, direct) => HeadKeeps(s, id, direct);
    case Closes(id) => ClosesKeeps(s, id);
    case GraceEnds(broken) => GraceKeeps(s, broken);
    case Immediate(broken) => ImmediateKeeps(s, broken);
    case ServerClosed(_) =>
  }

  /** In every order of requests, headers, closes and timers in which no open response's head is written
      again with another type: the shutdown ends event streams only, never an ordinary response; once the
      grace period is over every event stream is ended, or about to be, whether it began before or after. */
  lemma {:induction false} OnlyStreamsAreEnded(events: seq<Event>)
    requires AllProper(Begun(), events) && AllOneHead(Begun(), events)
    ensures Sound(After(Begun(), events))
  {
    if events != [] {
      OnlyStreamsAreEnded(events[..|events| - 1]);
      StepKeeps(After(Begun(), events[..|events| - 1]), events[|events| - 1]);
    }
  }

  /** One more event. */
  lemma AfterOne(s: Server, events: seq<Event>, e: Event)
    ensures After(s, events + [e]) == Step(After(s, events), e)
    ensures AllProper(s, events + [e]) <==> AllProper(s, events) && Proper(After(s, events), e)
    ensures AllOneHead(s, events + [e]) <==> AllOneHead(s, events) && OneHead(After(s, events), e)
  {
    var all := events + [e];
    assert all[..|all| - 1] == events;
  }

  function Only(r: Response): Server {
    Server([r], false, [], Pending)
  }

  lemma HeadOfOnly(r: Response, direct: Option<Kind>)
    ensures Step(Only(r), HeadWritten(r.id, direct)) == Only(WriteHead(r, direct))
    ensures OneHead(Only(r), HeadWritten(r.id, direct)) <==>
      (r.sent.Some? && !r.ended ==> KindOf(WriteHead(r, direct)) == Actual(r))
  {
    assert r in Only(r).responses;
    assert Step(Only(r), HeadWritten(r.id, direct)).responses == [WriteHead(r, direct)];
  }

  lemma GraceOfOnly(r: Response)
    requires KindOf(r) == EventStream
    ensures Step(Only(r), GraceEnds({})).responses == [End(r)]
  {
    assert [r][1..] == [] && Sweep([], {}) == ([], false);
    assert Sweep([r], {}) == ([End(r)] + [], false);
  }

  /** A second head throws, but is noted: an ordinary response whose handler tries to write it again as a
      stream is ended by the sweep. */
  lemma SecondHeadMisleads()
    ensures var events := [Arrives(0), HeadWritten(0, Some(Ordinary)), HeadWritten(0, Some(EventStream)), GraceEnds({})];
      var end := After(Begun(), events);
      && AllProper(Begun(), events) && !AllOneHead(Begun(), events)
      && end.responses == [Response(0, Ordinary, Some(Ordinary), Some(EventStream), true)]
  {
    var a, b, c, d := Arrives(0), HeadWritten(0, Some(Ordinary)), HeadWritten(0, Some(EventStream)), GraceEnds({});
    var s, r := Begun(), Response(0, Ordinary, None, None, false);
    AfterOne(s, [], a);
    assert [] + [a] == [a] && [] + [r] == [r] && Step(s, a) == Only(r);
    AfterOne(s, [a], b);
    HeadOfOnly(r, Some(Ordinary));
    AfterOne(s, [a] + [b], c);
    HeadOfOnly(WriteHead(r, Some(Ordinary)), Some(EventStream));
    AfterOne(s, [a] + [b] + [c], d);
    GraceOfOnly(WriteHead(WriteHead(r, Some(Ordinary)), Some(EventStream)));
    assert [a] + [b] + [c] + [d] == [a, b, c, d];
  }

  /** The promise settles at most once, and it resolves only when the server itself reports that it closed
      without an error. */
  lemma {:induction false} SettlesOnce(s: Server, events: seq<Event>)
    ensures !s.settled.Pending? ==> After(s, events).settled == s.settled
    ensures s.settled.Pending? && After(s, events).settled.Resolved? ==>
      exists i :: 0 <= i < |events| && events[i] == ServerClosed(false) && After(s, events[..i]).settled.Pending?
  {
    if events != [] {
      var front, last := events[..|events| - 1], events[|events| - 1];
      SettlesOnce(s, front);
      if s.settled.Pending? && After(s, events).settled.Resolved? {
        if After(s, front).settled.Resolved? {
          var i :| 0 <= i < |front| && front[i] == ServerClosed(false) && After(s, front[..i]).settled.Pending?;
          assert front[..i] == events[..i];
          assert events[i] == ServerClosed(false);
        } else {
          assert events[..|events| - 1] == front && last == ServerClosed(false);
        }
      }
    }
  }

  // ---------------------------------------------------------------------------------------------

  /** The closures of `closeHttpServer` and the tracker, sharing their state. Each keeps what holds of every
      run. */
  class Closer {
    var state: Server

    constructor ()
      ensures state == Begun() && Sound(state)
    {
      state := Begun();
    }

    /** A request arrives; the server tracks its response. */
    method OnRequest(id: nat)
      modifies this
      ensures state == Step(old(state), Arrives(id))
      ensures Sound(old(state)) && Proper(old(state), Arrives(id)) ==> Sound(state)
    {
      if Sound(state) && Proper(state, Arrives(id)) {
        ArrivesKeeps(state, id);
      }
      state := state.(responses := state.responses + [Response(id, Ordinary, None, None, false)]);
    }

    /** A handler writes the head of its response; a late stream will be ended by an immediate. */
    method OnHeadWritten(id: nat, direct: Option<Kind>)
      modifies this
      ensures state == Step(old(state), HeadWritten(id, direct))
      ensures Sound(old(state)) && OneHead(old(state), HeadWritten(id, direct)) ==> Sound(state)
    {
      if Sound(state) && OneHead(state, HeadWritten(id, direct)) {
        HeadKeeps(state, id, direct);
      }
      if state.late && Becomes(state, id, direct) {
        state := state.(scheduled := state.scheduled + [id]);
      }
      state := state.(responses := Each(state.responses, id, r => WriteHead(r, direct)));
    }

    /** A closed response is forgotten, and no other. */
    method OnResponseClosed(id: nat)
      modifies this
      ensures state == Step(old(state), Closes(id))
      ensures forall r :: r in state.responses <==> r in old(state).responses && r.id != id
      ensures Sound(old(state)) ==> Sound(state)
    {
      if Sound(state) {
        ClosesKeeps(state, id);
      }
      state := state.(responses := Without(state.responses, id));
    }

    method OnGrace(broken: set<nat>)
      modifies this
      ensures state == Step(old(state), GraceEnds(broken))
      ensures Sound(old(state)) ==> Sound(state)
    {
      if Sound(state) {
        GraceKeeps(state, broken);
      }
      if state.settled.Pending? {
        var swept, threw := SweepStreams(state.responses, broken);
        state := state.(responses := swept, late := true);
        if threw {
          Settle(true);
        }
      }
    }

    method OnImmediate(broken: set<nat>)
      modifies this
      ensures state == Step(old(state), Immediate(broken))
      ensures Sound(old(state)) ==> Sound(state)
    {
      if Sound(state) {
        ImmediateKeeps(state, broken);
      }
      if state.scheduled == [] {
        return;
      }
      var id := state.scheduled[0];
      state := state.(scheduled := state.scheduled[1..]);
      if id in broken {
        Settle(true);
      } else {
        state := state.(responses := Each(state.responses, id, r => End(r)));
      }
    }

    /** The promise settles at the first call, and no later call changes it. */
    method Settle(failed: bool)
      modifies this
      ensures state == Finish(old(state), failed)
      ensures !state.settled.Pending?
      ensures !old(state).settled.Pending? ==> state == old(state)
      ensures Sound(old(state)) ==> Sound(state)
    {
      if state.settled.Pending? {
        state := state.(settled := if failed then Rejected else Resolved);
      }
    }
  }
}
