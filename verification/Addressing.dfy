/** Addresses of seats across hosts: how a sender is qualified with its host, how a target is resolved
    back, and how the bare form is parsed. packages/cli/src/client.ts:30-45,
    packages/cli/src/cross-host-target.ts:60-150, packages/cli/src/host-registry.ts:299-320 and
    packages/cli/src/session-name.ts:37-103. */
module Addressing {
  import opened Options
  import opened HostRegistry

  const AT := "@"

  /** Where the first "@" is, or the length. */
  function FirstAt(s: string): (n: nat)
    ensures n <= |s| && (n < |s| ==> s[n] == '@')
    ensures forall i :: 0 <= i < n ==> s[i] != '@'
  {
    if s == "" || s[0] == '@' then 0 else 1 + FirstAt(s[1..])
  }

  /** Where the last "@" is; the length if there is none. */
  function LastAt(s: string): (n: nat)
    ensures n <= |s| && (n < |s| ==> s[n] == '@' && forall i :: n < i < |s| ==> s[i] != '@')
    ensures n == |s| ==> forall i :: 0 <= i < |s| ==> s[i] != '@'
  {
    if s == "" then 0
    else
      var n := LastAt(s[1..]);
      if n < |s| - 1 then n + 1 else if s[0] == '@' then 0 else |s|
  }

  function AtCount(s: string): nat {
    if s == "" then 0 else (if s[0] == '@' then 1 else 0) + AtCount(s[1..])
  }

  lemma {:induction false} AtCountJoined(a: string, b: string)
    ensures AtCount(a + b) == AtCount(a) + AtCount(b)
  {
    if a == "" {
      assert a + b == b;
    } else {
      assert (a + b)[1..] == a[1..] + b;
      AtCountJoined(a[1..], b);
    }
  }

  lemma {:induction false} NoAtCountsNone(s: string)
    ensures AtCount(s) == 0 <==> '@' !in s
  {
    if s != "" {
      NoAtCountsNone(s[1..]);
      assert s == [s[0]] + s[1..];
    }
  }

  /** The last "@" of `a@b`, where `b` has none, is between them. */
  lemma LastAtOfJoin(a: string, b: string)
    requires '@' !in b
    ensures var s := a + AT + b;
      LastAt(s) == |a| && s[..|a|] == a && s[|a| + 1..] == b
  {
    var s := a + AT + b;
    var n := LastAt(s);
    assert s[|a|] == '@';
    assert forall i :: |a| < i < |s| ==> s[i] == b[i - |a| - 1];
  }

  // ---------------------------------------------------------------------------------------------
  // The sender: `senderIdentityHeaders`

  /** The sender a request carries; `session` is trimmed. No header for an empty one. */
  function Qualify(session: string, selfId: Option<string>): Option<string> {
    if session == "" then None
    else if selfId.Some? && selfId.value != "" && AtCount(session) < 2 then Some(session + AT + selfId.value)
    else Some(session)
  }

  // ---------------------------------------------------------------------------------------------
  // Looking a host up: `resolveHost`

  type Bindings = map<string, string>

  function FindHostId(es: seq<Entry>, id: string): nat {
    if es == [] || es[0].hostId == Some(id) then 0 else 1 + FindHostId(es[1..], id)
  }

  function FindLearned(es: seq<Entry>, id: string, learned: Bindings): nat {
    if es == [] || (es[0].id in learned && learned[es[0].id] == id) then 0
    else 1 + FindLearned(es[1..], id, learned)
  }

  /** By alias first, then by declared join key, then by learned one. */
  function ResolveHost(es: seq<Entry>, id: string, learned: Bindings): Option<Entry> {
    var i, j, k := Find(es, id), FindHostId(es, id), FindLearned(es, id, learned);
    if i < |es| then Some(es[i])
    else if j < |es| then Some(es[j])
    else if k < |es| then Some(es[k])
    else None
  }

  /** The entry answers to the id in one of the three ways. */
  predicate AnswersTo(e: Entry, id: string, learned: Bindings) {
    e.id == id || e.hostId == Some(id) || (e.id in learned && learned[e.id] == id)
  }

  lemma {:induction false} FindHostIdFinds(es: seq<Entry>, id: string)
    ensures var j := FindHostId(es, id);
      j <= |es| && (j < |es| ==> es[j].hostId == Some(id))
      && forall i :: 0 <= i < j ==> es[i].hostId != Some(id)
  {
    if es != [] && es[0].hostId != Some(id) {
      FindHostIdFinds(es[1..], id);
    }
  }

  lemma {:induction false} FindLearnedFinds(es: seq<Entry>, id: string, learned: Bindings)
    ensures var k := FindLearned(es, id, learned);
      k <= |es| && (k < |es| ==> es[k].id in learned && learned[es[k].id] == id)
      && forall i :: 0 <= i < k ==> !(es[i].id in learned && learned[es[i].id] == id)
  {
    if es != [] && !(es[0].id in learned && learned[es[0].id] == id) {
      FindLearnedFinds(es[1..], id, learned);
    }
  }

  /** A host is found exactly when some entry answers to the id; an alias outranks every join key, a
      declared one every learned one; and the alias of what was found finds it again. */
  lemma {:induction false} HostIsFound(es: seq<Entry>, id: string, learned: Bindings)
    requires Registry(es)
    ensures var found := ResolveHost(es, id, learned);
      && (found.Some? <==> exists e :: e in es && AnswersTo(e, id, learned))
      && (found.Some? ==>
            && found.value in es && AnswersTo(found.value, id, learned)
            && ((exists e :: e in es && e.id == id) ==> found.value.id == id)
            && ((exists e :: e in es && e.hostId == Some(id)) ==> found.value.id == id || found.value.hostId == Some(id))
            && ResolveHost(es, found.value.id, learned) == found)
  {
    FindHostIdFinds(es, id);
    FindLearnedFinds(es, id, learned);
    var found := ResolveHost(es, id, learned);
    if exists e :: e in es && AnswersTo(e, id, learned) {
      var e :| e in es && AnswersTo(e, id, learned);
      var n :| 0 <= n < |es| && es[n] == e;
      assert Find(es, id) <= n || FindHostId(es, id) <= n || FindLearned(es, id, learned) <= n;
    }
    if found.Some? {
      assert found.value in es && AnswersTo(found.value, id, learned);
      var n :| 0 <= n < |es| && es[n] == found.value;
      UniqueIsFound(es, n);
    }
  }

  // ---------------------------------------------------------------------------------------------
  // The target: `resolveCrossHostTarget`

  datatype Resolution =
    | Routed(target: string, host: Option<string>, local: bool, hinted: bool, warned: bool)
    | Conflict

  function Untouched(raw: string, hinted: bool): Resolution {
    Routed(raw, None, false, hinted, false)
  }

  /** `registry` is None when it cannot be loaded; `conflicted` is the aliases whose learned binding has a
      recorded contradiction. */
  function ResolveTarget(raw: string, explicit: Option<string>, registry: Option<seq<Entry>>, selfId: Option<string>,
                         learned: Bindings, conflicted: set<string>): Resolution
  {
    if AtCount(raw) < 2 then Untouched(raw, false)
    else
      AtCountPositive(raw);
      var at := LastAt(raw);
      var base, suffix := raw[..at], raw[at + 1..];
      if suffix == "" || base == "" then Untouched(raw, suffix != "")
      else if selfId == Some(suffix) then
        if explicit.Some? && explicit.value != suffix then Conflict else Routed(base, None, true, false, false)
      else if registry.None? then Untouched(raw, true)
      else
        var found := ResolveHost(registry.value, suffix, learned);
        if found.None? then Untouched(raw, true)
        else
          var same := explicit.Some? && explicit.value != suffix ==>
            var named := ResolveHost(registry.value, explicit.value, learned);
            named.Some? && named.value.id == found.value.id;
          if !same then Conflict
          else Routed(base, Some(found.value.id), false, false, found.value.id in conflicted)
  }

  lemma {:induction false} AtCountPositive(raw: string)
    requires AtCount(raw) > 0
    ensures LastAt(raw) < |raw|
  {
    NoAtCountsNone(raw);
  }

  /** Stripping never loses text: the target is what was given, or what was given is the target and the
      qualifier after it. A hint goes with a qualifier that was not recognised, and only with that. */
  lemma StrippingIsLossless(raw: string, explicit: Option<string>, registry: Option<seq<Entry>>, selfId: Option<string>,
                            learned: Bindings, conflicted: set<string>)
    ensures var r := ResolveTarget(raw, explicit, registry, selfId, learned, conflicted);
      r.Routed? ==>
        (r.hinted <==> r.host.None? && !r.local && AtCount(raw) >= 2 && LastAt(raw) + 1 < |raw|)
    ensures var r := ResolveTarget(raw, explicit, registry, selfId, learned, conflicted);
      r.Routed? ==>
        if r.host.None? && !r.local then r.target == raw
        else AtCount(raw) >= 2 && r.target != "" && |r.target| < |raw| && raw == r.target + AT + raw[|r.target| + 1..]
  {
    if AtCount(raw) >= 2 {
      SplitAtLast(raw);
    }
  }

  lemma SplitAtLast(raw: string)
    requires AtCount(raw) >= 2
    ensures LastAt(raw) < |raw|
    ensures var at := LastAt(raw); |raw[..at]| == at && raw == raw[..at] + AT + raw[at + 1..]
  {
    AtCountPositive(raw);
  }

  /** A sender qualified with its host's id, resolved on that host, is the bare sender again exactly when it
      was one member and one rig. A name without a rig gets only one "@", and is taken as a session of a rig
      called like the host. */
  lemma {:induction false} HomeRoundTrip(session: string, id: string, registry: Option<seq<Entry>>, learned: Bindings,
                                         conflicted: set<string>)
    requires session != "" && id != "" && '@' !in id
    ensures var sent := Qualify(session, Some(id)).value;
      ResolveTarget(sent, None, registry, Some(id), learned, conflicted) == Routed(session, None, true, false, false)
      <==> AtCount(session) == 1
  {
    QualifiedCount(session, id);
    LastAtOfJoin(session, id);
    if AtCount(session) >= 2 {
      SplitAtLast(session);
    }
  }

  lemma QualifiedCount(session: string, id: string)
    requires '@' !in id
    ensures AtCount(session + AT + id) == AtCount(session) + 1
  {
    AtCountJoined(session + AT, id);
    AtCountJoined(session, AT);
    NoAtCountsNone(id);
    assert AT[1..] == "";
  }

  /** On another host that knows the id, by alias, by join key or by what it learned, it is the bare sender
      and an alias; and the alias finds the same entry. */
  lemma {:induction false} AwayRoundTrip(session: string, id: string, es: seq<Entry>, selfId: Option<string>,
                                         learned: Bindings, conflicted: set<string>)
    requires AtCount(session) == 1 && id != "" && '@' !in id
    requires Registry(es) && selfId != Some(id)
    requires exists e :: e in es && AnswersTo(e, id, learned)
    ensures var sent := Qualify(session, Some(id)).value;
      var found := ResolveHost(es, id, learned);
      && found.Some?
      && ResolveTarget(sent, None, Some(es), selfId, learned, conflicted)
           == Routed(session, Some(found.value.id), false, false, found.value.id in conflicted)
      && ResolveHost(es, found.value.id, learned) == found
  {
    HostIsFound(es, id, learned);
    AtCountJoined(session + AT, id);
    AtCountJoined(session, AT);
    NoAtCountsNone(id);
    LastAtOfJoin(session, id);
    assert AtCount(AT) == 1 by {
      assert AT[1..] == "";
    }
  }

  /** A sender that already names a host keeps the name it has. */
  lemma QualifiedStays(session: string, selfId: Option<string>, again: Option<string>)
    requires session != ""
    ensures AtCount(session) >= 2 ==> Qualify(session, selfId) == Some(session)
    ensures AtCount(session) >= 1 ==>
      (Qualify(Qualify(session, selfId).value, again) ==
       if selfId.Some? && selfId.value != "" then Qualify(session, selfId) else Qualify(session, again))
  {
    if selfId.Some? {
      AtCountJoined(session + AT, selfId.value);
      AtCountJoined(session, AT);
      assert AtCount(AT) == 1 by {
        assert AT[1..] == "";
      }
    }
  }

  /** A host named beside a qualifier is a conflict exactly when the qualifier is recognised and the two
      name different hosts; two spellings of one entry are not. */
  lemma {:induction false} ConflictMeansTwoHosts(base: string, suffix: string, named: string, registry: Option<seq<Entry>>,
                                                 selfId: Option<string>, learned: Bindings, conflicted: set<string>)
    requires base != "" && AtCount(base) >= 1 && suffix != "" && '@' !in suffix
    ensures ResolveTarget(base + AT + suffix, Some(named), registry, selfId, learned, conflicted) == Conflict
      <==> named != suffix && (selfId == Some(suffix) || NamesAnother(registry, suffix, named, learned))
  {
    AtCountJoined(base + AT, suffix);
    AtCountJoined(base, AT);
    LastAtOfJoin(base, suffix);
    assert AtCount(AT) == 1 by {
      assert AT[1..] == "";
    }
  }

  /** The qualifier is registered, and the other name is not the same entry's. */
  predicate NamesAnother(registry: Option<seq<Entry>>, suffix: string, named: string, learned: Bindings) {
    registry.Some? && ResolveHost(registry.value, suffix, learned).Some?
    && !SameHost(registry.value, suffix, named, learned)
  }

  predicate SameHost(es: seq<Entry>, a: string, b: string, learned: Bindings) {
    var x, y := ResolveHost(es, a, learned), ResolveHost(es, b, learned);
    x.Some? && y.Some? && x.value.id == y.value.id
  }

  /** The reserved words that end a person's or an external address are never taken for a registered host:
      only a learned binding to such a word could be. */
  lemma {:induction false} ReservedSuffixIsNoHost(es: seq<Entry>, suffix: string, learned: Bindings)
    requires Registry(es) && Reserved(suffix)
    ensures ResolveHost(es, suffix, learned).Some? <==>
      exists e :: e in es && e.id in learned && learned[e.id] == suffix
  {
    HostIsFound(es, suffix, learned);
    forall e | e in es ensures e.id != suffix && e.hostId != Some(suffix) {
      var i :| 0 <= i < |es| && es[i] == e;
      assert Sound(es[i]);
    }
    if ResolveHost(es, suffix, learned).Some? {
      var e := ResolveHost(es, suffix, learned).value;
      assert e in es && e.id in learned && learned[e.id] == suffix;
    }
    if exists e :: e in es && e.id in learned && learned[e.id] == suffix {
      var e :| e in es && e.id in learned && learned[e.id] == suffix;
      assert AnswersTo(e, suffix, learned);
    }
  }

  // ---------------------------------------------------------------------------------------------
  // The bare form: session-name.ts

  datatype Parsed =
    | Canonical(member: string, rig: string)
    | Legacy(name: string)
    | External(person: string, domain: string)
    | Malformed(input: string)

  const EXTERNAL := "external"

  predicate LocalChar(c: char) {
    'a' <= c <= 'z' || 'A' <= c <= 'Z' || '0' <= c <= '9' || c in {'.', '_', ':', '-'}
  }

  /** ^[A-Za-z0-9._:-]+@external$. */
  predicate VirtualDomainRef(s: string) {
    var at := LastAt(s);
    0 < at < |s| && s[at + 1..] == EXTERNAL && forall i :: 0 <= i < at ==> LocalChar(s[i])
  }

  predicate NewLine(c: char) {
    c in {'\n', '\r', '\U{2028}', '\U{2029}'}
  }

  /** ^r\d{2}-.+$. */
  predicate LegacyFlat(s: string) {
    && |s| > 4 && s[0] == 'r' && '0' <= s[1] <= '9' && '0' <= s[2] <= '9' && s[3] == '-'
    && forall i :: 4 <= i < |s| ==> !NewLine(s[i])
  }

  function ParseSessionName(raw: string): Parsed {
    var at := FirstAt(raw);
    if VirtualDomainRef(raw) then External(raw[..LastAt(raw)], raw[LastAt(raw) + 1..])
    else if 0 < at < |raw| - 1 then Canonical(raw[..at], raw[at + 1..])
    else if at == |raw| && LegacyFlat(raw) then Legacy(raw)
    else Malformed(raw)
  }

  /** What a parsed name was parsed from. */
  function Printed(p: Parsed): string {
    match p
    case Canonical(member, rig) => member + AT + rig
    case Legacy(name) => name
    case External(person, domain) => person + AT + domain
    case Malformed(input) => input
  }

  /** Parsing loses nothing, and the member is what stands before the first "@". */
  lemma ParsingIsLossless(raw: string)
    ensures Printed(ParseSessionName(raw)) == raw
    ensures var p := ParseSessionName(raw);
      && (p.Canonical? ==> p.member != "" && p.rig != "" && '@' !in p.member)
      && (p.External? ==> p.person != "" && '@' !in p.person && p.domain == EXTERNAL)
  {
    var p := ParseSessionName(raw);
    if VirtualDomainRef(raw) {
      var at := LastAt(raw);
      assert raw == raw[..at] + AT + raw[at + 1..];
      assert forall i :: 0 <= i < at ==> LocalChar(raw[i]) && raw[i] != '@';
    } else if p.Canonical? {
      var at := FirstAt(raw);
      assert raw == raw[..at] + AT + raw[at + 1..];
    }
  }

  /** A member and a rig put together parse back, unless they spell an address of the external domain. */
  lemma {:induction false} NamesParseBack(member: string, rig: string)
    requires member != "" && rig != "" && '@' !in member
    ensures ParseSessionName(member + AT + rig) ==
      if rig == EXTERNAL && forall i :: 0 <= i < |member| ==> LocalChar(member[i]) then External(member, rig)
      else Canonical(member, rig)
  {
    FirstAtOfJoin(member, rig);
    if '@' in rig {
      LaterAt(member, rig);
    } else {
      LastAtOfJoin(member, rig);
      var s := member + AT + rig;
      assert forall i :: 0 <= i < |member| ==> s[i] == member[i];
    }
  }

  lemma FirstAtOfJoin(member: string, rig: string)
    requires '@' !in member
    ensures var s := member + AT + rig;
      FirstAt(s) == |member| && s[..|member|] == member && s[|member| + 1..] == rig
  {
    var s := member + AT + rig;
    assert s[|member|] == '@';
    assert forall i :: 0 <= i < |member| ==> s[i] == member[i];
  }

  /** With another "@" further on, the text before the last one is no local name. */
  lemma LaterAt(member: string, rig: string)
    requires '@' in rig
    ensures !VirtualDomainRef(member + AT + rig)
  {
    var s := member + AT + rig;
    var i :| 0 <= i < |rig| && rig[i] == '@';
    assert s[|member| + 1 + i] == '@' && s[|member|] == '@';
    assert LastAt(s) > |member| && !LocalChar(s[|member|]);
  }
}
