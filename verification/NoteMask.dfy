/** `maskNote`, packages/cli/src/mcp-server.ts:240-252: the names inside a transition note that an
    external caller may not see are replaced. Item ids are found first and set aside behind
    placeholders, so that a host-qualified id is not read as a seat; then seats are masked; then the
    ids come back, each as itself if it is the row's own and as the replacement otherwise. */
module NoteMask {
  import opened Options

  const OUT := "(out of scope)"
  const NUL: char := '\0'

  /** The row's own id, if it has one, and which seats may stay. */
  datatype View = View(own: Option<string>, names: string -> bool)

  // ---------------------------------------------------------------------------------------------
  // The two patterns

  predicate Alnum(c: char) {
    'a' <= c <= 'z' || 'A' <= c <= 'Z' || '0' <= c <= '9'
  }

  predicate IdChar(c: char) {
    Alnum(c) || c == '_' || c == '-'
  }

  predicate SeatChar(c: char) {
    Alnum(c) || c == '.' || c == '_' || c == '-'
  }

  /** Separates names for both patterns. */
  predicate Delimiter(c: char) {
    !SeatChar(c) && c != '@'
  }

  /** The longest prefix of characters of the class. */
  function IdRun(s: string): (n: nat)
    ensures n <= |s|
  {
    if s != "" && IdChar(s[0]) then 1 + IdRun(s[1..]) else 0
  }

  function SeatRun(s: string): (n: nat)
    ensures n <= |s|
  {
    if s != "" && SeatChar(s[0]) then 1 + SeatRun(s[1..]) else 0
  }

  lemma {:induction false} IdRunHolds(s: string)
    ensures var n := IdRun(s);
      (n < |s| ==> !IdChar(s[n])) && forall i :: 0 <= i < n ==> IdChar(s[i])
  {
    if s != "" && IdChar(s[0]) {
      IdRunHolds(s[1..]);
    }
  }

  lemma {:induction false} SeatRunHolds(s: string)
    ensures var n := SeatRun(s);
      (n < |s| ==> !SeatChar(s[n])) && forall i :: 0 <= i < n ==> SeatChar(s[i])
  {
    if s != "" && SeatChar(s[0]) {
      SeatRunHolds(s[1..]);
    }
  }

  /** A run is the only such prefix. */
  lemma {:induction false} SeatRunIs(s: string, n: nat)
    requires n <= |s| && (n < |s| ==> !SeatChar(s[n]))
    requires forall i :: 0 <= i < n ==> SeatChar(s[i])
    ensures SeatRun(s) == n
  {
    if n > 0 {
      SeatRunIs(s[1..], n - 1);
    }
  }

  lemma {:induction false} IdRunIs(s: string, n: nat)
    requires n <= |s| && (n < |s| ==> !IdChar(s[n]))
    requires forall i :: 0 <= i < n ==> IdChar(s[i])
    ensures IdRun(s) == n
  {
    if n > 0 {
      IdRunIs(s[1..], n - 1);
    }
  }

  /** "qitem-" and one letter or digit. */
  predicate StartsItem(s: string) {
    && |s| >= 7 && s[0] == 'q' && s[1] == 'i' && s[2] == 't' && s[3] == 'e' && s[4] == 'm' && s[5] == '-'
    && Alnum(s[6])
  }

  /** A host or rig suffix: "@" and a non-empty run. */
  function SuffixLength(s: string): (n: nat)
    ensures n <= |s|
  {
    if s != "" && s[0] == '@' && SeatRun(s[1..]) > 0 then 1 + SeatRun(s[1..]) else 0
  }

  function ItemLength(s: string): (n: nat)
    requires StartsItem(s)
    ensures 7 <= n <= |s|
  {
    var n := 7 + IdRun(s[7..]);
    n + SuffixLength(s[n..])
  }

  /** The length of a seat at the front, or 0. */
  function SeatLength(s: string): (n: nat)
    ensures n <= |s| && (n > 0 ==> SeatChar(s[0]))
  {
    var a := SeatRun(s);
    var b := SuffixLength(s[a..]);
    if a == 0 || b == 0 then 0 else a + b + SuffixLength(s[a + b..])
  }

  // ---------------------------------------------------------------------------------------------
  // The three passes

  function Digits(n: nat): (s: string)
    ensures s != "" && forall i :: 0 <= i < |s| ==> '0' <= s[i] <= '9'
  {
    if n < 10 then ['0' + n as char] else Digits(n / 10) + ['0' + (n % 10) as char]
  }

  function Value(s: string): nat {
    if s == "" then 0
    else 10 * Value(s[..|s| - 1]) + (if '0' <= s[|s| - 1] <= '9' then (s[|s| - 1] - '0') as nat else 0)
  }

  function Placeholder(n: nat): string {
    [NUL] + Digits(n) + [NUL]
  }

  function ShownId(id: string, view: View): string {
    if view.own == Some(id) then id else OUT
  }

  /** The note with its ids behind placeholders numbered from `n`, and what each will be shown as. */
  function SetAside(s: string, view: View, n: nat): (r: (string, seq<string>))
    decreases |s|
  {
    if s == "" then ("", [])
    else if StartsItem(s) then
      var k := ItemLength(s);
      var rest := SetAside(s[k..], view, n + 1);
      (Placeholder(n) + rest.0, [ShownId(s[..k], view)] + rest.1)
    else
      var rest := SetAside(s[1..], view, n);
      ([s[0]] + rest.0, rest.1)
  }

  function MaskSeats(s: string, names: string -> bool): string
    decreases |s|
  {
    if s == "" then ""
    else
      var k := SeatLength(s);
      if k > 0 then (if names(s[..k]) then s[..k] else OUT) + MaskSeats(s[k..], names)
      else [s[0]] + MaskSeats(s[1..], names)
  }

  function DigitRun(s: string): (n: nat)
    ensures n <= |s|
    ensures forall i :: 0 <= i < n ==> '0' <= s[i] <= '9'
    ensures n < |s| ==> !('0' <= s[n] <= '9')
  {
    if s != "" && '0' <= s[0] <= '9' then 1 + DigitRun(s[1..]) else 0
  }

  /** A placeholder at the front: the length of its digits, or 0. */
  function PlaceholderDigits(s: string): (d: nat)
    ensures d > 0 ==> d + 2 <= |s|
  {
    if s != "" && s[0] == NUL then
      var d := DigitRun(s[1..]);
      if d > 0 && d + 1 < |s| && s[d + 1] == NUL then d else 0
    else 0
  }

  function Restore(s: string, ids: seq<string>): string
    decreases |s|
  {
    if s == "" then ""
    else
      var d := PlaceholderDigits(s);
      if d > 0 then
        var i := Value(s[1..d + 1]);
        (if i < |ids| then ids[i] else "undefined") + Restore(s[d + 2..], ids)
      else [s[0]] + Restore(s[1..], ids)
  }

  function Mask(note: string, view: View): string {
    var aside := SetAside(note, view, 0);
    Restore(MaskSeats(aside.0, view.names), aside.1)
  }

  lemma Regroup<T>(a: seq<T>, b: seq<T>, c: seq<T>)
    ensures a + (b + c) == (a + b) + c
  {
  }

  lemma NoneAround<T>(a: seq<T>)
    ensures [] + a == a && a + [] == a
  {
  }

  /** What the first pass has so far, and what it makes of the rest. */
  function Joined(kept: string, ids: seq<string>, rest: (string, seq<string>)): (string, seq<string>) {
    (kept + rest.0, ids + rest.1)
  }

  /** What the first pass does at one place. */
  lemma SetAsideStep(s: string, view: View, kept: string, ids: seq<string>, piece: string, shown: seq<string>, k: nat)
    requires s != "" && 0 < k <= |s|
    requires
      if StartsItem(s) then k == ItemLength(s) && piece == Placeholder(|ids|) && shown == [ShownId(s[..k], view)]
      else k == 1 && piece == [s[0]] && shown == []
    ensures Joined(kept, ids, SetAside(s, view, |ids|))
         == Joined(kept + piece, ids + shown, SetAside(s[k..], view, |ids + shown|))
  {
    var after := SetAside(s[k..], view, |ids + shown|);
    NoneAround(after.1);
    assert SetAside(s, view, |ids|) == (piece + after.0, shown + after.1);
    Regroup(kept, piece, after.0);
    Regroup(ids, shown, after.1);
  }

  /** `maskNote`: the first pass pushes every id it meets to a list. */
  method MaskNote(note: string, view: View) returns (masked: string)
    ensures masked == Mask(note, view)
  {
    var ids: seq<string> := [];
    var kept, i := "", 0;
    assert note[0..] == note;
    NoneAround(SetAside(note, view, 0).0);
    NoneAround(SetAside(note, view, 0).1);
    while i < |note|
      invariant 0 <= i <= |note|
      invariant SetAside(note, view, 0) == Joined(kept, ids, SetAside(note[i..], view, |ids|))
    {
      var s := note[i..];
      var piece, shown, k := [s[0]], [], 1;
      if StartsItem(s) {
        k := ItemLength(s);
        piece, shown := Placeholder(|ids|), [ShownId(s[..k], view)];
      }
      assert s[k..] == note[i + k..];
      SetAsideStep(s, view, kept, ids, piece, shown, k);
      kept, ids, i := kept + piece, ids + shown, i + k;
    }
    assert note[i..] == "";
    NoneAround(kept);
    NoneAround(ids);
    masked := Restore(MaskSeats(kept, view.names), ids);
  }

  // ---------------------------------------------------------------------------------------------
  // The same without placeholders: one scan, in which a seat never runs into an item

  /** Where the first item starts, or the length. */
  function FirstItem(s: string): (f: nat)
    ensures f <= |s|
  {
    if s == "" || StartsItem(s) then 0 else FirstItem(s[1..]) + 1
  }

  lemma {:induction false} ItemAtFirst(s: string)
    ensures FirstItem(s) < |s| ==> StartsItem(s[FirstItem(s)..])
  {
    if s != "" && !StartsItem(s) {
      ItemAtFirst(s[1..]);
      assert s[1..][FirstItem(s[1..])..] == s[FirstItem(s)..];
    }
  }

  lemma {:induction false} NoItemBefore(s: string, j: nat)
    requires j < |s| && StartsItem(s[j..])
    ensures FirstItem(s) <= j
  {
    if j > 0 {
      assert s[1..][j - 1..] == s[j..];
      NoItemBefore(s[1..], j - 1);
    } else {
      assert s[0..] == s;
    }
  }

  /** The length of the seat at the front of the text before the next item. */
  function Front(s: string): (k: nat)
    ensures k <= FirstItem(s)
  {
    SeatLength(s[..FirstItem(s)])
  }

  function Shown(seat: string, view: View): string {
    if view.names(seat) then seat else OUT
  }

  /** What the scan emits for text at the front, and how far it moves. */
  function TextStep(s: string, view: View): (r: (string, nat))
    requires s != "" && !StartsItem(s)
    ensures 0 < r.1 <= FirstItem(s)
  {
    if Front(s) > 0 then (Shown(s[..Front(s)], view), Front(s)) else ([s[0]], 1)
  }

  /** The same for whatever is at the front: the text itself, or the replacement. */
  function Token(s: string, view: View): (r: (string, nat))
    requires s != ""
    ensures 0 < r.1 <= |s|
    ensures r.0 == OUT || r.0 == s[..r.1]
  {
    if StartsItem(s) then (ShownId(s[..ItemLength(s)], view), ItemLength(s)) else TextStep(s, view)
  }

  function Direct(s: string, view: View): string
    decreases |s|
  {
    if s == "" then "" else Token(s, view).0 + Direct(s[Token(s, view).1..], view)
  }

  // --- the three passes agree with the one scan ---

  lemma {:induction false} ValueOfDigits(n: nat)
    ensures Value(Digits(n)) == n
  {
    if n >= 10 {
      ValueOfDigits(n / 10);
      var d := Digits(n);
      assert d[..|d| - 1] == Digits(n / 10);
    } else {
      var d := Digits(n);
      assert d[..|d| - 1] == "";
    }
  }

  lemma {:induction false} SeatLengthLocal(a: string, tail: string)
    requires tail == "" || Delimiter(tail[0])
    ensures SeatLength(a + tail) == SeatLength(a)
  {
    RunLocal(a, tail);
    SuffixLocalAt(a, SeatRun(a), tail);
    SuffixLocalAt(a, SeatRun(a) + SuffixLength(a[SeatRun(a)..]), tail);
  }

  lemma SuffixLocalAt(a: string, n: nat, tail: string)
    requires n <= |a| && (tail == "" || Delimiter(tail[0]))
    ensures SuffixLength((a + tail)[n..]) == SuffixLength(a[n..])
  {
    assert (a + tail)[n..] == a[n..] + tail;
    SuffixLocal(a[n..], tail);
  }

  lemma {:induction false} RunLocal(a: string, tail: string)
    requires tail == "" || !SeatChar(tail[0])
    ensures SeatRun(a + tail) == SeatRun(a)
  {
    SeatRunHolds(a);
    SeatRunIs(a + tail, SeatRun(a));
  }

  lemma {:induction false} SuffixLocal(a: string, tail: string)
    requires tail == "" || Delimiter(tail[0])
    ensures SuffixLength(a + tail) == SuffixLength(a)
  {
    if a != "" {
      assert (a + tail)[1..] == a[1..] + tail;
      RunLocal(a[1..], tail);
    }
  }

  /** No "@" in a run of digits: it is no seat. */
  lemma {:induction false} DigitsAreNoSeat(d: string, y: string, names: string -> bool)
    requires forall i :: 0 <= i < |d| ==> '0' <= d[i] <= '9'
    requires y != "" && Delimiter(y[0])
    ensures MaskSeats(d + y, names) == d + MaskSeats(y, names)
  {
    if d == "" {
      NoneAround(y);
      NoneAround(MaskSeats(y, names));
    } else {
      NoSeatAtDigit(d, y);
      CharFirstOf(d, y);
      CharKept(d[0], d[1..] + y, names);
      DigitsAreNoSeat(d[1..], y, names);
      CharFirstOf(d, MaskSeats(y, names));
    }
  }

  lemma NoSeatAtDigit(d: string, y: string)
    requires forall i :: 0 <= i < |d| ==> '0' <= d[i] <= '9'
    requires y != "" && Delimiter(y[0])
    ensures SeatLength(d + y) == 0
  {
    SeatLengthLocal(d, y);
    SeatRunIs(d, |d|);
  }

  lemma CharFirstOf(d: string, y: string)
    requires d != ""
    ensures [d[0]] + (d[1..] + y) == d + y
  {
  }

  lemma CharKept(c: char, y: string, names: string -> bool)
    requires SeatLength([c] + y) == 0
    ensures MaskSeats([c] + y, names) == [c] + MaskSeats(y, names)
  {
    assert ([c] + y)[1..] == y;
  }

  lemma {:induction false} PlaceholderKept(n: nat, x: string, names: string -> bool)
    ensures MaskSeats(Placeholder(n) + x, names) == Placeholder(n) + MaskSeats(x, names)
  {
    var d := Digits(n);
    CharKept(NUL, x, names);
    DigitsAreNoSeat(d, [NUL] + x, names);
    CharKept(NUL, d + ([NUL] + x), names);
    Regroup(d, [NUL], x);
    Regroup([NUL], d + [NUL], x);
    Regroup([NUL], d, [NUL]);
    Regroup(d, [NUL], MaskSeats(x, names));
    Regroup([NUL], d + [NUL], MaskSeats(x, names));
  }

  lemma {:induction false} DigitRunIs(d: string, y: string)
    requires forall i :: 0 <= i < |d| ==> '0' <= d[i] <= '9'
    requires y != "" && !('0' <= y[0] <= '9')
    ensures DigitRun(d + y) == |d|
  {
    if d == "" {
      NoneAround(y);
    } else {
      assert (d + y)[1..] == d[1..] + y;
      DigitRunIs(d[1..], y);
    }
  }

  lemma {:induction false} PlaceholderRestored(n: nat, y: string, ids: seq<string>)
    requires n < |ids|
    ensures Restore(Placeholder(n) + y, ids) == ids[n] + Restore(y, ids)
  {
    PlaceholderParts(n, y);
    DigitRunIs(Digits(n), [NUL] + y);
    ValueOfDigits(n);
  }

  lemma PlaceholderParts(n: nat, y: string)
    ensures var d, p := Digits(n), Placeholder(n) + y;
      && |p| >= |d| + 2 && p[0] == NUL && p[1..] == d + ([NUL] + y)
      && p[1..|d| + 1] == d && p[|d| + 1] == NUL && p[|d| + 2..] == y
  {
  }

  predicate NulFree(s: string) {
    forall i :: 0 <= i < |s| ==> s[i] != NUL
  }

  lemma {:induction false} TextRestored(a: string, y: string, ids: seq<string>)
    requires NulFree(a)
    ensures Restore(a + y, ids) == a + Restore(y, ids)
  {
    if a == "" {
      NoneAround(y);
      NoneAround(Restore(y, ids));
    } else {
      CharFirst(a, |a|, y);
      CharRestored(a[0], a[1..] + y, ids);
      TextRestored(a[1..], y, ids);
      Regroup([a[0]], a[1..], Restore(y, ids));
      assert [a[0]] + a[1..] == a && a[..|a|] == a && a[1..][..|a| - 1] == a[1..];
    }
  }

  lemma CharRestored(c: char, y: string, ids: seq<string>)
    requires c != NUL
    ensures Restore([c] + y, ids) == [c] + Restore(y, ids)
  {
    assert ([c] + y)[1..] == y;
  }

  /** Up to the first item, the first pass keeps the text; a placeholder or the end follows. */
  lemma {:induction false} SetAsideKeepsText(s: string, view: View, n: nat) returns (tail: string)
    ensures SetAside(s, view, n).0 == s[..FirstItem(s)] + tail
    ensures tail == "" || tail[0] == NUL
  {
    tail := SetAside(s, view, n).0;
    if s != "" && !StartsItem(s) {
      tail := SetAsideKeepsText(s[1..], view, n);
      assert s[..FirstItem(s)] == [s[0]] + s[1..][..FirstItem(s[1..])];
    } else {
      assert s[..FirstItem(s)] + tail == tail;
    }
  }

  /** The text before the next item, skipped by `k` characters. */
  lemma {:induction false} SetAsideSkips(s: string, view: View, n: nat, k: nat)
    requires k <= FirstItem(s)
    ensures SetAside(s, view, n).0 == s[..k] + SetAside(s[k..], view, n).0
    ensures SetAside(s, view, n).1 == SetAside(s[k..], view, n).1
    ensures FirstItem(s[k..]) == FirstItem(s) - k
  {
    if k == 0 {
      assert s[..k] == "" && s[k..] == s;
      NoneAround(SetAside(s, view, n).0);
    } else {
      SetAsideSkips(s[1..], view, n, k - 1);
      SetAsideChar(s, view, n);
      CharFirst(s, k, SetAside(s[k..], view, n).0);
    }
  }

  lemma SetAsideChar(s: string, view: View, n: nat)
    requires FirstItem(s) > 0
    ensures SetAside(s, view, n).0 == [s[0]] + SetAside(s[1..], view, n).0
    ensures SetAside(s, view, n).1 == SetAside(s[1..], view, n).1
    ensures FirstItem(s) == FirstItem(s[1..]) + 1
  {
  }

  lemma CharFirst(s: string, k: nat, rest: string)
    requires 0 < k <= |s|
    ensures s[1..][k - 1..] == s[k..] && [s[0]] + (s[1..][..k - 1] + rest) == s[..k] + rest
  {
  }

  /** What the three passes make of `s` when `pre` was set aside before it. */
  function Passes(s: string, view: View, pre: seq<string>): string {
    var aside := SetAside(s, view, |pre|);
    Restore(MaskSeats(aside.0, view.names), pre + aside.1)
  }

  lemma {:induction false} ItemPasses(s: string, view: View, pre: seq<string>)
    requires StartsItem(s)
    ensures var shown := ShownId(s[..ItemLength(s)], view);
      Passes(s, view, pre) == shown + Passes(s[ItemLength(s)..], view, pre + [shown])
  {
    var k := ItemLength(s);
    var shown := ShownId(s[..k], view);
    var rest := SetAside(s[k..], view, |pre| + 1);
    PlaceholderKept(|pre|, rest.0, view.names);
    Regroup(pre, [shown], rest.1);
    PlaceholderRestored(|pre|, MaskSeats(rest.0, view.names), (pre + [shown]) + rest.1);
  }

  lemma {:induction false} TextMasked(s: string, view: View, n: nat)
    requires s != "" && !StartsItem(s)
    ensures var (shown, k) := TextStep(s, view);
      MaskSeats(SetAside(s, view, n).0, view.names) == shown + MaskSeats(SetAside(s[k..], view, n).0, view.names)
  {
    var (shown, k) := TextStep(s, view);
    var tail := SetAsideKeepsText(s, view, n);
    SeatLengthLocal(s[..FirstItem(s)], tail);
    SetAsideSkips(s, view, n, k);
    var a, rest := SetAside(s, view, n).0, SetAside(s[k..], view, n).0;
    assert a[k..] == rest;
    assert a[..k] == s[..k];
  }

  lemma {:induction false} TextPasses(s: string, view: View, pre: seq<string>)
    requires s != "" && !StartsItem(s) && NulFree(s)
    ensures var (shown, k) := TextStep(s, view);
      Passes(s, view, pre) == shown + Passes(s[k..], view, pre)
  {
    var (shown, k) := TextStep(s, view);
    TextMasked(s, view, |pre|);
    SetAsideSkips(s, view, |pre|, k);
    StepIsNulFree(s, view);
    TextRestored(shown, MaskSeats(SetAside(s[k..], view, |pre|).0, view.names), pre + SetAside(s[k..], view, |pre|).1);
  }

  lemma StepIsNulFree(s: string, view: View)
    requires s != "" && !StartsItem(s) && NulFree(s)
    ensures NulFree(TextStep(s, view).0)
  {
    OutIsNulFree();
    assert forall i :: 0 <= i < Front(s) ==> s[..Front(s)][i] == s[i];
  }

  lemma OutIsNulFree()
    ensures NulFree(OUT)
  {
  }

  lemma {:induction false} PassesAgree(s: string, view: View, pre: seq<string>)
    requires NulFree(s)
    ensures Passes(s, view, pre) == Direct(s, view)
    decreases |s|
  {
    if s == "" {
    } else if StartsItem(s) {
      ItemPasses(s, view, pre);
      PassesAgree(s[ItemLength(s)..], view, pre + [ShownId(s[..ItemLength(s)], view)]);
    } else {
      TextPasses(s, view, pre);
      PassesAgree(s[TextStep(s, view).1..], view, pre);
    }
  }

  /** Masking a note without NUL is the one scan: no placeholder survives or is mistaken. */
  lemma {:induction false} MaskIsOneScan(note: string, view: View)
    requires NulFree(note)
    ensures Mask(note, view) == Direct(note, view)
  {
    PassesAgree(note, view, []);
    NoneAround(SetAside(note, view, 0).1);
  }
}
