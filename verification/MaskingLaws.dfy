/** What masking a transition note gives: nothing is left for a second pass to find, and which hidden
    party was named cannot be read off the result. */
module MaskingLaws {
  import opened Options
  import opened NoteMask

  lemma Joined<T>(a: seq<T>, b: seq<T>)
    ensures (a + b)[|a|..] == b && (a + b)[..|a|] == a
  {
  }

  lemma Cut<T>(s: seq<T>, k: nat)
    requires k <= |s|
    ensures s == s[..k] + s[k..]
  {
  }

  // ---------------------------------------------------------------------------------------------
  // One step of the scan

  lemma DirectSteps(s: string, view: View)
    requires s != ""
    ensures Direct(s, view) == Token(s, view).0 + Direct(s[Token(s, view).1..], view)
    ensures Direct(s, view) != ""
  {
  }

  /** The scan leaves everything it finds as it is. */
  predicate Settled(s: string, view: View)
    decreases |s|
  {
    s == "" || (Token(s, view).0 == s[..Token(s, view).1] && Settled(s[Token(s, view).1..], view))
  }

  /** That is to say: it finds only the row's own id, and seats that may stay. */
  lemma SettledFinds(s: string, view: View)
    requires s != ""
    ensures Settled(s, view) <==>
      (if StartsItem(s) then view.own == Some(s[..ItemLength(s)]) && Settled(s[ItemLength(s)..], view)
       else if Front(s) > 0 then view.names(s[..Front(s)]) && Settled(s[Front(s)..], view)
       else Settled(s[1..], view))
  {
    var k := Token(s, view).1;
    assert OUT[0] == '(';
    if StartsItem(s) {
      assert s[..k][0] == 'q';
    } else {
      SeatIsPlain(s[..FirstItem(s)]);
      assert Front(s) > 0 ==> s[..k][0] == s[..FirstItem(s)][0] != '(';
    }
  }

  lemma {:induction false} SettledIsFixed(s: string, view: View)
    requires Settled(s, view)
    ensures Direct(s, view) == s
    decreases |s|
  {
    if s != "" {
      var k := Token(s, view).1;
      SettledIsFixed(s[k..], view);
      Cut(s, k);
    }
  }

  // ---------------------------------------------------------------------------------------------
  // Output that shows no opening parenthesis is input

  predicate Unmasked(o: string, n: nat)
  {
    n <= |o| && forall i :: 0 <= i < n ==> o[i] != '('
  }

  lemma UnmaskedRest(o: string, k: nat, n: nat)
    requires Unmasked(o, n) && k <= n
    ensures Unmasked(o[k..], n - k)
  {
  }

  lemma TokenWithinText(s: string, view: View)
    requires s != "" && !StartsItem(s)
    ensures Token(s, view).1 <= FirstItem(s)
  {
  }

  lemma CutTwice<T>(s: seq<T>, a: nat, b: nat)
    requires a + b <= |s|
    ensures s[a..][b..] == s[a + b..]
  {
  }

  lemma JoinAfter<T>(s: seq<T>, k: nat, f: nat, o: seq<T>, z: seq<T>)
    requires k <= f <= |s| && k <= |o|
    requires o[..k] == s[..k] && o[k..] == s[k..][..f - k] + z
    ensures o == s[..f] + z
  {
    Cut(o, k);
    Regroup(s[..k], s[k..][..f - k], z);
    PrefixPast(s, k, f);
  }

  lemma {:induction false} OutputIsInput(s: string, view: View, n: nat)
    requires Unmasked(Direct(s, view), n)
    ensures n <= |s| && s[..n] == Direct(s, view)[..n]
    decreases |s|
  {
    if n > 0 {
      var k := TokenKept(s, view);
      var o := Direct(s, view);
      if k < n {
        UnmaskedRest(o, k, n);
        OutputIsInput(s[k..], view, n - k);
        PrefixPast(o, k, n);
        PrefixPast(s, k, n);
      } else {
        Nested(o, k, n);
        Nested(s, k, n);
      }
    }
  }

  /** When the output begins with text, its first token is the input's. */
  lemma {:induction false} TokenKept(s: string, view: View) returns (k: nat)
    requires Unmasked(Direct(s, view), 1)
    ensures s != "" && k == Token(s, view).1
    ensures k <= |Direct(s, view)|
    ensures Direct(s, view)[..k] == s[..k] && Direct(s, view)[k..] == Direct(s[k..], view)
  {
    DirectSteps(s, view);
    k := Token(s, view).1;
    assert Direct(s, view)[0] == Token(s, view).0[0];
    Joined(s[..k], Direct(s[k..], view));
  }

  lemma Nested<T>(s: seq<T>, f: nat, n: nat)
    requires n <= f <= |s|
    ensures s[..f][..n] == s[..n]
  {
  }

  lemma PrefixPast<T>(s: seq<T>, k: nat, f: nat)
    requires k <= f <= |s|
    ensures s[..f] == s[..k] + s[k..][..f - k]
  {
  }

  lemma {:induction false} FirstItemSkips(s: string, k: nat)
    requires k <= FirstItem(s)
    ensures FirstItem(s[k..]) == FirstItem(s) - k
  {
    if k == 0 {
      assert s[k..] == s;
    } else {
      FirstItemSkips(s[1..], k - 1);
      assert s[1..][k - 1..] == s[k..];
    }
  }

  /** Up to the first item, tokens stay aligned. */
  lemma {:induction false} AlignedAtItem(s: string, view: View)
    requires Unmasked(Direct(s, view), FirstItem(s))
    ensures Direct(s, view) == s[..FirstItem(s)] + Direct(s[FirstItem(s)..], view)
    decreases |s|
  {
    var o, f := Direct(s, view), FirstItem(s);
    if f == 0 {
      assert s[..f] == "" && s[f..] == s;
      NoneAround(o);
    } else {
      var k := TokenKept(s, view);
      TokenWithinText(s, view);
      FirstItemSkips(s, k);
      UnmaskedRest(o, k, f);
      AlignedAtItem(s[k..], view);
      CutTwice(s, k, f - k);
      JoinAfter(s, k, f, o, Direct(s[f..], view));
    }
  }

  lemma {:induction false} StartsItemPrefix(s: string, t: string)
    requires |s| >= 7 && |t| >= 7 && s[..7] == t[..7]
    ensures StartsItem(s) == StartsItem(t)
  {
    assert forall i :: 0 <= i < 7 ==> s[i] == s[..7][i] && t[i] == t[..7][i];
  }

  lemma StartsItemUnmasked(s: string)
    requires StartsItem(s)
    ensures Unmasked(s, 7)
  {
  }

  /** An item shown by the output was there in the input. */
  lemma {:induction false} ItemWasThere(s: string, view: View, j: nat)
    requires Unmasked(Direct(s, view), j) && StartsItem(Direct(s, view)[j..])
    ensures j < |s| && StartsItem(s[j..])
  {
    var o := Direct(s, view);
    StartsItemUnmasked(o[j..]);
    assert forall i :: j <= i < j + 7 ==> o[i] == o[j..][i - j];
    assert Unmasked(o, j + 7);
    OutputIsInput(s, view, j + 7);
    assert s[j..][..7] == s[..j + 7][j..];
    assert o[j..][..7] == o[..j + 7][j..];
    StartsItemPrefix(s[j..], o[j..]);
  }

  lemma {:induction false} FirstItemKept(s: string, view: View, n: nat)
    requires Unmasked(Direct(s, view), n) && n <= FirstItem(s)
    ensures n <= FirstItem(Direct(s, view))
  {
    var f := FirstItem(Direct(s, view));
    if f < n {
      ItemAtFirst(Direct(s, view));
      ItemWasThere(s, view, f);
      NoItemBefore(s, f);
    }
  }

  /** An own id that is shown is found by a rescan. */
  lemma {:induction false} OwnItemShows(s: string, view: View)
    requires StartsItem(s) && Unmasked(Direct(s, view), 1)
    ensures StartsItem(Direct(s, view))
  {
    DirectSteps(s, view);
    var k, o := ItemLength(s), Direct(s, view);
    assert o[0] == Token(s, view).0[0];
    assert o[..7] == s[..k][..7] == s[..7];
    StartsItemPrefix(o, s);
  }

  lemma {:induction false} FirstItemReflected(s: string, view: View, n: nat)
    requires Unmasked(Direct(s, view), n) && n <= FirstItem(Direct(s, view))
    ensures n <= FirstItem(s)
  {
    var f := FirstItem(s);
    if f < n {
      OutputIsInput(s, view, n);
      AlignedAtItem(s, view);
      Joined(s[..f], Direct(s[f..], view));
      ItemAtFirst(s);
      assert Direct(s, view)[f..][0] != '(';
      OwnItemShows(s[f..], view);
      NoItemBefore(Direct(s, view), f);
    }
  }

  // ---------------------------------------------------------------------------------------------
  // What follows a name ends it in the same way

  /** `y` ends a name wherever `r` does. */
  predicate EndsAs(r: string, y: string) {
    || y == ""
    || y[0] == '('
    || (r != "" && y[0] == r[0]
        && (|y| >= 2 && y[0] == '@' && SeatChar(y[1]) ==> |r| >= 2 && SeatChar(r[1])))
  }

  lemma {:induction false} SeatRunEnds(x: string, r: string, y: string)
    requires SeatRun(x + r) == |x| && EndsAs(r, y)
    ensures SeatRun(x + y) == |x|
  {
    SeatRunHolds(x + r);
    assert forall i :: 0 <= i < |x| ==> (x + r)[i] == x[i];
    assert r != "" ==> (x + r)[|x|] == r[0];
    SeatRunIs(x + y, |x|);
  }

  lemma {:induction false} IdRunEnds(x: string, r: string, y: string)
    requires IdRun(x + r) == |x| && EndsAs(r, y)
    ensures IdRun(x + y) == |x|
  {
    IdRunHolds(x + r);
    assert forall i :: 0 <= i < |x| ==> (x + r)[i] == x[i];
    assert r != "" ==> (x + r)[|x|] == r[0];
    IdRunIs(x + y, |x|);
  }

  lemma {:induction false} SuffixEnds(x: string, r: string, y: string)
    requires SuffixLength(x + r) == |x| && EndsAs(r, y)
    ensures SuffixLength(x + y) == |x|
  {
    if x == "" {
      assert x + r == r && x + y == y;
    } else {
      assert (x + r)[1..] == x[1..] + r && (x + y)[1..] == x[1..] + y;
      SeatRunEnds(x[1..], r, y);
    }
  }

  lemma EndsAsAfter(z: string, r: string, y: string)
    requires EndsAs(r, y) && |z| != 1
    ensures EndsAs(z + r, z + y)
  {
    if z == "" {
      assert z + r == r && z + y == y;
    }
  }

  /** A seat, its parts, and what follows. */
  predicate SeatParts(x1: string, x2: string, x3: string, r: string) {
    && SeatRun(x1 + (x2 + (x3 + r))) == |x1| > 0
    && SuffixLength(x2 + (x3 + r)) == |x2| > 0
    && SuffixLength(x3 + r) == |x3|
  }

  lemma {:induction false} PartsMakeSeat(x1: string, x2: string, x3: string, r: string)
    requires SeatParts(x1, x2, x3, r)
    ensures SeatLength(x1 + (x2 + (x3 + r))) == |x1| + |x2| + |x3|
  {
    var s := x1 + (x2 + (x3 + r));
    Joined(x1, x2 + (x3 + r));
    Joined(x1 + x2, x3 + r);
    Regroup(x1, x2, x3 + r);
  }

  lemma {:induction false} SeatHasParts(s: string) returns (x1: string, x2: string, x3: string, r: string)
    requires SeatLength(s) > 0
    ensures s == x1 + (x2 + (x3 + r)) && SeatParts(x1, x2, x3, r) && r == s[SeatLength(s)..]
  {
    var a := SeatRun(s);
    var s1 := s[a..];
    var b := SuffixLength(s1);
    var s2 := s1[b..];
    var c := SuffixLength(s2);
    CutTwice(s, a, b);
    CutTwice(s, a + b, c);
    x1, x2, x3, r := s[..a], s1[..b], s2[..c], s2[c..];
    Cut(s, a);
    Cut(s1, b);
    Cut(s2, c);
  }

  lemma {:induction false} SeatEnds(x: string, r: string, y: string)
    requires SeatLength(x + r) == |x| > 0 && EndsAs(r, y)
    ensures SeatLength(x + y) == |x|
  {
    var x1, x2, x3, r' := SeatHasParts(x + r);
    Joined(x, r);
    assert r' == r;
    Regroup(x1, x2, x3 + r);
    Regroup(x1 + x2, x3, r);
    Joined(x1 + x2 + x3, r);
    assert x == x1 + x2 + x3;
    Regroup(x1, x2, x3 + y);
    Regroup(x1 + x2, x3, y);
    SuffixEnds(x3, r, y);
    EndsAsAfter(x3, r, y);
    SuffixEnds(x2, x3 + r, x3 + y);
    EndsAsAfter(x2, x3 + r, x3 + y);
    SeatRunEnds(x1, x2 + (x3 + r), x2 + (x3 + y));
    PartsMakeSeat(x1, x2, x3, y);
  }

  lemma {:induction false} PartsMakeItem(x0: string, x1: string, x2: string, r: string)
    requires |x0| == 7 && StartsItem(x0)
    requires IdRun(x1 + (x2 + r)) == |x1| && SuffixLength(x2 + r) == |x2|
    ensures StartsItem(x0 + (x1 + (x2 + r))) && ItemLength(x0 + (x1 + (x2 + r))) == 7 + |x1| + |x2|
  {
    Joined(x0, x1 + (x2 + r));
    Regroup(x0, x1, x2 + r);
    Joined(x0 + x1, x2 + r);
  }

  lemma {:induction false} ItemHasParts(s: string) returns (x0: string, x1: string, x2: string, r: string)
    requires StartsItem(s)
    ensures s == x0 + (x1 + (x2 + r)) && r == s[ItemLength(s)..]
    ensures |x0| == 7 && StartsItem(x0)
    ensures IdRun(x1 + (x2 + r)) == |x1| && SuffixLength(x2 + r) == |x2|
  {
    var a := IdRun(s[7..]);
    var b := SuffixLength(s[7 + a..]);
    assert s[7..][a..] == s[7 + a..] && s[7 + a..][b..] == s[7 + a + b..];
    x0, x1, x2, r := s[..7], s[7..][..a], s[7 + a..][..b], s[7 + a + b..];
    Cut(s, 7);
    Cut(s[7..], a);
    Cut(s[7 + a..], b);
  }

  lemma {:induction false} ItemEnds(x: string, r: string, y: string)
    requires StartsItem(x + r) && ItemLength(x + r) == |x| && EndsAs(r, y)
    ensures StartsItem(x + y) && ItemLength(x + y) == |x|
  {
    var x0, x1, x2, r' := ItemHasParts(x + r);
    Joined(x, r);
    assert r' == r;
    Regroup(x0, x1, x2 + r);
    Regroup(x0 + x1, x2, r);
    Joined(x0 + x1 + x2, r);
    assert x == x0 + x1 + x2;
    Regroup(x0, x1, x2 + y);
    Regroup(x0 + x1, x2, y);
    SuffixEnds(x2, r, y);
    EndsAsAfter(x2, r, y);
    IdRunEnds(x1, x2 + r, x2 + y);
    PartsMakeItem(x0, x1, x2, y);
  }

  lemma {:induction false} DirectEndsAs(r: string, view: View)
    ensures EndsAs(r, Direct(r, view))
    ensures EndsAs(r[..FirstItem(r)], Direct(r, view)[..FirstItem(Direct(r, view))])
  {
    var y := Direct(r, view);
    if y != "" && y[0] != '(' {
      OutputIsInput(r, view, 1);
      assert r[0] == r[..1][0] == y[..1][0];
      if FirstItem(y) >= 1 {
        FirstItemReflected(r, view, 1);
      }
      if |y| >= 2 && y[0] == '@' && SeatChar(y[1]) {
        OutputIsInput(r, view, 2);
        assert r[1] == r[..2][1] == y[..2][1];
        if FirstItem(y) >= 2 {
          FirstItemReflected(r, view, 2);
        }
      }
    }
  }

  // ---------------------------------------------------------------------------------------------
  // Nothing is left to mask

  /** Text without "@" and "q", closed by a delimiter, adds nothing to find. */
  lemma DelimiterEndsRun(t: string, j: nat)
    requires j < |t| && Delimiter(t[j])
    ensures SeatRun(t) <= j
  {
    SeatRunHolds(t);
  }

  lemma {:induction false} NoSeatInText(w: string, t: string)
    requires w != "" && Delimiter(w[|w| - 1]) && '@' !in w
    requires forall i :: 0 <= i < |w| && i < |t| ==> t[i] == w[i]
    ensures SeatLength(t) == 0
  {
    var a := SeatRun(t);
    if |w| - 1 < |t| {
      DelimiterEndsRun(t, |w| - 1);
    }
    if a < |t| {
      assert t[a..][0] == w[a];
    }
  }

  lemma {:induction false} SettledPast(w: string, y: string, view: View)
    requires w == "" || Delimiter(w[|w| - 1])
    requires '@' !in w && 'q' !in w
    requires Settled(y, view)
    ensures Settled(w + y, view)
  {
    if w == "" {
      NoneAround(y);
    } else {
      var s := w + y;
      assert s[0] == w[0];
      NoSeatInText(w, s[..FirstItem(s)]);
      assert s[1..] == w[1..] + y;
      SettledPast(w[1..], y, view);
    }
  }

  lemma {:induction false} SeatGrows(t: string, u: string)
    requires SeatLength(t) > 0
    requires SeatRun(t) + 2 <= |u| && u[..SeatRun(t) + 2] == t[..SeatRun(t) + 2]
    ensures SeatLength(u) > 0
  {
    var n := SeatRun(t) + 2;
    SeatRunHolds(t);
    assert forall i :: 0 <= i < n ==> u[i] == u[..n][i] && t[i] == t[..n][i];
    SeatRunIs(u, n - 2);
    assert t[n - 2..][1..] == t[n - 1..] && u[n - 2..][1..] == u[n - 1..];
  }

  /** A character that is no part of a seat in the input is none in the output. */
  lemma {:induction false} NoSeatAppears(s: string, view: View)
    requires s != "" && !StartsItem(s) && Front(s) == 0
    ensures Front(Direct(s, view)) == 0
  {
    var o := Direct(s, view);
    var t := o[..FirstItem(o)];
    if SeatLength(t) > 0 {
      var n := SeatRun(t) + 2;
      SeatOpens(t);
      assert Unmasked(o, n);
      OutputIsInput(s, view, n);
      FirstItemReflected(s, view, n);
      Nested(s, FirstItem(s), n);
      Nested(o, FirstItem(o), n);
      SeatGrows(t, s[..FirstItem(s)]);
    }
  }

  lemma {:induction false} SeatOpens(t: string)
    requires SeatLength(t) > 0
    ensures SeatRun(t) + 2 <= |t|
    ensures forall i :: 0 <= i < SeatRun(t) + 2 ==> t[i] != '('
  {
    var a := SeatRun(t);
    SeatRunHolds(t);
    assert t[a] == '@' && t[a + 1] == t[a..][1..][0];
  }

  /** A seat that stays is found again, with the same extent. */
  lemma {:induction false} SeatStays(s: string, view: View)
    requires s != "" && !StartsItem(s) && Front(s) > 0 && view.names(s[..Front(s)])
    ensures !StartsItem(Direct(s, view)) && Front(Direct(s, view)) == Front(s)
  {
    var o, k := Direct(s, view), Front(s);
    var x, r := s[..k], s[k..];
    var y := Direct(r, view);
    DirectSteps(s, view);
    Joined(x, y);
    SeatIsUnmasked(s, y);
    FirstItemKept(s, view, k);
    DirectEndsAs(r, view);
    SeatFound(s, k, r[..FirstItem(r)]);
    FirstItemSkips(o, k);
    PrefixPast(o, k, FirstItem(o));
    SeatEnds(x, r[..FirstItem(r)], y[..FirstItem(y)]);
  }

  lemma {:induction false} SeatIsUnmasked(s: string, y: string)
    ensures Unmasked(s[..Front(s)] + y, Front(s))
  {
    var t := s[..FirstItem(s)];
    SeatIsPlain(t);
    Nested(s, FirstItem(s), Front(s));
    assert forall i :: 0 <= i < Front(s) ==> (s[..Front(s)] + y)[i] == t[i];
  }

  lemma {:induction false} SeatFound(s: string, k: nat, r: string)
    requires 0 < k == Front(s) && r == s[k..][..FirstItem(s[k..])]
    ensures SeatLength(s[..k] + r) == k
  {
    FirstItemSkips(s, k);
    PrefixPast(s, k, FirstItem(s));
  }

  lemma {:induction false} SuffixIsPlain(s: string)
    ensures forall i :: 0 <= i < SuffixLength(s) ==> s[i] != '(' && s[i] != NUL
  {
    if SuffixLength(s) > 0 {
      SeatRunHolds(s[1..]);
      assert forall i :: 1 <= i < SuffixLength(s) ==> s[i] == s[1..][i - 1];
    }
  }

  lemma {:induction false} SeatIsPlain(s: string)
    ensures forall i :: 0 <= i < SeatLength(s) ==> s[i] != '(' && s[i] != NUL
  {
    var a := SeatRun(s);
    var b := SuffixLength(s[a..]);
    SeatRunHolds(s);
    SuffixIsPlain(s[a..]);
    SuffixIsPlain(s[a + b..]);
    assert forall i :: a <= i < a + b ==> s[i] == s[a..][i - a];
    assert forall i :: a + b <= i < SeatLength(s) ==> s[i] == s[a + b..][i - a - b];
  }

  lemma {:induction false} ItemStays(s: string, view: View)
    requires StartsItem(s) && view.own == Some(s[..ItemLength(s)])
    ensures StartsItem(Direct(s, view)) && ItemLength(Direct(s, view)) == ItemLength(s)
  {
    var k := ItemLength(s);
    DirectSteps(s, view);
    DirectEndsAs(s[k..], view);
    Cut(s, k);
    ItemEnds(s[..k], s[k..], Direct(s[k..], view));
  }

  lemma {:induction false} CharStays(s: string, view: View)
    requires s != "" && !StartsItem(s) && Front(s) == 0
    ensures !StartsItem(Direct(s, view)) && Front(Direct(s, view)) == 0
  {
    NoSeatAppears(s, view);
    var o := Direct(s, view);
    if StartsItem(o) {
      assert o[0..] == o && s[0..] == s;
      ItemWasThere(s, view, 0);
    }
  }

  lemma {:induction false} DirectIsSettled(s: string, view: View)
    ensures Settled(Direct(s, view), view)
    decreases |s|
  {
    if s != "" {
      var (shown, k) := Token(s, view);
      DirectSteps(s, view);
      var r := Direct(s[k..], view);
      DirectIsSettled(s[k..], view);
      if shown == OUT {
        SettledPast(OUT, r, view);
      } else {
        Joined(s[..k], r);
        if StartsItem(s) {
          ItemStays(s, view);
        } else if Front(s) > 0 {
          SeatStays(s, view);
        } else {
          CharStays(s, view);
        }
      }
    }
  }

  lemma {:induction false} DirectIsNulFree(s: string, view: View)
    requires NulFree(s)
    ensures NulFree(Direct(s, view))
    decreases |s|
  {
    if s != "" {
      DirectSteps(s, view);
      DirectIsNulFree(s[Token(s, view).1..], view);
    }
  }

  /** A rescan of a masked note finds only the row's own id and permitted seats; masking it again
      changes nothing. */
  lemma {:induction false} MaskingSettles(note: string, view: View)
    requires NulFree(note)
    ensures Settled(Mask(note, view), view)
    ensures Mask(Mask(note, view), view) == Mask(note, view)
  {
    MaskIsOneScan(note, view);
    DirectIsSettled(note, view);
    DirectIsNulFree(note, view);
    MaskIsOneScan(Mask(note, view), view);
    SettledIsFixed(Mask(note, view), view);
  }

  // ---------------------------------------------------------------------------------------------
  // Notes are masked word by word

  lemma {:induction false} ItemStartLocal(a: string, tail: string)
    requires tail == "" || Delimiter(tail[0])
    ensures StartsItem(a + tail) == StartsItem(a)
  {
    if |a| < 7 && |tail| > 0 {
      assert (a + tail)[|a|] == tail[0];
    }
  }

  lemma {:induction false} IdRunLocal(a: string, tail: string)
    requires tail == "" || Delimiter(tail[0])
    ensures IdRun(a + tail) == IdRun(a)
  {
    IdRunHolds(a);
    IdRunIs(a + tail, IdRun(a));
  }

  lemma {:induction false} ItemLocal(a: string, tail: string)
    requires tail == "" || Delimiter(tail[0])
    requires StartsItem(a)
    ensures StartsItem(a + tail) && ItemLength(a + tail) == ItemLength(a)
  {
    ItemStartLocal(a, tail);
    var n := 7 + IdRun(a[7..]);
    assert (a + tail)[7..] == a[7..] + tail;
    IdRunLocal(a[7..], tail);
    assert (a + tail)[n..] == a[n..] + tail;
    SuffixLocal(a[n..], tail);
  }

  /** What follows a delimiter does not move the first item before it. */
  lemma {:induction false} FirstItemLocal(a: string, tail: string)
    requires tail == "" || Delimiter(tail[0])
    ensures FirstItem(a) < |a| ==> FirstItem(a + tail) == FirstItem(a)
    ensures FirstItem(a) == |a| ==> FirstItem(a + tail) >= |a|
  {
    if a != "" {
      ItemStartLocal(a, tail);
      assert (a + tail)[1..] == a[1..] + tail;
      FirstItemLocal(a[1..], tail);
    }
  }

  lemma {:induction false} FrontLocal(a: string, tail: string)
    requires tail == "" || Delimiter(tail[0])
    ensures Front(a + tail) == Front(a)
  {
    var f, g := FirstItem(a), FirstItem(a + tail);
    FirstItemLocal(a, tail);
    if f < |a| {
      assert (a + tail)[..g] == a[..f];
    } else {
      assert (a + tail)[..g] == a + tail[..g - |a|];
      assert a[..f] == a;
      SeatLengthLocal(a, tail[..g - |a|]);
    }
  }

  lemma {:induction false} TokenLocal(a: string, tail: string, view: View)
    requires a != "" && (tail == "" || Delimiter(tail[0]))
    ensures Token(a + tail, view) == Token(a, view)
    ensures (a + tail)[Token(a, view).1..] == a[Token(a, view).1..] + tail
  {
    if StartsItem(a) {
      ItemLocal(a, tail);
    } else {
      ItemStartLocal(a, tail);
      FrontLocal(a, tail);
    }
    CutBefore(a, tail, if StartsItem(a) then ItemLength(a) else Front(a));
    CutBefore(a, tail, Token(a, view).1);
  }

  lemma CutBefore<T>(a: seq<T>, b: seq<T>, k: nat)
    requires k <= |a|
    ensures (a + b)[..k] == a[..k] && (a + b)[k..] == a[k..] + b
  {
  }

  /** A delimiter separates: each side is masked on its own. */
  lemma {:induction false} MaskedApart(a: string, d: char, b: string, view: View)
    requires Delimiter(d)
    ensures Direct(a + ([d] + b), view) == Direct(a, view) + ([d] + Direct(b, view))
    decreases |a|
  {
    var tail := [d] + b;
    if a == "" {
      NoneAround(tail);
      NoneAround([d] + Direct(b, view));
      assert tail[1..] == b;
      assert Front(tail) == 0;
    } else {
      var (shown, k) := Token(a, view);
      TokenLocal(a, tail, view);
      DirectSteps(a, view);
      DirectSteps(a + tail, view);
      MaskedApart(a[k..], d, b, view);
      Regroup(shown, Direct(a[k..], view), [d] + Direct(b, view));
    }
  }

  // ---------------------------------------------------------------------------------------------
  // Which hidden party a note names cannot be told

  /** An item id that is not the row's own, and nothing else. */
  predicate HiddenItem(w: string, view: View) {
    StartsItem(w) && ItemLength(w) == |w| && view.own != Some(w)
  }

  /** A seat that may not stay, with no item id inside it, and nothing else. */
  predicate HiddenSeat(w: string, view: View) {
    w != "" && SeatLength(w) == |w| && !view.names(w) && FirstItem(w) == |w|
  }

  predicate HiddenParty(w: string, view: View) {
    HiddenItem(w, view) || HiddenSeat(w, view)
  }

  /** A seat-shaped word that may not stay is wholly replaced exactly when no item id starts inside
      it, or all of it is one item id that is not the row's own. Otherwise part of it shows. */
  lemma {:induction false} SeatIsWhollyMasked(w: string, view: View)
    requires w != "" && SeatLength(w) == |w| && !view.names(w)
    ensures Mask(w, view) == OUT <==> HiddenParty(w, view)
  {
    SeatIsPlain(w);
    MaskIsOneScan(w, view);
    DirectSteps(w, view);
    var (shown, k) := Token(w, view);
    var rest := Direct(w[k..], view);
    assert w[..|w|] == w;
    assert Direct(w, view)[0] == shown[0];
    assert shown == OUT ==> Direct(w, view) == OUT + rest;
    assert shown == OUT ==> (Direct(w, view) == OUT <==> rest == "");
  }

  lemma {:induction false} HiddenItemIsMasked(w: string, view: View)
    requires HiddenItem(w, view)
    ensures Direct(w, view) == OUT
  {
    DirectSteps(w, view);
    assert w[..|w|] == w && w[|w|..] == "";
  }

  lemma {:induction false} HiddenSeatIsMasked(w: string, view: View)
    requires HiddenSeat(w, view)
    ensures Direct(w, view) == OUT
  {
    DirectSteps(w, view);
    assert w[0..] == w;
    assert w[..|w|] == w && w[|w|..] == "";
  }

  function WordLength(s: string): (n: nat)
    ensures n <= |s| && (n < |s| ==> Delimiter(s[n]))
  {
    if s != "" && !Delimiter(s[0]) then 1 + WordLength(s[1..]) else 0
  }

  /** The word begins with an item id that is not the row's own. */
  predicate OpensHidden(w: string, view: View) {
    StartsItem(w) && view.own != Some(w[..ItemLength(w)])
  }

  /** The words are the same, or name hidden parties, or begin with hidden items and are alike from there on:
      what follows an id need be no delimiter. */
  predicate WordsAlike(v: string, w: string, view: View)
    decreases |v|
  {
    || v == w
    || (HiddenParty(v, view) && HiddenParty(w, view))
    || (OpensHidden(v, view) && OpensHidden(w, view)
        && WordsAlike(v[ItemLength(v)..], w[ItemLength(w)..], view))
  }

  /** Two notes with the same words, save that where one names a hidden party the other may name
      another. */
  predicate DifferInHiddenParties(s: string, t: string, view: View)
    decreases |s|
  {
    var m, n := WordLength(s), WordLength(t);
    && WordsAlike(s[..m], t[..n], view)
    && (m == |s| <==> n == |t|)
    && (m < |s| && n < |t| ==> s[m] == t[n] && DifferInHiddenParties(s[m + 1..], t[n + 1..], view))
  }

  lemma {:induction false} HiddenPartyIsMasked(w: string, view: View)
    requires HiddenParty(w, view)
    ensures Direct(w, view) == OUT
  {
    if HiddenItem(w, view) {
      HiddenItemIsMasked(w, view);
    } else {
      HiddenSeatIsMasked(w, view);
    }
  }

  lemma {:induction false} FirstWordMasked(s: string, view: View)
    requires WordLength(s) < |s|
    ensures var m := WordLength(s);
      Direct(s, view) == Direct(s[..m], view) + ([s[m]] + Direct(s[m + 1..], view))
  {
    var m := WordLength(s);
    assert s == s[..m] + ([s[m]] + s[m + 1..]);
    MaskedApart(s[..m], s[m], s[m + 1..], view);
  }

  lemma {:induction false} WordsMasked(s: string, t: string, view: View)
    requires DifferInHiddenParties(s, t, view)
    ensures Direct(s, view) == Direct(t, view)
    decreases |s|
  {
    var m, n := WordLength(s), WordLength(t);
    FirstWordsMasked(s[..m], t[..n], view);
    if m < |s| && n < |t| {
      WordsMasked(s[m + 1..], t[n + 1..], view);
      BothContinue(s, t, view);
    } else {
      assert s[..m] == s && t[..n] == t;
    }
  }

  lemma BothContinue(s: string, t: string, view: View)
    requires var m, n := WordLength(s), WordLength(t);
      m < |s| && n < |t| && s[m] == t[n]
      && Direct(s[..m], view) == Direct(t[..n], view) && Direct(s[m + 1..], view) == Direct(t[n + 1..], view)
    ensures Direct(s, view) == Direct(t, view)
  {
    FirstWordMasked(s, view);
    FirstWordMasked(t, view);
  }

  lemma {:induction false} FirstWordsMasked(v: string, w: string, view: View)
    requires WordsAlike(v, w, view)
    ensures Direct(v, view) == Direct(w, view)
    decreases |v|
  {
    if v == w {
    } else if HiddenParty(v, view) && HiddenParty(w, view) {
      HiddenPartyIsMasked(v, view);
      HiddenPartyIsMasked(w, view);
    } else {
      DirectSteps(v, view);
      DirectSteps(w, view);
      FirstWordsMasked(v[ItemLength(v)..], w[ItemLength(w)..], view);
    }
  }

  /** Notes that differ only in which hidden parties they name are masked alike. */
  lemma {:induction false} MaskHidesWhichParty(s: string, t: string, view: View)
    requires NulFree(s) && NulFree(t)
    requires DifferInHiddenParties(s, t, view)
    ensures Mask(s, view) == Mask(t, view)
  {
    MaskIsOneScan(s, view);
    MaskIsOneScan(t, view);
    WordsMasked(s, t, view);
  }

  const EMBEDDED := "-qitem-a@rig"

  lemma {:induction false} EmbeddedItemShowsText(p: string, view: View)
    requires |p| == 3 && forall i :: 0 <= i < 3 ==> 'a' <= p[i] <= 'z' && p[i] != 'q'
    ensures var s := p + EMBEDDED;
      SeatLength(s) == |s| && !HiddenParty(s, view) && Mask(s, view) != "" && Mask(s, view)[0] == p[0]
  {
    var s := p + EMBEDDED;
    assert forall i :: 3 <= i < 15 ==> s[i] == EMBEDDED[i - 3];
    LooksLikeSeat(s);
    assert s[4..] == "qitem-a@rig";
    SeatIsPlain(s);
    FirstCharacterShows(s, 4, view);
  }

  /** With an item id inside a hidden seat, the text before the id shows, so that two hidden seats can
      be told apart. */
  lemma {:induction false} EmbeddedItemTells(view: View)
    requires !view.names("dev" + EMBEDDED) && !view.names("ops" + EMBEDDED)
    ensures Mask("dev" + EMBEDDED, view) != Mask("ops" + EMBEDDED, view)
    ensures SeatLength("dev" + EMBEDDED) == SeatLength("ops" + EMBEDDED) == 15
  {
    EmbeddedItemShowsText("dev", view);
    EmbeddedItemShowsText("ops", view);
  }

  lemma {:induction false} LooksLikeSeat(s: string)
    requires |s| == 15 && s[11] == '@'
    requires forall i :: 0 <= i < 15 && i != 11 ==> SeatChar(s[i])
    ensures SeatLength(s) == 15
  {
    SeatRunIs(s, 11);
    assert s[11..][1..] == s[12..];
    SeatRunIs(s[12..], 3);
    assert s[11..][4..] == s[15..] == "";
  }

  lemma {:induction false} FirstCharacterShows(s: string, f: nat, view: View)
    requires NulFree(s) && 0 < f < |s| && StartsItem(s[f..])
    requires '@' !in s[..f] && s[0] != 'q'
    ensures FirstItem(s) <= f && Mask(s, view) != "" && Mask(s, view)[0] == s[0]
  {
    MaskIsOneScan(s, view);
    DirectSteps(s, view);
    NoItemBefore(s, f);
    var t := s[..FirstItem(s)];
    assert forall i :: 0 <= i < |t| ==> t[i] == s[..f][i];
    assert '@' !in t;
    assert SeatLength(t) == 0;
  }
}
