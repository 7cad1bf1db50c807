/** Long texts are read a page at a time: `wholeCharEnd` and `artifactView`,
    packages/cli/src/mcp-server.ts:19-28 and 411-429. A text is a sequence of UTF-16 code units. */
module ArtifactPaging {
  import opened Options

  newtype Unit = x: int | 0 <= x < 0x10000

  type Text = seq<Unit>

  const LIMIT := 48000

  predicate High(u: Unit) {
    0xd800 <= u <= 0xdbff
  }

  predicate Low(u: Unit) {
    0xdc00 <= u <= 0xdfff
  }

  /** Section 2.2 of RFC 2781: surrogates come in pairs, the high one first. */
  predicate WellFormed(s: Text) {
    if s == [] then true
    else if High(s[0]) then |s| >= 2 && Low(s[1]) && WellFormed(s[2..])
    else !Low(s[0]) && WellFormed(s[1..])
  }

  /** Between the units `end - 1` and `end`, a pair would be cut. */
  predicate SplitsPair(text: Text, end: int) {
    0 < end < |text| && High(text[end - 1]) && Low(text[end])
  }

  /** `wholeCharEnd`. */
  function WholeCharEnd(text: Text, end: int): (r: int)
    ensures !SplitsPair(text, r)
    ensures end - 1 <= r <= end && (r < end ==> 0 <= r < |text|)
  {
    if end <= 0 || end >= |text| then end
    else if High(text[end - 1]) && Low(text[end]) then end - 1
    else end
  }

  datatype View = View(text: Text, truncated: bool, next: Option<nat>)

  /** JavaScript's `slice` for an offset that is not negative. */
  function Slice(text: Text, from: nat, to: nat): Text {
    var end := if to < |text| then to else |text|;
    if from < end then text[from..end] else []
  }

  /** `artifactView` of a text the daemon read whole. */
  function ArtifactView(text: Text, offset: nat): View {
    var end := WholeCharEnd(text, offset + LIMIT);
    View(Slice(text, offset, end), |text| > end, if |text| > end then Some(end) else None)
  }

  /** The pages a client gets that follows each next offset; every one makes progress. */
  function Pages(text: Text, offset: nat): seq<Text>
    decreases |text| - offset
  {
    var v := ArtifactView(text, offset);
    [v.text] + if v.next.Some? then Pages(text, v.next.value) else []
  }

  function Joined(pages: seq<Text>): Text {
    if pages == [] then [] else pages[0] + Joined(pages[1..])
  }

  predicate AllWellFormed(pages: seq<Text>) {
    forall i :: 0 <= i < |pages| ==> WellFormed(pages[i])
  }

  /** The next offset is further on, inside the text, and not inside a character. */
  lemma NextIsFurther(text: Text, offset: nat)
    requires ArtifactView(text, offset).next.Some?
    ensures var next := ArtifactView(text, offset).next.value;
      && offset < next < |text| && !SplitsPair(text, next)
      && ArtifactView(text, offset).text == text[offset..next] && |ArtifactView(text, offset).text| <= LIMIT
  {
  }

  /** Cutting a text between characters: it is well formed exactly when both parts are. */
  lemma {:induction false} CutBetweenCharacters(s: Text, c: nat)
    requires c <= |s| && !SplitsPair(s, c)
    ensures WellFormed(s) <==> WellFormed(s[..c]) && WellFormed(s[c..])
    decreases |s|
  {
    if c == 0 {
      assert s[..c] == [] && s[c..] == s;
    } else if High(s[0]) {
      if c == 1 {
        assert s[..c] == [s[0]];
      } else if Low(s[1]) {
        assert s[..c][2..] == s[2..][..c - 2] && s[2..][c - 2..] == s[c..];
        CutBetweenCharacters(s[2..], c - 2);
      }
    } else {
      assert s[..c][1..] == s[1..][..c - 1] && s[1..][c - 1..] == s[c..];
      CutBetweenCharacters(s[1..], c - 1);
    }
  }

  lemma FirstAndRest(pages: seq<Text>)
    requires pages != []
    ensures AllWellFormed(pages) <==> WellFormed(pages[0]) && AllWellFormed(pages[1..])
  {
    assert forall i :: 0 <= i < |pages[1..]| ==> pages[1..][i] == pages[i + 1];
  }

  lemma {:induction false} PagesFrom(text: Text, offset: nat)
    requires offset <= |text|
    ensures Joined(Pages(text, offset)) == text[offset..]
    ensures AllWellFormed(Pages(text, offset)) <==> WellFormed(text[offset..])
    decreases |text| - offset
  {
    var v, pages := ArtifactView(text, offset), Pages(text, offset);
    if v.next.Some? {
      NextIsFurther(text, offset);
      var next := v.next.value;
      PagesFrom(text, next);
      assert pages[0] == v.text && pages[1..] == Pages(text, next);
      var rest := text[offset..];
      assert rest[..next - offset] == v.text && rest[next - offset..] == text[next..];
      CutBetweenCharacters(rest, next - offset);
      FirstAndRest(pages);
    } else {
      assert pages[0] == v.text == text[offset..] && pages[1..] == [];
      assert v.text + [] == v.text;
    }
  }

  /** Following the next offsets from 0 ends; the pages joined are the text; and the text is well formed
      exactly when every page is. */
  lemma {:induction false} PagesAreTheText(text: Text)
    ensures Joined(Pages(text, 0)) == text
    ensures AllWellFormed(Pages(text, 0)) <==> WellFormed(text)
  {
    PagesFrom(text, 0);
    assert text[0..] == text;
  }
}
