/** The two string operations of the fallback path: `String.prototype.split("\n")`
    and `String.prototype.trim()`. */
module TextOps {

  /** The characters `trim` removes: ECMAScript's WhiteSpace (TAB, VT, FF,
      ZWNBSP and the Unicode space separators) and LineTerminator (LF, CR, LS, PS). */
  predicate IsSpace(c: char) {
    || c == '\t' || c == '\n' || c == '\U{B}' || c == '\U{C}' || c == '\r'
    || c == ' ' || c == '\U{A0}' || c == '\U{1680}'
    || ('\U{2000}' <= c <= '\U{200A}')
    || c == '\U{2028}' || c == '\U{2029}' || c == '\U{202F}' || c == '\U{205F}'
    || c == '\U{3000}' || c == '\U{FEFF}'
  }

  predicate AllSpace(s: string) {
    forall i :: 0 <= i < |s| ==> IsSpace(s[i])
  }

  /** The number of whitespace characters `s` starts with. */
  function LeadingSpace(s: string): (n: nat)
    ensures n <= |s|
    ensures AllSpace(s[..n])
    ensures n < |s| ==> !IsSpace(s[n])
  {
    if |s| > 0 && IsSpace(s[0]) then
      var n := 1 + LeadingSpace(s[1..]);
      assert s[..n] == [s[0]] + s[1..][..n - 1];
      n
    else 0
  }

  /** The number of whitespace characters `s` ends with. */
  function TrailingSpace(s: string): (n: nat)
    ensures n <= |s|
    ensures AllSpace(s[|s| - n..])
    ensures n < |s| ==> !IsSpace(s[|s| - n - 1])
  {
    if |s| > 0 && IsSpace(s[|s| - 1]) then
      var t := s[..|s| - 1];
      var n := 1 + TrailingSpace(t);
      assert s[|s| - n..] == t[|t| - (n - 1)..] + [s[|s| - 1]];
      n
    else 0
  }

  /** `s[lo..hi]` is `s` with whitespace removed at both ends: the margins
      are whitespace and the slice, unless empty, starts and ends with
      something else. */
  predicate TrimmedSlice(s: string, lo: nat, hi: nat) {
    && lo <= hi <= |s|
    && AllSpace(s[..lo]) && AllSpace(s[hi..])
    && (lo == hi || (!IsSpace(s[lo]) && !IsSpace(s[hi - 1])))
  }

  /** The bounds of the slice `trim` keeps. */
  function TrimBounds(s: string): (b: (nat, nat))
    ensures TrimmedSlice(s, b.0, b.1)
  {
    var lo := LeadingSpace(s);
    var t := s[lo..];
    var n := TrailingSpace(t);
    var hi := |s| - n;
    assert t[|t| - n..] == s[hi..];
    if lo == |s| then (lo, lo) else (lo, hi)
  }

  /** `s.trim()`. */
  function Trim(s: string): string {
    s[TrimBounds(s).0..TrimBounds(s).1]
  }

  /** The slice a trim keeps is unique: any slice with whitespace-only margins
      and non-whitespace ends is the one `Trim` returns. */
  lemma TrimUnique(s: string, lo: nat, hi: nat)
    requires TrimmedSlice(s, lo, hi)
    ensures Trim(s) == s[lo..hi]
  {
    if lo == hi {
      assert AllSpace(s) by {
        forall i | 0 <= i < |s| ensures IsSpace(s[i]) {
          if i < lo { assert s[..lo][i] == s[i]; } else { assert s[hi..][i - hi] == s[i]; }
        }
      }
    }
  }

  /** Trimming twice is trimming once. */
  lemma TrimIdempotent(s: string)
    ensures Trim(Trim(s)) == Trim(s)
  {
    var r := Trim(s);
    assert r[..0] == [] && r[|r|..] == [];
    assert TrimmedSlice(r, 0, |r|);
    TrimUnique(r, 0, |r|);
  }

  /** The index of the first line feed in `s`. */
  function FirstNewline(s: string): (i: nat)
    requires '\n' in s
    ensures i < |s| && s[i] == '\n' && '\n' !in s[..i]
  {
    if s[0] == '\n' then 0
    else
      var i := 1 + FirstNewline(s[1..]);
      assert s[..i] == [s[0]] + s[1..][..i - 1];
      i
  }

  /** `s.split("\n")`: the pieces of `s` between line feeds, in order; a string
      without line feeds, the empty string included, is one piece. */
  function Split(s: string): (pieces: seq<string>)
    ensures |pieces| >= 1
    ensures forall i :: 0 <= i < |pieces| ==> '\n' !in pieces[i]
    decreases |s|
  {
    if '\n' !in s then [s]
    else
      var i := FirstNewline(s);
      [s[..i]] + Split(s[i + 1..])
  }

  /** `pieces.join("\n")`. */
  function Join(pieces: seq<string>): string
    requires |pieces| >= 1
  {
    if |pieces| == 1 then pieces[0] else pieces[0] + "\n" + Join(pieces[1..])
  }

  /** Joining the pieces back with line feeds restores the text. */
  lemma {:induction false} JoinSplit(s: string)
    ensures Join(Split(s)) == s
    decreases |s|
  {
    if '\n' in s {
      var i := FirstNewline(s);
      JoinSplit(s[i + 1..]);
      assert s == s[..i] + "\n" + s[i + 1..];
    }
  }

  /** Splitting a join of line-feed-free pieces gives the pieces back. */
  lemma {:induction false} SplitJoin(pieces: seq<string>)
    requires |pieces| >= 1
    requires forall i :: 0 <= i < |pieces| ==> '\n' !in pieces[i]
    ensures Split(Join(pieces)) == pieces
  {
    if |pieces| > 1 {
      var p := pieces[0];
      var s := Join(pieces);
      assert s == p + "\n" + Join(pieces[1..]);
      assert s[|p|] == '\n' && s[..|p|] == p;
      var i := FirstNewline(s);
      assert s[i + 1..] == Join(pieces[1..]);
      SplitJoin(pieces[1..]);
    } else {
      assert '\n' !in Join(pieces);
    }
  }

  /** There is one more piece than the text has line feeds. */
  lemma {:induction false} SplitCount(s: string)
    ensures |Split(s)| == multiset(s)['\n'] + 1
    decreases |s|
  {
    if '\n' !in s {
      assert multiset(s)['\n'] == 0;
    } else {
      var i := FirstNewline(s);
      SplitCount(s[i + 1..]);
      assert s == s[..i] + [s[i]] + s[i + 1..];
      assert multiset(s[..i])['\n'] == 0;
    }
  }

  /** `text.split("\n").map((e) => e.trim())`. */
  function TrimmedLines(text: string): (lines: seq<string>)
    ensures |lines| == |Split(text)|
  {
    var pieces := Split(text);
    seq(|pieces|, i requires 0 <= i < |pieces| => Trim(pieces[i]))
  }

  /** The fallback lines: one per line-feed-separated piece of the text, in
      order, each trimmed, the pieces rejoining to the text. */
  lemma TrimmedLinesSpec(text: string)
    ensures |TrimmedLines(text)| == multiset(text)['\n'] + 1
    ensures Join(Split(text)) == text
    ensures forall i :: 0 <= i < |TrimmedLines(text)| ==>
      '\n' !in Split(text)[i] && TrimmedLines(text)[i] == Trim(Split(text)[i])
  {
    SplitCount(text);
    JoinSplit(text);
  }

  /** `"a\nb\nc"` splits into its three letters. */
  lemma ThreePieces()
    ensures Split("a\nb\nc") == ["a", "b", "c"]
  {
    var t := "a\nb\nc";
    assert t[1] == '\n' && t[..1] == "a" && t[2..] == "b\nc";
    assert FirstNewline(t) == 1;
    var u := "b\nc";
    assert u[1] == '\n' && u[..1] == "b" && u[2..] == "c";
    assert FirstNewline(u) == 1;
    assert Split("c") == ["c"];
  }

  /** Trimming changes nothing when every piece already has non-whitespace ends. */
  lemma TrimmedLinesOfTrimmed(text: string)
    requires forall i :: 0 <= i < |Split(text)| ==> TrimmedSlice(Split(text)[i], 0, |Split(text)[i]|)
    ensures TrimmedLines(text) == Split(text)
  {
    var pieces := Split(text);
    var lines := TrimmedLines(text);
    forall i | 0 <= i < |pieces| ensures lines[i] == pieces[i] {
      TrimUnique(pieces[i], 0, |pieces[i]|);
      assert pieces[i][0..|pieces[i]|] == pieces[i];
    }
  }

  /** The three-line text splits and trims into its three letters. */
  lemma ThreeLines()
    ensures TrimmedLines("a\nb\nc") == ["a", "b", "c"]
  {
    ThreePieces();
    assert TrimmedSlice("a", 0, 1);
    assert TrimmedSlice("b", 0, 1);
    assert TrimmedSlice("c", 0, 1);
    TrimmedLinesOfTrimmed("a\nb\nc");
  }
}
