/** Delimiter framing of chat messages: the client appends the message
    delimiter to every outgoing message, and splits every inbound payload
    on it with the semantics of Java's `String.split(String)` (limit 0),
    the delimiter being read as a literal string. */
module Framing {

  datatype Option<T> = None | Some(value: T)

  /** The message delimiter; the configuration never leaves it empty. */
  type Delimiter = d: string | d != [] witness ";"

  /** `d` occurs in `s` starting at index `i`. */
  predicate OccursAt(s: string, d: string, i: nat) {
    i + |d| <= |s| && s[i..i + |d|] == d
  }

  /** `s` contains no occurrence of `d`. */
  predicate DelimiterFree(s: string, d: string) {
    forall i: nat :: i < |s| ==> !OccursAt(s, d, i)
  }

  /** The leftmost occurrence of `d` in `s` at or after index `from`. */
  function IndexFrom(s: string, d: Delimiter, from: nat): (r: Option<nat>)
    decreases |s| - from
    ensures r.Some? ==> from <= r.value && OccursAt(s, d, r.value)
    ensures r.Some? ==> forall j: nat :: from <= j < r.value ==> !OccursAt(s, d, j)
    ensures r.None? ==> forall j: nat :: from <= j ==> !OccursAt(s, d, j)
  {
    if from + |d| > |s| then None
    else if OccursAt(s, d, from) then Some(from)
    else IndexFrom(s, d, from + 1)
  }

  /** A one-character delimiter occurs exactly where that character is. */
  lemma OccursSingle(s: string, c: char, i: nat)
    ensures OccursAt(s, [c], i) <==> i < |s| && s[i] == c
  {
    if i < |s| { assert s[i..i + 1] == [s[i]]; }
  }

  /** An occurrence inside a prefix of `s` is an occurrence in `s`. */
  lemma OccursInPrefix(s: string, d: string, n: nat, i: nat)
    requires n <= |s|
    requires OccursAt(s[..n], d, i)
    ensures OccursAt(s, d, i)
  {
    assert s[..n][i..i + |d|] == s[i..i + |d|];
  }

  /** An occurrence that ends within the first `n` characters is an
      occurrence in `s[..n]`. */
  lemma OccursInLonger(s: string, t: string, d: string, i: nat)
    requires |s| <= |t| && s == t[..|s|]
    requires i + |d| <= |s|
    ensures OccursAt(s, d, i) <==> OccursAt(t, d, i)
  {
    assert s[i..i + |d|] == t[i..i + |d|];
  }

  /** Every piece of `s` between leftmost non-overlapping occurrences of
      `d`, trailing empty pieces included. */
  function Pieces(s: string, d: Delimiter): (r: seq<string>)
    decreases |s|
    ensures |r| >= 1
    ensures forall k :: 0 <= k < |r| ==> DelimiterFree(r[k], d)
  {
    match IndexFrom(s, d, 0)
    case None => [s]
    case Some(i) =>
      assert DelimiterFree(s[..i], d) by {
        forall j: nat | j < i ensures !OccursAt(s[..i], d, j) {
          if OccursAt(s[..i], d, j) { OccursInPrefix(s, d, i, j); }
        }
      }
      [s[..i]] + Pieces(s[i + |d|..], d)
  }

  /** Java's removal of trailing empty strings from a split result. */
  function DropTrailingEmpty(r: seq<string>): (q: seq<string>)
    ensures |q| <= |r| && q == r[..|q|]
    ensures q != [] ==> q[|q| - 1] != ""
    ensures forall k :: |q| <= k < |r| ==> r[k] == ""
  {
    if r == [] then []
    else if r[|r| - 1] == "" then DropTrailingEmpty(r[..|r| - 1])
    else r
  }

  /** `s.split(d)`: with no occurrence the whole input is the single
      element (the empty input included); otherwise the pieces with
      trailing empty strings removed. */
  function Split(s: string, d: Delimiter): (r: seq<string>)
    ensures DelimiterFree(s, d) ==> r == [s]
    ensures !DelimiterFree(s, d) ==> r == DropTrailingEmpty(Pieces(s, d))
    ensures !DelimiterFree(s, d) && r != [] ==> r[|r| - 1] != ""
    ensures forall k :: 0 <= k < |r| ==> DelimiterFree(r[k], d)
  {
    match IndexFrom(s, d, 0)
    case None => [s]
    case Some(_) => DropTrailingEmpty(Pieces(s, d))
  }

  /** The pieces put back together, the delimiter between each two. */
  function Join(r: seq<string>, d: string): string
    requires |r| >= 1
  {
    if |r| == 1 then r[0] else r[0] + d + Join(r[1..], d)
  }

  /** Splitting loses nothing: joining the pieces gives back the input. */
  lemma {:induction false} JoinPieces(s: string, d: Delimiter)
    ensures Join(Pieces(s, d), d) == s
    decreases |s|
  {
    match IndexFrom(s, d, 0)
    case None =>
    case Some(i) =>
      var rest := s[i + |d|..];
      var ps := Pieces(rest, d);
      JoinPieces(rest, d);
      assert Pieces(s, d) == [s[..i]] + ps;
      assert ([s[..i]] + ps)[1..] == ps;
      assert Join([s[..i]] + ps, d) == s[..i] + d + rest;
      assert s == s[..i] + s[i..i + |d|] + rest;
  }

  /** The framed form `sendMessage` queues: the message, then one occurrence of the delimiter. */
  function Frame(m: string, d: Delimiter): (r: string)
    ensures |r| == |m| + |d| && r[..|m|] == m && OccursAt(r, d, |m|)
  {
    assert (m + d)[|m|..|m| + |d|] == d;
    m + d
  }

  /** Frames of a list of messages, in order. */
  function Frames(ms: seq<string>, d: Delimiter): (fs: seq<string>)
    ensures |fs| == |ms|
  {
    if ms == [] then [] else [Frame(ms[0], d)] + Frames(ms[1..], d)
  }

  /** The frames keep the messages' order: the k-th frame is the k-th
      message's. */
  lemma {:induction false} FramesAt(ms: seq<string>, d: Delimiter, k: nat)
    requires k < |ms|
    ensures Frames(ms, d)[k] == Frame(ms[k], d)
  {
    if k > 0 {
      FramesAt(ms[1..], d, k - 1);
    }
  }

  /** The bytes on the wire: strings sent one after another. */
  function Concat(ss: seq<string>): (s: string)
    ensures ss == [] ==> s == []
  {
    if ss == [] then [] else ss[0] + Concat(ss[1..])
  }

  /** One string sent puts exactly that string on the wire. */
  lemma ConcatSingle(x: string)
    ensures Concat([x]) == x
  {
  }

  lemma {:induction false} ConcatAppend(a: seq<string>, b: seq<string>)
    ensures Concat(a + b) == Concat(a) + Concat(b)
  {
    if a == [] {
      assert a + b == b;
    } else {
      assert (a + b)[1..] == a[1..] + b;
      ConcatAppend(a[1..], b);
    }
  }

  /** The delimiter that ends a framed message is the first occurrence of
      the delimiter in it: no occurrence starts inside the message. For a
      one-character delimiter this is exactly "the message does not
      contain the delimiter" (lemma SingleCharUnambiguous). */
  predicate Unambiguous(m: string, d: Delimiter) {
    forall j: nat :: j < |m| ==> !OccursAt(Frame(m, d), d, j)
  }

  lemma SingleCharUnambiguous(m: string, d: Delimiter)
    requires |d| == 1
    ensures Unambiguous(m, d) <==> DelimiterFree(m, d)
  {
    var f := Frame(m, d);
    forall j: nat | j < |m| ensures OccursAt(f, d, j) <==> OccursAt(m, d, j) {
      OccursInLonger(m, f, d, j);
    }
  }

  /** With a self-overlapping delimiter, a message that does not contain
      the delimiter can still be cut apart: "xa" framed with "aa" is
      "xaaa", which splits into ["x", "a"]. */
  lemma OverlappingDelimiterCounterexample()
    ensures DelimiterFree("xa", "aa") && !Unambiguous("xa", "aa")
    ensures Split(Concat(Frames(["xa"], "aa")), "aa") == ["x", "a"]
  {
    assert "xa"[0..2][0] == 'x';
    assert !OccursAt("xa", "aa", 0);
    assert "xaaa"[0..2][0] == 'x';
    assert "xaaa"[1..3] == "aa";
    assert "xaaa"[..1] == "x";
    assert Frame("xa", "aa") == "xa" + "aa" == "xaaa";
    assert Frames(["xa"], "aa") == ["xaaa"];
    assert Concat(["xaaa"]) == "xaaa";
    assert IndexFrom("xaaa", "aa", 0) == Some(1);
    assert "xaaa"[3..] == "a";
    assert IndexFrom("a", "aa", 0) == None;
    assert Pieces("xaaa", "aa") == ["x", "a"];
  }

  /** Pieces of a framed message followed by more input: the message, then
      the pieces of the rest. */
  lemma PiecesOfFrame(m: string, d: Delimiter, rest: string)
    requires Unambiguous(m, d)
    ensures Pieces(Frame(m, d) + rest, d) == [m] + Pieces(rest, d)
  {
    var f := Frame(m, d);
    var s := f + rest;
    forall j: nat | j < |m| ensures !OccursAt(s, d, j) {
      OccursInLonger(f, s, d, j);
    }
    OccursInLonger(f, s, d, |m|);
    var r := IndexFrom(s, d, 0);
    assert r == Some(|m|);
    assert s[..|m|] == m;
    assert s[|m| + |d|..] == rest;
  }

  lemma {:induction false} PiecesOfFrames(ms: seq<string>, d: Delimiter)
    requires forall k :: 0 <= k < |ms| ==> Unambiguous(ms[k], d)
    ensures Pieces(Concat(Frames(ms, d)), d) == ms + [""]
  {
    if ms == [] {
      assert Concat(Frames(ms, d)) == "";
      assert IndexFrom("", d, 0) == None;
    } else {
      var fs := Frames(ms, d);
      var rest := Concat(Frames(ms[1..], d));
      assert fs == [Frame(ms[0], d)] + Frames(ms[1..], d);
      assert Concat(fs) == Frame(ms[0], d) + rest;
      PiecesOfFrames(ms[1..], d);
      PiecesOfFrame(ms[0], d, rest);
      assert ms + [""] == [ms[0]] + (ms[1..] + [""]);
    }
  }

  /** Round trip of the framing: the concatenation of the framed messages
      splits back into exactly those messages, provided there is at least
      one, the last is non-empty (trailing empty strings are dropped) and
      no delimiter starts inside any of them. */
  lemma RoundTrip(ms: seq<string>, d: Delimiter)
    requires ms != [] && ms[|ms| - 1] != ""
    requires forall k :: 0 <= k < |ms| ==> Unambiguous(ms[k], d)
    ensures Split(Concat(Frames(ms, d)), d) == ms
  {
    var s := Concat(Frames(ms, d));
    PiecesOfFrames(ms, d);
    assert IndexFrom(s, d, 0).Some?;
    var p := ms + [""];
    assert p[..|p| - 1] == ms;
    assert DropTrailingEmpty(p) == DropTrailingEmpty(ms);
  }

  /** The empty payload is delivered as one empty message. */
  lemma SplitEmpty(d: Delimiter)
    ensures Split("", d) == [""]
  {
    assert IndexFrom("", d, 0) == None;
  }

  /** An example: a payload ending in `;` yields no trailing empty message. */
  lemma SplitTrailingDelimiter()
    ensures Split("a;b;", ";") == ["a", "b"]
  {
    OccursSingle("a;b;", ';', 0);
    OccursSingle("a;b;", ';', 1);
    OccursSingle("b;", ';', 0);
    OccursSingle("b;", ';', 1);
    assert IndexFrom("a;b;", ";", 0) == Some(1);
    assert "a;b;"[..1] == "a" && "a;b;"[2..] == "b;";
    assert IndexFrom("b;", ";", 0) == Some(1);
    assert "b;"[..1] == "b" && "b;"[2..] == "";
    assert IndexFrom("", ";", 0) == None;
    assert Pieces("a;b;", ";") == ["a", "b", ""];
  }

  /** A delimiter-free input has no pieces but itself. */
  lemma PiecesOfDelimiterFree(s: string, d: Delimiter)
    requires DelimiterFree(s, d)
    ensures Pieces(s, d) == [s]
  {
    assert IndexFrom(s, d, 0).None?;
  }

  /** A final piece without a delimiter is delivered whole, after the
      message its delimiter ends; with an empty first message, a leading
      delimiter yields a leading empty message. */
  lemma SplitTrailingPiece(a: string, b: string, d: Delimiter)
    requires Unambiguous(a, d) && DelimiterFree(b, d) && b != ""
    ensures Split(a + d + b, d) == [a, b]
  {
    PiecesOfFrame(a, d, b);
    PiecesOfDelimiterFree(b, d);
    OccursInLonger(Frame(a, d), a + d + b, d, |a|);
    assert !DelimiterFree(a + d + b, d);
  }

  /** A payload made of delimiters only yields no message at all. */
  lemma SplitOnlyDelimiters(k: nat, d: Delimiter)
    requires k >= 1
    ensures Split(Concat(Frames(seq(k, _ => ""), d)), d) == []
  {
    var ms: seq<string> := seq(k, _ => "");
    assert forall i :: 0 <= i < |ms| ==> Unambiguous(ms[i], d);
    PiecesOfFrames(ms, d);
    var s := Concat(Frames(ms, d));
    assert Frames(ms, d) == [Frame("", d)] + Frames(ms[1..], d);
    assert s == d + Concat(Frames(ms[1..], d));
    assert OccursAt(s, d, 0);
    var p := Pieces(s, d);
    assert forall i :: 0 <= i < |p| ==> p[i] == "";
  }
}
