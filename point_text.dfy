/** The `points` attribute of a polygon: one `x,y` token per point, tokens joined
    by single spaces. Numbers are written and read through a number codec
    (`NumberText`) that the model leaves abstract; `Writes` states, one number
    at a time, what the editor relies on: reading back what was written gives
    the number, and the numeral holds neither white space nor a comma. Splitting follows
    `String.prototype.split` with a one-character separator, and `Trim` follows
    `String.prototype.trim`. */
module PointText {
  import opened Wrappers
  import opened Geometry

  datatype NumberText = NumberText(show: real -> string, read: string -> Option<real>)

  /** The white space and line terminators that `trim` removes. */
  predicate IsSpace(c: char) {
    || c == '\t' || c == '\n' || c == '\r' || c == '\U{B}' || c == '\U{C}' || c == ' '
    || c == '\U{A0}' || c == '\U{1680}' || ('\U{2000}' <= c <= '\U{200A}')
    || c == '\U{2028}' || c == '\U{2029}' || c == '\U{202F}' || c == '\U{205F}'
    || c == '\U{3000}' || c == '\U{FEFF}'
  }

  /** A numeral as the codec writes it: non-empty, no comma, no white space. */
  predicate Plain(s: string) {
    |s| > 0 && forall i :: 0 <= i < |s| ==> s[i] != ',' && !IsSpace(s[i])
  }

  /** The codec writes `v` as a plain numeral that reads back as `v`. */
  predicate Writes(t: NumberText, v: real) {
    Plain(t.show(v)) && t.read(t.show(v)) == Some(v)
  }

  /** The codec writes both coordinates of every point of `pts` faithfully. */
  predicate FaithfulOn(t: NumberText, pts: seq<Point>) {
    forall i :: 0 <= i < |pts| ==> Writes(t, pts[i].x) && Writes(t, pts[i].y)
  }

  // ----- split and join on a one-character separator -----

  /** `s.split(sep)`: the pieces between separators; an empty string gives one empty piece. */
  function Split(s: string, sep: char): (parts: seq<string>)
    ensures |parts| >= 1
    ensures forall k :: 0 <= k < |parts| ==> sep !in parts[k]
    decreases |s|
  {
    if s == [] then [[]]
    else
      var rest := Split(s[1..], sep);
      if s[0] == sep then [[]] + rest
      else [[s[0]] + rest[0]] + rest[1..]
  }

  /** `parts.join(sep)`. */
  function Join(parts: seq<string>, sep: char): string
    decreases |parts|
  {
    if parts == [] then []
    else if |parts| == 1 then parts[0]
    else parts[0] + [sep] + Join(parts[1..], sep)
  }

  /** Splitting then joining restores the text. */
  lemma {:induction false} JoinSplit(s: string, sep: char)
    ensures Join(Split(s, sep), sep) == s
    decreases |s|
  {
    if s != [] {
      var rest := Split(s[1..], sep);
      JoinSplit(s[1..], sep);
      if s[0] == sep {
        assert Join(Split(s, sep), sep) == [] + [sep] + Join(rest, sep);
      } else if |rest| == 1 {
        assert s == [s[0]] + s[1..];
      } else {
        assert Join(rest, sep) == rest[0] + [sep] + Join(rest[1..], sep);
        assert ([s[0]] + rest[0]) + [sep] + Join(rest[1..], sep) == [s[0]] + Join(rest, sep);
        assert ([[s[0]] + rest[0]] + rest[1..])[1..] == rest[1..];
        assert s == [s[0]] + s[1..];
      }
    }
  }

  /** A piece free of the separator glues onto the first piece of what follows it. */
  lemma {:induction false} SplitPrefix(a: string, tail: string, sep: char)
    requires sep !in a
    ensures Split(a + tail, sep) == [a + Split(tail, sep)[0]] + Split(tail, sep)[1..]
    decreases |a|
  {
    if a != [] {
      var s, tl := a + tail, Split(tail, sep);
      assert s[0] == a[0] != sep;
      assert s[1..] == a[1..] + tail;
      SplitPrefix(a[1..], tail, sep);
      var rest := Split(s[1..], sep);
      assert rest == [a[1..] + tl[0]] + tl[1..];
      assert Split(s, sep) == [[a[0]] + rest[0]] + rest[1..];
      assert [a[0]] + (a[1..] + tl[0]) == a + tl[0];
    } else {
      var tl := Split(tail, sep);
      assert a + tail == tail && a + tl[0] == tl[0];
      assert tl == [tl[0]] + tl[1..];
    }
  }

  /** Joining pieces free of the separator, then splitting, gives the pieces back. */
  lemma {:induction false} SplitJoin(parts: seq<string>, sep: char)
    requires |parts| >= 1
    requires forall k :: 0 <= k < |parts| ==> sep !in parts[k]
    ensures Split(Join(parts, sep), sep) == parts
    decreases |parts|
  {
    if |parts| == 1 {
      SplitPrefix(parts[0], [], sep);
      assert parts[0] + [] == parts[0];
    } else {
      var tail := [sep] + Join(parts[1..], sep);
      assert Join(parts, sep) == parts[0] + tail;
      SplitPrefix(parts[0], tail, sep);
      SplitJoin(parts[1..], sep);
      assert tail[0] == sep && tail[1..] == Join(parts[1..], sep);
      assert Split(tail, sep) == [[]] + parts[1..];
      assert parts[0] + [] == parts[0];
      assert parts == [parts[0]] + parts[1..];
    }
  }

  // ----- trim -----

  function TrimStart(s: string): (r: string)
    ensures |r| <= |s| && r == s[|s| - |r|..]
    ensures forall k :: 0 <= k < |s| - |r| ==> IsSpace(s[k])
    ensures r != [] ==> !IsSpace(r[0])
  {
    if s != [] && IsSpace(s[0]) then TrimStart(s[1..]) else s
  }

  function TrimEnd(s: string): (r: string)
    ensures |r| <= |s| && r == s[..|r|]
    ensures forall k :: |r| <= k < |s| ==> IsSpace(s[k])
    ensures r != [] ==> !IsSpace(r[|r| - 1])
  {
    if s != [] && IsSpace(s[|s| - 1]) then TrimEnd(s[..|s| - 1]) else s
  }

  /** `s.trim()`: leading and trailing white space removed. */
  function Trim(s: string): string {
    TrimEnd(TrimStart(s))
  }

  /** Text that neither starts nor ends with white space is left as it is. */
  lemma TrimUnchanged(s: string)
    requires s != [] && !IsSpace(s[0]) && !IsSpace(s[|s| - 1])
    ensures Trim(s) == s
  {
  }

  // ----- points -----

  /** One `x,y` token. As with `[x, y] = p.split(',').map(Number)`, pieces after
      the second are ignored; a missing or unreadable coordinate is a failure
      (NaN in the browser). */
  function ParsePoint(t: NumberText, token: string): Option<Point> {
    var pieces := Split(token, ',');
    if |pieces| < 2 then None
    else
      match (t.read(pieces[0]), t.read(pieces[1]))
      case (Some(x), Some(y)) => Some(Point(x, y))
      case _ => None
  }

  /** Every token reads as a point. */
  predicate AllParse(t: NumberText, tokens: seq<string>) {
    forall k :: 0 <= k < |tokens| ==> ParsePoint(t, tokens[k]).Some?
  }

  /** Every token parsed, or a failure when any token fails. */
  function ParseAll(t: NumberText, tokens: seq<string>): (r: Option<seq<Point>>)
    ensures r.Some? <==> AllParse(t, tokens)
    ensures r.Some? ==> |r.value| == |tokens|
    ensures r.Some? ==> forall k :: 0 <= k < |tokens| ==> ParsePoint(t, tokens[k]) == Some(r.value[k])
  {
    if tokens == [] then Some([])
    else
      var rest := ParseAll(t, tokens[1..]);
      assert forall k :: 1 <= k < |tokens| ==> tokens[k] == tokens[1..][k - 1];
      match (ParsePoint(t, tokens[0]), rest)
      case (Some(p), Some(ps)) =>
        assert forall k :: 1 <= k < |tokens| ==> ([p] + ps)[k] == ps[k - 1];
        Some([p] + ps)
      case _ => None
  }

  /** The points of an attribute: split on single spaces, one point per token. */
  function ParsePoints(t: NumberText, s: string): (r: Option<seq<Point>>)
    ensures r.Some? <==> AllParse(t, Split(s, ' '))
    ensures r.Some? ==> |r.value| == |Split(s, ' ')| >= 1
    ensures r.Some? ==> forall k :: 0 <= k < |Split(s, ' ')| ==> ParsePoint(t, Split(s, ' ')[k]) == Some(r.value[k])
  {
    ParseAll(t, Split(s, ' '))
  }

  function FormatPoint(t: NumberText, p: Point): string {
    t.show(p.x) + [','] + t.show(p.y)
  }

  function Tokens(t: NumberText, pts: seq<Point>): seq<string> {
    seq(|pts|, i requires 0 <= i < |pts| => FormatPoint(t, pts[i]))
  }

  /** `points.map(p => `${p.x},${p.y}`).join(' ')`. */
  function FormatPoints(t: NumberText, pts: seq<Point>): string {
    Join(Tokens(t, pts), ' ')
  }

  lemma ParseFormatPoint(t: NumberText, p: Point)
    requires Writes(t, p.x) && Writes(t, p.y)
    ensures ' ' !in FormatPoint(t, p)
    ensures ParsePoint(t, FormatPoint(t, p)) == Some(p)
  {
    var a, b := t.show(p.x), t.show(p.y);
    assert FormatPoint(t, p) == Join([a, b], ',');
    SplitJoin([a, b], ',');
  }

  lemma ParseAllTokens(t: NumberText, pts: seq<Point>)
    requires FaithfulOn(t, pts)
    ensures ParseAll(t, Tokens(t, pts)) == Some(pts)
  {
    var toks := Tokens(t, pts);
    forall k | 0 <= k < |toks| ensures ParsePoint(t, toks[k]) == Some(pts[k]) {
      ParseFormatPoint(t, pts[k]);
    }
    assert AllParse(t, toks);
    var r := ParseAll(t, toks).value;
    assert |r| == |toks| == |pts|;
    assert forall k :: 0 <= k < |pts| ==> Some(r[k]) == ParsePoint(t, toks[k]) == Some(pts[k]);
    assert r == pts;
  }

  /** Reading back a formatted polygon gives its points, when the codec writes
      each of its coordinates faithfully. */
  lemma ParseFormat(t: NumberText, pts: seq<Point>)
    requires FaithfulOn(t, pts) && |pts| >= 1
    ensures ParsePoints(t, FormatPoints(t, pts)) == Some(pts)
  {
    forall k | 0 <= k < |pts| ensures ' ' !in Tokens(t, pts)[k] {
      ParseFormatPoint(t, pts[k]);
    }
    SplitJoin(Tokens(t, pts), ' ');
    ParseAllTokens(t, pts);
  }

  /** A formatted polygon starts and ends with a numeral, so `trim` leaves it alone. */
  lemma TrimFormat(t: NumberText, pts: seq<Point>)
    requires |pts| >= 1 && Plain(t.show(pts[0].x)) && Plain(t.show(pts[|pts| - 1].y))
    ensures Trim(FormatPoints(t, pts)) == FormatPoints(t, pts)
  {
    var s := FormatPoints(t, pts);
    var first, last := t.show(pts[0].x), t.show(pts[|pts| - 1].y);
    FormatEnds(Tokens(t, pts));
    assert s[0] == Tokens(t, pts)[0][0] == first[0];
    var lt := Tokens(t, pts)[|pts| - 1];
    assert lt[|lt| - 1] == last[|last| - 1];
    TrimUnchanged(s);
  }

  /** The joined text starts with the first piece's first character and ends
      with the last piece's last character. */
  lemma {:induction false} FormatEnds(parts: seq<string>)
    requires |parts| >= 1 && forall k :: 0 <= k < |parts| ==> |parts[k]| > 0
    ensures var s := Join(parts, ' ');
      |s| > 0 && s[0] == parts[0][0] && s[|s| - 1] == parts[|parts| - 1][|parts[|parts| - 1]| - 1]
    decreases |parts|
  {
    if |parts| > 1 {
      FormatEnds(parts[1..]);
    }
  }
}
