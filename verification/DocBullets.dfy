/** How `scripts/architecture/check_responsibility_boundaries.py` reads the extension points of a module out of the
    architecture document and compares them with its own list. */
module DocBullets {
  import opened Lists
  import opened Numbers
  import opened Optional
  import opened Orders
  import opened Text

  /** White space for Python's `strip` and for "\s". */
  predicate PySpace(c: char) {
    || '\t' <= c <= '\r' || '\U{1C}' <= c <= ' ' || c == '\U{85}' || c == '\U{A0}' || c == '\U{1680}'
    || '\U{2000}' <= c <= '\U{200A}' || c == '\U{2028}' || c == '\U{2029}' || c == '\U{202F}' || c == '\U{205F}'
    || c == '\U{3000}'
  }

  predicate IsBacktick(c: char) { c == '`' }

  function DigitCount(s: string): (n: nat)
    ensures n <= |s|
  {
    if s == "" || !IsDigit(s[0]) then 0 else 1 + DigitCount(s[1..])
  }

  /** The length of a bullet mark, "-", "*", "+" or a number with a dot; 0 if there is none. */
  function MarkLength(s: string): (n: nat)
    ensures n <= |s|
  {
    if s == "" then 0
    else if s[0] == '-' || s[0] == '*' || s[0] == '+' then 1
    else
      var n := DigitCount(s);
      if 0 < n < |s| && s[n] == '.' then n + 1 else 0
  }

  /** The item of a bullet line that has been stripped: the text after the mark and at least one space. */
  function BulletItem(stripped: string): Option<string> {
    var n := MarkLength(stripped);
    if n == 0 || n == |stripped| || !PySpace(stripped[n]) then None
    else
      var item := StripLeft(PySpace, stripped[n..]);
      if item == "" then None else Some(item)
  }

  datatype Line = Blank | Bullet(item: string) | Prose

  function Classify(line: string): Line {
    var stripped := Strip(PySpace, line);
    if stripped == "" then Blank
    else match BulletItem(stripped)
      case Some(item) => Bullet(Strip(IsBacktick, Strip(PySpace, item)))
      case None => Prose
  }

  // ---------------------------------------------------------------- what a bullet is

  ghost predicate IsMark(mark: string) {
    || mark == "-" || mark == "*" || mark == "+"
    || (|mark| >= 2 && mark[|mark| - 1] == '.' && forall k :: 0 <= k < |mark| - 1 ==> '0' <= mark[k] <= '9')
  }

  ghost predicate IsGap(gap: string) { gap != "" && forall c :: c in gap ==> PySpace(c) }

  /** The text is a mark, white space, and an item. */
  ghost predicate IsBulletText(text: string, mark: string, gap: string, item: string) {
    IsMark(mark) && IsGap(gap) && item != "" && Bare(PySpace, item) && text == mark + gap + item
  }

  lemma {:induction false} DigitCountOf(s: string, n: nat)
    requires n <= |s| && (forall k :: 0 <= k < n ==> IsDigit(s[k])) && (n < |s| ==> !IsDigit(s[n]))
    ensures DigitCount(s) == n
  {
    if n > 0 { DigitCountOf(s[1..], n - 1); }
  }

  lemma {:induction false} DigitsCounted(s: string)
    ensures forall k :: 0 <= k < DigitCount(s) ==> IsDigit(s[k])
    ensures DigitCount(s) < |s| ==> !IsDigit(s[DigitCount(s)])
  {
    if s != "" && IsDigit(s[0]) {
      DigitsCounted(s[1..]);
      assert forall k :: 1 <= k < DigitCount(s) ==> s[k] == s[1..][k - 1];
    }
  }

  lemma MarkLengthOf(mark: string, rest: string)
    requires IsMark(mark)
    ensures MarkLength(mark + rest) == |mark|
  {
    var s := mark + rest;
    if !(mark == "-" || mark == "*" || mark == "+") {
      assert s[0] == mark[0] && s[|mark| - 1] == '.';
      DigitCountOf(s, |mark| - 1);
    }
  }

  lemma MarkFound(s: string)
    ensures MarkLength(s) > 0 ==> IsMark(s[..MarkLength(s)])
  {
    DigitsCounted(s);
    if MarkLength(s) > 0 && !(s[0] == '-' || s[0] == '*' || s[0] == '+') {
      assert s[..MarkLength(s)][|s[..MarkLength(s)]| - 1] == '.';
    }
  }

  lemma BulletItemOf(mark: string, gap: string, item: string)
    requires IsBulletText(mark + gap + item, mark, gap, item)
    ensures BulletItem(mark + gap + item) == Some(item)
  {
    var s := mark + gap + item;
    assert s == mark + (gap + item);
    MarkLengthOf(mark, gap + item);
    hide MarkLength, IsMark;
    assert s[|mark|..] == gap + item && s[|mark|] == gap[0] && gap[0] in gap;
    StripLeftPadding(PySpace, gap, item);
  }

  lemma BulletItemFound(s: string)
    requires Bare(PySpace, s) && BulletItem(s).Some?
    ensures exists mark, gap :: IsBulletText(s, mark, gap, BulletItem(s).value)
  {
    var n := MarkLength(s);
    MarkFound(s);
    hide MarkLength, IsMark, StripLeft, PySpace;
    var rest := s[n..];
    var item := StripLeft(PySpace, rest);
    StripLeftSuffix(PySpace, rest);
    var gap := rest[..|rest| - |item|];
    GapFound(rest, gap, item);
    ItemIsBare(s, n, gap, item);
    hide IsGap, Bare;
    assert IsBulletText(s, s[..n], gap, item);
  }

  lemma ItemIsBare(s: string, n: nat, gap: string, item: string)
    requires n <= |s| && s[n..] == gap + item && item != "" && !PySpace(item[0]) && Bare(PySpace, s)
    ensures Bare(PySpace, item) && s == s[..n] + gap + item
  {
    hide PySpace;
    assert s == s[..n] + s[n..];
    assert item[|item| - 1] == s[n..][|s| - n - 1] == s[|s| - 1];
  }

  lemma GapFound(rest: string, gap: string, item: string)
    requires |item| <= |rest| && item == rest[|rest| - |item|..] && gap == rest[..|rest| - |item|]
    requires forall k :: 0 <= k < |rest| - |item| ==> PySpace(rest[k])
    requires rest != "" && PySpace(rest[0]) && item != "" && !PySpace(item[0])
    ensures IsGap(gap) && rest == gap + item
  {
    hide PySpace;
    assert gap == "" ==> rest == item;
  }

  /** A line is a bullet exactly if, white space around it aside, it is a dash, an asterisk, a plus sign or a number
      with a dot, then white space, then an item; the item is taken without the backticks around it. */
  lemma LineIsBulletIff(line: string, item: string)
    ensures Classify(line) == Bullet(item) <==>
            exists mark, gap, raw :: IsBulletText(Strip(PySpace, line), mark, gap, raw)
                && item == Strip(IsBacktick, raw)
  {
    var stripped := Strip(PySpace, line);
    StripIsBare(PySpace, line);
    hide Strip, BulletItem;
    if BulletItem(stripped).Some? {
      BulletItemFound(stripped);
      var raw := BulletItem(stripped).value;
      StripIsBare(PySpace, raw);
    }
    forall mark, gap, raw | IsBulletText(stripped, mark, gap, raw)
      ensures BulletItem(stripped) == Some(raw) && stripped != "" && Strip(PySpace, raw) == raw
    {
      BulletItemOf(mark, gap, raw);
      StripIsBare(PySpace, raw);
    }
  }

  // ---------------------------------------------------------------- cutting the text

  const MARKER := "**Preferred extension points**:"

  /** The text after the first occurrence of the marker, `body.partition(marker)`. */
  function AfterMarker(body: string): Option<string> {
    if MARKER <= body then Some(body[|MARKER|..])
    else if body == "" then None
    else AfterMarker(body[1..])
  }

  /** Where Python's `splitlines` cuts. */
  predicate IsLineBreak(c: char) {
    '\n' <= c <= '\r' || '\U{1C}' <= c <= '\U{1E}' || c == '\U{85}' || c == '\U{2028}' || c == '\U{2029}'
  }

  predicate SingleLine(s: string) { forall c :: c in s ==> !IsLineBreak(c) }

  function LineLength(s: string): (n: nat)
    ensures n <= |s| && (n < |s| ==> IsLineBreak(s[n]))
  {
    if s == "" || IsLineBreak(s[0]) then 0 else 1 + LineLength(s[1..])
  }

  /** `s.splitlines()`: a carriage return and a line feed are one break, and a final break opens no line. */
  function SplitLines(s: string): seq<string>
    decreases |s|
  {
    if s == "" then []
    else
      var n := LineLength(s);
      if n == |s| then [s]
      else if s[n] == '\r' && n + 1 < |s| && s[n + 1] == '\n' then [s[..n]] + SplitLines(s[n + 2..])
      else [s[..n]] + SplitLines(s[n + 1..])
  }

  function Unlines(lines: seq<string>): string { if lines == [] then "" else lines[0] + "\n" + Unlines(lines[1..]) }

  lemma {:induction false} LineLengthOf(line: string, rest: string)
    requires SingleLine(line)
    ensures LineLength(line + "\n" + rest) == |line|
  {
    if line == "" {
      assert line + "\n" + rest == "\n" + rest;
    } else {
      assert line[0] in line;
      assert (line + "\n" + rest)[1..] == line[1..] + "\n" + rest;
      LineLengthOf(line[1..], rest);
    }
  }

  lemma {:induction false} SplitLinesOfUnlines(lines: seq<string>)
    requires forall line :: line in lines ==> SingleLine(line)
    ensures SplitLines(Unlines(lines)) == lines
  {
    if lines != [] {
      assert lines[0] in lines;
      var rest := Unlines(lines[1..]);
      var text := lines[0] + "\n" + rest;
      LineLengthOf(lines[0], rest);
      assert text[..|lines[0]|] == lines[0] && text[|lines[0]|] == '\n' && text[|lines[0]| + 1..] == rest;
      SplitLinesOfUnlines(lines[1..]);
    }
  }

  /** The marker ends with its only colon, so no occurrence of it can reach into another from before. */
  lemma OnlyColon()
    ensures |MARKER| > 0 && MARKER[|MARKER| - 1] == ':' && forall k :: 0 <= k < |MARKER| - 1 ==> MARKER[k] != ':'
  {
    assert |MARKER| == 31;
  }

  lemma NoEarlierMarker(intro: string, rest: string)
    requires intro != "" && !(MARKER <= intro)
    ensures !(MARKER <= intro + MARKER + rest)
  {
    hide MARKER;
    OnlyColon();
    var body, n := intro + MARKER + rest, |MARKER| - 1;
    if |intro| <= n {
      assert body[n] == MARKER[n - |intro|] != ':';
    } else {
      assert body[..|MARKER|] == intro[..|MARKER|];
    }
  }

  lemma {:induction false} AfterFirstMarker(intro: string, rest: string)
    requires AfterMarker(intro).None?
    ensures AfterMarker(intro + MARKER + rest) == Some(rest)
  {
    hide MARKER;
    var body := intro + MARKER + rest;
    if intro == "" {
      assert body == MARKER + rest;
    } else {
      assert body[1..] == intro[1..] + MARKER + rest;
      NoEarlierMarker(intro, rest);
      AfterFirstMarker(intro[1..], rest);
    }
  }

  // ---------------------------------------------------------------- the scanner

  /** The lines from the first bullet on. */
  function FromFirstBullet(lines: seq<string>): seq<string> {
    if lines == [] || Classify(lines[0]).Bullet? then lines else FromFirstBullet(lines[1..])
  }

  /** The items of the bullets a list of lines begins with. */
  function LeadingItems(lines: seq<string>): seq<string> {
    if lines == [] then []
    else match Classify(lines[0])
      case Bullet(item) => [item] + LeadingItems(lines[1..])
      case _ => []
  }

  /** The bullets under the marker of a section body, if it has the marker. */
  function Extracted(body: string): Option<seq<string>> {
    match AfterMarker(body)
    case None => None
    case Some(remainder) => Some(LeadingItems(FromFirstBullet(SplitLines(remainder))))
  }

  /** The scan of the lines after the marker: skip what is not a bullet, take bullets, stop at the first line that
      is none. */
  method ScanBullets(lines: seq<string>) returns (items: seq<string>)
    ensures items == LeadingItems(FromFirstBullet(lines))
  {
    hide *;
    items := [];
    var started := false;
    var k := 0;
    assert lines[0..] == lines;
    while k < |lines|
      invariant 0 <= k <= |lines|
      invariant if started then items + LeadingItems(lines[k..]) == LeadingItems(FromFirstBullet(lines))
                else items == [] && FromFirstBullet(lines[k..]) == FromFirstBullet(lines)
    {
      NextLine(lines, k);
      match Classify(lines[k]) {
        case Blank =>
          if started { break; }
        case Bullet(item) =>
          started := true;
          items := items + [item];
        case Prose =>
          if started { break; }
      }
      k := k + 1;
    }
    NextLine(lines, k);
  }

  lemma NextLine(lines: seq<string>, k: nat)
    requires k <= |lines|
    ensures LeadingItems([]) == []
    ensures k == |lines| ==> LeadingItems(lines[k..]) == [] && FromFirstBullet(lines[k..]) == []
    ensures k < |lines| && Classify(lines[k]).Bullet? ==>
              && LeadingItems(lines[k..]) == [Classify(lines[k]).item] + LeadingItems(lines[k + 1..])
              && FromFirstBullet(lines[k..]) == lines[k..]
    ensures k < |lines| && !Classify(lines[k]).Bullet? ==>
              LeadingItems(lines[k..]) == [] && FromFirstBullet(lines[k..]) == FromFirstBullet(lines[k + 1..])
  {
    hide Classify;
    if k < |lines| { assert lines[k..][0] == lines[k] && lines[k..][1..] == lines[k + 1..]; }
  }

  // ---------------------------------------------------------------- writing and reading back

  function Render(points: seq<string>): seq<string> { Map((p: string) => "- `" + p + "`", points) }

  lemma ClassifyRendered(point: string)
    requires Bare(IsBacktick, point)
    ensures Classify("- `" + point + "`") == Bullet(point)
  {
    var line := "- `" + point + "`";
    var item := "`" + point + "`";
    assert !PySpace('-') && !PySpace('`') && PySpace(' ');
    assert line[0] == '-' && line[|line| - 1] == '`';
    StripIsBare(PySpace, line);
    assert line[1..] == " " + item;
    StripLeftPadding(PySpace, " ", item);
    assert item[0] == '`' && item[|item| - 1] == '`';
    StripIsBare(PySpace, item);
    if point == "" {
      assert item == "``";
      StripLeftPadding(IsBacktick, "``", "");
      assert "``" + "" == "``";
    } else {
      StripPadding(IsBacktick, "`", point, "`");
    }
  }

  lemma {:induction false} LeadingItemsOfRendered(points: seq<string>, after: seq<string>)
    requires forall p :: p in points ==> Bare(IsBacktick, p)
    requires after != [] ==> !Classify(after[0]).Bullet?
    ensures LeadingItems(Render(points) + after) == points
  {
    hide Classify;
    if points == [] {
      assert Render(points) + after == after;
    } else {
      assert points[0] in points;
      ClassifyRendered(points[0]);
      LeadingItemsOfRendered(points[1..], after);
      var lines := Render(points) + after;
      assert lines[1..] == Render(points[1..]) + after;
      assert lines[0] == "- `" + points[0] + "`";
    }
  }

  lemma {:induction false} FromFirstBulletSkips(before: seq<string>, rest: seq<string>)
    requires forall line :: line in before ==> !Classify(line).Bullet?
    ensures FromFirstBullet(before + rest) == FromFirstBullet(rest)
  {
    hide Classify;
    if before == [] {
      assert before + rest == rest;
    } else {
      assert before[0] in before;
      assert (before + rest)[1..] == before[1..] + rest;
      FromFirstBulletSkips(before[1..], rest);
    }
  }

  lemma RenderedAreRead(before: seq<string>, points: seq<string>, after: seq<string>)
    requires points != [] && forall p :: p in points ==> Bare(IsBacktick, p)
    requires forall line :: line in before ==> !Classify(line).Bullet?
    requires after != [] ==> !Classify(after[0]).Bullet?
    ensures LeadingItems(FromFirstBullet(before + Render(points) + after)) == points
  {
    hide Classify;
    var list := Render(points) + after;
    assert before + Render(points) + after == before + list;
    FromFirstBulletSkips(before, list);
    assert points[0] in points;
    ClassifyRendered(points[0]);
    assert list[0] == "- `" + points[0] + "`";
    LeadingItemsOfRendered(points, after);
  }

  lemma {:induction false} RenderedAreSingleLines(points: seq<string>)
    requires forall p :: p in points ==> SingleLine(p)
    ensures forall line :: line in Render(points) ==> SingleLine(line)
  {
    if points != [] {
      assert points[0] in points;
      assert !IsLineBreak('-') && !IsLineBreak(' ') && !IsLineBreak('`');
      RenderedAreSingleLines(points[1..]);
      assert Render(points) == ["- `" + points[0] + "`"] + Render(points[1..]);
    }
  }

  /** A section body: some text, the marker, and lines among which the points are listed as bullets. */
  function Body(intro: string, before: seq<string>, points: seq<string>, after: seq<string>): string {
    intro + "**Preferred extension points**:" + Unlines(before + Render(points) + after)
  }

  /** The marker stands nowhere in the text. */
  ghost predicate Unmarked(text: string) { !Occurs("**Preferred extension points**:", text) }

  lemma {:induction false} AfterMarkerIffContains(body: string)
    ensures AfterMarker(body).Some? <==> Contains(body, MARKER)
  {
    hide MARKER;
    if body != "" { AfterMarkerIffContains(body[1..]); }
    assert MARKER <= "" ==> MARKER == "";
  }

  lemma UnmarkedHasNoMarker(text: string)
    requires Unmarked(text)
    ensures AfterMarker(text).None?
  {
    AfterMarkerIffContains(text);
    ContainsIffOccurs(text, MARKER);
    hide AfterMarker, Contains, Occurs;
    assert MARKER == "**Preferred extension points**:";
  }

  /** Points that a document can list: without line breaks, and without backticks around them. */
  ghost predicate Listable(points: seq<string>) { forall p :: p in points ==> SingleLine(p) && Bare(IsBacktick, p) }

  /** Lines around the list that are not taken for a part of it. */
  ghost predicate Surrounds(before: seq<string>, after: seq<string>) {
    && (forall line :: line in before ==> SingleLine(line) && !Classify(line).Bullet?)
    && (forall line :: line in after ==> SingleLine(line))
    && (after != [] ==> !Classify(after[0]).Bullet?)
  }

  /** Extension points written as bullets under the first marker of a section are read back exactly from its text,
      wherever the list stands among other lines. */
  lemma BulletRoundTrip(intro: string, before: seq<string>, points: seq<string>, after: seq<string>)
    requires Unmarked(intro)
    requires points != [] && Listable(points) && Surrounds(before, after)
    ensures Extracted(Body(intro, before, points, after)) == Some(points)
  {
    UnmarkedHasNoMarker(intro);
    assert MARKER == "**Preferred extension points**:";
    hide Classify, MARKER, Render, AfterMarker, SplitLines, IsLineBreak, Unmarked;
    var lines := before + Render(points) + after;
    RenderedAreSingleLines(points);
    SplitLinesOfUnlines(lines);
    AfterFirstMarker(intro, Unlines(lines));
    RenderedAreRead(before, points, after);
  }

  // ---------------------------------------------------------------- alignment

  /** `_normalize_extension_points_for_alignment` on both sides of the comparison. */
  predicate Aligned(documented: seq<string>, configured: seq<string>) {
    Sort(StringLeq, documented) == Sort(StringLeq, configured)
  }

  lemma AlignedIffSameMultiset(documented: seq<string>, configured: seq<string>)
    ensures Aligned(documented, configured) <==> multiset(documented) == multiset(configured)
  {
    StringOrder();
    SortAgreesIffSameMultiset(StringLeq, documented, configured);
  }

  /** End to end: a section that lists some points under its first marker passes exactly if these are the
      configured points in any order, repeats included. */
  lemma DocumentPassesIffSamePoints(intro: string, before: seq<string>, points: seq<string>, after: seq<string>,
      configured: seq<string>)
    requires Unmarked(intro)
    requires points != [] && Listable(points) && Surrounds(before, after)
    ensures var found := Extracted(Body(intro, before, points, after));
            found.Some? && (Aligned(found.value, configured) <==> multiset(points) == multiset(configured))
  {
    hide Aligned, Extracted, Body, Listable, Surrounds, Unmarked;
    BulletRoundTrip(intro, before, points, after);
    AlignedIffSameMultiset(points, configured);
  }
}
