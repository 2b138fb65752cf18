/** `sanitizeText` of `frontend/lib/utils.ts`: remove NUL characters, then remove tags until nothing changes. */
module TextSanitizer {
  import opened Lists
  import opened Numbers

  // ---------------------------------------------------------------- arguments

  type Digits = s: string | s != "" && forall c :: c in s ==> IsDigit(c) witness "0"

  /** A number is `digits` with the decimal point behind the first `point` of them; zero is 0 with point 1. */
  datatype Number = NaN | Infinite(negative: bool) | Finite(negative: bool, digits: Digits, point: int)

  /** Any argument.  `Custom` stands for the objects, functions and symbols that have their own way of becoming text;
      every other object becomes "[object Object]". */
  datatype Value =
    | Undefined
    | Null
    | Boolean(b: bool)
    | Numeric(x: Number)
    | Big(i: int)
    | Text(text: string)
    | Array(elements: seq<Value>)
    | Plain
    | Custom(rendered: string)

  function Zeros(n: nat): string { if n == 0 then "" else "0" + Zeros(n - 1) }

  function Natural(n: nat): string {
    (if n < 10 then "" else Natural(n / 10)) + [('0' as int + n % 10) as char]
  }

  /** The decimal form of a number (section 6.1.6.1.20 of ECMA-262). */
  function Decimal(digits: Digits, point: int): string {
    var k := |digits|;
    if k <= point <= 21 then digits + Zeros(point - k)
    else if 0 < point <= 21 then digits[..point] + "." + digits[point..]
    else if -6 < point <= 0 then "0." + Zeros(-point) + digits
    else
      digits[..1] + (if k == 1 then "" else "." + digits[1..]) +
      (if point > 0 then "e+" + Natural(point - 1) else "e-" + Natural(1 - point))
  }

  function NumberText(x: Number): string {
    match x
    case NaN => "NaN"
    case Infinite(negative) => if negative then "-Infinity" else "Infinity"
    case Finite(negative, digits, point) => (if negative then "-" else "") + Decimal(digits, point)
  }

  /** `String(value ?? "")`; an array joins its elements with commas. */
  function Rendered(value: Value): string {
    match value
    case Undefined => ""
    case Null => ""
    case Boolean(b) => if b then "true" else "false"
    case Numeric(x) => NumberText(x)
    case Big(i) => if i < 0 then "-" + Natural(-i) else Natural(i)
    case Text(text) => text
    case Array(elements) => JoinCommas(elements)
    case Plain => "[object Object]"
    case Custom(rendered) => rendered
  }

  function JoinCommas(elements: seq<Value>): string {
    if elements == [] then ""
    else if |elements| == 1 then Rendered(elements[0])
    else Rendered(elements[0]) + "," + JoinCommas(elements[1..])
  }

  /** The number a string of digits denotes. */
  ghost function NumberOf(s: string): int {
    if s == "" then 0 else 10 * NumberOf(s[..|s| - 1]) + (s[|s| - 1] as int - '0' as int)
  }

  /** A number is written with the digits that denote it, without leading zeros. */
  lemma {:induction false} NaturalReadsBack(n: nat)
    ensures var s := Natural(n);
            && NumberOf(s) == n && s != "" && (forall c :: c in s ==> IsDigit(c)) && (n > 0 ==> s[0] != '0')
  {
    var s := Natural(n);
    var before := if n < 10 then "" else Natural(n / 10);
    assert s[..|s| - 1] == before && s[|s| - 1] == ('0' as int + n % 10) as char;
    if n >= 10 { NaturalReadsBack(n / 10); }
  }

  /** How some numbers are written. */
  lemma WrittenNumbers()
    ensures NumberText(Finite(false, "42", 2)) == "42" && NumberText(Finite(true, "15", 1)) == "-1.5"
    ensures NumberText(Finite(false, "1", 4)) == "1000" && NumberText(Finite(false, "5", -1)) == "0.05"
  {
    assert Zeros(3) == "000" && Zeros(1) == "0";
    assert "15"[..1] == "1" && "15"[1..] == "5";
  }

  lemma WrittenExponents()
    ensures NumberText(Finite(false, "1", 22)) == "1e+21" && NumberText(Finite(false, "12", -6)) == "1.2e-7"
  {
    assert Natural(21) == "21" && Natural(7) == "7";
    assert "12"[..1] == "1" && "12"[1..] == "2";
  }

  /** A list is its elements with commas between them, the missing ones written as nothing. */
  lemma {:induction false} ListsAreJoined(a: seq<Value>, b: seq<Value>)
    requires a != [] && b != []
    ensures Rendered(Array(a + b)) == Rendered(Array(a)) + "," + Rendered(Array(b))
    ensures |a| == 1 ==> Rendered(Array(a)) == if a[0].Undefined? || a[0].Null? then "" else Rendered(a[0])
  {
    if |a| == 1 {
      assert (a + b)[1..] == b;
    } else {
      assert (a + b)[1..] == a[1..] + b;
      ListsAreJoined(a[1..], b);
    }
  }

  // ---------------------------------------------------------------- removing tags

  function IndexOf(c: char, s: string): (i: nat)
    ensures i <= |s| && (i < |s| ==> s[i] == c)
    ensures forall k :: 0 <= k < i ==> s[k] != c
  {
    if s == [] || s[0] == c then 0 else 1 + IndexOf(c, s[1..])
  }

  function NotNul(c: char): bool { c != '\0' }

  /** `s.replace(/<[^>]*>/g, "")`: matches are leftmost, do not overlap, and end at the first ">". */
  function RemoveTags(s: string): string
    decreases |s|
  {
    if Close(s) == |s| then s else s[..Open(s)] + RemoveTags(s[Close(s) + 1..])
  }

  /** Where the leftmost match begins and ends; the end is the length if there is no match. */
  function Open(s: string): nat { IndexOf('<', s) }

  function Close(s: string): (close: nat)
    ensures Open(s) <= close <= |s|
    ensures close < |s| ==> s[close] == '>' && s[Open(s)] == '<' && Open(s) < close
    ensures forall k :: Open(s) <= k < close ==> s[k] != '>'
  {
    var open := Open(s);
    var rest := s[open..];
    assert forall k :: open <= k < |s| ==> s[k] == rest[k - open];
    open + IndexOf('>', rest)
  }

  /** No "<" is followed, anywhere later, by a ">". */
  ghost predicate NoTag(s: string) {
    forall i, j :: 0 <= i < j < |s| && s[i] == '<' ==> s[j] != '>'
  }

  ghost predicate Clean(s: string) { NoTag(s) && '\0' !in s }

  lemma NoMatchIffNoTag(s: string)
    ensures Close(s) == |s| <==> NoTag(s)
  {
    hide IndexOf;
    var open, close := Open(s), Close(s);
    assert close < |s| ==> s[open] == '<' && s[close] == '>' && open < close;
  }

  /** One pass over a tag-free string changes nothing, and any other string gets shorter. */
  lemma {:induction false} RemoveTagsShrinks(s: string)
    ensures |RemoveTags(s)| <= |s|
    ensures NoTag(s) <==> RemoveTags(s) == s
    decreases |s|
  {
    hide IndexOf;
    NoMatchIffNoTag(s);
    if Close(s) < |s| { RemoveTagsShrinks(s[Close(s) + 1..]); }
  }

  /** A single pass already leaves no tag: what stands before a match holds no "<". */
  lemma {:induction false} OnePassLeavesNoTag(s: string)
    ensures NoTag(RemoveTags(s))
    decreases |s|
  {
    hide IndexOf;
    NoMatchIffNoTag(s);
    if Close(s) < |s| {
      OnePassLeavesNoTag(s[Close(s) + 1..]);
      PlainThenNoTag(s[..Open(s)], RemoveTags(s[Close(s) + 1..]));
    }
  }

  lemma PlainThenNoTag(plain: string, rest: string)
    requires '<' !in plain && NoTag(rest)
    ensures NoTag(plain + rest)
  {
    var s := plain + rest;
    assert forall k :: 0 <= k < |plain| ==> plain[k] != '<';
    forall i, j | 0 <= i < j < |s| && s[i] == '<' ensures s[j] != '>' {
      assert rest[i - |plain|] == s[i] && rest[j - |plain|] == s[j];
    }
  }

  // ---------------------------------------------------------------- what exactly is removed

  /** Position `k` lies in a tag: some "<" at or before it has no ">" in between, and a ">" comes at `k` or later. */
  ghost predicate InTag(s: string, k: nat)
    requires k < |s|
  {
    && (exists i :: 0 <= i <= k && s[i] == '<' && '>' !in s[i..k])
    && '>' in s[k..]
  }

  /** The characters of `s` from `k` on that are not in a tag. */
  ghost function Untagged(s: string, k: nat): string
    requires k <= |s|
    decreases |s| - k
  {
    if k == |s| then "" else (if InTag(s, k) then "" else [s[k]]) + Untagged(s, k + 1)
  }

  lemma UntaggedStep(s: string, k: nat)
    requires k < |s|
    ensures Untagged(s, k) == (if InTag(s, k) then "" else [s[k]]) + Untagged(s, k + 1)
  {
  }

  lemma {:induction false} UntaggedKept(s: string, low: nat, high: nat)
    requires low <= high <= |s|
    requires forall k :: low <= k < high ==> !InTag(s, k)
    ensures Untagged(s, low) == s[low..high] + Untagged(s, high)
    decreases high - low
  {
    hide InTag, Untagged;
    if low < high {
      UntaggedStep(s, low);
      UntaggedKept(s, low + 1, high);
      assert s[low..high] == [s[low]] + s[low + 1..high];
    } else {
      assert s[low..high] == "";
    }
  }

  lemma {:induction false} UntaggedDropped(s: string, low: nat, high: nat)
    requires low <= high <= |s|
    requires forall k :: low <= k < high ==> InTag(s, k)
    ensures Untagged(s, low) == Untagged(s, high)
    decreases high - low
  {
    hide InTag, Untagged;
    if low < high {
      UntaggedStep(s, low);
      UntaggedDropped(s, low + 1, high);
    }
  }

  lemma {:induction false} UntaggedShift(s: string, k: nat, t: string, m: nat)
    requires k <= |s| && m <= |t| && s[k..] == t[m..]
    requires |s| - k == |t| - m
    requires forall p :: k <= p < |s| ==> (InTag(s, p) <==> InTag(t, p - k + m))
    ensures Untagged(s, k) == Untagged(t, m)
    decreases |s| - k
  {
    hide InTag, Untagged;
    if k == |s| {
      UntaggedEnd(s);
      UntaggedEnd(t);
    } else {
      UntaggedStep(s, k);
      UntaggedStep(t, m);
      assert s[k] == s[k..][0] == t[m];
      assert s[k + 1..] == s[k..][1..] == t[m + 1..];
      forall p | k + 1 <= p < |s| ensures InTag(s, p) <==> InTag(t, p - (k + 1) + (m + 1)) {
        assert p - (k + 1) + (m + 1) == p - k + m;
      }
      UntaggedShift(s, k + 1, t, m + 1);
    }
  }

  lemma InTagAfterMatch(s: string, close: nat, k: nat)
    requires close < k < |s| && s[close] == '>'
    ensures InTag(s, k) <==> InTag(s[close + 1..], k - close - 1)
  {
    var rest := s[close + 1..];
    var m := k - close - 1;
    assert rest[m..] == s[k..];
    forall i | 0 <= i <= close ensures '>' in s[i..k] {
      assert s[i..k][close - i] == '>';
    }
    if InTag(s, k) {
      var i :| 0 <= i <= k && s[i] == '<' && '>' !in s[i..k];
      assert rest[i - close - 1..m] == s[i..k];
      assert rest[i - close - 1] == '<';
    }
    if InTag(rest, m) {
      var i :| 0 <= i <= m && rest[i] == '<' && '>' !in rest[i..m];
      assert s[i + close + 1..k] == rest[i..m];
      assert s[i + close + 1] == '<';
    }
  }

  lemma InFirstMatch(s: string)
    requires Close(s) < |s|
    ensures forall k :: 0 <= k < Open(s) ==> !InTag(s, k)
    ensures forall k :: Open(s) <= k <= Close(s) ==> InTag(s, k)
  {
    hide IndexOf;
    var open, close := Open(s), Close(s);
    assert forall k :: 0 <= k < open ==> s[k] != '<';
    forall k | open <= k <= close ensures InTag(s, k) {
      assert '>' !in s[open..k];
      assert s[k..][close - k] == '>';
    }
  }

  lemma NotInTag(s: string)
    requires Close(s) == |s|
    ensures forall k :: 0 <= k < |s| ==> !InTag(s, k)
  {
    hide IndexOf;
    NoMatchIffNoTag(s);
    forall k | 0 <= k < |s| ensures !InTag(s, k) {
      forall i | 0 <= i <= k && s[i] == '<' ensures '>' !in s[k..] {
        assert forall m :: 0 <= m < |s[k..]| ==> s[k..][m] == s[k + m];
      }
    }
  }

  lemma UntaggedAfterMatch(s: string)
    requires Close(s) < |s|
    ensures Untagged(s, Close(s) + 1) == Untagged(s[Close(s) + 1..], 0)
  {
    hide *;
    var close := Close(s);
    var rest := s[close + 1..];
    forall p | close + 1 <= p < |s| ensures InTag(s, p) <==> InTag(rest, p - (close + 1) + 0) {
      InTagAfterMatch(s, close, p);
    }
    UntaggedShift(s, close + 1, rest, 0);
  }

  /** A pass removes exactly the characters that lie in a tag. */
  lemma {:induction false} RemovesExactlyTags(s: string)
    ensures RemoveTags(s) == Untagged(s, 0)
    decreases |s|
  {
    hide IndexOf, InTag, Untagged, Open, Close;
    UntaggedEnd(s);
    if Close(s) < |s| {
      InFirstMatch(s);
      UntaggedKept(s, 0, Open(s));
      UntaggedDropped(s, Open(s), Close(s) + 1);
      UntaggedAfterMatch(s);
      RemovesExactlyTags(s[Close(s) + 1..]);
      assert s[0..Open(s)] == s[..Open(s)];
    } else {
      NotInTag(s);
      UntaggedKept(s, 0, |s|);
      assert s[0..|s|] == s;
    }
  }

  lemma UntaggedEnd(s: string)
    ensures Untagged(s, |s|) == ""
  {
  }

  // ---------------------------------------------------------------- the function

  function Sanitized(text: string): string { RemoveTags(Filter(NotNul, text)) }

  /** `t` can be had from `s` by leaving characters out. */
  ghost predicate Subsequence(t: string, s: string) {
    t == [] || (s != [] && ((t[0] == s[0] && Subsequence(t[1..], s[1..])) || Subsequence(t, s[1..])))
  }

  lemma {:induction false} UntaggedSubsequence(s: string, k: nat)
    requires k <= |s|
    ensures Subsequence(Untagged(s, k), s[k..])
    decreases |s| - k
  {
    if k < |s| {
      UntaggedSubsequence(s, k + 1);
      assert s[k..][1..] == s[k + 1..];
      if InTag(s, k) {
        assert Untagged(s, k) == Untagged(s, k + 1);
      } else {
        assert Untagged(s, k) == [s[k..][0]] + Untagged(s, k + 1);
        assert Untagged(s, k)[1..] == Untagged(s, k + 1);
      }
    }
  }

  lemma {:induction false} FilterSubsequence(keep: char -> bool, s: string)
    ensures Subsequence(Filter(keep, s), s)
  {
    if s != [] {
      FilterSubsequence(keep, s[1..]);
      if keep(s[0]) { assert Filter(keep, s)[1..] == Filter(keep, s[1..]); }
    }
  }

  lemma {:induction false} SubsequenceTransitive(r: string, t: string, s: string)
    requires Subsequence(r, t) && Subsequence(t, s)
    ensures Subsequence(r, s)
    decreases |s| + |t|
  {
    if r != [] {
      if t[0] == s[0] && Subsequence(t[1..], s[1..]) {
        if r[0] == t[0] && Subsequence(r[1..], t[1..]) {
          SubsequenceTransitive(r[1..], t[1..], s[1..]);
        } else {
          SubsequenceTransitive(r, t[1..], s[1..]);
        }
      } else {
        SubsequenceTransitive(r, t, s[1..]);
      }
    }
  }

  lemma {:induction false} SubsequenceMembers(t: string, s: string)
    requires Subsequence(t, s)
    ensures forall c :: c in t ==> c in s
  {
    if t != [] {
      if t[0] == s[0] && Subsequence(t[1..], s[1..]) {
        SubsequenceMembers(t[1..], s[1..]);
        assert t == [t[0]] + t[1..];
      } else {
        SubsequenceMembers(t, s[1..]);
      }
    }
  }

  /** The result is clean, nothing is added or reordered, and sanitising again changes nothing. */
  lemma SanitizedIsClean(text: string)
    ensures Clean(Sanitized(text))
    ensures Subsequence(Sanitized(text), text)
    ensures Sanitized(Sanitized(text)) == Sanitized(text)
    ensures Clean(text) ==> Sanitized(text) == text
  {
    var plain := Filter(NotNul, text);
    FilterKeeps(NotNul, text);
    FilterSubsequence(NotNul, text);
    OnePassLeavesNoTag(plain);
    RemovesExactlyTags(plain);
    UntaggedSubsequence(plain, 0);
    assert plain[0..] == plain;
    hide Untagged, Filter, RemoveTags, Subsequence;
    SubsequenceMembers(Sanitized(text), plain);
    SubsequenceTransitive(Sanitized(text), plain, text);
    FilterKeeps(NotNul, Sanitized(text));
    RemoveTagsShrinks(Sanitized(text));
    RemoveTagsShrinks(text);
  }

  function Result(value: Value): string { if value.Text? then Sanitized(value.text) else Rendered(value) }

  /** `sanitizeText`; `passes` counts the bodies of the do-while loop. */
  method SanitizeText(value: Value) returns (result: string, passes: nat)
    ensures result == Result(value)
    ensures passes <= 2
  {
    if !value.Text? { return Rendered(value), 0; }
    result := Filter(NotNul, value.text);
    ghost var plain := result;
    OnePassLeavesNoTag(plain);
    var previous := result;
    result := RemoveTags(result);
    passes := 1;
    RemoveTagsShrinks(previous);
    RemoveTagsShrinks(result);
    while result != previous
      invariant result == RemoveTags(plain) == RemoveTags(result)
      invariant passes == 1 || (passes == 2 && result == previous)
      decreases 2 - passes
    {
      previous := result;
      result := RemoveTags(result);
      passes := passes + 1;
    }
  }

  // ---------------------------------------------------------------- arguments that are no strings

  predicate Harmless(c: char) { c != '<' && c != '>' && c != '\0' }

  /** The texts inside a value that can hold any character, from left to right. */
  function Leaves(value: Value): seq<string> {
    match value
    case Text(text) => [text]
    case Custom(rendered) => [rendered]
    case Array(elements) => LeavesOf(elements)
    case _ => []
  }

  function LeavesOf(elements: seq<Value>): seq<string> {
    if elements == [] then [] else Leaves(elements[0]) + LeavesOf(elements[1..])
  }

  predicate Has(c: char, leaves: seq<string>) { exists k :: 0 <= k < |leaves| && c in leaves[k] }

  /** Each text is clean by itself, and no text with a "<" stands before one with a ">". */
  ghost predicate Safe(leaves: seq<string>) {
    && (forall k :: 0 <= k < |leaves| ==> Clean(leaves[k]))
    && (forall i, j :: 0 <= i < j < |leaves| && '<' in leaves[i] ==> '>' !in leaves[j])
  }

  lemma CleanConcat(a: string, b: string)
    ensures Clean(a + b) <==> Clean(a) && Clean(b) && !('<' in a && '>' in b)
  {
    var s := a + b;
    if '<' in a && '>' in b {
      var i :| 0 <= i < |a| && a[i] == '<';
      var j :| 0 <= j < |b| && b[j] == '>';
      assert s[i] == '<' && s[|a| + j] == '>';
      assert !NoTag(s);
    }
    assert forall i :: 0 <= i < |a| ==> s[i] == a[i];
    assert forall i :: 0 <= i < |b| ==> s[|a| + i] == b[i];
    assert NoTag(s) ==> NoTag(a) && NoTag(b);
  }

  lemma SafeConcat(a: seq<string>, b: seq<string>)
    ensures Safe(a + b) <==> Safe(a) && Safe(b) && !(Has('<', a) && Has('>', b))
    ensures forall c :: Has(c, a + b) <==> Has(c, a) || Has(c, b)
  {
    hide Clean;
    var s := a + b;
    assert forall k :: 0 <= k < |a| ==> s[k] == a[k];
    assert forall k :: 0 <= k < |b| ==> s[|a| + k] == b[k];
  }

  lemma OneLeaf(text: string)
    ensures Safe([text]) <==> Clean(text)
    ensures forall c :: Has(c, [text]) <==> c in text
  {
    assert [text][0] == text;
  }

  ghost predicate IsHarmless(s: string) { forall c :: c in s ==> Harmless(c) }

  lemma HarmlessConcat(a: string, b: string)
    requires IsHarmless(a) && IsHarmless(b)
    ensures IsHarmless(a + b)
  {
  }

  /** The condition on the texts is the condition on the rendering, and both hold the same brackets. */
  ghost predicate Agree(text: string, leaves: seq<string>) {
    (Clean(text) <==> Safe(leaves)) && ('<' in text <==> Has('<', leaves)) && ('>' in text <==> Has('>', leaves))
  }

  lemma HarmlessAgrees(text: string)
    requires IsHarmless(text)
    ensures Agree(text, [])
  {
  }

  lemma AgreeConcat(s: string, a: seq<string>, t: string, b: seq<string>)
    requires Agree(s, a) && Agree(t, b)
    ensures Agree(s + t, a + b)
  {
    hide Clean, Safe, Has;
    CleanConcat(s, t);
    SafeConcat(a, b);
  }

  lemma {:induction false} ZerosAreHarmless(n: nat)
    ensures IsHarmless(Zeros(n))
  {
    if n > 0 { ZerosAreHarmless(n - 1); }
  }

  lemma {:induction false} NaturalIsHarmless(n: nat)
    ensures IsHarmless(Natural(n))
  {
    if n >= 10 { NaturalIsHarmless(n / 10); }
  }

  lemma DecimalIsHarmless(digits: Digits, point: int)
    ensures IsHarmless(Decimal(digits, point))
  {
    var k := |digits|;
    assert IsHarmless(digits) && IsHarmless(digits[..1]) && IsHarmless(digits[1..]);
    hide Zeros, Natural, IsHarmless;
    if k <= point <= 21 {
      ZerosAreHarmless(point - k);
      HarmlessConcat(digits, Zeros(point - k));
    } else if 0 < point <= 21 {
      PartsAreHarmless(digits, point);
      HarmlessConcat(digits[..point] + ".", digits[point..]);
    } else if -6 < point <= 0 {
      ZerosAreHarmless(-point);
      MarksAreHarmless();
      HarmlessConcat("0.", Zeros(-point));
      HarmlessConcat("0." + Zeros(-point), digits);
    } else {
      var exponent := if point > 0 then point - 1 else 1 - point;
      var mark := if point > 0 then "e+" else "e-";
      NaturalIsHarmless(exponent);
      MarksAreHarmless();
      HarmlessConcat(".", digits[1..]);
      var fraction := if k == 1 then "" else "." + digits[1..];
      HarmlessConcat(digits[..1], fraction);
      HarmlessConcat(mark, Natural(exponent));
      HarmlessConcat(digits[..1] + fraction, mark + Natural(exponent));
    }
  }

  lemma PartsAreHarmless(digits: Digits, point: nat)
    requires point <= |digits|
    ensures IsHarmless(digits[..point] + ".") && IsHarmless(digits[point..])
  {
  }

  lemma MarksAreHarmless()
    ensures IsHarmless("") && IsHarmless(".") && IsHarmless("0.") && IsHarmless("e+") && IsHarmless("e-")
        && IsHarmless("-")
  {
  }

  lemma ScalarIsHarmless(value: Value)
    requires !value.Text? && !value.Array? && !value.Custom?
    ensures IsHarmless(Rendered(value))
  {
    hide Decimal, Natural;
    match value
    case Numeric(Finite(negative, digits, point)) =>
      DecimalIsHarmless(digits, point);
      HarmlessConcat(if negative then "-" else "", Decimal(digits, point));
    case Big(i) =>
      NaturalIsHarmless(if i < 0 then -i else i);
      HarmlessConcat("-", Natural(if i < 0 then -i else i));
    case _ =>
  }

  lemma {:induction false} RenderingAgrees(value: Value)
    ensures Agree(Rendered(value), Leaves(value))
  {
    match value
    case Text(text) => OneLeaf(text);
    case Custom(rendered) => OneLeaf(rendered);
    case Array(elements) => JoinAgrees(elements);
    case _ =>
      ScalarIsHarmless(value);
      HarmlessAgrees(Rendered(value));
  }

  lemma {:induction false} JoinAgrees(elements: seq<Value>)
    ensures Agree(JoinCommas(elements), LeavesOf(elements))
  {
    hide Agree;
    if elements == [] {
      HarmlessAgrees("");
    } else {
      RenderingAgrees(elements[0]);
      JoinAgrees(elements[1..]);
      if |elements| == 1 {
        assert LeavesOf(elements) == Leaves(elements[0]);
      } else {
        HarmlessAgrees(",");
        AgreeConcat(Rendered(elements[0]), Leaves(elements[0]), ",", []);
        AgreeConcat(Rendered(elements[0]) + ",", Leaves(elements[0]) + [],
                    JoinCommas(elements[1..]), LeavesOf(elements[1..]));
        assert Leaves(elements[0]) + [] == Leaves(elements[0]);
      }
    }
  }

  /** Only strings are sanitised.  Any other argument comes out clean exactly if the texts inside it are clean one by
      one and no text with a "<" stands before one with a ">", however deep they are nested in arrays. */
  lemma CleanIffTextsAreSafe(value: Value)
    ensures Clean(Result(value)) <==> value.Text? || Safe(Leaves(value))
  {
    if value.Text? { SanitizedIsClean(value.text); }
    RenderingAgrees(value);
  }

  /** So everything but strings, arrays and objects with their own rendering is always clean. */
  lemma ScalarsAreClean(value: Value)
    requires !value.Array? && !value.Custom?
    ensures Clean(Result(value))
  {
    CleanIffTextsAreSafe(value);
  }

  /** Arrays are not: one with a tag in it, and one whose elements are clean but not side by side. */
  lemma ArraysAreNotSanitised()
    ensures !Clean(Result(Array([Text("<b>")])))
    ensures Clean("<") && Clean(">") && !Clean(Result(Array([Text("<"), Text(">")])))
  {
    var tag, pair := Array([Text("<b>")]), Array([Text("<"), Text(">")]);
    assert Rendered(tag) == "<b>" && "<b>"[0] == '<' && "<b>"[2] == '>';
    CleanIffTextsAreSafe(pair);
    assert pair.elements[1..] == [Text(">")] && pair.elements[1..][1..] == [];
    assert Leaves(pair) == ["<", ">"] && '<' in ["<", ">"][0] && '>' in ["<", ">"][1];
  }
}
