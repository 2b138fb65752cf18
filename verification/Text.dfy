/** The string operations the sources rely on. */
module Text {

  /** White space that JavaScript's `trim` removes (section 22.1.3.32 of ECMA-262). */
  predicate JsSpace(c: char) {
    || '\t' <= c <= '\r' || c == ' ' || c == '\U{A0}' || c == '\U{1680}' || '\U{2000}' <= c <= '\U{200A}'
    || c == '\U{2028}' || c == '\U{2029}' || c == '\U{202F}' || c == '\U{205F}' || c == '\U{3000}' || c == '\U{FEFF}'
  }

  function StripLeft(drop: char -> bool, s: string): string {
    if s != [] && drop(s[0]) then StripLeft(drop, s[1..]) else s
  }

  function StripRight(drop: char -> bool, s: string): string {
    if s != [] && drop(s[|s| - 1]) then StripRight(drop, s[..|s| - 1]) else s
  }

  function Strip(drop: char -> bool, s: string): string { StripRight(drop, StripLeft(drop, s)) }

  predicate Bare(drop: char -> bool, s: string) { s != [] ==> !drop(s[0]) && !drop(s[|s| - 1]) }

  lemma {:induction false} StripLeftSuffix(drop: char -> bool, s: string)
    ensures var t := StripLeft(drop, s); |t| <= |s| && t == s[|s| - |t|..]
    ensures var t := StripLeft(drop, s); t != [] ==> !drop(t[0])
    ensures forall k :: 0 <= k < |s| - |StripLeft(drop, s)| ==> drop(s[k])
  {
    if s != [] && drop(s[0]) {
      StripLeftSuffix(drop, s[1..]);
      var n := |s| - |StripLeft(drop, s)|;
      assert s[1..][n - 1..] == s[n..];
      forall k | 0 <= k < n ensures drop(s[k]) {
        if k > 0 { assert drop(s[1..][k - 1]); }
      }
    }
  }

  lemma {:induction false} StripRightPrefix(drop: char -> bool, s: string)
    ensures var t := StripRight(drop, s); |t| <= |s| && t == s[..|t|]
    ensures var t := StripRight(drop, s); t != [] ==> !drop(t[|t| - 1])
    ensures forall k :: |StripRight(drop, s)| <= k < |s| ==> drop(s[k])
  {
    if s != [] && drop(s[|s| - 1]) {
      var shorter := s[..|s| - 1];
      StripRightPrefix(drop, shorter);
      forall k | |StripRight(drop, s)| <= k < |s| ensures drop(s[k]) {
        if k < |s| - 1 { assert drop(shorter[k]); }
      }
    }
  }

  /** Stripping leaves a bare string, surrounded in the original by characters to drop. */
  lemma StripIsBare(drop: char -> bool, s: string)
    ensures Bare(drop, Strip(drop, s))
    ensures Bare(drop, s) ==> Strip(drop, s) == s
  {
    StripLeftSuffix(drop, s);
    StripRightPrefix(drop, StripLeft(drop, s));
  }

  lemma {:induction false} StripPadding(drop: char -> bool, before: string, core: string, after: string)
    requires Bare(drop, core) && core != []
    requires (forall c :: c in before ==> drop(c)) && (forall c :: c in after ==> drop(c))
    ensures Strip(drop, before + core + after) == core
  {
    StripLeftPadding(drop, before, core + after);
    assert before + core + after == before + (core + after);
    StripRightPadding(drop, core, after);
  }

  lemma {:induction false} StripLeftPadding(drop: char -> bool, before: string, s: string)
    requires forall c :: c in before ==> drop(c)
    requires s != [] ==> !drop(s[0])
    ensures StripLeft(drop, before + s) == s
  {
    if before == [] {
      assert before + s == s;
    } else {
      assert drop(before[0]);
      assert (before + s)[1..] == before[1..] + s;
      StripLeftPadding(drop, before[1..], s);
    }
  }

  lemma {:induction false} StripRightPadding(drop: char -> bool, s: string, after: string)
    requires forall c :: c in after ==> drop(c)
    requires s != [] ==> !drop(s[|s| - 1])
    ensures StripRight(drop, s + after) == s
  {
    if after == [] {
      assert s + after == s;
    } else {
      assert drop(after[|after| - 1]);
      assert (s + after)[..|s + after| - 1] == s + after[..|after| - 1];
      StripRightPadding(drop, s, after[..|after| - 1]);
    }
  }

  predicate StartsWith(s: string, prefix: string) { prefix <= s }

  predicate Contains(text: string, part: string) {
    part <= text || (text != [] && Contains(text[1..], part))
  }

  predicate StandsAt(part: string, text: string, i: nat) { i + |part| <= |text| && text[i..i + |part|] == part }

  /** `part` stands somewhere in `text`. */
  ghost predicate Occurs(part: string, text: string) { exists i: nat :: StandsAt(part, text, i) }

  lemma StandsAtLater(part: string, text: string, i: nat)
    requires text != []
    ensures StandsAt(part, text[1..], i) <==> StandsAt(part, text, i + 1)
  {
    var rest := text[1..];
    if i + |part| <= |rest| {
      var there, here := rest[i..i + |part|], text[i + 1..i + 1 + |part|];
      assert forall k :: 0 <= k < |part| ==> there[k] == rest[i + k] == text[i + 1 + k] == here[k];
      assert there == here;
    }
  }

  lemma OccursLater(part: string, text: string)
    requires text != []
    ensures Occurs(part, text) <==> part <= text || Occurs(part, text[1..])
  {
    var rest := text[1..];
    assert part <= text <==> StandsAt(part, text, 0);
    hide StandsAt;
    if i: nat :| StandsAt(part, rest, i) { StandsAtLater(part, text, i); }
    if i: nat :| StandsAt(part, text, i) && i > 0 { StandsAtLater(part, text, i - 1); }
  }

  lemma {:induction false} ContainsIffOccurs(text: string, part: string)
    ensures Contains(text, part) <==> Occurs(part, text)
  {
    if text == [] {
      assert part == [] ==> StandsAt(part, text, 0);
    } else {
      OccursLater(part, text);
      ContainsIffOccurs(text[1..], part);
    }
  }
}
