/** The audit links of `frontend/lib/governance-link-utils.ts`, with the part of the
    `application/x-www-form-urlencoded` serialiser (section 5 of the WHATWG URL Standard) they use. */
module AuditLinks {
  import opened Optional
  import opened Text

  datatype ArtifactKey = BindReceiptId | DecisionId | ExecutionIntentId

  function KeyName(key: ArtifactKey): string {
    match key
    case BindReceiptId => "bind_receipt_id"
    case DecisionId => "decision_id"
    case ExecutionIntentId => "execution_intent_id"
  }

  predicate ForbiddenInHref(c: char) { c == '\\' || c == '\n' || c == '\r' || c == '\t' }

  predicate Any(p: char -> bool, s: string) { exists k :: 0 <= k < |s| && p(s[k]) }

  /** `normalizeSafeInternalHref`; `None` stands for any value that is not a string. */
  function NormalizeSafeInternalHref(value: Option<string>): Option<string> {
    if value.None? then None
    else
      var href := Strip(JsSpace, value.value);
      if href == "" then None
      else if !StartsWith(href, "/") then None
      else if StartsWith(href, "//") then None
      else if Any(ForbiddenInHref, href) then None
      else Some(href)
  }

  predicate IsAlphanumeric(c: char) { 'A' <= c <= 'Z' || 'a' <= c <= 'z' || '0' <= c <= '9' }

  /** The alphabet of `AUDIT_ARTIFACT_ID_PATTERN`. */
  predicate IsIdChar(c: char) { IsAlphanumeric(c) || c == '.' || c == '_' || c == ':' || c == '-' }

  predicate All(p: char -> bool, s: string) { forall k :: 0 <= k < |s| ==> p(s[k]) }

  /** The serialiser on the characters an identifier can have: the colon is the only one it encodes. */
  function Serialize(s: string): string {
    if s == "" then "" else (if s[0] == ':' then "%3A" else [s[0]]) + Serialize(s[1..])
  }

  function Href(key: ArtifactKey, id: string): string { "/audit?" + KeyName(key) + "=" + Serialize(id) }

  /** `buildAuditArtifactHref`. */
  function BuildAuditArtifactHref(key: ArtifactKey, value: Option<string>): Option<string> {
    if value.None? then None
    else
      var id := Strip(JsSpace, value.value);
      if id == "" then None
      else if Any(ForbiddenInHref, id) then None
      else if !All(IsIdChar, id) then None
      else NormalizeSafeInternalHref(Some(Href(key, id)))
  }

  /** What a link can contain. */
  predicate IsLinkChar(c: char) { IsIdChar(c) || c == '%' || c == '/' || c == '?' || c == '=' }

  lemma AllConcat(p: char -> bool, a: string, b: string)
    requires All(p, a) && All(p, b)
    ensures All(p, a + b)
  {
  }

  lemma {:induction false} SerializeAlphabet(s: string)
    requires All(IsIdChar, s)
    ensures All(IsLinkChar, Serialize(s))
  {
    if s != "" {
      assert All(IsIdChar, s[1..]) by { assert forall k :: 0 <= k < |s[1..]| ==> s[1..][k] == s[k + 1]; }
      SerializeAlphabet(s[1..]);
      assert IsIdChar(s[0]);
      AllConcat(IsLinkChar, if s[0] == ':' then "%3A" else [s[0]], Serialize(s[1..]));
    }
  }

  lemma PrefixAlphabet(key: ArtifactKey)
    ensures All(IsLinkChar, "/audit?" + KeyName(key) + "=")
  {
    AllConcat(IsLinkChar, "/audit?", KeyName(key));
    AllConcat(IsLinkChar, "/audit?" + KeyName(key), "=");
  }

  lemma HrefAlphabet(key: ArtifactKey, id: string)
    requires All(IsIdChar, id)
    ensures All(IsLinkChar, Href(key, id))
    ensures |Href(key, id)| >= 2 && Href(key, id)[0] == '/' && Href(key, id)[1] == 'a'
  {
    hide IsLinkChar, IsIdChar, All, KeyName, Serialize;
    SerializeAlphabet(id);
    PrefixAlphabet(key);
    AllConcat(IsLinkChar, "/audit?" + KeyName(key) + "=", Serialize(id));
  }

  /** Letters, digits, and four marks. */
  ghost predicate IsIdentifier(id: string) {
    forall k :: 0 <= k < |id| ==>
      || 'A' <= id[k] <= 'Z' || 'a' <= id[k] <= 'z' || '0' <= id[k] <= '9' || id[k] in {'.', '_', ':', '-'}
  }

  lemma IdentifierIff(id: string)
    ensures All(IsIdChar, id) <==> IsIdentifier(id)
  {
    if All(IsIdChar, id) { assert forall k :: 0 <= k < |id| ==> IsIdChar(id[k]); }
  }

  /** A link is built exactly for strings whose trimmed form is a non-empty identifier; the final safety check
      never turns one down. */
  lemma LinkIffIdentifier(key: ArtifactKey, value: Option<string>)
    ensures BuildAuditArtifactHref(key, value) ==
            if value.Some? && Strip(JsSpace, value.value) != "" && IsIdentifier(Strip(JsSpace, value.value))
            then Some(Href(key, Strip(JsSpace, value.value))) else None
  {
    hide Href, All, Any, Strip, IsIdentifier;
    if value.Some? { IdentifierIff(Strip(JsSpace, value.value)); }
    if value.Some? && Strip(JsSpace, value.value) != "" && All(IsIdChar, Strip(JsSpace, value.value)) {
      HrefIsSafe(key, Strip(JsSpace, value.value));
    }
  }

  lemma HrefIsSafe(key: ArtifactKey, id: string)
    requires All(IsIdChar, id)
    ensures !Any(ForbiddenInHref, id)
    ensures NormalizeSafeInternalHref(Some(Href(key, id))) == Some(Href(key, id))
  {
    HrefAlphabet(key, id);
    hide Href;
    var href := Href(key, id);
    StripIsBare(JsSpace, href);
    assert !JsSpace(href[0]) && !JsSpace(href[|href| - 1]);
    assert "//"[1] == '/' && !StartsWith(href, "//");
    assert StartsWith(href, "/");
  }

  // ---------------------------------------------------------------- reading a link back

  function HexValue(c: char): Option<int> {
    if '0' <= c <= '9' then Some(c as int - '0' as int)
    else if 'A' <= c <= 'F' then Some(c as int - 'A' as int + 10)
    else if 'a' <= c <= 'f' then Some(c as int - 'a' as int + 10)
    else None
  }

  /** The form-urlencoded decoder, on ASCII. */
  function Decode(s: string): string
    decreases |s|
  {
    if s == "" then ""
    else if s[0] == '+' then " " + Decode(s[1..])
    else if s[0] == '%' && |s| >= 3 && HexValue(s[1]).Some? && HexValue(s[2]).Some? then
      [(16 * HexValue(s[1]).value + HexValue(s[2]).value) as char] + Decode(s[3..])
    else [s[0]] + Decode(s[1..])
  }

  function FindEquals(s: string): (i: nat)
    ensures i <= |s|
  {
    if s == "" || s[0] == '=' then 0 else 1 + FindEquals(s[1..])
  }

  /** The one name-value pair of an audit link. */
  function ParseAuditLink(href: string): Option<(string, string)> {
    if !StartsWith(href, "/audit?") then None
    else
      var query := href[7..];
      var i := FindEquals(query);
      if i == |query| then Some((Decode(query), "")) else Some((Decode(query[..i]), Decode(query[i + 1..])))
  }

  lemma {:induction false} DecodeSerialize(s: string)
    requires All(IsIdChar, s)
    ensures Decode(Serialize(s)) == s
  {
    if s != "" {
      assert All(IsIdChar, s[1..]) by { assert forall k :: 0 <= k < |s[1..]| ==> s[1..][k] == s[k + 1]; }
      DecodeSerialize(s[1..]);
      assert IsIdChar(s[0]);
      if s[0] == ':' {
        var t := "%3A" + Serialize(s[1..]);
        assert t[0] == '%' && t[1] == '3' && t[2] == 'A' && t[3..] == Serialize(s[1..]);
        assert (16 * 3 + 10) as char == ':';
      } else {
        assert ([s[0]] + Serialize(s[1..]))[1..] == Serialize(s[1..]);
      }
      assert s == [s[0]] + s[1..];
    }
  }

  lemma {:induction false} DecodePlain(s: string)
    requires forall k :: 0 <= k < |s| ==> s[k] != '+' && s[k] != '%'
    ensures Decode(s) == s
  {
    if s != "" {
      DecodePlain(s[1..]);
      assert s == [s[0]] + s[1..];
    }
  }

  lemma {:induction false} FindEqualsAfter(name: string, rest: string)
    requires '=' !in name
    ensures FindEquals(name + "=" + rest) == |name|
  {
    if name == "" {
      assert name + "=" + rest == "=" + rest;
    } else {
      assert name[0] in name;
      assert (name + "=" + rest)[1..] == name[1..] + "=" + rest;
      FindEqualsAfter(name[1..], rest);
    }
  }

  /** A link reads back as the key and the trimmed identifier it was built from. */
  lemma LinkRoundTrip(key: ArtifactKey, value: Option<string>)
    requires BuildAuditArtifactHref(key, value).Some?
    ensures value.Some?
    ensures ParseAuditLink(BuildAuditArtifactHref(key, value).value)
        == Some((match key
                   case BindReceiptId => "bind_receipt_id"
                   case DecisionId => "decision_id"
                   case ExecutionIntentId => "execution_intent_id",
                 Strip(JsSpace, value.value)))
  {
    hide BuildAuditArtifactHref, NormalizeSafeInternalHref, Strip, All, Serialize, Decode, FindEquals, IsIdentifier;
    LinkIffIdentifier(key, value);
    var id := Strip(JsSpace, value.value);
    IdentifierIff(id);
    var name := KeyName(key);
    var href := Href(key, id);
    assert href == "/audit?" + (name + "=" + Serialize(id));
    assert href[7..] == name + "=" + Serialize(id);
    PlainName(key);
    FindEqualsAfter(name, Serialize(id));
    DecodePlain(name);
    DecodeSerialize(id);
    assert href[7..][..|name|] == name && href[7..][|name| + 1..] == Serialize(id);
  }

  lemma PlainName(key: ArtifactKey)
    ensures forall k :: 0 <= k < |KeyName(key)| ==>
              KeyName(key)[k] != '+' && KeyName(key)[k] != '%' && KeyName(key)[k] != '='
  {
  }

  /** So different keys or identifiers never share a link. */
  lemma LinksAreInjective(key: ArtifactKey, value: Option<string>, key': ArtifactKey, value': Option<string>)
    requires BuildAuditArtifactHref(key, value).Some?
    requires BuildAuditArtifactHref(key, value) == BuildAuditArtifactHref(key', value')
    ensures key == key' && value.Some? && value'.Some?
    ensures Strip(JsSpace, value.value) == Strip(JsSpace, value'.value)
  {
    LinkRoundTrip(key, value);
    LinkRoundTrip(key', value');
    assert |KeyName(BindReceiptId)| == 15 && |KeyName(DecisionId)| == 11 && |KeyName(ExecutionIntentId)| == 19;
  }
}
