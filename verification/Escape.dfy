/**
 The two escaping routines: `mangle_htmlescape` (mangle.c) and
 `__urlescape_str` (pipeline.c).  Both measure the result in a first pass over
 the input and write it into a buffer of exactly that size in a second one.
 */
module Escape {
  // ----- HTML ---------------------------------------------------------------

  function HtmlChar(c: char): string
  {
    match c
    case '<' => "&lt;"
    case '>' => "&gt;"
    case '&' => "&amp;"
    case '"' => "&quot;"
    case _ => [c]
  }

  function HtmlEscape(s: string): string
  {
    if s == [] then [] else HtmlChar(s[0]) + HtmlEscape(s[1..])
  }

  /** A reader of the four entities, the inverse of the escaper. */
  function HtmlUnescape(s: string): string
  {
    if s == [] then []
    else if "&lt;" <= s then ['<'] + HtmlUnescape(s[4..])
    else if "&gt;" <= s then ['>'] + HtmlUnescape(s[4..])
    else if "&amp;" <= s then ['&'] + HtmlUnescape(s[5..])
    else if "&quot;" <= s then ['"'] + HtmlUnescape(s[6..])
    else [s[0]] + HtmlUnescape(s[1..])
  }

  /** No character of `s` can open or close a tag or an attribute value. */
  predicate TagFree(s: string)
  {
    forall i :: 0 <= i < |s| ==> s[i] != '<' && s[i] != '>' && s[i] != '"'
  }

  predicate StartsEntity(s: string)
  {
    "&lt;" <= s || "&gt;" <= s || "&amp;" <= s || "&quot;" <= s
  }

  lemma HtmlUnescapeChar(c: char, t: string)
    ensures HtmlUnescape(HtmlChar(c) + t) == [c] + HtmlUnescape(t)
  {
    var e := HtmlChar(c);
    var u := e + t;
    assert u[|e|..] == t;
    assert e <= u;
    if |e| > 1 {
      assert u[1] == e[1];
      assert u[0] == '&';
    } else {
      assert u[0] == c;
    }
  }

  lemma {:induction false} HtmlRoundTrip(s: string)
    ensures HtmlUnescape(HtmlEscape(s)) == s
  {
    if s != [] {
      HtmlUnescapeChar(s[0], HtmlEscape(s[1..]));
      HtmlRoundTrip(s[1..]);
    }
  }

  lemma HtmlEscapeInjective(s: string, t: string)
    requires HtmlEscape(s) == HtmlEscape(t)
    ensures s == t
  {
    HtmlRoundTrip(s);
    HtmlRoundTrip(t);
  }

  lemma {:induction false} HtmlEscapeIsTagFree(s: string)
    ensures TagFree(HtmlEscape(s))
  {
    if s != [] {
      HtmlEscapeIsTagFree(s[1..]);
    }
  }

  /** Every ampersand of the result begins one of the four entities. */
  lemma {:induction false} HtmlAmpersandsStartEntities(s: string, i: nat)
    requires i < |HtmlEscape(s)| && HtmlEscape(s)[i] == '&'
    ensures StartsEntity(HtmlEscape(s)[i..])
  {
    var e, t := HtmlChar(s[0]), HtmlEscape(s[1..]);
    if i < |e| {
      assert i == 0;
      assert (e + t)[0..] == e + t;
    } else {
      HtmlAmpersandsStartEntities(s[1..], i - |e|);
      assert (e + t)[i..] == t[i - |e|..];
    }
  }

  /** strcpy: the characters and then a terminator, all within the buffer. */
  method StrCpy(buf: array<char>, at: nat, s: string)
    requires at + |s| < buf.Length
    modifies buf
    ensures buf[..at] == old(buf[..at])
    ensures buf[at..at + |s|] == s && buf[at + |s|] == '\0'
    ensures buf[at + |s| + 1..] == old(buf[at + |s| + 1..])
  {
    forall k | 0 <= k < |s| {
      buf[at + k] := s[k];
    }
    buf[at + |s|] := '\0';
  }

  /** The first pass of mangle_htmlescape. */
  method HtmlLength(input: string) returns (outlen: nat)
    ensures outlen == |HtmlEscape(input)|
  {
    outlen := |input|;
    for i := 0 to |input|
      invariant outlen + |HtmlEscape(input[i..])| == |HtmlEscape(input)| + |input| - i
    {
      assert input[i..][1..] == input[i + 1..];
      match input[i] {
        case '<' => outlen := outlen + 3;
        case '>' => outlen := outlen + 3;
        case '&' => outlen := outlen + 4;
        case '"' => outlen := outlen + 5;
        case _ =>
      }
    }
  }

  /** One step of the second pass: strcpy leaves its terminator in the buffer,
      where the next character overwrites it. */
  method PutHtmlChar(out: array<char>, at: nat, c: char) returns (tmp: nat)
    requires at + |HtmlChar(c)| < out.Length
    modifies out
    ensures tmp == at + |HtmlChar(c)|
    ensures out[..tmp] == old(out[..at]) + HtmlChar(c)
  {
    tmp := at;
    match c {
      case '<' => StrCpy(out, tmp, "&lt;"); tmp := tmp + 3;
      case '>' => StrCpy(out, tmp, "&gt;"); tmp := tmp + 3;
      case '&' => StrCpy(out, tmp, "&amp;"); tmp := tmp + 4;
      case '"' => StrCpy(out, tmp, "&quot;"); tmp := tmp + 5;
      case _ => out[tmp] := c;
    }
    tmp := tmp + 1;
    assert out[..tmp] == out[..at] + out[at..tmp];
  }

  /** The result fills the buffer up to its terminator: the two passes agree. */
  method MangleHtmlEscape(input: string) returns (out: array<char>)
    ensures fresh(out)
    ensures out[..] == HtmlEscape(input) + ['\0']
  {
    var outlen := HtmlLength(input);
    out := new char[outlen + 1];
    var tmp := 0;
    for i := 0 to |input|
      invariant 0 <= tmp && tmp + |HtmlEscape(input[i..])| == outlen
      invariant out[..tmp] + HtmlEscape(input[i..]) == HtmlEscape(input)
    {
      ghost var before, rest := out[..tmp], HtmlEscape(input[i + 1..]);
      assert input[i..][1..] == input[i + 1..];
      assert before + HtmlChar(input[i]) + rest == before + HtmlEscape(input[i..]);
      tmp := PutHtmlChar(out, tmp, input[i]);
    }
    out[tmp] := '\0';
    assert out[..tmp] == HtmlEscape(input);
  }

  // ----- URL ----------------------------------------------------------------

  /** A C string's characters: bytes other than the terminator. */
  predicate IsCString(s: string)
  {
    forall i :: 0 <= i < |s| ==> 0 < s[i] as int < 256
  }

  /** isalnum in the C locale. */
  predicate IsAlnum(c: char)
  {
    'a' <= c <= 'z' || 'A' <= c <= 'Z' || '0' <= c <= '9'
  }

  /** The unreserved set of section 2.3 of RFC 3986. */
  predicate Unreserved(c: char)
  {
    IsAlnum(c) || c == '-' || c == '_' || c == '.' || c == '~'
  }

  const HEX: string := "0123456789ABCDEF"

  function UrlChar(c: char): string
  {
    if Unreserved(c) then [c]
    else if c == ' ' then ['+']
    else ['%', HEX[c as int / 16 % 16], HEX[c as int % 16]]
  }

  function UrlEscape(s: string): string
  {
    if s == [] then [] else UrlChar(s[0]) + UrlEscape(s[1..])
  }

  predicate IsHex(c: char)
  {
    '0' <= c <= '9' || 'A' <= c <= 'F'
  }

  function HexValue(c: char): nat
    requires IsHex(c)
  {
    if c <= '9' then c as int - '0' as int else c as int - 'A' as int + 10
  }

  /** Section 2.1 of RFC 3986: a percent sign and two hexadecimal digits. */
  predicate StartsTriplet(s: string)
  {
    |s| >= 3 && s[0] == '%' && IsHex(s[1]) && IsHex(s[2])
  }

  /** Decoding of form data, section 17.13.4.1 of HTML 4.01. */
  function FormDecode(s: string): string
  {
    if s == [] then []
    else if StartsTriplet(s) then
      [(HexValue(s[1]) * 16 + HexValue(s[2])) as char] + FormDecode(s[3..])
    else if s[0] == '+' then [' '] + FormDecode(s[1..])
    else [s[0]] + FormDecode(s[1..])
  }

  /** ALPHA, DIGIT, hyphen, period, underscore and tilde, by their codes (section 2.3 of
      RFC 3986 and appendix B.1 of RFC 5234). */
  predicate RfcUnreserved(c: char)
  {
    var n := c as int;
    0x41 <= n <= 0x5A || 0x61 <= n <= 0x7A || 0x30 <= n <= 0x39 || n in {0x2D, 0x2E, 0x5F, 0x7E}
  }

  /** Unreserved characters stay as they are. */
  lemma {:induction false} UnreservedStays(s: string)
    requires forall i :: 0 <= i < |s| ==> RfcUnreserved(s[i])
    ensures UrlEscape(s) == s
  {
    if s != [] {
      UnreservedStays(s[1..]);
    }
  }

  /** A string cut into unreserved characters, plus signs and triplets. */
  predicate FormEncoded(s: string)
  {
    s == []
    || ((RfcUnreserved(s[0]) || s[0] == '+') && FormEncoded(s[1..]))
    || (StartsTriplet(s) && FormEncoded(s[3..]))
  }

  lemma HexDigits(n: nat)
    requires n < 16
    ensures IsHex(HEX[n]) && HexValue(HEX[n]) == n
  {
    assert HEX[n] == if n < 10 then ('0' as int + n) as char else ('A' as int + n - 10) as char;
  }

  lemma TripletDecodes(c: char)
    requires c as int < 256 && !Unreserved(c) && c != ' '
    ensures var e := UrlChar(c);
            StartsTriplet(e) && (HexValue(e[1]) * 16 + HexValue(e[2])) as char == c
  {
    HexDigits(c as int / 16);
    HexDigits(c as int % 16);
  }

  lemma FormDecodeChar(c: char, t: string)
    requires c as int < 256
    ensures FormDecode(UrlChar(c) + t) == [c] + FormDecode(t)
  {
    var e := UrlChar(c);
    var u := e + t;
    assert u[|e|..] == t;
    assert u[0] == e[0];
    if !Unreserved(c) && c != ' ' {
      TripletDecodes(c);
      assert u[1] == e[1] && u[2] == e[2];
    }
  }

  lemma {:induction false} UrlRoundTrip(s: string)
    requires IsCString(s)
    ensures FormDecode(UrlEscape(s)) == s
  {
    if s != [] {
      FormDecodeChar(s[0], UrlEscape(s[1..]));
      UrlRoundTrip(s[1..]);
    }
  }

  lemma {:induction false} UrlEscapeAlphabet(s: string)
    ensures FormEncoded(UrlEscape(s))
  {
    if s != [] {
      UrlEscapeAlphabet(s[1..]);
      var e, t := UrlChar(s[0]), UrlEscape(s[1..]);
      assert (e + t)[|e|..] == t;
      HexDigits(s[0] as int / 16 % 16);
      HexDigits(s[0] as int % 16);
    }
  }

  /** The first pass of __urlescape_str. */
  method UrlLength(input: string) returns (outlen: nat)
    ensures outlen == |UrlEscape(input)|
  {
    outlen := |input|;
    for i := 0 to |input|
      invariant outlen + |UrlEscape(input[i..])| == |UrlEscape(input)| + |input| - i
    {
      assert input[i..][1..] == input[i + 1..];
      var c := input[i];
      if IsAlnum(c) {
        continue;
      }
      match c {
        case ' ' =>
        case '-' =>
        case '_' =>
        case '.' =>
        case '~' =>
        case _ => outlen := outlen + 2;
      }
    }
  }

  /** The three bytes of a triplet. */
  method PutTriplet(out: array<char>, at: nat, c: char)
    requires c as int < 256 && at + 2 < out.Length
    modifies out
    ensures out[..at] == old(out[..at])
    ensures out[at..at + 3] == ['%', HEX[c as int / 16], HEX[c as int % 16]]
  {
    out[at] := '%';
    out[at + 1] := HEX[c as int / 16];
    out[at + 2] := HEX[c as int % 16];
  }

  /** One step of the second pass. */
  method PutUrlChar(out: array<char>, at: nat, c: char) returns (tmp: nat)
    requires c as int < 256 && at + |UrlChar(c)| < out.Length
    modifies out
    ensures tmp == at + |UrlChar(c)|
    ensures out[..tmp] == old(out[..at]) + UrlChar(c)
  {
    tmp := at;
    if IsAlnum(c) {
      out[tmp] := c;
    } else {
      match c {
        case ' ' => out[tmp] := '+';
        case '-' => out[tmp] := c;
        case '_' => out[tmp] := c;
        case '.' => out[tmp] := c;
        case '~' => out[tmp] := c;
        case _ =>
          PutTriplet(out, tmp, c);
          tmp := tmp + 2;
      }
    }
    tmp := tmp + 1;
    assert out[..at] == old(out[..at]);
    assert out[at..tmp] == UrlChar(c);
    assert out[..tmp] == out[..at] + out[at..tmp];
  }

  /** Again the two passes agree, so every write is within the buffer. */
  method UrlEscapeStr(input: string) returns (out: array<char>)
    requires IsCString(input)
    ensures fresh(out)
    ensures out[..] == UrlEscape(input) + ['\0']
  {
    var outlen := UrlLength(input);
    out := new char[outlen + 1];
    var tmp := 0;
    for i := 0 to |input|
      invariant 0 <= tmp && tmp + |UrlEscape(input[i..])| == outlen
      invariant out[..tmp] + UrlEscape(input[i..]) == UrlEscape(input)
    {
      ghost var before, rest := out[..tmp], UrlEscape(input[i + 1..]);
      assert input[i..][1..] == input[i + 1..];
      assert before + UrlChar(input[i]) + rest == before + UrlEscape(input[i..]);
      tmp := PutUrlChar(out, tmp, input[i]);
    }
    out[tmp] := '\0';
    assert out[..tmp] == UrlEscape(input);
  }
}
