/**
 A reader of HTML, from characters to what a visitor sees: text, and the beginnings
 and ends of headings, lists, links and the like.  It finds tags, attributes and
 entities by itself and knows nothing of the tokens or of post format 3.
 */
module HtmlReader {
  import opened Basics
  import opened Escape
  import opened Html

  datatype Role =
    | Paragraph
    | Heading(level: nat)
    | NumberedList
    | BulletList
    | DefinitionList
    | ListItem
    | Term
    | Definition
    | Quotation
    | Preformatted
    | Table
    | Row
    | Cell
    | Emphasis
    | Strong
    | Italic
    | Span
    | Hyperlink
    | Abbreviation
    | Formula
    | Group
    | Fraction
    | Superscript
    | Subscript
    | Root
    | Operator
    | Number
    | Identifier
    | Unknown(name: string)

  /** `note` is where a link leads, what an abbreviation stands for, or the class of a span. */
  datatype Mark =
    | Say(c: char)
    | Begin(role: Role, note: string)
    | End(role: Role)
    | Picture(src: string, alt: string)
    | LineBreak
    | Garbage

  function RoleOf(name: string): Role
  {
    match name
    case "p" => Paragraph
    case "h3" => Heading(3)
    case "h4" => Heading(4)
    case "h5" => Heading(5)
    case "ol" => NumberedList
    case "ul" => BulletList
    case "dl" => DefinitionList
    case "li" => ListItem
    case "dt" => Term
    case "dd" => Definition
    case "blockquote" => Quotation
    case "pre" => Preformatted
    case "table" => Table
    case "tr" => Row
    case "td" => Cell
    case "em" => Emphasis
    case "strong" => Strong
    case "i" => Italic
    case "span" => Span
    case "a" => Hyperlink
    case "abbr" => Abbreviation
    case "math" => Formula
    case "mrow" => Group
    case "mfrac" => Fraction
    case "msup" => Superscript
    case "msub" => Subscript
    case "msqrt" => Root
    case "mo" => Operator
    case "mn" => Number
    case "mi" => Identifier
    case _ => Unknown(name)
  }

  /** The character references of HTML that are used, by their code points. */
  function EntityCode(name: string): Option<nat>
  {
    match name
    case "quot" => Some(0x22)
    case "amp" => Some(0x26)
    case "lt" => Some(0x3C)
    case "gt" => Some(0x3E)
    case "nbsp" => Some(0xA0)
    case "ndash" => Some(0x2013)
    case "mdash" => Some(0x2014)
    case "lsquo" => Some(0x2018)
    case "rsquo" => Some(0x2019)
    case "ldquo" => Some(0x201C)
    case "rdquo" => Some(0x201D)
    case "hellip" => Some(0x2026)
    case "trade" => Some(0x2122)
    case "larr" => Some(0x2190)
    case "rarr" => Some(0x2192)
    case "harr" => Some(0x2194)
    case "prop" => Some(0x221D)
    case _ => None
  }

  /** The bytes of a character (section 3 of RFC 3629). */
  function Utf8(code: nat): string
    requires code < 0x1_0000
  {
    if code < 0x80 then [code as char]
    else if code < 0x800 then [(0xC0 + code / 0x40) as char, (0x80 + code % 0x40) as char]
    else [(0xE0 + code / 0x1000) as char, (0x80 + code / 0x40 % 0x40) as char, (0x80 + code % 0x40) as char]
  }

  function Spell(s: string): seq<Mark>
  {
    seq(|s|, i requires 0 <= i < |s| => Say(s[i]))
  }

  /** The first place of a character, or the end. */
  function Find(s: string, c: char): (k: nat)
    ensures k <= |s| && (k < |s| ==> s[k] == c)
    ensures forall i :: 0 <= i < k ==> s[i] != c
  {
    if s == "" || s[0] == c then 0 else 1 + Find(s[1..], c)
  }

  /** The character reference at the beginning, if there is one. */
  function Reference(s: string): Option<nat>
  {
    if s == "" || s[0] != '&' || Find(s, ';') == |s| then None else EntityCode(s[1..Find(s, ';')])
  }

  lemma ReferenceSmall(s: string)
    ensures Reference(s).Some? ==> Reference(s).value < 0x1_0000 && Find(s, ';') > 0
  {}

  /** Text with character references. */
  function Decode(s: string): string
  {
    ReferenceSmall(s);
    if s == "" then ""
    else if Reference(s).Some? then Utf8(Reference(s).value) + Decode(s[Find(s, ';') + 1..])
    else [s[0]] + Decode(s[1..])
  }

  /** The attributes of a tag, each as a space, a name, an equals sign and a quoted value. */
  function ReadAttrs(s: string): seq<Attr>
  {
    var e := Find(s, '=');
    if e == 0 || s[0] != ' ' || |s| < e + 2 || s[e + 1] != '"' then []
    else
      var rest := s[e + 2..];
      var q := Find(rest, '"');
      if q == |rest| then [] else [Attr(s[1..e], rest[..q])] + ReadAttrs(rest[q + 1..])
  }

  function ValueOf(attrs: seq<Attr>, name: string): string
  {
    if attrs == [] then "" else if attrs[0].name == name then Decode(attrs[0].value) else ValueOf(attrs[1..], name)
  }

  /** A tag, without its brackets. */
  function ReadTag(s: string): Mark
  {
    if s == "" then Garbage
    else if s[0] == '/' then End(RoleOf(s[1..]))
    else
      var k := Find(s, ' ');
      var name, attrs := s[..k], ReadAttrs(s[k..]);
      if name == "br/" then LineBreak
      else if name == "img" then Picture(ValueOf(attrs, "src"), ValueOf(attrs, "alt"))
      else
        Begin(RoleOf(name),
              if name == "a" then ValueOf(attrs, "href")
              else if name == "abbr" then ValueOf(attrs, "title")
              else ValueOf(attrs, "class"))
  }

  function Read(s: string): seq<Mark>
  {
    ReferenceSmall(s);
    if s == "" then []
    else if s[0] == '<' then
      var k := Find(s, '>');
      if k == |s| then [Garbage] else [ReadTag(s[1..k])] + Read(s[k + 1..])
    else if Reference(s).Some? then Spell(Utf8(Reference(s).value)) + Read(s[Find(s, ';') + 1..])
    else [Say(s[0])] + Read(s[1..])
  }

  // ----- Reading piece by piece -----------------------------------------------------------

  lemma SpellConcat(a: string, b: string)
    ensures Spell(a + b) == Spell(a) + Spell(b)
  {}

  lemma {:induction false} FindIs(s: string, c: char, k: nat)
    requires k < |s| && s[k] == c && forall i :: 0 <= i < k ==> s[i] != c
    ensures Find(s, c) == k
  {}

  lemma FindNone(s: string, c: char)
    requires forall i :: 0 <= i < |s| ==> s[i] != c
    ensures Find(s, c) == |s|
  {}

  /** No tag and no character reference begins in the text and ends outside. */
  ghost predicate Closed(s: string)
  {
    && (forall rest {:trigger Read(s + rest)} :: Read(s + rest) == Read(s) + Read(rest))
    && (forall rest {:trigger Decode(s + rest)} :: Decode(s + rest) == Decode(s) + Decode(rest))
  }

  /** The text is closed and says this. */
  ghost predicate Says(s: string, said: string)
  {
    Closed(s) && Read(s) == Spell(said) && Decode(s) == said
  }

  lemma SaysNothing()
    ensures Says("", "")
  {
    forall rest: string
      ensures Read("" + rest) == Read("") + Read(rest) && Decode("" + rest) == Decode("") + Decode(rest)
    {
      assert "" + rest == rest;
    }
  }

  lemma SaysConcat(a: string, b: string, x: string, y: string)
    requires Says(a, x) && Says(b, y)
    ensures Says(a + b, x + y)
  {
    hide Read, Decode, Spell;
    assert a + "" == a && b + "" == b;
    forall rest
      ensures Read(a + b + rest) == Read(a + b) + Read(rest) && Decode(a + b + rest) == Decode(a + b) + Decode(rest)
    {
      assert a + b + rest == a + (b + rest);
      assert Read(a + (b + rest)) == Read(a) + Read(b + rest) && Decode(a + (b + rest)) == Decode(a) + Decode(b + rest);
    }
    SpellConcat(x, y);
  }

  lemma CharReads(c: char, rest: string)
    requires c != '<' && c != '&'
    ensures Read([c] + rest) == [Say(c)] + Read(rest) && Decode([c] + rest) == [c] + Decode(rest)
  {
    hide ReadTag, EntityCode, Utf8, Spell, Find;
    var s := [c] + rest;
    assert s[0] == c && s[1..] == rest;
    assert Reference(s).None?;
  }

  /** A character that means itself. */
  lemma SaysChar(c: char)
    requires c != '<' && c != '&'
    ensures Says([c], [c])
  {
    hide Read, Decode;
    NothingReads();
    CharReads(c, "");
    assert [c] + "" == [c];
    forall rest
      ensures Read([c] + rest) == Read([c]) + Read(rest) && Decode([c] + rest) == Decode([c]) + Decode(rest)
    {
      CharReads(c, rest);
    }
  }

  lemma ReferenceFound(name: string, code: nat, rest: string)
    requires EntityCode(name) == Some(code) && forall i :: 0 <= i < |name| ==> name[i] != ';'
    ensures var s := "&" + name + ";" + rest;
            Reference(s) == Some(code) && code < 0x1_0000 && s[Find(s, ';') + 1..] == rest
  {
    hide EntityCode;
    var s, k := "&" + name + ";" + rest, |name| + 1;
    FindIs(s, ';', k);
    assert s[1..k] == name && s[k + 1..] == rest;
    ReferenceSmall(s);
  }

  lemma ReferenceReads(name: string, code: nat, rest: string)
    requires EntityCode(name) == Some(code) && forall i :: 0 <= i < |name| ==> name[i] != ';'
    ensures code < 0x1_0000 && Read("&" + name + ";" + rest) == Spell(Utf8(code)) + Read(rest)
    ensures Decode("&" + name + ";" + rest) == Utf8(code) + Decode(rest)
  {
    hide EntityCode, Utf8, Spell, Reference, ReadTag;
    ReferenceFound(name, code, rest);
  }

  /** A character reference. */
  lemma SaysReference(name: string, code: nat)
    requires EntityCode(name) == Some(code) && forall i :: 0 <= i < |name| ==> name[i] != ';'
    ensures code < 0x1_0000 && Says("&" + name + ";", Utf8(code))
  {
    hide EntityCode, Utf8, Spell, Read, Decode;
    var s := "&" + name + ";";
    ReferenceReads(name, code, "");
    NothingReads();
    assert s + "" == s;
    forall rest
      ensures Read(s + rest) == Read(s) + Read(rest) && Decode(s + rest) == Decode(s) + Decode(rest)
    {
      ReferenceReads(name, code, rest);
    }
  }

  lemma NothingReads()
    ensures Read("") == [] && Decode("") == ""
  {}

  /** Text without brackets, quotes and ampersands. */
  predicate PlainText(s: string)
  {
    TagFree(s) && forall i :: 0 <= i < |s| ==> s[i] != '&'
  }

  lemma {:induction false} PlainTextSays(s: string)
    requires PlainText(s)
    ensures Says(s, s)
  {
    if s == "" {
      SaysNothing();
    } else {
      SaysChar(s[0]);
      PlainTextSays(s[1..]);
      SaysConcat([s[0]], s[1..], [s[0]], s[1..]);
      assert s == [s[0]] + s[1..];
    }
  }

  /** The four references that escaping uses. */
  lemma AsciiReferences()
    ensures EntityCode("lt") == Some(0x3C) && Utf8(0x3C) == "<" && EntityCode("gt") == Some(0x3E) && Utf8(0x3E) == ">"
    ensures EntityCode("amp") == Some(0x26) && Utf8(0x26) == "&"
    ensures EntityCode("quot") == Some(0x22) && Utf8(0x22) == "\""
  {}

  lemma EscapedCharSays(c: char)
    ensures Says(HtmlChar(c), [c])
  {
    hide EntityCode, Utf8, Says;
    AsciiReferences();
    match c
    case '<' =>
      SaysReference("lt", 0x3C);
      assert "&" + "lt" + ";" == "&lt;";
    case '>' =>
      SaysReference("gt", 0x3E);
      assert "&" + "gt" + ";" == "&gt;";
    case '&' =>
      SaysReference("amp", 0x26);
      assert "&" + "amp" + ";" == "&amp;";
    case '"' =>
      SaysReference("quot", 0x22);
      assert "&" + "quot" + ";" == "&quot;";
    case _ => SaysChar(c);
  }

  /** Whatever is escaped reads as it was. */
  lemma {:induction false} EscapedSays(s: string)
    ensures Says(HtmlEscape(s), s)
  {
    if s == "" {
      SaysNothing();
    } else {
      EscapedCharSays(s[0]);
      EscapedSays(s[1..]);
      SaysConcat(HtmlChar(s[0]), HtmlEscape(s[1..]), [s[0]], s[1..]);
      assert s == [s[0]] + s[1..];
    }
  }

  // ----- Reading tokens ---------------------------------------------------------------------

  ghost predicate ReadableTok(t: Tok)
  {
    if t.Text? then Closed(t.s) else CleanTok(t)
  }

  ghost predicate Readable(toks: seq<Tok>)
  {
    forall i :: 0 <= i < |toks| ==> ReadableTok(toks[i])
  }

  function ReadToks(toks: seq<Tok>): seq<Mark>
  {
    if toks == [] then []
    else (if toks[0].Text? then Read(toks[0].s) else [ReadTag(Inner(toks[0]))]) + ReadToks(toks[1..])
  }

  lemma {:induction false} ReadToksConcat(a: seq<Tok>, b: seq<Tok>)
    ensures ReadToks(a + b) == ReadToks(a) + ReadToks(b)
  {
    hide Read, ReadTag, Html.Inner;
    if a == [] {
      assert a + b == b;
    } else {
      assert (a + b)[1..] == a[1..] + b;
      ReadToksConcat(a[1..], b);
    }
  }

  lemma InnerHasNoBrackets(t: Tok)
    requires CleanTok(t) && !t.Text?
    ensures forall i :: 0 <= i < |Inner(t)| ==> Inner(t)[i] != '>'
  {
    if !t.Close? {
      AttrsClean(t.attrs);
    }
  }

  lemma TagInText(inner: string, rest: string)
    requires forall i :: 0 <= i < |inner| ==> inner[i] != '>'
    ensures Read("<" + inner + ">" + rest) == [ReadTag(inner)] + Read(rest)
  {
    hide ReadTag, EntityCode, Utf8, Spell, Reference;
    var s := "<" + inner + ">" + rest;
    FindIs(s, '>', |inner| + 1);
    assert s[1..|inner| + 1] == inner && s[|inner| + 2..] == rest;
  }

  lemma ReadOne(t: Tok, rest: string)
    requires ReadableTok(t)
    ensures Read(TokString(t) + rest) == ReadToks([t]) + Read(rest)
  {
    hide Read, Decode, ReadTag, Html.Inner;
    assert [t][1..] == [] && ReadToks([]) == [];
    if !t.Text? {
      InnerHasNoBrackets(t);
      TagInText(Html.Inner(t), rest);
    }
  }

  /** The characters of readable tokens read as the tokens do, one by one. */
  lemma {:induction false} ReadSerialized(toks: seq<Tok>)
    requires Readable(toks)
    ensures Read(Serialize(toks)) == ReadToks(toks)
  {
    hide Read, ReadTag, TokString, ReadableTok, Inner;
    NothingReads();
    if toks != [] {
      ReadSerialized(toks[1..]);
      ReadOne(toks[0], Serialize(toks[1..]));
      assert [toks[0]][1..] == [];
      assert ReadToks([toks[0]]) + ReadToks(toks[1..]) == ReadToks(toks);
    }
  }

  // ----- Tags -------------------------------------------------------------------------------

  lemma NoAttrs(s: string)
    requires forall i :: 0 <= i < |s| ==> s[i] != '='
    ensures ReadAttrs(s) == []
  {
    FindNone(s, '=');
  }

  /** The first of some attributes. */
  lemma AttrReads(a: Attr, rest: string)
    requires AttrOk(a)
    ensures ReadAttrs(" " + a.name + "=\"" + a.value + "\"" + rest) == [a] + ReadAttrs(rest)
  {
    hide Find, Decode;
    var s, e := " " + a.name + "=\"" + a.value + "\"" + rest, |a.name| + 1;
    var tail := a.value + "\"" + rest;
    assert s == (" " + a.name + "=\"") + tail;
    assert s[e] == '=' && s[e + 1] == '"' && s[1..e] == a.name;
    assert s[e + 2..] == tail;
    FindIs(s, '=', e);
    FindIs(tail, '"', |a.value|);
    assert tail[..|a.value|] == a.value && tail[|a.value| + 1..] == rest;
  }

  function AttrString(a: Attr): string
  {
    " " + a.name + "=\"" + a.value + "\""
  }

  lemma AttrsAre(a: Attr, b: Attr)
    ensures Attrs([a]) == AttrString(a) && Attrs([a, b]) == AttrString(a) + AttrString(b)
  {
    assert DropLast([a, b]) == [a] && DropLast([a]) == [];
    assert Attrs([a, b]) == Attrs([a]) + " " + b.name + "=\"" + b.value + "\"";
    assert Attrs([a]) == "" + " " + a.name + "=\"" + a.value + "\"";
  }

  lemma OneAttrReads(a: Attr)
    requires AttrOk(a)
    ensures ReadAttrs(Attrs([a])) == [a] && Attrs([a])[0] == ' '
  {
    AttrsAre(a, a);
    hide ReadAttrs, Attrs;
    AttrReads(a, "");
    NoAttrs("");
    assert AttrString(a) + "" == AttrString(a) && [a] + [] == [a];
  }

  lemma TwoAttrsRead(a: Attr, b: Attr, rest: string)
    requires AttrOk(a) && AttrOk(b)
    ensures ReadAttrs(Attrs([a, b]) + rest) == [a, b] + ReadAttrs(rest) && Attrs([a, b])[0] == ' '
  {
    AttrsAre(a, b);
    hide ReadAttrs, Attrs;
    AttrReads(b, rest);
    AttrReads(a, AttrString(b) + rest);
    assert AttrString(a) + AttrString(b) + rest == AttrString(a) + (AttrString(b) + rest);
    assert [a] + ([b] + ReadAttrs(rest)) == [a, b] + ReadAttrs(rest);
  }

  lemma CloseReads(name: string)
    requires NameOk(name)
    ensures ReadTag(Inner(Close(name))) == End(RoleOf(name))
  {
    assert ("/" + name)[1..] == name;
  }

  /** What is noted of a tag. */
  function NoteOf(name: string, attrs: seq<Attr>): string
  {
    if name == "a" then ValueOf(attrs, "href")
    else if name == "abbr" then ValueOf(attrs, "title")
    else ValueOf(attrs, "class")
  }

  lemma SplitTag(name: string, attrs: string)
    requires NameOk(name) && name != "img" && (attrs != "" ==> attrs[0] == ' ')
    ensures ReadTag(name + attrs) == Begin(RoleOf(name), NoteOf(name, ReadAttrs(attrs)))
  {
    hide RoleOf, ReadAttrs, ValueOf;
    var s := name + attrs;
    assert s[0] == name[0];
    if attrs == "" {
      assert s == name;
      FindNone(s, ' ');
    } else {
      assert s[|name|] == ' ';
      FindIs(s, ' ', |name|);
    }
    assert s[..|name|] == name && s[|name|..] == attrs;
    assert !IsAlnum("br/"[2]);
  }

  lemma OpenReads(name: string)
    requires NameOk(name) && name != "img"
    ensures ReadTag(Inner(Open(name, []))) == Begin(RoleOf(name), "")
  {
    hide RoleOf, ReadTag;
    SplitTag(name, "");
    NoAttrs("");
    assert name + "" == name;
  }

  lemma OpenWithReads(name: string, a: Attr)
    requires NameOk(name) && name != "img" && AttrOk(a)
    ensures ReadTag(Inner(Open(name, [a]))) == Begin(RoleOf(name), NoteOf(name, [a]))
  {
    hide RoleOf, ReadTag, ReadAttrs, Attrs, NoteOf;
    OneAttrReads(a);
    SplitTag(name, Attrs([a]));
  }

  lemma ImageReads(src: string, alt: string)
    requires TagFree(src) && TagFree(alt)
    ensures ReadTag(Inner(Void("img", [Attr("src", src), Attr("alt", alt)]))) == Picture(Decode(src), Decode(alt))
  {
    hide RoleOf, ReadAttrs, Attrs, Decode;
    var a, b := Attr("src", src), Attr("alt", alt);
    var rest := Attrs([a, b]) + " /";
    var s := "img" + rest;
    assert AttrOk(a) && AttrOk(b);
    TwoAttrsRead(a, b, " /");
    NoAttrs(" /");
    assert Inner(Void("img", [a, b])) == s;
    assert s[3] == ' ';
    FindIs(s, ' ', 3);
    assert s[..3] == "img" && s[3..] == rest;
    assert [a, b] + [] == [a, b] && [a, b][1..] == [b];
    assert ValueOf([a, b], "src") == Decode(src);
    assert ValueOf([a, b], "alt") == ValueOf([b], "alt");
    assert ValueOf([b], "alt") == Decode(alt);
  }

  lemma BreakReads()
    ensures ReadTag(Inner(Void("br", []))) == LineBreak
  {
    assert Inner(Void("br", [])) == "br/";
    FindNone("br/", ' ');
  }
}
