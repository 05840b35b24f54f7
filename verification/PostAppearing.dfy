/**
 Files that appear.  A file that was missing when a post was built is not recorded, so
 must_refresh does not notice when it is written, and the post keeps the error text
 it shows instead of a comment or a listing.  Whether the post is still right is up
 to the new files: they must say what the error texts say.
 */
module PostAppearing {
  import opened Basics
  import opened Escape
  import opened Html
  import opened Posts
  import opened Tags
  import opened PostBuild
  import opened PostCache
  import opened Fmt3

  /** What was found still says the same. */
  predicate Kept(a: Files, b: Files, asked: seq<string>)
  {
    forall p :: p in asked && p in a ==> ReadFile(b, p) == ReadFile(a, p)
  }

  /** A text that appears for a comment is the error text. */
  predicate SilentComment(site: Site, id: nat, a: Files, b: Files, commid: nat)
  {
    var path := TextPath(site, id, commid);
    Moderated(site, id, a, commid) && path !in a && path in b ==> b[path].content == NO_TEXT
  }

  predicate Moderated(site: Site, id: nat, files: Files, commid: nat)
  {
    var meta := Parsed(files, MetaPath(site, id, commid), site.parseComment);
    meta.Some? && meta.value.moderated
  }

  predicate SilentComments(site: Site, id: nat, a: Files, b: Files, ids: seq<nat>)
  {
    forall i :: 0 <= i < |ids| ==> SilentComment(site, id, a, b, ids[i])
  }

  /** A file that appears for a listing looks like the error text. */
  predicate SilentListing(env: Env, b: Files, fname: string)
  {
    var path := ListingPath(env, fname);
    path !in env.files && path in b ==> HtmlEscape(b[path].content) == ListingText(env, fname)
  }

  ghost predicate SilentListings(env: Env, b: Files, asked: seq<string>)
  {
    forall fname {:trigger Asked(env, fname, asked)} :: Asked(env, fname, asked) ==> SilentListing(env, b, fname)
  }

  // ----- Comments -----------------------------------------------------------------------------

  lemma KeptPrefix(a: Files, b: Files, some: seq<string>, all: seq<string>)
    requires some <= all && Kept(a, b, all)
    ensures Kept(a, b, some)
  {
    assert forall p :: p in some ==> p in all;
  }

  /** One more comment. */
  lemma AppearingComment(site: Site, id: nat, a: Files, b: Files, was: Comments, now: Comments, commid: nat)
    requires AddComment(site, id, a, was, commid).Some?
    requires Kept(a, b, AddComment(site, id, a, was, commid).value.asked)
    requires now.asked == was.asked && |now.list| == |was.list|
    ensures var x, y := AddComment(site, id, a, was, commid), AddComment(site, id, b, now, commid);
            && y.Some? && y.value.asked == x.value.asked && |y.value.list| == |x.value.list|
            && (y.value.list == x.value.list <==> now.list == was.list && SilentComment(site, id, a, b, commid))
  {
    var x := AddComment(site, id, a, was, commid).value;
    var meta := Parsed(a, MetaPath(site, id, commid), site.parseComment).value;
    assert x.asked[|was.asked|] == MetaPath(site, id, commid) && MetaPath(site, id, commid) in x.asked;
    var y := AddComment(site, id, b, now, commid).value;
    if meta.moderated {
      assert x.asked[|was.asked| + 1] == TextPath(site, id, commid) && TextPath(site, id, commid) in x.asked;
      assert x.list[..|was.list|] == was.list && y.list[..|was.list|] == now.list;
      assert x.list[|was.list|] == CommentOf(site, a, id, commid, meta);
      assert y.list[|was.list|] == CommentOf(site, b, id, commid, meta);
    }
  }

  /** The comments are found again, and they are the same exactly if the new texts
      are silent. */
  lemma {:induction false} AppearingComments(site: Site, id: nat, a: Files, b: Files, ids: seq<nat>)
    requires AddComments(site, id, a, ids).Some? && Kept(a, b, AddComments(site, id, a, ids).value.asked)
    ensures AddComments(site, id, b, ids).Some?
    ensures AddComments(site, id, b, ids).value.asked == AddComments(site, id, a, ids).value.asked
    ensures |AddComments(site, id, b, ids).value.list| == |AddComments(site, id, a, ids).value.list|
    ensures AddComments(site, id, b, ids).value.list == AddComments(site, id, a, ids).value.list
       <==> SilentComments(site, id, a, b, ids)
  {
    if ids != [] {
      var commid, front := Last(ids), DropLast(ids);
      var was := AddComments(site, id, a, front).value;
      AskedGrowsComment(site, id, a, was, commid);
      KeptPrefix(a, b, was.asked, AddComments(site, id, a, ids).value.asked);
      AppearingComments(site, id, a, b, front);
      hide AddComment, SilentComments, SilentComment, Kept;
      AppearingComment(site, id, a, b, was, AddComments(site, id, b, front).value, commid);
      SilentSnoc(site, id, a, b, ids);
    }
  }

  lemma AskedGrowsComment(site: Site, id: nat, files: Files, before: Comments, commid: nat)
    requires AddComment(site, id, files, before, commid).Some?
    ensures before.asked <= AddComment(site, id, files, before, commid).value.asked
  {}

  lemma SilentSnoc(site: Site, id: nat, a: Files, b: Files, ids: seq<nat>)
    requires ids != []
    ensures SilentComments(site, id, a, b, ids)
       <==> SilentComments(site, id, a, b, DropLast(ids)) && SilentComment(site, id, a, b, Last(ids))
  {
    assert forall i :: 0 <= i < |ids| - 1 ==> DropLast(ids)[i] == ids[i];
    assert Last(ids) == ids[|ids| - 1];
  }

  // ----- Listings ---------------------------------------------------------------------------------

  lemma SilentIffSame(env: Env, b: Files, asked: seq<string>)
    requires Kept(env.files, b, asked)
    ensures SilentListings(env, b, asked) <==> SameListings(env, b, asked)
  {
    forall fname | Asked(env, fname, asked)
      ensures SilentListing(env, b, fname) <==> SameListing(env, b, fname)
    {
      assert ListingPath(env, fname) in asked;
      assert ListingPath(env.(files := b), fname) == ListingPath(env, fname);
    }
  }

  // ----- Listings that are used directly ------------------------------------------------------------

  predicate NoListing(t: Thing)
    decreases t
  {
    t.Command? ==> FindCmd(t.name) != Some(CListing) && NoListingArg(t.opt) && NoListingArg(t.arg)
  }

  predicate NoListingArg(a: Arg)
    decreases a
  {
    a.Braced? ==> NoListingParagraph(a.p)
  }

  predicate NoListingParagraph(p: Paragraph)
    decreases p
  {
    match p
    case Start(t) => NoListing(t)
    case Append(q, t) => NoListingParagraph(q) && NoListing(t)
  }

  /** A listing whose file name holds neither a listing nor a tag. */
  predicate DirectListing(env: Env, t: Thing, st: State)
  {
    && t.Command? && FindCmd(t.name) == Some(CListing) && NoListingArg(t.opt) && NoListingArg(t.arg)
    && ArgOut(env, t.opt, st).Ok?
    && ArgOut(env, t.arg, ArgOut(env, t.opt, st).value.st).Ok?
    && TagFree(Serialize(ArgOut(env, t.arg, ArgOut(env, t.opt, st).value.st).value.toks))
  }

  /** Listings stand in paragraphs and not in arguments. */
  predicate DirectParagraph(env: Env, p: Paragraph, st: State)
  {
    match p
    case Start(t) => NoListing(t) || DirectListing(env, t, st)
    case Append(q, t) =>
      DirectParagraph(env, q, st) &&
      match ParagraphOut(env, q, st)
      case Panic(_) => false
      case Ok(a) => NoListing(t) || DirectListing(env, t, a.st)
  }

  predicate DirectParagraphs(env: Env, ps: Paragraphs, st: State)
  {
    match ps
    case Single(p) => DirectParagraph(env, p, st)
    case Next(qs, p) =>
      DirectParagraphs(env, qs, st) &&
      match ParagraphsOut(env, qs, st)
      case Panic(_) => false
      case Ok(a) => DirectParagraph(env, p, a.st)
  }

  predicate DirectListings(env: Env, doc: Document)
  {
    doc.Document? ==> DirectParagraphs(env, doc.ps, INITIAL)
  }

  /** Without listings the files do not matter. */
  lemma {:induction false} NoListingSame(env: Env, b: Files, t: Thing, st: State)
    requires NoListing(t) && ThingOut(env, t, st).Ok?
    ensures ThingOut(env.(files := b), t, st) == ThingOut(env, t, st)
    ensures ThingOut(env, t, st).value.st.asked == st.asked
    decreases t
  {
    if t.Command? {
      NoListingArgSame(env, b, t.opt, st);
      NoListingArgSame(env, b, t.arg, ArgOut(env, t.opt, st).value.st);
    }
  }

  lemma {:induction false} NoListingArgSame(env: Env, b: Files, a: Arg, st: State)
    requires NoListingArg(a) && ArgOut(env, a, st).Ok?
    ensures ArgOut(env.(files := b), a, st) == ArgOut(env, a, st)
    ensures ArgOut(env, a, st).value.st.asked == st.asked
    decreases a
  {
    if a.Braced? {
      NoListingParagraphSame(env, b, a.p, st);
    }
  }

  lemma {:induction false} NoListingParagraphSame(env: Env, b: Files, p: Paragraph, st: State)
    requires NoListingParagraph(p) && ParagraphOut(env, p, st).Ok?
    ensures ParagraphOut(env.(files := b), p, st) == ParagraphOut(env, p, st)
    ensures ParagraphOut(env, p, st).value.st.asked == st.asked
    decreases p
  {
    match p
    case Start(t) => NoListingSame(env, b, t, st);
    case Append(q, t) =>
      NoListingParagraphSame(env, b, q, st);
      NoListingSame(env, b, t, ParagraphOut(env, q, st).value.st);
  }

  // ----- Telling texts apart ------------------------------------------------------------------------

  lemma SuffixCancels(x: string, y: string, z: string)
    requires x + z == y + z
    ensures x == y
  {
    assert |x| == |y|;
    assert (x + z)[..|x|] == x && (y + z)[..|y|] == y;
  }

  /** A text without brackets after a tag can be told from what is before it. */
  lemma TextSplits(x: string, u: string, y: string, v: string, tag: string)
    requires tag != [] && Last(tag) == '>' && TagFree(u) && TagFree(v)
    requires x + tag + u == y + tag + v
    ensures x == y && u == v
  {
    var s := x + tag + u;
    assert s[|s| - |u| - 1] == '>' && s[|s| - |v| - 1] == '>';
    assert forall i :: 0 <= i < |u| ==> s[|s| - |u| + i] == u[i];
    assert forall i :: 0 <= i < |v| ==> s[|s| - |v| + i] == v[i];
    assert s[|s| - |u|..] == u && s[|s| - |v|..] == v;
    SuffixCancels(x + tag, y + tag, u);
    SuffixCancels(x, y, tag);
  }

  lemma PreTags()
    ensures Serialize([Close("p"), Open("pre", [])]) == "</p><pre>"
    ensures Serialize([Close("pre"), Open("p", [])]) == "</pre><p>"
  {
    TwoTags(Close("p"), Open("pre", []));
    TwoTags(Close("pre"), Open("p", []));
    hide Serialize;
    assert TokString(Open("pre", [])) == "<pre>" && TokString(Open("p", [])) == "<p>";
  }

  lemma PreformattedText(text: string)
    ensures Serialize(Preformatted(text)) == "</p><pre>" + text + "</pre><p>"
  {
    var front, back := [Close("p"), Open("pre", [])], [Close("pre"), Open("p", [])];
    PreTags();
    OneTag(Text(text));
    assert Preformatted(text) == front + [Text(text)] + back;
    hide Serialize;
    SerializeConcat(front + [Text(text)], back);
    SerializeConcat(front, [Text(text)]);
  }

  lemma OneTag(a: Tok)
    ensures Serialize([a]) == TokString(a)
  {
    assert [a][1..] == [] && Serialize([a]) == TokString(a) + "";
  }

  lemma TwoTags(a: Tok, b: Tok)
    ensures Serialize([a, b]) == TokString(a) + TokString(b)
  {
    assert [a, b][1..] == [b];
    OneTag(b);
  }

  lemma OneMoreAsked(env: Env, b: Files, asked: seq<string>, fname: string)
    requires SameListings(env, b, asked) && SameListing(env, b, fname)
    ensures SameListings(env, b, asked + [ListingPath(env, fname)])
  {
    forall other | Asked(env, other, asked + [ListingPath(env, fname)])
      ensures SameListing(env, b, other)
    {
      if !Asked(env, other, asked) {
        var dir := env.dataDir + "/posts/" + Decimal(env.postId) + "/";
        assert ListingPath(env, other) == dir + other && ListingPath(env, fname) == dir + fname;
        assert (dir + other)[|dir|..] == other && (dir + fname)[|dir|..] == fname;
      }
    }
  }

  // ----- The text of a post tells which listings changed ---------------------------------------------

  /** Whatever is before it, equal text means equal text before it and listings that
      show the same. */
  ghost predicate TellsListings(env: Env, b: Files, st: State, was: Out, now: Out)
  {
    forall x, y {:trigger x + Serialize(now.toks), y + Serialize(was.toks)} ::
      x + Serialize(now.toks) == y + Serialize(was.toks) ==>
        x == y && (SameListings(env, b, st.asked) ==> SameListings(env, b, was.st.asked))
  }

  lemma ThingSplits(env: Env, b: Files, t: Thing, st: State)
    requires TagFree(env.strerror) && ThingOut(env, t, st).Ok? && (NoListing(t) || DirectListing(env, t, st))
    ensures var was, now := ThingOut(env, t, st).value, ThingOut(env.(files := b), t, st);
            now.Ok? && now.value.st == was.st && TellsListings(env, b, st, was, now.value)
  {
    var was, now := ThingOut(env, t, st).value, ThingOut(env.(files := b), t, st);
    if NoListing(t) {
      NoListingSame(env, b, t, st);
      forall x, y | x + Serialize(now.value.toks) == y + Serialize(was.toks)
        ensures x == y
      {
        SuffixCancels(x, y, Serialize(was.toks));
      }
    } else {
      ListingSplits(env, b, t, st);
    }
  }

  lemma ListingSplits(env: Env, b: Files, t: Thing, st: State)
    requires TagFree(env.strerror) && ThingOut(env, t, st).Ok? && DirectListing(env, t, st)
    ensures var was, now := ThingOut(env, t, st).value, ThingOut(env.(files := b), t, st);
            now.Ok? && now.value.st == was.st && TellsListings(env, b, st, was, now.value)
  {
    hide FindCmd;
    var opt := ArgOut(env, t.opt, st).value;
    var arg := ArgOut(env, t.arg, opt.st).value;
    NoListingArgSame(env, b, t.opt, st);
    NoListingArgSame(env, b, t.arg, opt.st);
    var fname := Serialize(arg.toks);
    var was, now := ThingOut(env, t, st).value, ThingOut(env.(files := b), t, st).value;
    var u, v := ListingText(env.(files := b), fname), ListingText(env, fname);
    assert was.toks == Preformatted(v) && now.toks == Preformatted(u);
    PreformattedText(u);
    PreformattedText(v);
    ListingTextTagFree(env, fname);
    ListingTextTagFree(env.(files := b), fname);
    assert was.st.asked == st.asked + [ListingPath(env, fname)];
    forall x, y | x + Serialize(now.toks) == y + Serialize(was.toks)
      ensures x == y && (SameListings(env, b, st.asked) ==> SameListings(env, b, was.st.asked))
    {
      PairSplits(x, u, y, v);
      if SameListings(env, b, st.asked) {
        OneMoreAsked(env, b, st.asked, fname);
      }
    }
  }

  lemma PairSplits(x: string, u: string, y: string, v: string)
    requires TagFree(u) && TagFree(v)
    requires x + ("</p><pre>" + u + "</pre><p>") == y + ("</p><pre>" + v + "</pre><p>")
    ensures x == y && u == v
  {
    assert x + ("</p><pre>" + u + "</pre><p>") == (x + "</p><pre>" + u) + "</pre><p>";
    assert y + ("</p><pre>" + v + "</pre><p>") == (y + "</p><pre>" + v) + "</pre><p>";
    SuffixCancels(x + "</p><pre>" + u, y + "</p><pre>" + v, "</pre><p>");
    TextSplits(x, u, y, v, "</p><pre>");
  }

  lemma {:induction false} ParagraphSplits(env: Env, b: Files, p: Paragraph, st: State)
    requires TagFree(env.strerror) && ParagraphOut(env, p, st).Ok? && DirectParagraph(env, p, st)
    ensures var was, now := ParagraphOut(env, p, st).value, ParagraphOut(env.(files := b), p, st);
            now.Ok? && now.value.st == was.st && TellsListings(env, b, st, was, now.value)
  {
    hide ThingOut, DirectListing, NoListing;
    match p
    case Start(t) => ThingSplits(env, b, t, st);
    case Append(q, t) =>
      var env' := env.(files := b);
      ParagraphSplits(env, b, q, st);
      var q0, q1 := ParagraphOut(env, q, st).value, ParagraphOut(env', q, st).value;
      ThingSplits(env, b, t, q0.st);
      var t0, t1 := ThingOut(env, t, q0.st).value, ThingOut(env', t, q0.st).value;
      SplitsConcat(env, b, st, q0, q1, t0, t1);
  }

  lemma SplitsConcat(env: Env, b: Files, st: State, q0: Out, q1: Out, t0: Out, t1: Out)
    requires TellsListings(env, b, st, q0, q1) && TellsListings(env, b, q0.st, t0, t1)
    ensures TellsListings(env, b, st, Out(q0.toks + t0.toks, t0.st), Out(q1.toks + t1.toks, t1.st))
  {
    SerializeConcat(q0.toks, t0.toks);
    SerializeConcat(q1.toks, t1.toks);
    hide Serialize, SameListings;
    forall x, y | x + Serialize(q1.toks + t1.toks) == y + Serialize(q0.toks + t0.toks)
      ensures x == y && (SameListings(env, b, st.asked) ==> SameListings(env, b, t0.st.asked))
    {
      assert x + Serialize(q1.toks + t1.toks) == (x + Serialize(q1.toks)) + Serialize(t1.toks);
      assert y + Serialize(q0.toks + t0.toks) == (y + Serialize(q0.toks)) + Serialize(t0.toks);
    }
  }

  lemma WrapSplits(env: Env, b: Files, st: State, was: Out, now: Out)
    requires TellsListings(env, b, st, was, now)
    ensures TellsListings(env, b, st, Out(WrapParagraph(was.toks), was.st), Out(WrapParagraph(now.toks), now.st))
  {
    WrappedText(was.toks);
    WrappedText(now.toks);
    hide WrapParagraph, Serialize, SameListings;
    forall x, y | x + Serialize(WrapParagraph(now.toks)) == y + Serialize(WrapParagraph(was.toks))
      ensures x == y && (SameListings(env, b, st.asked) ==> SameListings(env, b, was.st.asked))
    {
      var u, v := Serialize(now.toks), Serialize(was.toks);
      assert x + ("<p>" + u + "</p>\n") == ((x + "<p>") + u) + "</p>\n";
      assert y + ("<p>" + v + "</p>\n") == ((y + "<p>") + v) + "</p>\n";
      SuffixCancels((x + "<p>") + u, (y + "<p>") + v, "</p>\n");
      assert (x + "<p>") + u == (y + "<p>") + v;
      SuffixCancels(x, y, "<p>");
    }
  }

  lemma WrappedText(toks: seq<Tok>)
    ensures Serialize(WrapParagraph(toks)) == "<p>" + Serialize(toks) + "</p>\n"
  {
    var front, back := [Open("p", [])], [Close("p"), Text("\n")];
    SerializeConcat(front + toks, back);
    SerializeConcat(front, toks);
    TwoTags(Close("p"), Text("\n"));
    OneTag(Open("p", []));
    hide Serialize;
    assert TokString(Open("p", [])) == "<p>" && TokString(Close("p")) == "</p>";
  }

  lemma {:induction false} ParagraphsSplit(env: Env, b: Files, ps: Paragraphs, st: State)
    requires TagFree(env.strerror) && ParagraphsOut(env, ps, st).Ok? && DirectParagraphs(env, ps, st)
    ensures var was, now := ParagraphsOut(env, ps, st).value, ParagraphsOut(env.(files := b), ps, st);
            now.Ok? && now.value.st == was.st && TellsListings(env, b, st, was, now.value)
  {
    hide ParagraphOut, DirectParagraph;
    var env' := env.(files := b);
    match ps
    case Single(p) =>
      ParagraphSplits(env, b, p, st);
      WrapSplits(env, b, st, ParagraphOut(env, p, st).value, ParagraphOut(env', p, st).value);
    case Next(qs, p) =>
      ParagraphsSplit(env, b, qs, st);
      var q0, q1 := ParagraphsOut(env, qs, st).value, ParagraphsOut(env', qs, st).value;
      ParagraphSplits(env, b, p, q0.st);
      var p0, p1 := ParagraphOut(env, p, q0.st).value, ParagraphOut(env', p, q0.st).value;
      WrapSplits(env, b, q0.st, p0, p1);
      SplitsConcat(env, b, st, q0, q1, Out(WrapParagraph(p0.toks), p0.st), Out(WrapParagraph(p1.toks), p1.st));
  }

  /** With listings used directly, the compiled text changes exactly if a listing does. */
  lemma BodyTellsListings(env: Env, b: Files, doc: Document)
    requires TagFree(env.strerror) && Compile(env, doc).Ok? && DirectListings(env, doc)
    ensures var was, now := Compile(env, doc).value, Compile(env.(files := b), doc);
            && now.Ok? && now.value.st == was.st
            && (Serialize(now.value.toks) == Serialize(was.toks) <==> SameListings(env, b, was.st.asked))
  {
    if doc.Document? {
      ParagraphsSplit(env, b, doc.ps, INITIAL);
      var was, now := Compile(env, doc).value, Compile(env.(files := b), doc).value;
      if SameListings(env, b, was.st.asked) {
        SameParagraphs(env, b, doc.ps, INITIAL);
      }
      assert "" + Serialize(now.toks) == Serialize(now.toks) && "" + Serialize(was.toks) == Serialize(was.toks);
      assert SameListings(env, b, INITIAL.asked);
    }
  }

  // ----- Posts ----------------------------------------------------------------------------------------

  /** The intermediate results of a build. */
  ghost predicate Parts(site: Site, id: nat, files: Files, meta: Meta, comments: Comments, doc: Document, out: Out)
  {
    && Parsed(files, LispPath(site, id), site.parseMeta) == Some(meta) && meta.fmt == 3
    && AddComments(site, id, files, meta.comments) == Some(comments)
    && Parsed(files, TexPath(site, id), site.parseTex) == Some(doc)
    && Compile(EnvOf(site, id, files), doc) == Ok(out)
  }

  lemma BuildOfParts(site: Site, id: nat, files: Files, meta: Meta, comments: Comments, doc: Document, out: Out)
    requires Parts(site, id, files, meta, comments, doc, out)
    ensures Build(site, id, files) == Some(Assemble(site, id, meta, comments, out))
  {
    hide Compile, AddComments, Assemble, Parsed;
  }

  lemma PartsOfBuild(site: Site, id: nat, files: Files)
    returns (meta: Meta, comments: Comments, doc: Document, out: Out)
    requires Build(site, id, files).Some?
    ensures Parts(site, id, files, meta, comments, doc, out)
  {
    hide Compile, AddComments, Assemble, Parsed;
    meta := Parsed(files, LispPath(site, id), site.parseMeta).value;
    comments := AddComments(site, id, files, meta.comments).value;
    doc := Parsed(files, TexPath(site, id), site.parseTex).value;
    out := Compile(EnvOf(site, id, files), doc).value;
  }

  /** The files that appeared say what the post shows already. */
  ghost predicate Silent(site: Site, id: nat, a: Files, b: Files, meta: Meta, out: Out)
  {
    SilentComments(site, id, a, b, meta.comments) && SilentListings(EnvOf(site, id, a), b, out.st.asked)
  }

  /** A build from the new files gets as far as the old one. */
  lemma PartsAgain(site: Site, id: nat, a: Files, b: Files, meta: Meta, comments: Comments, doc: Document, out: Out)
    returns (now: Comments)
    requires Parts(site, id, a, meta, comments, doc, out)
    requires Kept(a, b, comments.asked + [TexPath(site, id)] + out.st.asked)
    ensures AddComments(site, id, b, meta.comments) == Some(now)
    ensures |now.list| == |comments.list|
    ensures now.list == comments.list <==> SilentComments(site, id, a, b, meta.comments)
    ensures Kept(a, b, out.st.asked)
    ensures Compile(EnvOf(site, id, b), doc).Ok? ==>
              Parts(site, id, b, meta, now, doc, Compile(EnvOf(site, id, b), doc).value)
  {
    hide Compile, SilentComments;
    var all := comments.asked + [TexPath(site, id)] + out.st.asked;
    LispAskedFirst(site, id, a, meta.comments);
    assert LispPath(site, id) in all && TexPath(site, id) in all;
    assert comments.asked <= all;
    KeptPrefix(a, b, comments.asked, all);
    AppearingComments(site, id, a, b, meta.comments);
    now := AddComments(site, id, b, meta.comments).value;
    assert forall p :: p in out.st.asked ==> p in all;
  }

  lemma SameEnv(site: Site, id: nat, a: Files, b: Files)
    ensures EnvOf(site, id, b) == EnvOf(site, id, a).(files := b)
  {}

  /** If the new files are silent, the build from them is the same post. */
  lemma SilentBuildsSame(site: Site, id: nat, a: Files, b: Files, meta: Meta, comments: Comments,
                         doc: Document, out: Out)
    requires Parts(site, id, a, meta, comments, doc, out)
    requires Kept(a, b, comments.asked + [TexPath(site, id)] + out.st.asked)
    requires Silent(site, id, a, b, meta, out)
    ensures Build(site, id, b).Some? && Build(site, id, b).value.data == Build(site, id, a).value.data
  {
    var env := EnvOf(site, id, a);
    var now := PartsAgain(site, id, a, b, meta, comments, doc, out);
    SameEnv(site, id, a, b);
    SilentIffSame(env, b, out.st.asked);
    if doc.Document? {
      SameParagraphs(env, b, doc.ps, INITIAL);
    }
    assert Compile(EnvOf(site, id, b), doc) == Ok(out);
    hide Build, Compile;
    BuildOfParts(site, id, a, meta, comments, doc, out);
    BuildOfParts(site, id, b, meta, now, doc, out);
  }

  /** If listings are used directly, that is the only way for it to be the same. */
  lemma SameOnlyIfSilent(site: Site, id: nat, a: Files, b: Files, meta: Meta, comments: Comments,
                         doc: Document, out: Out)
    requires Parts(site, id, a, meta, comments, doc, out)
    requires Kept(a, b, comments.asked + [TexPath(site, id)] + out.st.asked)
    requires DirectListings(EnvOf(site, id, a), doc) && TagFree(site.strerror)
    ensures Build(site, id, b).Some?
    ensures Build(site, id, b).value.data == Build(site, id, a).value.data <==> Silent(site, id, a, b, meta, out)
  {
    var env := EnvOf(site, id, a);
    var now := PartsAgain(site, id, a, b, meta, comments, doc, out);
    SameEnv(site, id, a, b);
    SilentIffSame(env, b, out.st.asked);
    BodyTellsListings(env, b, doc);
    var out' := Compile(EnvOf(site, id, b), doc).value;
    hide Build, Compile, SilentListings, SilentComments, DirectListings, SameListings, Parts, Kept;
    BuildOfParts(site, id, a, meta, comments, doc, out);
    BuildOfParts(site, id, b, meta, now, doc, out');
  }

  /** However listings are used, the comments are the same only if their texts are silent. */
  lemma SameCommentsOnlyIfSilent(site: Site, id: nat, a: Files, b: Files, meta: Meta, comments: Comments,
                                 doc: Document, out: Out)
    requires Parts(site, id, a, meta, comments, doc, out)
    requires Kept(a, b, comments.asked + [TexPath(site, id)] + out.st.asked)
    requires Build(site, id, b).Some?
    ensures Build(site, id, b).value.data.comments == comments.list
       <==> SilentComments(site, id, a, b, meta.comments)
  {
    var now := PartsAgain(site, id, a, b, meta, comments, doc, out);
    var meta', now', doc', out' := PartsOfBuild(site, id, b);
    BuildOfParts(site, id, b, meta', now', doc', out');
    var all := comments.asked + [TexPath(site, id)] + out.st.asked;
    LispAskedFirst(site, id, a, meta.comments);
    assert LispPath(site, id) in all;
    hide Build, Compile, SilentComments;
  }

  lemma NotStaleKept(site: Site, post: Post, a: Files, b: Files)
    requires Coherent(site, post, a) && Later(a, b) && !Stale(post.files, b)
    ensures Kept(a, b, post.asked)
  {
    hide Build;
    RecordedPaths(a, post.asked);
    forall p | p in post.asked && p in a
      ensures ReadFile(b, p) == ReadFile(a, p)
    {
      assert p in post.files && !HasNewer(b, p, post.files[p]);
    }
  }

  /** The theorem: a coherent post that must_refresh leaves alone, although files
      have appeared, shows what a build from scratch would, if the new files are
      silent; and if its listings are used directly, only then. */
  lemma AppearingFiles(site: Site, post: Post, a: Files, b: Files)
    returns (meta: Meta, comments: Comments, doc: Document, out: Out)
    requires Coherent(site, post, a) && Later(a, b) && !Stale(post.files, b)
    ensures Parts(site, post.id, a, meta, comments, doc, out)
    ensures Silent(site, post.id, a, b, meta, out) ==>
              Build(site, post.id, b).Some? && DataOf(post) == Build(site, post.id, b).value.data
    ensures DirectListings(EnvOf(site, post.id, a), doc) && TagFree(site.strerror) ==>
              && Build(site, post.id, b).Some?
              && (DataOf(post) == Build(site, post.id, b).value.data <==> Silent(site, post.id, a, b, meta, out))
    ensures Build(site, post.id, b).Some? ==>
              (post.comments == Build(site, post.id, b).value.data.comments
               <==> SilentComments(site, post.id, a, b, meta.comments))
  {
    meta, comments, doc, out := PartsOfBuild(site, post.id, a);
    BuildOfParts(site, post.id, a, meta, comments, doc, out);
    NotStaleKept(site, post, a, b);
    hide Build, Parts, Silent, DirectListings, Kept, Stale, Later;
    assert post.asked == comments.asked + [TexPath(site, post.id)] + out.st.asked;
    if Silent(site, post.id, a, b, meta, out) {
      SilentBuildsSame(site, post.id, a, b, meta, comments, doc, out);
    }
    if DirectListings(EnvOf(site, post.id, a), doc) && TagFree(site.strerror) {
      SameOnlyIfSilent(site, post.id, a, b, meta, comments, doc, out);
    }
    if Build(site, post.id, b).Some? {
      SameCommentsOnlyIfSilent(site, post.id, a, b, meta, comments, doc, out);
    }
  }
}
