# blahgd: verified model

blahgd is a blog daemon written in C. This project models the four parts of it
whose correctness is hard to see from the code, and proves what they promise.
`dafny verify dfyconfig.toml` checks everything.

**Templates** (`template.y`, `parse.h`, `vars.c`, `render.c`, `pipeline.c`,
`mangle.c`, and `concat5` in `utils.c`). A page is a flat sequence of items,
rendered in one pass with a stack of booleans for `{ifXX()}…{else()}…{endif()}`
and a stack of variable scopes. `Template` defines that evaluation, `TemplateTree`
defines the meaning of a page as a syntax tree and proves that the two agree,
`TemplateNesting` says which pages are trees and how deep they are,
`TemplateOverruns` says which of them leave the array of the condition stack,
`TemplateIncludes` says when including templates terminates, `TemplateMeaning`
says what is printed, by innermost bindings, numbers and decoders, and `Render`
has the imperative code over `Vars` and `Parse`. Aborts are results, so the
agreement covers pages that abort as well. `Escape` and `Concat` hold the string
routines.

**Posts** (`post_fmt3.y`, `post_fmt3_cmds.c`, `listing.c`). `Fmt3` compiles parse
trees of post format 3 to HTML tokens, `Fmt3Parser` is the parser's actions on its
mutable state, and `MathMl` the math environments. `Html` says when a string of
characters is well-nested HTML. `Fmt3Discipline` says where in a post each
construct may stand, `Fmt3Nesting` proves that exactly the posts that keep to it
compile to well-nested HTML, `Fmt3Blocks` that all posts written by structure do,
and `Fmt3Counters` says what the parser's nesting counters count. `HtmlReader`
reads HTML from its characters alone, `Fmt3Meaning` says what posts mean without
looking at the compiler, and `Fmt3Reading` proves that this is what the reader
finds.

**The refresh cache** (`post.c`). A post is built from files whose names depend on
the contents of earlier files; each file that was read is recorded with its
revision, and the post is rebuilt only if a recorded file got newer. `PostBuild`
is the build from scratch, as a function of the files, with the proof that the
same answers lead to the same questions. `PostFiles` spells out which files these
are and what a post consists of. `PostCache` has the methods of `post.c` and the
proof that a refreshed post equals a build from scratch, even when nothing was
rebuilt. `PostAppearing` is about the gap in this: files that appear where none
was.

**The index** (`post_index.c`, `load_post`, `post_nv.c`, `sidebar.c`). `PostIndex`
has the three indices as heap objects that point at each other, with their
representation invariant. `PostListing` and `Pagination` specify what requests
list, `PostOrder` says which posts these are and in which order, `PostTeardown`
takes the indices apart with a record of what has been freed, `PostRuns` says what
runs come to by their operations alone, `PostStore` has these runs on the objects,
in which loads interleave with everything else, counts their references and says
what their requests show, and `TagCloud` computes the tag cloud. `PostExamples`
has runs that go wrong. `RbTree` and `Tags` are what they share: red-black trees
as sequences sorted by a three-way comparison, and tags compared without regard to
case.

Where the source asserts something, the model either proves that the assertion
holds or says when it fails. Where it does not do what it should, the model does
what the code does, and a theorem says when that shows:

- The assertion in `cond_if` (`parse.h:86`) admits one condition more than the
  stack holds. `TemplateOverruns.AssertionAdmitsOneLevelTooMany` says which pages
  come to write behind an array, their own or that of a template they include;
  `TemplateOverruns.ElevenConditions` and `TemplateOverruns.IncludedConditions` have
  such pages.
- `concat5` leaks its last argument when all its arguments are empty
  (`Concat.Consumed`, and `Concat.TwoEmptyStrings` for two of them).
- `\section`, `\listing` and most environments close the paragraph around them, so
  they only nest where a paragraph is the innermost element.
  `Fmt3Nesting.CompiledPostNests` says exactly which posts nest;
  `Fmt3Nesting.BreakInsideElementMismatches` has a family that does not.
- The counters of the parser count environments that are not printed
  (`Fmt3Counters.HiddenTableCounts`). `Fmt3Counters.CountersReturn` says exactly when
  they are back at zero nevertheless.
- The Twitter image of a post stays when it is removed from post.tex
  (`PostCache.PostRefresh`, `PostExamples.StaleImage`).
- A file that was missing when a post was built is not noticed when it appears
  (`PostCache.NewFileUnnoticed`). `PostAppearing.AppearingFiles` says when the post is
  right nevertheless.
- A listing that ends with a full page promises one more page, which is empty
  (`Pagination.FullLastPage`, `Pagination.OnePostTwoPages`).
- Two loads of the same id that overlap make the assertion in `load_post` fail
  (`PostExamples.OverlappingLoads`). `PostStore.Store.Run` says exactly in which runs,
  and `PostRuns.CollisionsOverlap` that it takes such an overlap.

## Model

| member | source | states |
|---|---|---|
| `Concat.Scan` | utils.c:71-106 | The first loop computes the number of sources that are not NULL, the length of their concatenation, the first and last of them, and a bitmap that marks exactly the last occurrence of every buffer. |
| `Concat.MarkLastUse` | utils.c:99-101 | The inner loop clears the bit of a source exactly if the same buffer is passed again later. |
| `Concat.Concat5` | utils.c:70-143 | For any mix of NULL, empty and aliased arguments the result is their in-order concatenation. A lone source is handed back untouched; otherwise the result is new and every distinct buffer has been freed, once and never before its last read, except that with an empty total the last argument is leaked. |
| `Concat.TwoEmptyStrings` | utils.c:110-116 | The leak happens: of two empty strings the first is freed and the second is not. |
| `Concat.CopyAndFree` | utils.c:119-137 | The copying loop appends every source, frees each buffer right after its last use, and leaves none of them allocated. |
| `Concat.FreeAllButLast` | utils.c:111-114 | The branch for an empty result frees everything before the last source and stops short of it. |
| `Concat.CountOne` | utils.c:108-109 | With exactly one source that is not NULL, handing it back is the concatenation. |
| `Concat.OnlyLastLives` | utils.c:111-117 | When nothing is copied, the only buffers left are the ones equal to the last argument. |
| `Escape.HtmlRoundTrip` | mangle.c:28-89 | Unescaping the escaped text gives the text back, for every string. |
| `Escape.HtmlEscapeInjective` | mangle.c:28-89 | Two texts with the same escaped form are equal. |
| `Escape.HtmlEscapeIsTagFree` | mangle.c:28-89 | The escaped text has no angle bracket and no double quote. |
| `Escape.HtmlAmpersandsStartEntities` | mangle.c:28-89 | Every ampersand of the escaped text begins one of the four entities. |
| `Escape.HtmlLength` | mangle.c:34-54 | The sizing pass computes exactly the length of the escaped text. |
| `Escape.MangleHtmlEscape` | mangle.c:28-89 | The two passes agree: the allocated array holds the escaped text and its terminator and nothing else, although strcpy drops a terminator after every character on the way. |
| `Escape.UrlRoundTrip` | pipeline.c:60-123 | Form-decoding (section 17.13.4.1 of HTML 4.01) gives back every NUL-free byte string. |
| `Escape.UrlEscapeAlphabet` | pipeline.c:60-123 | The output consists of unreserved characters (section 2.3 of RFC 3986), plus signs and percent triplets (section 2.1) only. |
| `Escape.UnreservedStays` | pipeline.c:60-123 | Text of unreserved characters is not changed. |
| `Escape.UrlLength` | pipeline.c:67-88 | The sizing pass computes exactly the length of the escaped text. |
| `Escape.UrlEscapeStr` | pipeline.c:60-123 | The two passes agree, so every write is within the buffer and the buffer is filled up to its terminator. |
| `Vars.Vars.constructor` | vars.c:42-47 | The variables start as one empty scope. |
| `Vars.Vars.ScopePush` | vars.c:57-64 | A new empty scope on top; the scopes below keep their contents. |
| `Vars.Vars.ScopePop` | vars.c:66-76 | The top scope goes and the others stay; popping the outermost scope leaves one empty scope. |
| `Vars.Vars.SetStr` | vars.c:78-94 | A binding in the top scope; nothing else changes. |
| `Vars.Vars.Merge` | vars.c:143-149 | The bindings are merged into the top scope and win over those of the same name. |
| `Vars.Vars.LookupVar` | vars.c:100-112 | Nothing exactly if no scope has the name, and otherwise what the innermost scope that has it binds it to. |
| `Vars.LookupInnermost` | vars.c:100-112 | A lookup finds the binding of the innermost scope with the name, and fails exactly if there is none. |
| `Vars.InnerHides` | vars.c:100-112 | A scope hides outer bindings of the names it binds and no others. |
| `Parse.ParserOutput.constructor` | render.c:40-50 | Every page starts with an empty condition stack. |
| `Parse.ParserOutput.CondValue` | parse.h:73-82 | True exactly if all open conditions hold. |
| `Parse.ParserOutput.CondIf` | parse.h:84-89 | Pushes the value. |
| `Parse.ParserOutput.CondElse` | parse.h:91-96 | Inverts the innermost condition, so several `else`s alternate. |
| `Parse.ParserOutput.CondEndif` | parse.h:98-103 | Drops the innermost condition. |
| `TemplateNesting.WellNestedIffTree` | template.y:352-394 | The pages whose conditions nest are exactly the flattened syntax trees. |
| `TemplateOverruns.AssertionAdmitsOneLevelTooMany` | parse.h:84-89 | The assertion in cond_if is off by one. Rendering a page with the assertion and the array as they are writes behind an array exactly if the page, or a template it comes to render, has more than COND_STACK_DEPTH conditions open at its deepest and does not abort before it comes to the first one that is too many. Otherwise the rendering is that of the evaluator without bounds, and the assertion never fails. |
| `TemplateOverruns.DeepPageOverruns` | parse.h:84-89 | For a page that does not abort, the depths of the page and of the templates it comes to render alone decide. |
| `TemplateOverruns.FittingPageStays` | parse.h:84-89 | If neither the page nor any template has more conditions open than there are slots, nothing is written behind an array, whatever the rendering aborts with. |
| `TemplateOverruns.ElevenConditions` | parse.h:84-89 | Of pages that consist of nested conditions, exactly those of eleven and more leave the array. |
| `TemplateOverruns.IncludedConditions` | parse.h:84-89 | A page that includes such a template writes behind that template's array, whatever comes after the include. |
| `TemplateOverruns.CheckedAgrees` | parse.h:84-89 | Until something is written behind an array, the evaluator with assertion and array is the one without. |
| `TemplateOverruns.PageOverrun` | parse.h:84-89 | The first write behind an array, in order of execution, happens in the page or in some template it comes to render. |
| `TemplateTree.PageRefines` | template.y:67-75 | The refinement theorem: for every tree, every environment, any number of `else`s and any includes without cycles, the one-pass evaluator with the boolean stack yields what the recursive evaluator that renders live branches only yields, including which pages abort. |
| `TemplateTree.RunForest` | template.y:187-245 | Running the items of a subtree adds its value to the output and leaves the condition stack as it was; under a false condition only the conditions are evaluated. |
| `TemplateTree.RunArms` | template.y:274-333 | The same for the arms between `if`, any number of `else`s, and `endif`. |
| `TemplateTree.TemplateRefines` | render.c:62-80 | An included template means the same flat and as a tree. |
| `TemplateTree.LoopRefines` | template.y:77-112 | So does a loop over a template. |
| `TemplateTree.RankedFlattened` | render.c:62-80 | Flattening keeps the include relation free of cycles. |
| `TemplateIncludes.RankedIffAcyclic` | render.c:62-80 | The ranks that the evaluators terminate by exist exactly if no chain of includes, by name or by loop, returns to a template. |
| `Render.PipestageAlloc` | pipeline.c:218-236 | The stage of that name, or the stage that does nothing if there is none. |
| `Render.RunStages` | template.y:219-220 | Folding the stages over the value from left to right. |
| `Render.Pipeline` | template.y:187-230 | What a pipeline prints: nothing in a dead branch or for an unknown variable, an abort for a value of the wrong type. |
| `Render.Function` | template.y:274-333 | Tests are evaluated and pushed in dead branches as well; `else` and `endif` change the stack; an unknown function aborts. |
| `Render.Variable` | template.y:232-245 | A variable is printed; any other name is an included template. |
| `Render.ForeachItems` | template.y:117-130 | A loop prints nothing in a dead branch or for an unknown variable. |
| `Render.BindItem` | template.y:90-107 | The bindings of one item go into a scope of their own. |
| `Render.ForeachLoop` | template.y:77-115 | The output is the in-order concatenation of the template rendered with each item's bindings, and the scopes are afterwards what they were before, so no item sees the bindings of another; without room for one more scope the loop aborts. |
| `Render.RenderTemplateFile` | render.c:62-80 | A template renders to what its items mean, with the scopes restored and the peak scope depth bounded by the longest chain of nested loops below it. |
| `Render.RenderPageText` | render.c:40-60 | The imperative renderer computes the specification function for the page, aborts included; it restores depth and contents of all scopes and stays within the chain bound. |
| `Render.ChainCoversItem` | template.y:352-394 | The bound of a page covers each of its items. |
| `Render.ScopesSuffice` | vars.c:57-64 | The assertion in vars_scope_push holds throughout a page whose loops nest no deeper, along includes, than there are scopes left. |
| `TemplateMeaning.VariablePrints` | template.y:232-245 | A variable prints what its innermost binding says: a string as it is, a number in digits that stand for it; anything else aborts. |
| `TemplateMeaning.LoopPrintsItems` | template.y:77-115 | A loop over a template that prints a name prints what the items bind it to, in order, whatever is bound outside. |
| `TemplateMeaning.LoopSeesOutside` | template.y:77-115 | A name the items leave alone is found outside the loop, each time. |
| `TemplateMeaning.ConditionsCompare` | template.y:247-299 | ifgt, iflt and ifeq choose between their branches by comparing the numbers their arguments stand for: numerals, variables by their innermost binding, and zero for unbound names. |
| `TemplateMeaning.IfsetFinds` | template.y:301-312 | ifset chooses the first branch exactly if some scope has the name. |
| `TemplateMeaning.EscapesDecode` | pipeline.c:125-167 | What the escape and urlescape stages print decodes, as HTML and as a form, to the string. |
| `TemplateMeaning.EscapesCompose` | template.y:219-220 | Two stages decode in the opposite order. |
| `TemplateMeaning.StagesInOrder` | template.y:219-220 | The last stage of a pipeline applies to what the others yield. |
| `TemplateMeaning.TimesPrint` | pipeline.c:169-236 | The four time stages print the time by their formats, the escaping stages abort on a number, and any other name prints the number. |
| `MathMl.ExprSound` | post_fmt3.y:255-283 | Every math expression compiles to balanced tags with clean text between them. |
| `MathMl.MathNests` | post_fmt3.y:217-217 | The text of a math environment is well-nested; `<` and `>` occur in tags only. |
| `MathMl.InOrderDetermines` | post_fmt3.y:259-283 | The output of an expression depends only on its operands and flat operators in order. |
| `MathMl.FlatPrecedenceInvisible` | post_fmt3.y:182-186 | Two parse trees with the same operands and flat operators in order give the same output, so the declared precedence of + - * / = < > ~ cannot be observed. |
| `MathMl.SuperscriptPrecedenceVisible` | post_fmt3.y:263-264 | Around `^` the grouping can be observed. |
| `Html.SerializedTagsMatch` | post_fmt3_cmds.c:120-204 | Finding and matching the tags among the characters of the output gives what matching the tokens gives. |
| `Html.MatchedTokensNest` | post_fmt3_cmds.c:120-204 | Tokens that match leave well-nested text. |
| `Fmt3Parser.ParserOutput.Begin` | post_fmt3_cmds.c:120-161 | Output and counters of `\begin`. |
| `Fmt3Parser.ParserOutput.End` | post_fmt3_cmds.c:163-204 | Output and counters of `\end`. |
| `Fmt3Parser.ParserOutput.Listing` | listing.c:32-49 | The escaped contents of the file, or the error text; the path counts as asked for either way. |
| `Fmt3Parser.ParserOutput.ProcessCmd` | post_fmt3_cmds.c:470-496 | The dispatch: an unknown command prints an error text, a wrong argument count aborts, anything else is what the table says. |
| `Fmt3Parser.ParserOutput.SpecialCmd` | post_fmt3.y:118-136 | The last title, time and image win; tags accumulate in reverse order. |
| `Fmt3Parser.ParserOutput.ParagraphAction` | post_fmt3.y:199-201 | The actions of a paragraph run from left to right, children first, and compute the specification function. An argument that holds nothing but a title, tag, date or image command is NULL, as if it had not been given. |
| `Fmt3Parser.ParserOutput.ParagraphsAction` | post_fmt3.y:195-197 | The same for the paragraphs of a post. |
| `Fmt3Parser.ParserOutput.Parse` | post_fmt3.y:190-193 | Parsing with the mutable parser state computes the pure compiler's output and final state; what these say is `Fmt3Reading.PostsReadAsMeant`. |
| `Fmt3Nesting.CompiledPostNests` | post_fmt3.y:190-230 | The nesting theorem: the text of a post is well-nested HTML if and only if the post is disciplined, that is, headings, listings, verbatim text, environments and cells stand where the innermost open element allows them, and everything that is opened is closed. |
| `Fmt3Nesting.ParagraphsMatch` | post_fmt3.y:195-197 | The tags of the paragraphs of a post take the open elements to where the discipline says, or mismatch where it finds something out of place; a quote may span paragraphs. |
| `Fmt3Nesting.ParagraphMatches` | post_fmt3.y:199-201 | So do the tags of one paragraph. |
| `Fmt3Nesting.ThingMatches` | post_fmt3.y:203-230 | So does one thing in a paragraph. |
| `Fmt3Nesting.EnvironMatches` | post_fmt3_cmds.c:120-204 | So do `\begin` and `\end`, with tables inside tables treated apart and unknown environments printed. |
| `Fmt3Nesting.CommandMatches` | post_fmt3_cmds.c:470-496 | So does every other command with its arguments, whether they are printed inside an element, in an attribute, as they are, or not at all. |
| `Fmt3Nesting.SimpleMatches` | post_fmt3.y:203-222 | So does everything that is not a command. |
| `Fmt3Discipline.ThingAbove` | post_fmt3_cmds.c:120-204 | Nothing inside an argument closes the element its command is printed in. |
| `Fmt3Nesting.BreakInsideElementMismatches` | post_fmt3_cmds.c:228-244 | A heading or a listing right inside the element of another command is never well-nested, such as a section in an emphasis. |
| `Fmt3Nesting.QuoteSpansParagraphs` | post_fmt3_cmds.c:144-147 | A quote that begins in one paragraph and ends in the next is disciplined. |
| `Fmt3Counters.CountersReturn` | post_fmt3_cmds.c:152-198 | At the end of a disciplined post the counters hold exactly the begins minus ends in arguments that are dropped or printed in attributes only; so both are back at zero if and only if begins and ends balance there. |
| `Fmt3Counters.ThingCounts` | post_fmt3_cmds.c:152-198 | Where the discipline holds, the counters move as the open tables and verbatim environments do, and by what is hidden. |
| `Fmt3Counters.CountersCount` | post_fmt3_cmds.c:152-198 | The counters always move by all the begins minus all the ends, printed or not, in place or not. |
| `Fmt3Counters.HiddenTableCounts` | post_fmt3_cmds.c:152-154 | A table that begins in an argument that is dropped leaves the counter at one, although the post nests. |
| `Fmt3Nesting.EmphasisInsideSectionIsDisciplined` | post_fmt3_cmds.c:96-100 | Emphasis inside a section is fine. |
| `Fmt3Blocks.WrittenPostsNest` | post_fmt3.y:190-230 | Every post that is written by structure compiles and is disciplined: blocks of text, headings, listings, lists of items, quotes of blocks, and tables of rows whose cells hold text and tables. So it is well-nested HTML if its text is clean. |
| `Fmt3Blocks.BlockFits` | post_fmt3_cmds.c:120-204 | A block leaves the open elements and the depth of tables as they were. |
| `Fmt3Blocks.TableFits` | post_fmt3_cmds.c:149-198 | So does a table, in a paragraph or in a table, to any depth. |
| `Fmt3Blocks.InlineFits` | post_fmt3_cmds.c:56-118 | So does inline text, anywhere. |
| `Fmt3Reading.PostsReadAsMeant` | post_fmt3.y:190-283 | The meaning theorem: a reader of HTML, character by character, finds in the compiled text of a post exactly what the post means: its text, and each piece as the heading, list, link, picture, formula and so on that it was written as. The title, date and image are the last ones given, and the tags are all of them. |
| `Fmt3Reading.BlockOutputs` | post_fmt3_cmds.c:120-244 | Headings, listings, lists, verbatim text, quotes and tables compile to what they mean. |
| `Fmt3Reading.InlineOutputs` | post_fmt3_cmds.c:56-363 | So do fonts, links, pictures, abbreviations, symbols, dropped commands, and the error texts for unknown commands and environments. |
| `Fmt3Reading.IncludedOutputs` | listing.c:32-49 | A listing reads as the contents of the file in the directory of the post, or as the error text. |
| `Fmt3Reading.LinkCmdMeans` | post_fmt3_cmds.c:56-77 | Each kind of link leads where it says and shows its caption, or else its target. |
| `Fmt3Reading.CutText` | post_fmt3_cmds.c:291-319 | A \post or \taglink link that does not fit its buffer is cut to its first 1023 bytes. |
| `Fmt3Reading.ArgumentsChecked` | post_fmt3_cmds.c:428-496 | A command aborts exactly if it is in the table and lacks an argument it needs, or has one, or an optional one, that it may not have. |
| `Fmt3Reading.LoneSpecialIsNone` | post_fmt3.y:223-229 | An argument that is a lone title, date, tag or image command counts as none. |
| `Fmt3Meaning.TextReads` | post_fmt3.y:62-116 | Words, dashes, quotes, special and escaped characters read as the text they stand for, also in an attribute. |
| `Fmt3Meaning.ExprMeans` | post_fmt3.y:259-283 | Formulas read as they are written, with numerators above denominators and bases below superscripts. |
| `HtmlReader.ReadSerialized` | post_fmt3_cmds.c:43-363 | Reading the characters of the output gives what reading its tags and texts one by one gives. |
| `HtmlReader.EscapedSays` | mangle.c:28-89 | Escaped text reads as the text, for every string. |
| `Posts.RecordedPaths` | post.c:84-101 | The paths recorded with a post are exactly those it asked for that exist, each with its revision. |
| `Posts.Post.GetCachedFile` | post.c:84-101 | A file that can be read is recorded with its revision; a failed read is not recorded. |
| `Posts.Post.constructor` | post.c:447-473 | A new post has one reference and no recorded files. |
| `PostBuild.BuildDependsOnAsked` | post.c:236-294 | If the files a build asked for answer as before, the build asks for the same files again and gives the same post, although which files it asks for depends on what it reads. |
| `PostBuild.SameParagraphs` | post_fmt3_cmds.c:43-54 | The part of that for the listings a post includes. |
| `PostBuild.SameComments` | post.c:174-234 | The part of that for the comments. |
| `PostFiles.PostsAreIsolated` | post.c:159-370 | What a post is built to depends only on the files below posts/, its id and a slash. |
| `PostFiles.DirsDisjoint` | post.c:304-309 | No path is below the directories of two posts. |
| `PostFiles.PathsDistinct` | post.c:164-183 | Within a post no two files share a path, whichever comments they belong to. |
| `PostFiles.PostConsistsOf` | post.c:174-370 | What the parts of a built post are: title, time, tags and text from post.lisp and post.tex, and the moderated comments of the list in order, each from its own meta.lisp and text.txt. |
| `PostFiles.PostBuilds` | post.c:296-370 | A post can be built exactly if post.lisp, post.tex and the meta.lisp of each comment can be read and parsed, the format is 3, and post.tex compiles. |
| `PostFiles.PreviewConsistsOf` | post.c:417-427 | A preview is titled PREVIEW and dated now unless post.tex says otherwise, and shows the text of post.tex. |
| `Basics.DecimalValue` | post.c:164-165 | A printed number consists of digits and stands for the number. |
| `PostCache.MustRefresh` | post.c:372-403 | Exactly previews, posts without recorded files and posts with a newer recorded file are refreshed. |
| `PostCache.PostAddComments` | post.c:174-234 | The comments are those of the list that are moderated, in order, and numcom is their number. |
| `PostCache.RefreshPublished` | post.c:337-370 | The metadata, tags and comments are those of the current files. |
| `PostCache.LoadFmt3` | post.c:236-294 | What post.tex overrides and what it adds to; what it does not mention stays. |
| `PostCache.LoadPostBody` | post.c:296-320 | Succeeds exactly if the format is 3 and post.tex can be read, parsed and compiled, and then it applies post.tex to the post; without a Twitter image in post.tex the previous one stays. |
| `PostCache.UnchangedAnswers` | post.c:372-403 | If no recorded revision is newer, everything that was asked for answers as before. |
| `PostCache.NotStaleIsCoherent` | post.c:372-412 | A post that is not refreshed is nevertheless what a build from the current files would give. |
| `PostCache.PostRefresh` | post.c:405-431 | After a successful refresh of a published post, with or without rebuilding, the post equals a build from scratch, which `PostFiles.PostConsistsOf` spells out, and the refresh succeeds exactly if that build does; its Twitter image is never cleared. A preview is always built again, on the tags it has. |
| `PostCache.GetPreview` | post_nv.c:168-173 | A preview, which is refreshed twice before it is shown, shows what a single refresh of an empty post gives. |
| `PostBuild.PreviewTwice` | post.c:417-427 | Refreshing a preview once more only moves its time on. |
| `PostCache.RunHistory` | post.c:405-431 | Over any number of file changes and refreshes, after every refresh the post equals a build from scratch for the files of that moment. Only the files at the moments of refresh need to be complete. |
| `PostCache.NewFileUnnoticed` | post.c:90-94 | A file that did not exist at the last build is not noticed when it appears. |
| `PostAppearing.AppearingComments` | post.c:174-234 | If what was found is still there, the same comments are found again, and they are the same exactly if every text that has appeared for a moderated comment is the error text shown for a missing one. |
| `PostAppearing.BodyTellsListings` | post_fmt3_cmds.c:43-54 | With listings that stand in paragraphs and have plain names, the compiled text stays the same exactly if every listing shows the same. |
| `PostAppearing.AppearingFiles` | post.c:372-412 | When files have appeared that a post was built without, the post that is left alone equals a build from scratch if the new files say what the error texts said; if listings are used directly, only then; and for its comments only then in any case. |
| `Tags.CaseCmpOrder` | post.c:57-70 | Comparing without regard to case is a total order, as the trees need. |
| `Tags.CaseCmpMeaning` | post.c:57-70 | Two tags compare equal exactly if they have the same length and at each place the same character, or the same letter in the other case. |
| `Tags.CaseCmpBefore` | post.c:57-70 | And one comes before the other exactly if it ends first or has, in lower case, the smaller character at the first difference. |
| `Tags.PostAddTags` | post.c:117-141 | The tag tree after adding a list, which stays a tree. |
| `Tags.AddTagsUnion` | post.c:117-141 | The tree holds one spelling of every tag that was added, and nothing else. |
| `Tags.TagsOfPost` | post.c:117-141 | The tree has every tag that was added up to case, and no two that differ only in case. |
| `Tags.AddTagsKeeps` | post.c:117-141 | The first spelling of a tag stays. |
| `Tags.AddTagsTwice` | post.c:117-141 | Adding the same tags again changes nothing. |
| `Tags.TreeFoldsDistinct` | post.c:57-70 | No two tags of a post differ only in case. |
| `RbTree.InsertKeepsSorted` | post_index.c:214-218 | Inserting a new key keeps a tree sorted. |
| `RbTree.LookupInserted` | post_index.c:249-262 | What is found after an insertion. |
| `PostIndex.TimeCmpOrder` | post_index.c:178-197 | The order by cached time and then id is total. |
| `PostIndex.NoTimeCollision` | post_index.c:421-422 | A post whose id is new never collides in the by-time tree. |
| `PostIndex.NoTagCollision` | post_index.c:371-371 | Nor in a subindex, since its tags are distinct under the order of the tag index. |
| `PostIndex.Index.constructor` | post_index.c:220-247 | The empty index satisfies the invariant. |
| `PostIndex.Index.InsertById` | post_index.c:414-422 | The global and the by-time index each gain one entry and stay in bijection. |
| `PostIndex.Index.GetSubIndex` | post_index.c:344-360 | The tag finds a subindex afterwards, whose name is the tag up to case; it is new only if the tag found none before, and exactly the tags that differ at most in case find the same one. |
| `PostIndex.Index.InsertTag` | post_index.c:343-373 | The post joins the listing of this tag, in any spelling, and of no other; the invariant is kept. |
| `PostIndex.Index.InsertPostTags` | post_index.c:333-376 | The post joins exactly the listings of its tags. |
| `PostIndex.Index.InsertPost` | post_index.c:378-449 | Fails exactly if the id is taken, and then leaves all indices and the reference count as they were. Otherwise the post is inserted by id, by time and under exactly its tags with one more reference. The whole representation invariant is kept. |
| `PostListing.SkipPosts` | post_index.c:307-312 | Skips that many listed posts, newest first; a negative skip skips all. |
| `PostListing.CollectPosts` | post_index.c:315-326 | Collects the listed posts that satisfy the predicate, up to the limit, with one reference for each slot filled. |
| `PostListing.ListPosts` | post_index.c:306-326 | Both loops are take(n, filter(wanted, drop(skip, filter(listed, posts)))): the skip counts listed posts before the predicate is applied. |
| `PostListing.IndexGetPosts` | post_index.c:285-331 | That, for the tree the request chooses in descending order, which `PostOrder.SelectionOrder` spells out; an unknown tag yields nothing, and every returned slot holds one new reference. |
| `Pagination.ListingDistinct` | post_index.c:178-197 | A listing shows no post twice. |
| `Pagination.PageIsSlice` | tag.c:85-86 | While page * n fits an int, a page without predicate is that slice of the listing. |
| `Pagination.ProductWraps` | tag.c:85-86 | The number of posts to skip is the product modulo 2^32, as a signed int. |
| `Pagination.PagesArePrefix` | tag.c:85-86 | The pages 0..k-1 of a request put together are the first k * n posts of the listing, while the product fits an int. |
| `Pagination.PagesPartitionListing` | index.c:61-65 | Every listed post is on exactly one page. |
| `Pagination.NoMorePosts` | tag.c:88-88 | A page shorter than n, which reports no more posts, is followed by empty pages only. |
| `Pagination.FullLastPage` | tag.c:88-88 | The converse fails: a page that reports more posts is followed by an empty page exactly if the listing ends with that page. |
| `Pagination.OnePostTwoPages` | tag.c:88-88 | That happens: with one post in the index and pages for one post, page 0 reports more posts and page 1 is empty. |
| `PostOrder.SelectionOrder` | post_index.c:178-197 | Whatever a request selects comes newest first: each post has a later cached time than the next, or the same time and a greater id. |
| `PostOrder.ListingOrder` | post_index.c:178-197 | So does a whole listing. |
| `PostOrder.PagesOrder` | tag.c:85-86 | Nothing on a page is older than what is on a later page. |
| `PostOrder.ListingShows` | post_index.c:285-331 | A listing shows exactly the listed posts that are indexed, and for a tag exactly those that bear it in some spelling. |
| `PostOrder.SelectionShows` | post_index.c:285-331 | Whatever a request gets is in its listing and satisfies its predicate, and is no more than it asked for. |
| `PostTeardown.ValidDrains` | post_index.c:495-564 | Every valid index can be taken apart: no entry is in two subindices or twice on a list. |
| `PostTeardown.FreeTagEntry` | post_index.c:516-533 | A tag entry leaves the list of its global entry, which has not been freed, and is freed. |
| `PostTeardown.FreeTagIndex` | post_index.c:538-551 | All tag entries and subindices are freed, and the lists of the global entries are empty afterwards. |
| `PostTeardown.FreeTimeIndex` | post_index.c:510-536 | All by-time entries are freed. |
| `PostTeardown.AllDrained` | post_index.c:501-503 | list_destroy finds every list empty. |
| `PostTeardown.FreeGlobalIndex` | post_index.c:495-508 | All global entries are freed and each indexed post loses one reference. |
| `PostTeardown.FreeAllPosts` | post_index.c:553-564 | From any valid index: everything it owns is freed, nothing twice and nothing used after it was freed, the trees are empty, and every indexed post has one reference less. |
| `PostStore.Store.IndexLookupPost` | post_index.c:265-282 | Finds the post of an id, if it is indexed, and takes a reference. |
| `PostStore.Store.GetRef` | post_index.c:275-275 | One more reference held, one more counted. |
| `PostStore.Store.PutRef` | post_nv.c:178-178 | One reference less; the post is destroyed exactly if it was the last. |
| `PostStore.Store.StartLoad` | post.c:433-473 | An indexed post is returned; otherwise a new one with one reference starts to be loaded. |
| `PostStore.Store.RefreshLoading` | post.c:475-476 | Succeeds exactly if the post can be built, and then it is coherent with the current files; otherwise the post is destroyed. |
| `PostStore.Store.InsertLoading` | post.c:478-481 | The assertion that the insertion succeeds fails exactly if the same id has been inserted since the lookup. |
| `PostStore.Store.FinishLoad` | post.c:475-481 | Without interruption the load succeeds exactly if the post can be built, and then the post is indexed and built from the current files. |
| `PostStore.Store.Refresh` | post.c:405-431 | A refresh on behalf of a holder changes no reference, and brings the post up to date with the current files. |
| `PostStore.Store.LoadOne` | post_nv.c:205-219 | One turn of load_posts shows the post as it is built from the current files if the post notices all changes, and releases one reference. |
| `PostStore.Store.LoadPost` | post.c:433-490 | Without interruption a post is found exactly if the id is indexed or the post can be built; its assertion holds, and a new post is built from the current files. |
| `PostStore.Store.List` | post_index.c:285-331 | Listing posts takes as many references as it returns. |
| `PostStore.Store.LoadPosts` | post_nv.c:187-223 | Every post passed in is refreshed and shown, in order, and its reference released; no indexed post is destroyed. If the posts in memory notice all changes, no refresh fails and every post is shown as it is built from the current files. |
| `PostStore.Store.GetPost` | post_nv.c:162-182 | The request finds a post exactly if the id is indexed or the post can be built, shows one indexed post with that id and leaves all references and counts as they were. What it shows equals a build from the current files, for a post loaded just now and for a cached one whose files changed only in ways their revisions show. |
| `PostStore.Store.ListPage` | post_nv.c:187-223 | The request shows exactly the selected posts, in order, each as it is built from the current files if the posts in memory notice all changes, and leaves all references and counts as they were. |
| `PostStore.Store.IdTaken` | post_index.c:165-176 | An id is in the global tree exactly if an indexed post bears it. |
| `PostStore.Store.StepChange` | post.c:405-431 | Posts in memory stay current when contents get new revisions, no file appears that a build of a live post asks for in vain, and these posts can be built again. |
| `PostStore.Store.Step` | post.c:433-490 | Reference conservation, the index invariant and the indexed posts survive every step. The index, the loads in progress and the one possible failed insertion are what the operation alone makes of them. While files change by the rules no refresh fails, and whatever a step shows is what a build from the files of that moment gives. |
| `PostStore.Store.Run` | post.c:433-490 | Over every run of lookups, interleaved loads, listings, refreshes, releases, requests and file changes: each post in memory has exactly one reference per holder plus one if indexed, and no indexed post is destroyed. An insertion fails exactly if loads collide, which the operations decide. If all file changes of the run keep to the rules, no refresh fails and every request shows its posts as a build from the files of that moment gives them. |
| `PostStore.Serve` | post.c:433-490 | The same from the start of the daemon, in terms of the operations only: without repeated loads of an id no insertion fails; if what builds keeps building and is complete, no refresh fails, everything shown is right, and an insertion fails exactly if loads collide. |
| `PostRuns.CollisionsOverlap` | post.c:441-479 | Loads collide only if loads of one id overlap. |
| `PostRuns.ApartNeverOverlaps` | post.c:441-479 | Loads do not overlap if no id is loaded again after a load of it was started. |
| `PostRuns.OrderlyIsGentle` | post.c:372-412 | File changes that are orderly for all posts keep to the rules for those in memory, whichever these are. |
| `PostExamples.OverlappingLoads` | post.c:441-479 | Two loads of one post, both of which look it up before either inserts it, end in the failed assertion whenever the post can be built. |
| `PostExamples.StaleImage` | post.c:236-294 | The image command is removed from post.tex and the post refreshed: the image is still there, though a build from scratch has none. |
| `PostStore.Store.Shutdown` | post_index.c:553-564 | Afterwards exactly the posts that somebody still holds are in memory, each counted exactly. |
| `TagCloud.TagSizeInRange` | sidebar.c:41-53 | A tag's size is within the configured bounds. |
| `TagCloud.TagSizeMonotone` | sidebar.c:41-53 | A more frequent tag is never smaller. |
| `TagCloud.TagSizeAboveMin` | sidebar.c:45-46 | Only the rarest tags have the smallest size, unless the bounds coincide. |
| `TagCloud.TagSizeAtMax` | sidebar.c:48-52 | The most frequent tags have the largest size. |
| `TagCloud.TagSizeInterpolates` | sidebar.c:41-53 | Between the ends the size is the linear interpolation, rounded up. |
| `TagCloud.FindMinMax` | post_index.c:477-482 | The first loop finds the smallest and the largest number of posts. |
| `TagCloud.CountsInRange` | post_index.c:477-489 | Every step call gets cmin <= count <= cmax. |
| `TagCloud.StepTags` | post_index.c:487-489 | The second loop never fills the array beyond its size. |
| `TagCloud.Tagcloud` | sidebar.c:103-112 | The cloud holds one cell for each tag with more than one post. |
| `TagCloud.CloudShowsTags` | sidebar.c:65-92 | A tag, in any spelling, is in the cloud exactly if more than one post has it, with the number of those posts and a size within bounds. |
| `TagCloud.CloudHasLargest` | sidebar.c:41-53 | Unless all tags are equally frequent, some tag is shown with the largest size. |

## Left out

- SCGI, sockets, start-up, logging, request routing, comment submission, the static file table, category redirects and configuration loading: plumbing around the parts modelled here.
- The lexers and the tables bison generates: pages start as sequences of items and posts as parse trees; that actions run children first and from left to right is built in.
- libjeffpc: trees are sorted sequences, name-value lists are maps, strings are values, and the file cache is a map from paths to contents and revisions. Parsing of S-expressions and times, the date filters and the number parser are function parameters (`PostBuild.Site`, `Template.Sys`).
- Locks: the methods of `PostStore.Store` are atomic steps; `load_post` consists of three, because nothing is locked between them. A failed assertion ends the run.
- Allocation failures, among them the unfinished error path of `index_insert_post`.
- FILENAME_MAX truncation of paths and error texts. The truncation of `\post` and `\taglink` to 1023 bytes is modelled.
- Previews: `PostStore` is about posts that are not previews; previews are never indexed, and `PostCache.GetPreview` has their request.
- The archive filter of `index.c` and its month arithmetic: any predicate on a post's data may filter a listing, but nothing is said about months.
- The request variables `__store_vars` makes of a post, and `lastupdate`: what matters here is which posts are refreshed and released.
- Negative page sizes: the number of posts asked for is a natural number. The product of page and page size wraps to an int as in the source, and the theorems about pages say where they need it not to.
- The order in which `rb_destroy_nodes` hands out elements: the model takes any.
- PostCache.RunHistory: assumes that files are added and changed but not removed, that a changed content has a new revision, and that whatever a build asks for exists at the moments of refresh. Without the last the property is false; `PostAppearing.AppearingFiles` says when it holds nevertheless.
- PostCache.PostRefresh: what a refresh that fails half-way leaves in the post is not specified; every caller treats the failure as fatal or discards the post.
- PostCache.LoadPostBody: the assertion that the format is 3 counts as a failed build, and so does an abort inside post.tex.
- PostIndex.Index.InsertPost: a post's time and id are taken at insertion; refreshing the post changes neither the indices nor the listings, as in the source.
- PostStore.Store.Run: what requests show is stated for runs whose file changes keep to the rules of `PostRuns.Gentle`: new contents get new revisions, no file appears that a build of a live post asks for in vain, and posts that were built can be built again. A run ends at its first failed assertion.
- PostStore.Store.LoadPosts: after a failed refresh, where the source aborts, the order and the references are not specified.
- PostListing.IndexGetPosts: says nothing about the slots of the array behind the returned posts.
- Fmt3Nesting.CompiledPostNests: assumes that text is clean. Verbatim text passes through unescaped by design, so it must hold no tags, likewise the configured URLs and whatever ends up in an attribute or a file name; links made by `\post` and `\taglink` must not be truncated.
- Fmt3Blocks.WrittenPostsNest: quotes that span paragraphs, unknown commands with arguments, and \listing with an optional argument are not among the trees; the discipline itself covers them.
- Fmt3Reading.PostsReadAsMeant: assumes what the lexer guarantees of characters, plain text in verbatim environments and in the configuration, links whose targets are text, and links of \post and \taglink that fit their buffer. Characters beyond ASCII are bytes of UTF-8.
- PostAppearing.AppearingFiles: for listings inside arguments of other commands, or with file names that hold tags, only one direction is stated. An argument may be dropped, or its text may become part of a file name, and then a listing can change without a trace in the post.
- Escape.UrlEscapeStr: characters are bytes in the C locale.
- TagCloud.TagSizeInRange: sizes are computed in exact arithmetic, the source rounds to float; the configured minimum must not exceed the maximum.
- TagCloud.Tagcloud: a tag whose cell cannot be allocated is skipped in the source; allocation does not fail here.
