/**
 * The build step that adds the console-capture script to every generated
 * HTML page: a page whose text already mentions the script's path is left
 * alone; otherwise the script tag, with a comment, goes just before the
 * first `</head>`, else just after the first `<head>`, else just after the
 * first `<body>`.
 */
module InjectConsoleCapture {
  import Text

  /** The text whose presence marks a page as already injected. */
  const Marker: string := "/dashboard-console-capture.js"
  const ScriptOpen: string := "<script src=\""
  const ScriptTag: string := ScriptOpen + Marker + "\"></script>"
  const Comment: string := "<!-- Console capture script for dashboard debugging -->"
  /** The inserted lines: the comment and the script tag, each indented by two spaces. */
  const Block: string := "  " + Comment + "\n  " + ScriptTag
  /** What goes in front of a closing tag: the block and a line break. */
  const BeforeClose: string := Block + "\n"
  /** What goes after an opening tag: a line break and the block. */
  const AfterOpen: string := "\n" + Block

  const HeadClose: string := "</head>"
  const HeadOpen: string := "<head>"
  const BodyOpen: string := "<body>"

  /** One page, as the script changes it. */
  function Inject(content: string): (r: string)
    ensures Text.Includes(content, Marker) ==> r == content
    ensures (!Text.Includes(content, Marker) && !Text.Includes(content, HeadClose) &&
             !Text.Includes(content, HeadOpen) && !Text.Includes(content, BodyOpen)) ==> r == content
  {
    if Text.Includes(content, Marker) then content
    else if Text.Includes(content, HeadClose) then
      Text.ReplaceFirst(content, HeadClose, BeforeClose + HeadClose)
    else if Text.Includes(content, HeadOpen) then
      Text.ReplaceFirst(content, HeadOpen, HeadOpen + AfterOpen)
    else
      Text.ReplaceFirst(content, BodyOpen, BodyOpen + AfterOpen)
  }

  /**
   * Where the block goes when the page has a `</head>`: immediately before
   * the first one, with the rest of the page unchanged on both sides.
   */
  lemma InjectBeforeHeadClose(content: string)
    requires !Text.Includes(content, Marker) && Text.Includes(content, HeadClose)
    ensures
      var i := Text.IndexOf(content, HeadClose).value;
      i <= |content| && Inject(content) == content[..i] + BeforeClose + content[i..]
  {
    BeforeFirst(content, HeadClose, BeforeClose);
  }

  /** Without `</head>`, the block goes on a line of its own just after the first `<head>`. */
  lemma InjectAfterHeadOpen(content: string)
    requires !Text.Includes(content, Marker) && !Text.Includes(content, HeadClose)
    requires Text.Includes(content, HeadOpen)
    ensures
      var i := Text.IndexOf(content, HeadOpen).value + |HeadOpen|;
      i <= |content| && Inject(content) == content[..i] + AfterOpen + content[i..]
  {
    AfterFirst(content, HeadOpen, AfterOpen);
  }

  /** With no head tag at all, the block goes on a line of its own just after the first `<body>`. */
  lemma InjectAfterBodyOpen(content: string)
    requires !Text.Includes(content, Marker) && !Text.Includes(content, HeadClose)
    requires !Text.Includes(content, HeadOpen) && Text.Includes(content, BodyOpen)
    ensures
      var i := Text.IndexOf(content, BodyOpen).value + |BodyOpen|;
      i <= |content| && Inject(content) == content[..i] + AfterOpen + content[i..]
  {
    AfterFirst(content, BodyOpen, AfterOpen);
  }

  /** Replacing the first `pat` by `added + pat` inserts `added` where `pat` starts. */
  lemma BeforeFirst(s: string, pat: string, added: string)
    requires Text.Includes(s, pat)
    ensures
      var i := Text.IndexOf(s, pat).value;
      i <= |s| && Text.ReplaceFirst(s, pat, added + pat) == s[..i] + added + s[i..]
  {
    var i := Text.IndexOf(s, pat).value;
    var r := Text.ReplaceFirst(s, pat, added + pat);
    assert s[i..] == s[i..i + |pat|] + s[i + |pat|..];
    assert r == s[..i] + (added + pat) + s[i + |pat|..];
  }

  /** Replacing the first `pat` by `pat + added` inserts `added` where `pat` ends. */
  lemma AfterFirst(s: string, pat: string, added: string)
    requires Text.Includes(s, pat)
    ensures
      var i := Text.IndexOf(s, pat).value + |pat|;
      i <= |s| && Text.ReplaceFirst(s, pat, pat + added) == s[..i] + added + s[i..]
  {
    var j := Text.IndexOf(s, pat).value;
    var r := Text.ReplaceFirst(s, pat, pat + added);
    assert s[..j + |pat|] == s[..j] + s[j..j + |pat|];
    assert r == s[..j] + (pat + added) + s[j + |pat|..];
  }

  lemma MarkerInBlock()
    ensures Text.Includes(Block, Marker)
  {
    var tail := "\"></script>";
    assert ScriptTag == ScriptOpen + Marker + tail;
    assert ScriptTag[|ScriptOpen|..|ScriptOpen| + |Marker|] == Marker;
    assert Text.Occurs(ScriptTag, Marker, |ScriptOpen|);
    Text.IncludesInfix("  " + Comment + "\n  ", ScriptTag, "", Marker);
    assert "  " + Comment + "\n  " + ScriptTag + "" == Block;
  }

  /**
   * After the step a page carries the marker exactly when it already did or
   * it has one of the three anchors; a page with none of them is unchanged.
   */
  lemma InjectMarksPage(content: string)
    ensures Text.Includes(Inject(content), Marker) <==>
      Text.Includes(content, Marker) || Text.Includes(content, HeadClose) ||
      Text.Includes(content, HeadOpen) || Text.Includes(content, BodyOpen)
  {
    if !Text.Includes(content, Marker) {
      if Text.Includes(content, HeadClose) {
        InjectBeforeHeadClose(content);
        var i := Text.IndexOf(content, HeadClose).value;
        InsertionCarriesMarker(content[..i], BeforeClose, content[i..]);
      } else if Text.Includes(content, HeadOpen) {
        InjectAfterHeadOpen(content);
        var i := Text.IndexOf(content, HeadOpen).value + |HeadOpen|;
        InsertionCarriesMarker(content[..i], AfterOpen, content[i..]);
      } else if Text.Includes(content, BodyOpen) {
        InjectAfterBodyOpen(content);
        var i := Text.IndexOf(content, BodyOpen).value + |BodyOpen|;
        InsertionCarriesMarker(content[..i], AfterOpen, content[i..]);
      }
    }
  }

  /** Either insertion puts the marker into the page. */
  lemma InsertionCarriesMarker(pre: string, added: string, post: string)
    requires added == BeforeClose || added == AfterOpen
    ensures Text.Includes(pre + added + post, Marker)
  {
    MarkerInBlock();
    if added == BeforeClose {
      IncludedInFront(pre, Block, "\n", post, Marker);
    } else {
      IncludedBehind(pre, "\n", Block, post, Marker);
    }
  }

  lemma IncludedInFront(pre: string, mid: string, tail: string, post: string, t: string)
    requires Text.Includes(mid, t)
    ensures Text.Includes(pre + (mid + tail) + post, t)
  {
    Text.IncludesInfix(pre, mid, tail + post, t);
    assert pre + (mid + tail) + post == pre + mid + (tail + post);
  }

  lemma IncludedBehind(pre: string, head: string, mid: string, post: string, t: string)
    requires Text.Includes(mid, t)
    ensures Text.Includes(pre + (head + mid) + post, t)
  {
    Text.IncludesInfix(pre + head, mid, post, t);
    assert pre + (head + mid) + post == (pre + head) + mid + post;
  }

  /** Running the step on its own output changes nothing more. */
  lemma InjectIdempotent(content: string)
    ensures Inject(Inject(content)) == Inject(content)
  {
    InjectMarksPage(content);
  }
}
