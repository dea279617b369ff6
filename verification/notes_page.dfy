/**
 * The research notes list page: the note-type icons, the priority badge
 * classes, the markup-stripped content preview, the comma-separated tag
 * row and the header count label.
 */
module NotesPage {
  import opened Wrappers
  import opened Types
  import Text
  import opened ObjectTable

  /** The icons the page draws next to a note type. */
  datatype NoteIcon = Lightbulb | Target | HelpCircle | CheckCircle | AlertCircle | FileText

  /** The icons the page's table lists for a note-type key. */
  function NoteIcons(noteType: string): (r: Option<NoteIcon>)
    ensures r.Some? <==> NoteType.FromKey(noteType).Some?
    ensures r.Some? ==> r.value != FileText && noteType !in InheritedNames
    ensures noteType == "observation" ==> r == Some(Lightbulb)
    ensures noteType == "hypothesis" ==> r == Some(Target)
    ensures noteType == "question" ==> r == Some(HelpCircle)
    ensures noteType == "conclusion" ==> r == Some(CheckCircle)
    ensures noteType == "todo" ==> r == Some(AlertCircle)
  {
    match noteType
    case "observation" => Some(Lightbulb)
    case "hypothesis" => Some(Target)
    case "question" => Some(HelpCircle)
    case "conclusion" => Some(CheckCircle)
    case "todo" => Some(AlertCircle)
    case _ => None
  }

  /**
   * The icon for a note-type key: a key naming an inherited object
   * property gets that property, and exactly the other keys that are not
   * note types get the plain document icon.
   */
  function NoteTypeIcon(noteType: string): (r: Found<NoteIcon>)
    ensures NoteIcons(noteType).Some? ==> r == Listed(NoteIcons(noteType).value)
    ensures r == Listed(FileText) <==> NoteType.FromKey(noteType).None? && noteType !in InheritedNames
    ensures r.Inherited? <==> noteType in InheritedNames
    ensures r.Inherited? ==> r.name == noteType
  {
    OrElse(NoteIcons(noteType), noteType, FileText)
  }

  /** The five note types have five different icons. */
  lemma NoteTypeIconsDistinct(s: NoteType, t: NoteType)
    ensures s != t ==> NoteTypeIcon(s.Key()) != NoteTypeIcon(t.Key())
  {
  }

  /** The classes the page's table lists for a priority key. */
  function PriorityClasses(priority: string): (r: Option<string>)
    ensures r.Some? <==> Priority.FromKey(priority).Some?
    ensures r.Some? ==> r.value == BadgeBase + " priority-" + priority && priority !in InheritedNames
  {
    match priority
    case "low" => Some("status-badge priority-low")
    case "medium" => Some("status-badge priority-medium")
    case "high" => Some("status-badge priority-high")
    case "urgent" => Some("status-badge priority-urgent")
    case _ => None
  }

  /**
   * The badge classes for a priority key: a known priority gets its own
   * classes, a key naming an inherited object property gets that property,
   * and any other key gets the bare base class.
   */
  function PriorityBadge(priority: string): (r: Found<string>)
    ensures Priority.FromKey(priority).Some? ==> r == Listed(BadgeBase + " priority-" + priority)
    ensures Priority.FromKey(priority).None? && priority !in InheritedNames ==> r == Listed(BadgeBase)
    ensures r.Inherited? <==> priority in InheritedNames
    ensures r.Inherited? ==> r.name == priority
  {
    OrElse(PriorityClasses(priority), priority, BadgeBase)
  }

  /**
   * Every badge of a key that names no inherited property starts with the
   * base class, and a known priority can be read back from its badge, so
   * the four badges differ.
   */
  lemma PriorityBadgeReadsBack(priority: string)
    ensures PriorityBadge(priority).Listed? <==> priority !in InheritedNames
    ensures PriorityBadge(priority).Listed? ==>
      var b := PriorityBadge(priority).value;
      |b| >= |BadgeBase| && b[..|BadgeBase|] == BadgeBase
    ensures Priority.FromKey(priority).Some? ==>
      PriorityBadge(priority).value[|BadgeBase + " priority-"|..] == priority
  {
  }

  /**
   * The badge shown on a note card, its classes and its label, only when
   * the note has a priority; a priority the schema allows always gets its
   * own classes.
   */
  function CardBadge(n: ResearchNote): (r: Option<(Found<string>, string)>)
    ensures r.Some? <==> n.meta.priority.Some?
    ensures r.Some? ==> r.value.1 == n.meta.priority.value.value
    ensures r.Some? ==> r.value.0 == PriorityBadge(n.meta.priority.value.key)
    ensures NoteConforms(n) && r.Some? ==> r.value.0.Listed? && r.value.0.value != BadgeBase
  {
    match n.meta.priority
    case Some(p) => Some((PriorityBadge(p.key), p.value))
    case None => None
  }

  // ---------------------------------------------------------------------------
  // Content preview
  // ---------------------------------------------------------------------------

  /** The characters `/[#*`]/g` removes. */
  predicate IsMarkup(c: char) {
    c == '#' || c == '*' || c == '`'
  }

  /** The text with every markup character removed, the rest kept in order. */
  function Strip(s: string): (r: string)
    ensures |r| <= |s|
    ensures forall k :: 0 <= k < |r| ==> !IsMarkup(r[k])
  {
    if |s| == 0 then []
    else (if IsMarkup(s[0]) then [] else [s[0]]) + Strip(s[1..])
  }

  /** Stripping works piece by piece. */
  lemma {:induction false} StripConcat(a: string, b: string)
    ensures Strip(a + b) == Strip(a) + Strip(b)
    decreases |a|
  {
    if |a| > 0 {
      assert (a + b)[0] == a[0];
      assert (a + b)[1..] == a[1..] + b;
      StripConcat(a[1..], b);
    } else {
      assert a + b == b;
    }
  }

  /** Text without markup is kept as it is. */
  lemma {:induction false} StripPlain(s: string)
    requires forall k :: 0 <= k < |s| ==> !IsMarkup(s[k])
    ensures Strip(s) == s
    decreases |s|
  {
    if |s| > 0 {
      StripPlain(s[1..]);
    }
  }

  /** Stripping twice removes nothing more. */
  lemma StripIdempotent(s: string)
    ensures Strip(Strip(s)) == Strip(s)
  {
    StripPlain(Strip(s));
  }

  /** Stripping removes exactly the markup characters: the kept length counts the others. */
  lemma {:induction false} StripKeepsPlainCount(s: string)
    ensures |Strip(s)| == |s| - MarkupCount(s)
    decreases |s|
  {
    if |s| > 0 {
      StripKeepsPlainCount(s[1..]);
    }
  }

  function MarkupCount(s: string): nat {
    if |s| == 0 then 0 else (if IsMarkup(s[0]) then 1 else 0) + MarkupCount(s[1..])
  }

  const PreviewLength: nat := 200

  /**
   * The preview: shown only for present, non-empty content; the first 200
   * characters of the stripped content, followed by "...".
   */
  function Preview(content: Option<string>): (r: Option<string>)
    ensures r.Some? <==> content.Some? && content.value != ""
    ensures r.Some? ==> 3 <= |r.value| <= PreviewLength + 3
    ensures r.Some? ==> r.value[|r.value| - 3..] == "..."
    ensures r.Some? ==>
      var body := r.value[..|r.value| - 3];
      && |body| == (if |Strip(content.value)| < PreviewLength then |Strip(content.value)| else PreviewLength)
      && body == Strip(content.value)[..|body|]
  {
    match content
    case Some(c) =>
      if c != "" then
        var stripped := Strip(c);
        var body := if |stripped| < PreviewLength then stripped else stripped[..PreviewLength];
        assert (body + "...")[..|body|] == body;
        Some(body + "...")
      else None
    case None => None
  }

  /** Short content without markup is previewed whole. */
  lemma PreviewOfPlainText(c: string)
    requires c != "" && |c| <= PreviewLength
    requires forall k :: 0 <= k < |c| ==> !IsMarkup(c[k])
    ensures Preview(Some(c)) == Some(c + "...")
  {
    StripPlain(c);
    if |c| == PreviewLength {
      assert c[..PreviewLength] == c;
    }
  }

  /** No markup character survives into the preview text. */
  lemma PreviewHasNoMarkup(content: Option<string>)
    requires Preview(content).Some?
    ensures forall k :: 0 <= k < |Preview(content).value| ==> !IsMarkup(Preview(content).value[k])
  {
    var r := Preview(content).value;
    var body := r[..|r| - 3];
    forall k | 0 <= k < |r| ensures !IsMarkup(r[k]) {
      if k < |r| - 3 {
        assert r[k] == body[k] == Strip(content.value)[k];
      } else {
        assert r[k] == r[|r| - 3..][k - (|r| - 3)];
      }
    }
  }

  // ---------------------------------------------------------------------------
  // Tags
  // ---------------------------------------------------------------------------

  /**
   * The tag row: the stored string split at every comma and each piece
   * trimmed; empty pieces are kept.
   */
  function Tags(s: string): (r: seq<string>)
    ensures |r| == Text.CountChar(s, ',') + 1
  {
    var parts := Text.Split(s, ',');
    seq(|parts|, i requires 0 <= i < |parts| => Text.Trim(parts[i]))
  }

  /**
   * `t` is `seg` with the surrounding white space removed: the piece of
   * `seg` after its leading white space, with only white space after it and
   * no white space at either of its own ends.
   */
  predicate IsTrimmedPiece(t: string, seg: string) {
    var off := Text.TrimOffset(seg);
    && off + |t| <= |seg|
    && t == seg[off..off + |t|]
    && (forall k :: 0 <= k < off ==> Text.IsSpace(seg[k]))
    && (forall k :: off + |t| <= k < |seg| ==> Text.IsSpace(seg[k]))
    && (|t| > 0 ==> !Text.IsSpace(t[0]) && !Text.IsSpace(t[|t| - 1]))
  }

  lemma TrimGivesTrimmedPiece(seg: string)
    ensures IsTrimmedPiece(Text.Trim(seg), seg)
  {
    Text.TrimIsInnerPiece(seg);
  }

  /**
   * Each tag is its comma-delimited segment with the surrounding white space
   * removed, and no tag contains a comma.
   */
  lemma TagsAreTrimmedSegments(s: string)
    ensures |Tags(s)| == |Text.Split(s, ',')|
    ensures forall i :: 0 <= i < |Tags(s)| ==> IsTrimmedPiece(Tags(s)[i], Text.Split(s, ',')[i])
    ensures forall i :: 0 <= i < |Tags(s)| ==> ',' !in Tags(s)[i]
  {
    forall i | 0 <= i < |Tags(s)|
      ensures IsTrimmedPiece(Tags(s)[i], Text.Split(s, ',')[i]) && ',' !in Tags(s)[i]
    {
      TagIsTrimmedSegment(s, i);
    }
  }

  lemma TagIsTrimmedSegment(s: string, i: nat)
    requires i < |Text.Split(s, ',')|
    ensures i < |Tags(s)|
    ensures IsTrimmedPiece(Tags(s)[i], Text.Split(s, ',')[i]) && ',' !in Tags(s)[i]
  {
    var seg := Text.Split(s, ',')[i];
    var t := Tags(s)[i];
    assert t == Text.Trim(seg);
    TrimGivesTrimmedPiece(seg);
    PieceOfCommaFree(t, seg);
  }

  /** A piece of a comma-free segment is comma-free. */
  lemma PieceOfCommaFree(t: string, seg: string)
    requires IsTrimmedPiece(t, seg)
    requires ',' !in seg
    ensures ',' !in t
  {
    var off := Text.TrimOffset(seg);
    forall k | 0 <= k < |t| ensures t[k] != ',' {
      assert t[k] == seg[off + k];
    }
  }

  /**
   * Tags that carry no comma and no surrounding white space are read back
   * exactly from the string that joins them with commas.
   */
  lemma TagsRoundTrip(xs: seq<string>)
    requires |xs| >= 1
    requires forall k :: 0 <= k < |xs| ==> ',' !in xs[k]
    requires forall k :: 0 <= k < |xs| ==> |xs[k]| == 0 || (!Text.IsSpace(xs[k][0]) && !Text.IsSpace(xs[k][|xs[k]| - 1]))
    ensures Tags(Text.Join(xs, ",")) == xs
  {
    Text.SplitJoin(xs, ',');
    var r := Tags(Text.Join(xs, ","));
    forall i | 0 <= i < |xs| ensures r[i] == xs[i] {
      Text.TrimUnpadded(xs[i]);
    }
  }

  /** A doubled comma yields an empty tag between the two others rather than none. */
  lemma DoubledCommaKeepsEmptyTag()
    ensures Tags("a,,b") == ["a", "", "b"]
  {
    var xs := ["a", "", "b"];
    assert xs[1..] == ["", "b"] && xs[1..][1..] == ["b"];
    assert Text.Join(xs, ",") == "a,,b";
    TagsRoundTrip(xs);
  }

  /** A trailing comma yields a final empty tag. */
  lemma TrailingCommaKeepsEmptyTag()
    ensures Tags("a,") == ["a", ""]
  {
    var xs := ["a", ""];
    assert xs[1..] == [""];
    assert Text.Join(xs, ",") == "a,";
    TagsRoundTrip(xs);
  }

  /** The tag row of a card: present only when the note's tags string is non-empty. */
  function TagRow(n: ResearchNote): (r: Option<seq<string>>)
    ensures r.Some? <==> n.meta.tags.Some? && n.meta.tags.value != ""
    ensures r.Some? ==> r.value == Tags(n.meta.tags.value)
    ensures r.Some? ==> |r.value| == Text.CountChar(n.meta.tags.value, ',') + 1
  {
    match n.meta.tags
    case Some(t) => if t != "" then Some(Tags(t)) else None
    case None => None
  }

  /** The header label: "note" with "s" appended unless there is exactly one. */
  function CountLabel(n: nat): (r: string)
    ensures r == Text.Inflect(n, "note") + " total"
    ensures n != 1 ==> r == Text.NatToString(n) + " notes total"
  {
    Text.NatToString(n) + " note" + (if n != 1 then "s" else "") + " total"
  }

  /** The label starts with the count it reports. */
  lemma CountLabelReadsBack(n: nat)
    ensures Text.CountOfLabel(CountLabel(n)) == n
  {
    Text.InflectCount(n, "note", " total");
  }
}
