/**
 * The media-bar patcher: in each genre line of the slideshow it replaces every
 * white-small-square separator by a Material icon, and it replaces each
 * `.age-rating` block by a flat `.mediaInfoOfficialRating` div holding only the
 * rating text, which the rating script then picks up.
 */
module MediaBarPatcher {
  import opened Options
  import opened JsString
  import opened Jellyfin
  import RatingScript

  /** `SEPARATOR_OLD_CHAR`: U+25AB WHITE SMALL SQUARE followed by U+FE0F VARIATION SELECTOR-16. */
  const SepSquare: char := '\U{25AB}'
  const SepSelector: char := '\U{FE0F}'
  const Separator: string := [SepSquare, SepSelector]

  /** The classes of the icon element. */
  const IconClasses: string := "material-icons" + " " + "fiber_manual_record" + " " + "separator-icon"

  /** `SEPARATOR_NEW_HTML`: the icon element with one space on each side. */
  const Icon: string := " <i class=\"" + IconClasses + "\"></i> "

  const RatingReplacementClasses: string := "mediaInfoItem mediaInfoText mediaInfoOfficialRating"

  predicate SepAt(s: string, i: int) {
    0 <= i && i + 1 < |s| && s[i] == SepSquare && s[i + 1] == SepSelector
  }

  predicate ContainsSep(s: string) {
    exists i :: 0 <= i < |s| && SepAt(s, i)
  }

  /** `text.replace(new RegExp(SEPARATOR_OLD_CHAR, 'g'), SEPARATOR_NEW_HTML)`: left to right, non-overlapping. */
  function ReplaceSeparators(s: string): string
    decreases |s|
  {
    if SepAt(s, 0) then Icon + ReplaceSeparators(s[2..])
    else if s == [] then []
    else [s[0]] + ReplaceSeparators(s[1..])
  }

  /** A text without a separator is left as it is. */
  lemma {:induction false} NoSeparatorUnchanged(s: string)
    requires !ContainsSep(s)
    ensures ReplaceSeparators(s) == s
  {
    if s != [] {
      assert !SepAt(s, 0);
      assert !ContainsSep(s[1..]) by {
        forall i | 0 <= i < |s[1..]| && SepAt(s[1..], i) ensures SepAt(s, i + 1) {
        }
      }
      NoSeparatorUnchanged(s[1..]);
    }
  }

  /** A separator at the front becomes the icon. */
  lemma SeparatorFirst(b: string)
    ensures ReplaceSeparators(Separator + b) == Icon + ReplaceSeparators(b)
  {
    assert SepAt(Separator + b, 0);
    assert (Separator + b)[2..] == b;
  }

  /** A character that does not start a separator is kept. */
  lemma KeepFirst(c: char, rest: string)
    requires !SepAt([c] + rest, 0)
    ensures ReplaceSeparators([c] + rest) == [c] + ReplaceSeparators(rest)
  {
    assert ([c] + rest)[1..] == rest;
  }

  /** The first separator, after a stretch of text without one, becomes the icon and the rest is patched alike. */
  lemma {:induction false} FirstSeparatorReplaced(a: string, b: string)
    requires !ContainsSep(a)
    ensures ReplaceSeparators(a + Separator + b) == a + Icon + ReplaceSeparators(b)
  {
    if a == [] {
      assert a + Separator + b == Separator + b;
      SeparatorFirst(b);
    } else {
      var tail := a[1..];
      var rest := tail + Separator + b;
      assert a + Separator + b == [a[0]] + rest;
      assert !SepAt([a[0]] + rest, 0) by {
        var s := [a[0]] + rest;
        if |a| == 1 {
          assert s[1] == SepSquare;
        } else {
          assert s[1] == a[1] && !SepAt(a, 0);
        }
      }
      assert !ContainsSep(tail) by {
        forall i | 0 <= i < |tail| && SepAt(tail, i) ensures SepAt(a, i + 1) {
        }
      }
      KeepFirst(a[0], rest);
      FirstSeparatorReplaced(tail, b);
      Regroup(a, Icon, ReplaceSeparators(b));
    }
  }

  lemma Regroup(a: string, x: string, y: string)
    requires a != []
    ensures [a[0]] + (a[1..] + x + y) == a + x + y
  {
    assert a == [a[0]] + a[1..];
  }

  predicate NoSquare(s: string) {
    forall i :: 0 <= i < |s| ==> s[i] != SepSquare
  }

  lemma NoSquareAppend(a: string, b: string)
    requires NoSquare(a) && NoSquare(b)
    ensures NoSquare(a + b)
  {
  }

  /** The icon markup contains no white small square, and starts and ends with a space. */
  lemma IconFacts()
    ensures NoSquare(Icon) && Icon[0] == ' ' && Icon[|Icon| - 1] == ' '
  {
    assert NoSquare("material-icons") && NoSquare("fiber_manual_record") && NoSquare("separator-icon");
    assert NoSquare(" ") && NoSquare(" <i class=\"") && NoSquare("\"></i> ");
    NoSquareAppend("material-icons", " ");
    NoSquareAppend("material-icons" + " ", "fiber_manual_record");
    NoSquareAppend("material-icons" + " " + "fiber_manual_record", " ");
    NoSquareAppend("material-icons" + " " + "fiber_manual_record" + " ", "separator-icon");
    NoSquareAppend(" <i class=\"", IconClasses);
    NoSquareAppend(" <i class=\"" + IconClasses, "\"></i> ");
  }

  /** The patched text starts with the icon's first character or with the text's own first character. */
  lemma ReplaceSeparatorsHead(s: string)
    requires s != []
    ensures ReplaceSeparators(s) != []
    ensures ReplaceSeparators(s)[0] == if SepAt(s, 0) then ' ' else s[0]
  {
    IconFacts();
  }

  /** A prefix without a white small square forms no separator in front of a text without one. */
  lemma SquareFreePrefix(x: string, t: string)
    requires NoSquare(x) && !ContainsSep(t)
    ensures !ContainsSep(x + t)
  {
    forall i | 0 <= i < |x + t| ensures !SepAt(x + t, i) {
      if i < |x| {
        assert (x + t)[i] == x[i];
      } else if i + 1 < |x + t| {
        assert (x + t)[i] == t[i - |x|] && (x + t)[i + 1] == t[i - |x| + 1];
        assert !SepAt(t, i - |x|);
      }
    }
  }

  /** One character in front of a text without a separator forms none unless it pairs with the text's head. */
  lemma ConsWithoutSeparator(c: char, t: string)
    requires !ContainsSep(t)
    requires c == SepSquare && t != [] ==> t[0] != SepSelector
    ensures !ContainsSep([c] + t)
  {
    forall i | 0 <= i < |[c] + t| ensures !SepAt([c] + t, i) {
      if i > 0 && i + 1 < |[c] + t| {
        assert ([c] + t)[i] == t[i - 1] && ([c] + t)[i + 1] == t[i];
        assert !SepAt(t, i - 1);
      }
    }
  }

  /** Every separator is gone: no separator survives or is formed across a boundary. */
  lemma {:induction false} NoSeparatorLeft(s: string)
    ensures !ContainsSep(ReplaceSeparators(s))
    decreases |s|
  {
    if SepAt(s, 0) {
      var t := ReplaceSeparators(s[2..]);
      NoSeparatorLeft(s[2..]);
      IconFacts();
      SquareFreePrefix(Icon, t);
    } else if s != [] {
      var t := ReplaceSeparators(s[1..]);
      NoSeparatorLeft(s[1..]);
      if s[0] == SepSquare && |s| > 1 {
        ReplaceSeparatorsHead(s[1..]);
        assert s[1] != SepSelector;
        assert s[1..][0] == s[1];
      }
      ConsWithoutSeparator(s[0], t);
    }
  }

  /** A `#slides-container .slide .genre` span: its text, the markup last assigned to it, and `data-separator-fixed`. */
  datatype GenreSpan = GenreSpan(text: string, markup: string, separatorFixed: Option<string>)

  /** One iteration of `processSeparators`: an unmarked span gets the patched text as markup and the mark. */
  function FixSpan(g: GenreSpan): (r: GenreSpan)
    ensures Truthy(r.separatorFixed)
  {
    if Truthy(g.separatorFixed) then g
    else g.(markup := ReplaceSeparators(g.text), separatorFixed := Some("true"))
  }

  /** A marked span is never touched again, so the patch runs once per span. */
  lemma FixSpanOnce(g: GenreSpan)
    ensures FixSpan(FixSpan(g)) == FixSpan(g)
    ensures !Truthy(g.separatorFixed) ==> FixSpan(g).markup == ReplaceSeparators(g.text) && FixSpan(g).text == g.text
    ensures Truthy(g.separatorFixed) ==> FixSpan(g) == g
  {
  }

  /** `processSeparators` over the spans the selector matches. */
  method ProcessSeparators(spans: array<GenreSpan>)
    modifies spans
    ensures forall k :: 0 <= k < spans.Length ==> spans[k] == FixSpan(old(spans[k]))
  {
    for i := 0 to spans.Length
      invariant forall k :: 0 <= k < i ==> spans[k] == FixSpan(old(spans[k]))
      invariant forall k :: i <= k < spans.Length ==> spans[k] == old(spans[k])
    {
      if !Truthy(spans[i].separatorFixed) {
        spans[i] := spans[i].(markup := ReplaceSeparators(spans[i].text), separatorFixed := Some("true"));
      }
    }
  }

  /**
   * An `.age-rating` block, by its `data-bar-processed` attribute and the text
   * of its first `span`, or the flat div that replaced one.
   */
  datatype RatingNode =
    | AgeRating(barProcessed: Option<string>, spanText: Option<string>)
    | FlatRating(className: string, text: string, barProcessed: Option<string>)

  /** One iteration of `processRatingReplacement`. */
  function ReplaceRating(n: RatingNode): RatingNode {
    match n
    case FlatRating(_, _, _) => n
    case AgeRating(processed, span) =>
      if processed == Some("true") then n
      else if span.None? || Trim(span.value) == [] then n
      else FlatRating(RatingReplacementClasses, Trim(span.value), Some("true"))
  }

  /**
   * A block is replaced exactly when it is unmarked and its span has text; the
   * replacement carries the trimmed text, is marked, and is no longer an
   * `.age-rating` block, so a second pass leaves it alone.
   */
  lemma ReplaceRatingFacts(n: RatingNode)
    ensures ReplaceRating(ReplaceRating(n)) == ReplaceRating(n)
    ensures ReplaceRating(n).FlatRating? && n.AgeRating? <==>
      n.AgeRating? && n.barProcessed != Some("true") && n.spanText.Some? && Trim(n.spanText.value) != []
    ensures ReplaceRating(n) != n ==>
      ReplaceRating(n) == FlatRating(RatingReplacementClasses, Trim(n.spanText.value), Some("true"))
  {
  }

  /** The flat div is a badge the rating script processes: its text is non-blank and it is no longer inside `.age-rating`. */
  lemma ReplacementIsRatingBadge(n: RatingNode, id: nat)
    requires n.AgeRating? && ReplaceRating(n).FlatRating?
    ensures RatingScript.HasText(RatingScript.Badge(id, ReplaceRating(n).text, None, None, None))
  {
    TrimIdempotent(n.spanText.value);
  }

  /** `processRatingReplacement` over the nodes the `.age-rating` selector matched. */
  method ProcessRatingReplacement(nodes: array<RatingNode>)
    modifies nodes
    ensures forall k :: 0 <= k < nodes.Length ==> nodes[k] == ReplaceRating(old(nodes[k]))
  {
    for i := 0 to nodes.Length
      invariant forall k :: 0 <= k < i ==> nodes[k] == ReplaceRating(old(nodes[k]))
      invariant forall k :: i <= k < nodes.Length ==> nodes[k] == old(nodes[k])
    {
      var n := nodes[i];
      if n.AgeRating? && n.barProcessed != Some("true") && n.spanText.Some? {
        var text := Trim(n.spanText.value);
        if text != [] {
          nodes[i] := FlatRating(RatingReplacementClasses, text, Some("true"));
        }
      }
    }
  }
}
