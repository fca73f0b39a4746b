/**
 * The text extractor of the TradingView news collector
 * (parser/tradingview_crypto.py, extract_text): a story's body arrives as
 * a tree of JSON objects, each with an optional `type`, a `text` for text
 * nodes and a list of `children`, each child a plain string or another
 * node. The extractor flattens the tree into one string.
 */
module TradingViewText {
  import opened Wrappers
  import opened Text

  /** A value in the body tree: anything that is not a JSON object, or an object. */
  datatype Node = NotObject | Object(kind: Option<string>, text: string, children: seq<Child>)

  /** A child: a plain string, or a value in the tree. */
  datatype Child = Words(s: string) | Sub(node: Node)

  const TextKind: string := "text"
  const BlockKinds: set<string> := {"p", "li", "h1", "h2", "h3"}
  const Space: string := " "
  const LineEnd: string := "\n"

  predicate IsText(n: Node)
  {
    n.Object? && n.kind == Some(TextKind)
  }

  predicate IsBlock(kind: Option<string>)
  {
    kind.Some? && kind.value in BlockKinds
  }

  /**
   * extract_text: nothing for a non-object; a text node's text followed
   * by one space; otherwise the children's texts in order (a string child
   * with a space after it), a newline for a paragraph, list item or
   * heading, and the whole stripped.
   */
  function ExtractText(n: Node): (r: string)
    ensures n.NotObject? ==> r == ""
    ensures IsText(n) ==> r == n.text + Space
    decreases n, if n.Object? then |n.children| + 1 else 0
  {
    match n
    case NotObject => ""
    case Object(kind, text, children) =>
      if kind == Some(TextKind) then text + Space
      else if IsBlock(kind) then Strip(ChildrenText(n, |children|) + LineEnd)
      else Strip(ChildrenText(n, |children|))
  }

  /** Apart from a text node's, the extracted text has no whitespace at either end. */
  lemma ExtractIsStripped(n: Node)
    requires n.Object? && !IsText(n)
    ensures ExtractText(n) == "" || (!IsSpace(ExtractText(n)[0]) && !IsSpace(ExtractText(n)[|ExtractText(n)| - 1]))
  {
    var c := ChildrenText(n, |n.children|);
    var r := if IsBlock(n.kind) then Strip(c + LineEnd) else Strip(c);
    assert ExtractText(n) == r;
  }

  /** The text the loop over the first i children of n has gathered. */
  function ChildrenText(n: Node, i: nat): string
    requires n.Object? && i <= |n.children|
    decreases n, i
  {
    if i == 0 then ""
    else
      ChildrenText(n, i - 1) + match n.children[i - 1]
                               case Words(s) => s + Space
                               case Sub(m) => ExtractText(m)
  }

  /** extract_text as the collector runs it: recursion into sub-nodes, a loop over the children. */
  method Extract(n: Node) returns (text: string)
    ensures text == ExtractText(n)
    decreases n
  {
    if !n.Object? {
      return "";
    }
    if n.kind == Some(TextKind) {
      return n.text + Space;
    }
    text := "";
    for i := 0 to |n.children|
      invariant text == ChildrenText(n, i)
    {
      match n.children[i] {
        case Words(s) =>
          text := text + (s + Space);
        case Sub(m) =>
          var t := Extract(m);
          text := text + t;
      }
    }
    if IsBlock(n.kind) {
      text := text + LineEnd;
    }
    text := Strip(text);
  }

  // ----------------------------------------------------- properties

  /** Whitespace left of leading text survives every TrimLeft; a trailing space is cut with the rest. */
  lemma {:induction false} TrimLeftSnoc(s: string, c: char)
    ensures TrimLeft(s + [c]) == if TrimLeft(s) == "" && IsSpace(c) then "" else TrimLeft(s) + [c]
    decreases |s|
  {
    if |s| > 0 && IsSpace(s[0]) {
      assert (s + [c])[1..] == s[1..] + [c];
      TrimLeftSnoc(s[1..], c);
    }
  }

  /** A whitespace character at the end does not change the stripped text. */
  lemma StripSnocSpace(s: string, c: char)
    requires IsSpace(c)
    ensures Strip(s + [c]) == Strip(s)
  {
    TrimLeftSnoc(s, c);
    if TrimLeft(s) != "" {
      assert (TrimLeft(s) + [c])[..|TrimLeft(s) + [c]| - 1] == TrimLeft(s);
    }
  }

  lemma StripAppendSpace(s: string)
    ensures Strip(s + Space) == Strip(s)
  {
    assert IsSpace(Space[0]);
    StripSnocSpace(s, Space[0]);
  }

  lemma StripAppendLineEnd(s: string)
    ensures Strip(s + LineEnd) == Strip(s)
  {
    assert IsSpace(LineEnd[0]);
    StripSnocSpace(s, LineEnd[0]);
  }

  function WordsOf(words: seq<string>): (cs: seq<Child>)
    ensures |cs| == |words|
    ensures forall i :: 0 <= i < |words| ==> cs[i] == Words(words[i])
  {
    seq(|words|, i requires 0 <= i < |words| => Words(words[i]))
  }

  lemma {:induction false} JoinSnoc(parts: seq<string>, last: string, sep: char)
    requires |parts| >= 1
    ensures Join(parts + [last], sep) == Join(parts, sep) + [sep] + last
    decreases |parts|
  {
    if |parts| == 1 {
      assert (parts + [last])[1..] == [last];
    } else {
      assert (parts + [last])[1..] == parts[1..] + [last];
      JoinSnoc(parts[1..], last, sep);
    }
  }

  lemma {:induction false} ChildrenTextOfWords(n: Node, words: seq<string>, i: nat)
    requires n.Object? && n.children == WordsOf(words) && 1 <= i <= |words|
    ensures ChildrenText(n, i) == Join(words[..i], ' ') + Space
    decreases i
  {
    if i == 1 {
      assert ChildrenText(n, 0) == "";
    } else {
      ChildrenTextOfWords(n, words, i - 1);
      assert words[..i] == words[..i - 1] + [words[i - 1]];
      JoinSnoc(words[..i - 1], words[i - 1], ' ');
    }
  }

  /**
   * A node whose children are all plain strings reads as those strings
   * joined by single spaces and stripped, whatever its kind besides text.
   */
  lemma ExtractOfWords(kind: Option<string>, text: string, words: seq<string>)
    requires kind != Some(TextKind)
    ensures ExtractText(Object(kind, text, WordsOf(words))) == Strip(Join(words, ' '))
  {
    var n := Object(kind, text, WordsOf(words));
    if |words| == 0 {
      assert ChildrenText(n, 0) == "";
      StripAppendLineEnd("");
    } else {
      ChildrenTextOfWords(n, words, |words|);
      assert words[..|words|] == words;
      var body := Join(words, ' ');
      if IsBlock(kind) {
        StripAppendLineEnd(body + Space);
      }
      StripAppendSpace(body);
    }
  }

  // ---------------------------------------------------------- finding

  /**
   * As written, the newline of a paragraph, list item or heading is
   * always stripped off again: such a node reads exactly as the same node
   * without a kind.
   */
  lemma BlockNewlineDropped(kind: Option<string>, text: string, children: seq<Child>)
    requires IsBlock(kind)
    ensures ExtractText(Object(kind, text, children)) == ExtractText(Object(None, text, children))
  {
    assert ChildrenText(Object(kind, text, children), |children|) == ChildrenText(Object(None, text, children), |children|) by {
      ChildrenTextOfKind(kind, None, text, children, |children|);
    }
    StripAppendLineEnd(ChildrenText(Object(kind, text, children), |children|));
  }

  lemma {:induction false} ChildrenTextOfKind(k1: Option<string>, k2: Option<string>, text: string,
                                              children: seq<Child>, i: nat)
    requires i <= |children|
    ensures ChildrenText(Object(k1, text, children), i) == ChildrenText(Object(k2, text, children), i)
    decreases i
  {
    if i > 0 {
      ChildrenTextOfKind(k1, k2, text, children, i - 1);
    }
  }

  /** One paragraph holding one string. */
  function Paragraph(word: string): Node
  {
    Object(Some("p"), "", [Words(word)])
  }

  /** A word with no whitespace at either end. */
  predicate Solid(w: string)
  {
    |w| > 0 && !IsSpace(w[0]) && !IsSpace(w[|w| - 1])
  }

  lemma ParagraphText(word: string)
    requires Solid(word)
    ensures ExtractText(Paragraph(word)) == word
  {
    assert [Words(word)] == WordsOf([word]);
    ExtractOfWords(Some("p"), "", [word]);
    StripUnchanged(word);
  }

  /** As written, two paragraphs in a row run together: "a" and "b" read as "ab". */
  lemma ParagraphsRunTogether(a: string, b: string)
    requires Solid(a) && Solid(b)
    ensures ExtractText(Object(None, "", [Sub(Paragraph(a)), Sub(Paragraph(b))])) == a + b
  {
    var n := Object(None, "", [Sub(Paragraph(a)), Sub(Paragraph(b))]);
    var t := a + b;
    assert ExtractText(n) == Strip(t) by {
      assert ExtractText(n) == Strip(ChildrenText(n, 2));
      TwoParagraphText(a, b);
    }
    assert Strip(t) == t by {
      assert t[0] == a[0] && t[|t| - 1] == b[|b| - 1];
      StripUnchanged(t);
    }
  }

  lemma TwoParagraphText(a: string, b: string)
    requires Solid(a) && Solid(b)
    ensures ChildrenText(Object(None, "", [Sub(Paragraph(a)), Sub(Paragraph(b))]), 2) == a + b
  {
    var n := Object(None, "", [Sub(Paragraph(a)), Sub(Paragraph(b))]);
    assert ChildrenText(n, 1) == a by {
      ParagraphText(a);
      assert ChildrenText(n, 1) == ChildrenText(n, 0) + a;
      assert ChildrenText(n, 0) == "";
      assert "" + a == a;
    }
    ParagraphText(b);
    assert ChildrenText(n, 2) == ChildrenText(n, 1) + ExtractText(Paragraph(b));
  }

  /**
   * The evident intent, corrected: a paragraph, list item or heading ends
   * in a newline that its parent keeps, so blocks stay on lines of their
   * own.
   */
  function ExtractLines(n: Node): (r: string)
    ensures n.NotObject? ==> r == ""
    ensures IsText(n) ==> r == n.text + Space
    ensures n.Object? && !IsText(n) && IsBlock(n.kind) ==> r == "" || r[|r| - 1] == '\n'
    decreases n, if n.Object? then |n.children| + 1 else 0
  {
    match n
    case NotObject => ""
    case Object(kind, text, children) =>
      if kind == Some(TextKind) then text + Space
      else
        var body := Strip(LinesOfChildren(n, |children|));
        if IsBlock(kind) && body != "" then body + LineEnd else body
  }

  function LinesOfChildren(n: Node, i: nat): string
    requires n.Object? && i <= |n.children|
    decreases n, i
  {
    if i == 0 then ""
    else
      LinesOfChildren(n, i - 1) + match n.children[i - 1]
                                  case Words(s) => s + Space
                                  case Sub(m) => ExtractLines(m)
  }

  /** Corrected, two paragraphs in a row stay on two lines: "a" and "b" read as "a\nb". */
  lemma ParagraphsOnTwoLines(a: string, b: string)
    requires Solid(a) && Solid(b)
    ensures ExtractLines(Object(None, "", [Sub(Paragraph(a)), Sub(Paragraph(b))])) == a + LineEnd + b
  {
    var n := Object(None, "", [Sub(Paragraph(a)), Sub(Paragraph(b))]);
    var t := a + LineEnd + b;
    assert ExtractLines(n) == Strip(t + LineEnd) by {
      InlineLines(n);
      TwoParagraphLines(a, b);
    }
    assert Strip(t + LineEnd) == t by {
      StripAppendLineEnd(t);
      assert t[0] == a[0] && t[|t| - 1] == b[|b| - 1];
      StripUnchanged(t);
    }
  }

  /** A node that is neither text nor a block reads as its children's text, stripped. */
  lemma InlineLines(n: Node)
    requires n.Object? && !IsText(n) && !IsBlock(n.kind)
    ensures ExtractLines(n) == Strip(LinesOfChildren(n, |n.children|))
  {
  }

  lemma TwoParagraphLines(a: string, b: string)
    requires Solid(a) && Solid(b)
    ensures LinesOfChildren(Object(None, "", [Sub(Paragraph(a)), Sub(Paragraph(b))]), 2) == a + LineEnd + b + LineEnd
  {
    var n := Object(None, "", [Sub(Paragraph(a)), Sub(Paragraph(b))]);
    assert LinesOfChildren(n, 1) == a + LineEnd by {
      ParagraphLine(a);
      assert LinesOfChildren(n, 1) == LinesOfChildren(n, 0) + (a + LineEnd);
      assert LinesOfChildren(n, 0) == "";
      assert "" + (a + LineEnd) == a + LineEnd;
    }
    ParagraphLine(b);
    assert LinesOfChildren(n, 2) == LinesOfChildren(n, 1) + ExtractLines(Paragraph(b));
  }

  lemma ParagraphLine(word: string)
    requires Solid(word)
    ensures ExtractLines(Paragraph(word)) == word + LineEnd
  {
    var p := Paragraph(word);
    assert LinesOfChildren(p, 1) == word + Space by {
      assert LinesOfChildren(p, 1) == LinesOfChildren(p, 0) + (word + Space);
      assert LinesOfChildren(p, 0) == "";
      assert "" + (word + Space) == word + Space;
    }
    StripAppendSpace(word);
    StripUnchanged(word);
  }
}
