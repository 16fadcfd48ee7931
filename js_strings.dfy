/**
 * The JavaScript string primitives the front end relies on: the white-space class
 * shared by `String.prototype.trim` and the regular-expression class `\s`, `trim()`,
 * `replace(/\n/g, '')` and `replace(/\s+/g, ' ')`.
 */
module JsStrings {

  /** ECMAScript WhiteSpace and LineTerminator code points (what `trim` strips and `\s` matches). */
  predicate IsWhitespace(c: char) {
    || c == ' ' || c == '\t' || c == '\n' || c == '\r' || c == '\U{B}' || c == '\U{C}'
    || c == '\U{A0}' || c == '\U{1680}' || ('\U{2000}' <= c <= '\U{200A}')
    || c == '\U{2028}' || c == '\U{2029}' || c == '\U{202F}' || c == '\U{205F}'
    || c == '\U{3000}' || c == '\U{FEFF}'
  }

  /** All characters of `s` are white space. */
  predicate AllWhitespace(s: string) {
    forall i :: 0 <= i < |s| ==> IsWhitespace(s[i])
  }

  /** The non-white-space characters of `s`, in order. */
  function Visible(s: string): (r: string)
    ensures |r| <= |s|
  {
    if s == [] then []
    else if IsWhitespace(s[0]) then Visible(s[1..])
    else [s[0]] + Visible(s[1..])
  }

  /** The length of the white-space run that starts `s`. */
  function LeadingWhitespace(s: string): (k: nat)
    ensures k <= |s|
    ensures forall i :: 0 <= i < k ==> IsWhitespace(s[i])
    ensures k < |s| ==> !IsWhitespace(s[k])
  {
    if s != [] && IsWhitespace(s[0]) then 1 + LeadingWhitespace(s[1..]) else 0
  }

  /** The length of the white-space run that ends `s`. */
  function TrailingWhitespace(s: string): (k: nat)
    ensures k <= |s|
    ensures forall i :: |s| - k <= i < |s| ==> IsWhitespace(s[i])
    ensures k < |s| ==> !IsWhitespace(s[|s| - k - 1])
  {
    if s != [] && IsWhitespace(s[|s| - 1]) then 1 + TrailingWhitespace(s[..|s| - 1]) else 0
  }

  /** `s` without its leading white space. */
  function TrimStart(s: string): (r: string)
    ensures |r| <= |s| && r == s[|s| - |r|..]
    ensures r == [] || !IsWhitespace(r[0])
    ensures AllWhitespace(s[..|s| - |r|])
  {
    s[LeadingWhitespace(s)..]
  }

  /** `s` without its trailing white space. */
  function TrimEnd(s: string): (r: string)
    ensures |r| <= |s| && r == s[..|r|]
    ensures r == [] || !IsWhitespace(r[|r| - 1])
    ensures AllWhitespace(s[|r|..])
  {
    s[..|s| - TrailingWhitespace(s)]
  }

  /** `String.prototype.trim`. */
  function Trim(s: string): string {
    TrimEnd(TrimStart(s))
  }

  /** `s.trim().length > 0`: exactly when `s` holds a non-white-space character. */
  lemma TrimEmptyIff(s: string)
    ensures |Trim(s)| == 0 <==> AllWhitespace(s)
  {
    var t := TrimStart(s);
    if |Trim(s)| == 0 && t != [] {
      assert false;
    }
  }

  /** `s.replace(/\n/g, '')`. */
  function RemoveNewlines(s: string): (r: string)
    ensures forall i :: 0 <= i < |r| ==> r[i] != '\n'
    ensures s != [] && s[0] != '\n' ==> r != [] && r[0] == s[0]
    ensures s != [] && s[|s| - 1] != '\n' ==> r != [] && r[|r| - 1] == s[|s| - 1]
    ensures Visible(r) == Visible(s)
    ensures |s| == 1 ==> r == (if s[0] == '\n' then [] else s)
  {
    if s == [] then []
    else if s[0] == '\n' then RemoveNewlines(s[1..])
    else [s[0]] + RemoveNewlines(s[1..])
  }

  /** Text without line feeds is returned unchanged. */
  lemma {:induction false} RemoveNewlinesKeepsPlainText(s: string)
    requires '\n' !in s
    ensures RemoveNewlines(s) == s
  {
    if s != [] {
      assert '\n' !in s[1..];
      RemoveNewlinesKeepsPlainText(s[1..]);
      assert s == [s[0]] + s[1..];
    }
  }

  /** Removing line feeds works piecewise: the result for `a + b` is the results for `a` and `b`, joined. */
  lemma {:induction false} RemoveNewlinesAppend(a: string, b: string)
    ensures RemoveNewlines(a + b) == RemoveNewlines(a) + RemoveNewlines(b)
  {
    if a != [] {
      assert (a + b)[0] == a[0];
      assert (a + b)[1..] == a[1..] + b;
      RemoveNewlinesAppend(a[1..], b);
    } else {
      assert a + b == b;
    }
  }

  /** `s.replace(/\s+/g, ' ')`: every maximal run of white space becomes one space. */
  function CollapseWhitespace(s: string): (r: string)
    ensures (r == []) == (s == [])
    ensures s != [] ==> (IsWhitespace(r[0]) <==> IsWhitespace(s[0]))
    ensures s != [] ==> (IsWhitespace(r[|r| - 1]) <==> IsWhitespace(s[|s| - 1]))
    ensures forall i :: 0 <= i < |r| && IsWhitespace(r[i]) ==> r[i] == ' '
    ensures forall i :: 0 <= i < |r| - 1 ==> !(IsWhitespace(r[i]) && IsWhitespace(r[i + 1]))
    decreases |s|
  {
    if s == [] then []
    else if IsWhitespace(s[0]) then [' '] + CollapseWhitespace(TrimStart(s))
    else [s[0]] + CollapseWhitespace(s[1..])
  }

  /** Collapsing white space keeps every non-white-space character, in order. */
  lemma {:induction false} CollapseKeepsVisible(s: string)
    ensures Visible(CollapseWhitespace(s)) == Visible(s)
    decreases |s|
  {
    if s != [] {
      if IsWhitespace(s[0]) {
        var rest := TrimStart(s);
        CollapseKeepsVisible(rest);
        VisibleCons(' ', CollapseWhitespace(rest));
        VisibleSkipsWhitespace(s, |s| - |rest|);
      } else {
        CollapseKeepsVisible(s[1..]);
        VisibleCons(s[0], CollapseWhitespace(s[1..]));
      }
    }
  }

  /** One unit of a string's layout: a run of white space, or one visible character. */
  datatype Token = Gap | Char(c: char)

  function TokenOf(c: char): Token {
    if IsWhitespace(c) then Gap else Char(c)
  }

  /**
   * The layout of `s`, read one character at a time: each visible character, and one `Gap`
   * for each maximal run of white space (a white-space character followed by another adds nothing).
   */
  function Layout(s: string): (t: seq<Token>)
    ensures s != [] ==> t != []
  {
    if s == [] then []
    else if IsWhitespace(s[0]) && |s| > 1 && IsWhitespace(s[1]) then Layout(s[1..])
    else [TokenOf(s[0])] + Layout(s[1..])
  }

  /** Every white-space character is a plain space, and no two of them are adjacent. */
  predicate Collapsed(r: string) {
    && (forall i :: 0 <= i < |r| && IsWhitespace(r[i]) ==> r[i] == ' ')
    && (forall i :: 0 <= i < |r| - 1 ==> !(IsWhitespace(r[i]) && IsWhitespace(r[i + 1])))
  }

  /** A string that opens with white space has one `Gap`, then the layout of the rest after the run. */
  lemma {:induction false} LayoutOfLeadingRun(s: string)
    requires s != [] && IsWhitespace(s[0])
    ensures Layout(s) == [Gap] + Layout(TrimStart(s))
    decreases |s|
  {
    assert TrimStart(s) == TrimStart(s[1..]) by {
      assert s[1 + LeadingWhitespace(s[1..])..] == s[1..][LeadingWhitespace(s[1..])..];
    }
    if |s| > 1 && IsWhitespace(s[1]) {
      LayoutOfLeadingRun(s[1..]);
    } else {
      assert LeadingWhitespace(s[1..]) == 0;
    }
  }

  /** Collapsing white space keeps the layout: the same visible characters and the same gaps between them. */
  lemma {:induction false} CollapseKeepsLayout(s: string)
    ensures Layout(CollapseWhitespace(s)) == Layout(s)
    decreases |s|
  {
    if s != [] {
      var r := CollapseWhitespace(s);
      if IsWhitespace(s[0]) {
        var rest := TrimStart(s);
        CollapseKeepsLayout(rest);
        LayoutOfLeadingRun(s);
        assert r[1..] == CollapseWhitespace(rest);
      } else {
        CollapseKeepsLayout(s[1..]);
        assert r[1..] == CollapseWhitespace(s[1..]);
      }
    }
  }

  /** A collapsed string is determined by its layout. */
  lemma {:induction false} CollapsedLayoutDetermines(a: string, b: string)
    requires Collapsed(a) && Collapsed(b) && Layout(a) == Layout(b)
    ensures a == b
    decreases |a|
  {
    if a != [] && b != [] {
      assert Layout(a) == [TokenOf(a[0])] + Layout(a[1..]);
      assert Layout(b) == [TokenOf(b[0])] + Layout(b[1..]);
      assert Layout(a[1..]) == Layout(a)[1..] == Layout(b)[1..] == Layout(b[1..]);
      assert a[0] == b[0] by {
        assert TokenOf(a[0]) == Layout(a)[0] == Layout(b)[0] == TokenOf(b[0]);
      }
      assert Collapsed(a[1..]) by {
        forall i | 0 <= i < |a| - 2 ensures !(IsWhitespace(a[1..][i]) && IsWhitespace(a[1..][i + 1])) {
          assert a[1..][i] == a[i + 1] && a[1..][i + 1] == a[i + 2];
        }
      }
      assert Collapsed(b[1..]) by {
        forall i | 0 <= i < |b| - 2 ensures !(IsWhitespace(b[1..][i]) && IsWhitespace(b[1..][i + 1])) {
          assert b[1..][i] == b[i + 1] && b[1..][i + 1] == b[i + 2];
        }
      }
      CollapsedLayoutDetermines(a[1..], b[1..]);
      assert a == [a[0]] + a[1..] && b == [b[0]] + b[1..];
    }
  }

  /**
   * `replace(/\s+/g, ' ')` against a reference: its result is the one collapsed string with
   * the layout of `s`. Between two visible characters it leaves exactly one space if `s`
   * had white space there, and none if it had not.
   */
  lemma CollapseIsUniqueCollapsedLayout(s: string, r: string)
    requires Collapsed(r) && Layout(r) == Layout(s)
    ensures r == CollapseWhitespace(s)
  {
    CollapseKeepsLayout(s);
    CollapsedLayoutDetermines(r, CollapseWhitespace(s));
  }

  lemma VisibleCons(c: char, t: string)
    ensures Visible([c] + t) == if IsWhitespace(c) then Visible(t) else [c] + Visible(t)
  {
    assert ([c] + t)[1..] == t;
  }

  /** Dropping a white-space prefix does not change the visible characters. */
  lemma {:induction false} VisibleSkipsWhitespace(s: string, k: nat)
    requires k <= |s| && AllWhitespace(s[..k])
    ensures Visible(s[k..]) == Visible(s)
  {
    if k > 0 {
      assert s[..k][0] == s[0];
      assert s[1..][..k - 1] == s[..k][1..];
      VisibleSkipsWhitespace(s[1..], k - 1);
      assert s[1..][k - 1..] == s[k..];
    }
  }

  lemma {:induction false} VisibleAppend(a: string, b: string)
    ensures Visible(a + b) == Visible(a) + Visible(b)
  {
    if a != [] {
      assert (a + b)[1..] == a[1..] + b;
      VisibleAppend(a[1..], b);
    } else {
      assert a + b == b;
    }
  }

  lemma {:induction false} VisibleOfWhitespace(s: string)
    requires AllWhitespace(s)
    ensures Visible(s) == []
  {
    if s != [] {
      assert AllWhitespace(s[1..]) by {
        forall i | 0 <= i < |s| - 1 ensures IsWhitespace(s[1..][i]) { assert s[1..][i] == s[i + 1]; }
      }
      VisibleOfWhitespace(s[1..]);
    }
  }

  lemma TrimStartKeepsVisible(s: string)
    ensures Visible(TrimStart(s)) == Visible(s)
  {
    var t := TrimStart(s);
    var w := s[..|s| - |t|];
    assert s == w + t;
    VisibleAppend(w, t);
    VisibleOfWhitespace(w);
  }

  lemma TrimEndKeepsVisible(s: string)
    ensures Visible(TrimEnd(s)) == Visible(s)
  {
    var t := TrimEnd(s);
    var w := s[|t|..];
    assert s == t + w;
    VisibleAppend(t, w);
    VisibleOfWhitespace(w);
  }

  /** Trimming removes white space only. */
  lemma TrimKeepsVisible(s: string)
    ensures Visible(Trim(s)) == Visible(s)
  {
    TrimStartKeepsVisible(s);
    TrimEndKeepsVisible(TrimStart(s));
  }
}
