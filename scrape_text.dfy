/**
 * The scraper's text helpers: start-casing, category formatting, whitespace
 * cleaning, safe string conversion, label fallbacks, object compaction and
 * the category-segment labels.
 */
module ScrapeText {
  import opened Common

  // ---------------------------------------------------------------------------
  // startCase
  // ---------------------------------------------------------------------------

  /** The separators of `/[\s_-]+/`. */
  predicate IsWordSep(c: char) {
    IsSpace(c) || c == '_' || c == '-'
  }

  predicate IsWord(w: string) {
    w != [] && forall j :: 0 <= j < |w| ==> !IsWordSep(w[j])
  }

  predicate AllSeps(s: string) {
    forall i :: 0 <= i < |s| ==> IsWordSep(s[i])
  }

  /** `split(/[\s_-]+/).filter(Boolean)`: the maximal runs of non-separators,
      in order. */
  function Words(s: string): (r: seq<string>)
    ensures forall k :: 0 <= k < |r| ==> IsWord(r[k])
    ensures forall k :: 0 <= k < |r| ==> forall c :: c in r[k] ==> c in s
    ensures |s| > 0 && !IsWordSep(s[0]) ==> |r| > 0 && |r[0]| > 0 && r[0][0] == s[0]
    decreases |s|
  {
    if |s| == 0 then []
    else if IsWordSep(s[0]) then Words(s[1..])
    else
      var rest := Words(s[1..]);
      if |s| > 1 && !IsWordSep(s[1]) then [[s[0]] + rest[0]] + rest[1..]
      else [[s[0]]] + rest
  }

  /** There are no words exactly when the input is all separators. */
  lemma {:induction false} WordsEmptyIff(s: string)
    ensures Words(s) == [] <==> AllSeps(s)
    decreases |s|
  {
    if |s| > 0 {
      WordsEmptyIff(s[1..]);
      if IsWordSep(s[0]) {
        assert AllSeps(s) <==> AllSeps(s[1..]) by {
          if AllSeps(s[1..]) {
            forall i | 0 <= i < |s| ensures IsWordSep(s[i]) {
              if i > 0 {
                assert s[i] == s[1..][i - 1];
              }
            }
          }
        }
      }
    }
  }

  /** A word followed by a space: the word is split off whole. */
  lemma {:induction false} WordsAfterWord(w: string, rest: string)
    requires IsWord(w)
    ensures Words(w + " " + rest) == [w] + Words(rest)
    decreases |w|
  {
    var s := w + " " + rest;
    assert s[0] == w[0];
    if |w| == 1 {
      assert s[1..] == " " + rest;
      assert (" " + rest)[1..] == rest;
      assert Words(" " + rest) == Words(rest);
      assert w == [w[0]];
    } else {
      assert s[1..] == w[1..] + " " + rest;
      assert s[1] == w[1];
      WordsAfterWord(w[1..], rest);
      assert w == [w[0]] + w[1..];
    }
  }

  lemma {:induction false} WordsOfWord(w: string)
    requires IsWord(w)
    ensures Words(w) == [w]
    decreases |w|
  {
    if |w| > 1 {
      WordsOfWord(w[1..]);
      assert w[1] == w[1..][0];
      assert w == [w[0]] + w[1..];
    } else {
      assert w[1..] == [];
      assert w == [w[0]];
    }
  }

  /** Words joined by single spaces split back into the same words. */
  lemma {:induction false} WordsOfJoin(ws: seq<string>)
    requires forall k :: 0 <= k < |ws| ==> IsWord(ws[k])
    ensures Words(Join(ws, " ")) == ws
    decreases |ws|
  {
    if |ws| == 1 {
      WordsOfWord(ws[0]);
    } else if |ws| > 1 {
      WordsOfJoin(ws[1..]);
      WordsAfterWord(ws[0], Join(ws[1..], " "));
      assert ws == [ws[0]] + ws[1..];
    }
  }

  /** `part.charAt(0).toUpperCase() + part.slice(1)`. */
  function Capitalize(w: string): (r: string)
    ensures |r| == |w|
    ensures |w| > 0 ==> r[0] == UpperChar(w[0]) && r[1..] == w[1..]
  {
    if |w| == 0 then [] else [UpperChar(w[0])] + w[1..]
  }

  function Caps(ws: seq<string>): (r: seq<string>)
    ensures |r| == |ws| && forall k :: 0 <= k < |ws| ==> r[k] == Capitalize(ws[k])
  {
    seq(|ws|, k requires 0 <= k < |ws| => Capitalize(ws[k]))
  }

  lemma UpperKeepsWordChar(c: char)
    ensures IsWordSep(UpperChar(c)) <==> IsWordSep(c)
    ensures IsWordSep(LowerChar(c)) <==> IsWordSep(c)
  {
  }

  lemma CapsAreWords(ws: seq<string>)
    requires forall k :: 0 <= k < |ws| ==> IsWord(ws[k])
    ensures forall k :: 0 <= k < |ws| ==> IsWord(Caps(ws)[k])
  {
    forall k | 0 <= k < |ws| ensures IsWord(Caps(ws)[k]) {
      UpperKeepsWordChar(ws[k][0]);
      var c := Caps(ws)[k];
      forall j | 0 <= j < |c| ensures !IsWordSep(c[j]) {
        if j > 0 {
          assert c[j] == c[1..][j - 1] == ws[k][1..][j - 1];
        }
      }
    }
  }

  /** `startCase`: lower-case, split into words, capitalise each word and
      join them with single spaces. */
  function StartCase(s: string): (r: string)
  {
    Join(Caps(Words(ToLower(s))), " ")
  }

  lemma LowerKeepsAllSeps(s: string)
    ensures AllSeps(ToLower(s)) <==> AllSeps(s)
  {
    forall i | 0 <= i < |s| ensures IsWordSep(ToLower(s)[i]) <==> IsWordSep(s[i]) {
      UpperKeepsWordChar(s[i]);
    }
  }

  lemma {:induction false} JoinEmptyIff(ws: seq<string>, sep: string)
    requires forall k :: 0 <= k < |ws| ==> ws[k] != []
    ensures Join(ws, sep) == [] <==> ws == []
    decreases |ws|
  {
    if |ws| > 1 {
      JoinEmptyIff(ws[1..], sep);
    }
  }

  /** The start-cased text is empty exactly when the input holds no word
      character, and otherwise it is its capitalised words separated by
      single spaces. */
  lemma StartCaseWords(s: string)
    ensures StartCase(s) == [] <==> AllSeps(s)
    ensures !AllSeps(s) ==> Split(StartCase(s), ' ') == Caps(Words(ToLower(s)))
    ensures Words(StartCase(s)) == Caps(Words(ToLower(s)))
  {
    var ws := Words(ToLower(s));
    CapsAreWords(ws);
    WordsEmptyIff(ToLower(s));
    LowerKeepsAllSeps(s);
    JoinEmptyIff(Caps(ws), " ");
    WordsOfJoin(Caps(ws));
    if !AllSeps(s) {
      SplitJoin(Caps(ws), ' ');
    }
  }

  predicate LowerWord(w: string) {
    forall j :: 0 <= j < |w| ==> LowerChar(w[j]) == w[j]
  }

  lemma LowerUpperLower(c: char)
    requires LowerChar(c) == c
    ensures LowerChar(UpperChar(c)) == c
  {
  }

  lemma LowerOfJoin(ws: seq<string>)
    ensures ToLower(Join(ws, " ")) == Join(seq(|ws|, k requires 0 <= k < |ws| => ToLower(ws[k])), " ")
    decreases |ws|
  {
    if |ws| > 1 {
      var lows := seq(|ws|, k requires 0 <= k < |ws| => ToLower(ws[k]));
      var tail := seq(|ws| - 1, k requires 0 <= k < |ws| - 1 => ToLower(ws[1..][k]));
      LowerOfJoin(ws[1..]);
      assert lows[1..] == tail;
      assert ToLower(Join(ws, " ")) == ToLower(ws[0]) + " " + ToLower(Join(ws[1..], " "));
    }
  }

  lemma WordsOfLowerAreLower(s: string)
    ensures forall k :: 0 <= k < |Words(ToLower(s))| ==> LowerWord(Words(ToLower(s))[k])
  {
    var t := ToLower(s);
    forall k | 0 <= k < |Words(t)| ensures LowerWord(Words(t)[k]) {
      var w := Words(t)[k];
      forall j | 0 <= j < |w| ensures LowerChar(w[j]) == w[j] {
        assert w[j] in w;
        var i :| 0 <= i < |t| && t[i] == w[j];
      }
    }
  }

  /** Start-casing a start-cased text changes nothing. */
  lemma StartCaseIdempotent(s: string)
    ensures StartCase(StartCase(s)) == StartCase(s)
  {
    var ws := Words(ToLower(s));
    var cs := Caps(ws);
    CapsAreWords(ws);
    WordsOfLowerAreLower(s);
    var lows := seq(|cs|, k requires 0 <= k < |cs| => ToLower(cs[k]));
    LowerOfJoin(cs);
    forall k | 0 <= k < |cs| ensures lows[k] == ws[k] {
      LowerUpperLower(ws[k][0]);
      assert lows[k][0] == ws[k][0];
      forall j | 1 <= j < |ws[k]| ensures lows[k][j] == ws[k][j] {
        assert cs[k][j] == cs[k][1..][j - 1] == ws[k][1..][j - 1];
      }
    }
    assert lows == ws;
    WordsOfJoin(ws);
  }

  // ---------------------------------------------------------------------------
  // formatCategory and splitCategorySegments
  // ---------------------------------------------------------------------------

  lemma {:induction false} JoinEnds(ws: seq<string>, sep: string)
    requires |ws| >= 1 && forall k :: 0 <= k < |ws| ==> ws[k] != []
    ensures var j := Join(ws, sep);
      |j| > 0 && j[0] == ws[0][0] && j[|j| - 1] == ws[|ws| - 1][|ws[|ws| - 1]| - 1]
    decreases |ws|
  {
    if |ws| > 1 {
      JoinEnds(ws[1..], sep);
    }
  }

  lemma {:induction false} JoinChars(ws: seq<string>, sep: string, c: char)
    requires c in Join(ws, sep)
    ensures c in sep || exists k :: 0 <= k < |ws| && c in ws[k]
    decreases |ws|
  {
    if |ws| > 1 {
      var tail := Join(ws[1..], sep);
      if c !in ws[0] && c !in sep {
        assert c in tail;
        JoinChars(ws[1..], sep, c);
        var k :| 0 <= k < |ws[1..]| && c in ws[1..][k];
        assert c in ws[k + 1];
      }
    }
  }

  lemma CapitalizeChars(w: string, c: char)
    requires c in Capitalize(w)
    ensures c in w || (|w| > 0 && c == UpperChar(w[0]))
  {
    var r := Capitalize(w);
    var j :| 0 <= j < |r| && r[j] == c;
    if j > 0 {
      assert r[j] == r[1..][j - 1] == w[1..][j - 1];
    }
  }

  /** Every character of a start-cased text is a space or a case-mapped
      character of the input. */
  lemma StartCaseChar(s: string, c: char)
    requires c in StartCase(s)
    ensures c == ' ' || exists i :: 0 <= i < |s| && (c == LowerChar(s[i]) || c == UpperChar(LowerChar(s[i])))
  {
    var ws := Words(ToLower(s));
    var cs := Caps(ws);
    JoinChars(cs, " ", c);
    if c != ' ' {
      var k :| 0 <= k < |cs| && c in cs[k];
      CapitalizeChars(ws[k], c);
      var d := if c in ws[k] then c else ws[k][0];
      assert d in ws[k];
      var i :| 0 <= i < |s| && ToLower(s)[i] == d;
    }
  }

  lemma StartCaseNoSlash(s: string)
    requires NoSlash(s)
    ensures NoSlash(StartCase(s))
  {
    var r := StartCase(s);
    forall j | 0 <= j < |r| ensures r[j] != '/' {
      StartCaseChar(s, r[j]);
    }
  }

  /** A start-cased text has no blank at either end and holds a "/" only
      when its input does. */
  lemma StartCaseIsSegment(s: string)
    requires !AllSeps(s) && NoSlash(s)
    ensures Segment(StartCase(s))
  {
    var ws := Words(ToLower(s));
    StartCaseWords(s);
    CapsAreWords(ws);
    JoinEnds(Caps(ws), " ");
    StartCaseNoSlash(s);
  }

  /** `.map(startCase).filter(Boolean)` over the "-" pieces. */
  function StartCasedSegments(pieces: seq<string>): (r: seq<string>)
    ensures |r| <= |pieces|
    ensures forall k :: 0 <= k < |r| ==> r[k] != []
    ensures (forall k :: 0 <= k < |pieces| ==> NoSlash(pieces[k])) ==> forall k :: 0 <= k < |r| ==> Segment(r[k])
  {
    if |pieces| == 0 then []
    else
      var head := StartCase(pieces[0]);
      StartCaseWords(pieces[0]);
      assert NoSlash(pieces[0]) && head != [] ==> Segment(head) by {
        if NoSlash(pieces[0]) && head != [] {
          StartCaseIsSegment(pieces[0]);
        }
      }
      (if head == [] then [] else [head]) + StartCasedSegments(pieces[1..])
  }

  /** `formatCategory`: absent for a missing or empty input, and otherwise
      the start-cased "-" segments joined by " / ", absent when none is
      left. */
  function FormatCategory(raw: Option<string>): (r: Option<string>)
    ensures raw.None? || raw.value == [] ==> r.None?
    ensures raw.Some? && raw.value != [] ==>
      (r.Some? <==> StartCasedSegments(Split(raw.value, '-')) != [])
    ensures r.Some? ==> r.value != [] && r.value == Join(StartCasedSegments(Split(raw.value, '-')), " / ")
  {
    if raw.None? || raw.value == [] then None
    else
      var segments := StartCasedSegments(Split(raw.value, '-'));
      JoinEmptyIff(segments, " / ");
      if |segments| == 0 then None else Some(Join(segments, " / "))
  }

  /** `.map(trim).filter(non-empty)`. */
  function TrimmedNonEmpty(pieces: seq<string>): (r: seq<string>)
    ensures |r| <= |pieces|
    ensures forall k :: 0 <= k < |r| ==> r[k] != [] && Trim(r[k]) == r[k]
  {
    if |pieces| == 0 then []
    else
      var head := Trim(pieces[0]);
      assert head != [] ==> Trim(head) == head by {
        if head != [] {
          TrimOfTrimmed(head);
        }
      }
      (if head == [] then [] else [head]) + TrimmedNonEmpty(pieces[1..])
  }

  /** `splitCategorySegments`. */
  function SplitCategorySegments(path: Option<string>): (r: seq<string>)
    ensures path.None? || path.value == [] ==> r == []
    ensures forall k :: 0 <= k < |r| ==> r[k] != [] && Trim(r[k]) == r[k]
  {
    if path.None? || path.value == [] then [] else TrimmedNonEmpty(Split(path.value, '/'))
  }

  lemma {:induction false} TrimStartPadded(p: string, x: string)
    requires AllSpace(p) && (x == [] || !IsSpace(x[0]))
    ensures TrimStart(p + x) == x
    decreases |p|
  {
    if |p| > 0 {
      assert (p + x)[1..] == p[1..] + x;
      TrimStartPadded(p[1..], x);
    } else {
      assert p + x == x;
    }
  }

  lemma {:induction false} TrimEndPadded(x: string, q: string)
    requires AllSpace(q) && (x == [] || !IsSpace(x[|x| - 1]))
    ensures TrimEnd(x + q) == x
    decreases |q|
  {
    if |q| > 0 {
      assert (x + q)[..|x + q| - 1] == x + q[..|q| - 1];
      TrimEndPadded(x, q[..|q| - 1]);
    } else {
      assert x + q == x;
    }
  }

  /** Blanks around a trimmed, non-empty text are exactly what trimming
      removes. */
  lemma TrimPadded(p: string, x: string, q: string)
    requires AllSpace(p) && AllSpace(q)
    requires x != [] && !IsSpace(x[0]) && !IsSpace(x[|x| - 1])
    ensures Trim(p + x + q) == x
  {
    assert p + x + q == p + (x + q);
    TrimStartPadded(p, x + q);
    TrimEndPadded(x, q);
  }

  predicate NoSlash(s: string) {
    '/' !in s
  }

  predicate Segment(x: string) {
    x != [] && !IsSpace(x[0]) && !IsSpace(x[|x| - 1]) && NoSlash(x)
  }

  lemma TrimmedNonEmptyCons(x: string, tail: seq<string>)
    ensures TrimmedNonEmpty([x] + tail)
      == (if Trim(x) == [] then [] else [Trim(x)]) + TrimmedNonEmpty(tail)
  {
    assert ([x] + tail)[1..] == tail;
  }

  lemma SlashJoinStep(p: string, segs: seq<string>)
    requires |segs| >= 2
    ensures p + Join(segs, " / ") == (p + segs[0] + " ") + ['/'] + (" " + Join(segs[1..], " / "))
  {
  }

  lemma NoSlashPadded(p: string, x: string, q: string)
    requires p == [] || p == " "
    requires q == [] || q == " "
    requires NoSlash(x)
    ensures NoSlash(p + x + q)
  {
  }

  lemma SegmentsOfOne(p: string, x: string)
    requires p == [] || p == " "
    requires Segment(x)
    ensures TrimmedNonEmpty(Split(p + x, '/')) == [x]
  {
    NoSlashPadded(p, x, "");
    assert p + x + "" == p + x;
    SplitNoSep(p + x, '/');
    TrimPadded(p, x, "");
    TrimmedNonEmptyCons(p + x, []);
  }

  lemma SegmentsStep(p: string, x: string, rest: string)
    requires p == [] || p == " "
    requires Segment(x)
    ensures TrimmedNonEmpty(Split((p + x + " ") + ['/'] + (" " + rest), '/'))
      == [x] + TrimmedNonEmpty(Split(" " + rest, '/'))
  {
    NoSlashPadded(p, x, " ");
    SplitAfterPiece(p + x + " ", '/', " " + rest);
    TrimPadded(p, x, " ");
    TrimmedNonEmptyCons(p + x + " ", Split(" " + rest, '/'));
  }

  lemma {:induction false} SegmentsOfJoin(p: string, segs: seq<string>)
    requires p == [] || p == " "
    requires |segs| >= 1 && forall k :: 0 <= k < |segs| ==> Segment(segs[k])
    ensures TrimmedNonEmpty(Split(p + Join(segs, " / "), '/')) == segs
    decreases |segs|
  {
    if |segs| == 1 {
      assert Join(segs, " / ") == segs[0];
      SegmentsOfOne(p, segs[0]);
    } else {
      var rest := Join(segs[1..], " / ");
      calc {
        TrimmedNonEmpty(Split(p + Join(segs, " / "), '/'));
        { SlashJoinStep(p, segs); }
        TrimmedNonEmpty(Split((p + segs[0] + " ") + ['/'] + (" " + rest), '/'));
        { SegmentsStep(p, segs[0], rest); }
        [segs[0]] + TrimmedNonEmpty(Split(" " + rest, '/'));
        { assert forall k :: 0 <= k < |segs[1..]| ==> Segment(segs[1..][k]);
          SegmentsOfJoin(" ", segs[1..]); }
        [segs[0]] + segs[1..];
      }
      assert segs == [segs[0]] + segs[1..];
    }
  }

  /** Splitting a category path produced from "/"-free segments gives those
      segments back. */
  lemma CategoryPathSegments(segs: seq<string>)
    requires |segs| >= 1 && forall k :: 0 <= k < |segs| ==> Segment(segs[k])
    ensures SplitCategorySegments(Some(Join(segs, " / "))) == segs
  {
    var path := Join(segs, " / ");
    JoinEmptyIff(segs, " / ");
    SegmentsOfJoin("", segs);
    assert "" + path == path;
  }

  /** The category path the scraper builds, split on "/", gives back its
      start-cased segments when the raw category holds no "/". */
  lemma FormatCategorySegments(raw: string)
    requires NoSlash(raw) && FormatCategory(Some(raw)).Some?
    ensures SplitCategorySegments(FormatCategory(Some(raw))) == StartCasedSegments(Split(raw, '-'))
  {
    var pieces := Split(raw, '-');
    assert forall k :: 0 <= k < |pieces| ==> NoSlash(pieces[k]);
    CategoryPathSegments(StartCasedSegments(pieces));
  }

  // ---------------------------------------------------------------------------
  // cleanText
  // ---------------------------------------------------------------------------

  /** `replace(/\s+/g, ' ')`: each maximal run of whitespace becomes one
      space. */
  function Collapse(s: string): (r: string)
    ensures |r| <= |s|
    ensures |s| > 0 && !IsSpace(s[0]) ==> |r| > 0 && r[0] == s[0]
    ensures |s| > 0 && !IsSpace(s[|s| - 1]) ==> |r| > 0 && r[|r| - 1] == s[|s| - 1]
    decreases |s|
  {
    if |s| == 0 then []
    else if IsSpace(s[0]) then
      var t := TrimStart(s);
      assert !IsSpace(s[|s| - 1]) ==> |t| > 0 && t[|t| - 1] == s[|s| - 1] by {
        TrimStartSuffix(s);
      }
      [' '] + Collapse(t)
    else [s[0]] + Collapse(s[1..])
  }

  /** Whitespace only as single spaces. */
  predicate Collapsed(s: string) {
    (forall i :: 0 <= i < |s| && IsSpace(s[i]) ==> s[i] == ' ')
    && (forall i :: 0 <= i < |s| - 1 ==> !(IsSpace(s[i]) && IsSpace(s[i + 1])))
  }

  lemma {:induction false} CollapseIsCollapsed(s: string)
    ensures Collapsed(Collapse(s))
    decreases |s|
  {
    if |s| > 0 {
      var r := Collapse(s);
      if IsSpace(s[0]) {
        var t := TrimStart(s);
        CollapseIsCollapsed(t);
        assert r[1..] == Collapse(t);
      } else {
        CollapseIsCollapsed(s[1..]);
        assert r[1..] == Collapse(s[1..]);
      }
    }
  }

  lemma {:induction false} CollapseOfCollapsed(s: string)
    requires Collapsed(s)
    ensures Collapse(s) == s
    decreases |s|
  {
    if |s| > 0 {
      if IsSpace(s[0]) {
        assert |s| > 1 ==> !IsSpace(s[1]);
        assert TrimStart(s) == s[1..];
      }
      CollapseOfCollapsed(s[1..]);
      assert s == [s[0]] + s[1..];
    }
  }

  /** `cleanText`: absent for a missing, empty or blank input; otherwise the
      trimmed text with its whitespace runs collapsed. */
  function CleanText(value: Option<string>): (r: Option<string>)
    ensures r.None? <==> value.None? || IsBlank(value.value)
    ensures r.Some? ==> r.value != [] && !IsSpace(r.value[0]) && !IsSpace(r.value[|r.value| - 1])
    ensures r.Some? ==> Collapsed(r.value)
  {
    if value.None? || value.value == [] then None
    else
      var trimmed := Trim(value.value);
      if |trimmed| == 0 then None
      else
        CollapseIsCollapsed(trimmed);
        Some(Collapse(trimmed))
  }

  /** Cleaning a cleaned text changes nothing. */
  lemma CleanTextIdempotent(value: Option<string>)
    requires CleanText(value).Some?
    ensures CleanText(CleanText(value)) == CleanText(value)
  {
    var c := CleanText(value).value;
    TrimOfTrimmed(c);
    CollapseOfCollapsed(c);
  }

  // ---------------------------------------------------------------------------
  // toStringSafe, ensureLabel, compactObject
  // ---------------------------------------------------------------------------

  /** A scraped JavaScript value; numbers are integral, `Strings` is an
      array of strings and `Other` any other object. */
  datatype JsValue =
    | Undefined
    | Null
    | Str(s: string)
    | Num(n: int)
    | BigInt(b: int)
    | Strings(items: seq<string>)
    | Other

  /** `toStringSafe`: strings as they are, numbers in decimal, anything else
      absent. */
  function ToStringSafe(v: JsValue): (r: Option<string>)
    ensures r.Some? <==> v.Str? || v.Num? || v.BigInt?
    ensures v.Str? ==> r == Some(v.s)
    ensures v.Num? ==> r == Some(IntToString(v.n))
    ensures v.BigInt? ==> r == Some(IntToString(v.b))
  {
    match v
    case Str(s) => Some(s)
    case Num(n) => Some(IntToString(n))
    case BigInt(b) => Some(IntToString(b))
    case _ => None
  }

  /** `ensureLabel`: the trimmed value when it is non-blank, else the
      fallback. */
  function EnsureLabel(value: Option<string>, fallback: string): (r: string)
    ensures value.Some? && Trim(value.value) != [] ==> r == Trim(value.value)
    ensures value.None? || Trim(value.value) == [] ==> r == fallback
  {
    if value.Some? && Trim(value.value) != [] then Trim(value.value) else fallback
  }

  /** The label pipeline applies `ensureLabel` twice with the same fallback;
      for a trimmed, non-empty fallback the second application changes
      nothing. */
  lemma EnsureLabelTwice(value: Option<string>, fallback: string)
    requires fallback != [] && Trim(fallback) == fallback
    ensures EnsureLabel(Some(EnsureLabel(value, fallback)), fallback) == EnsureLabel(value, fallback)
  {
    if value.Some? && !IsBlank(value.value) {
      TrimOfTrimmed(Trim(value.value));
    }
  }

  /** `compactObject`: exactly the keys whose value is not `undefined`, with
      their values; `null` is kept. */
  function CompactObject(m: map<string, JsValue>): (r: map<string, JsValue>)
    ensures forall k :: k in r <==> k in m && !m[k].Undefined?
    ensures forall k :: k in r ==> r[k] == m[k]
  {
    map k | k in m && !m[k].Undefined? :: m[k]
  }

  /** Compacting twice is compacting once. */
  lemma CompactObjectIdempotent(m: map<string, JsValue>)
    ensures CompactObject(CompactObject(m)) == CompactObject(m)
  {
  }

  // ---------------------------------------------------------------------------
  // Category labels
  // ---------------------------------------------------------------------------

  /** `deriveGenderLabel`: the start-cased gender text when it is present
      and non-empty, else the first category segment. */
  function DeriveGenderLabel(genderText: Option<string>, segments: seq<string>): (r: Option<string>)
    ensures genderText.Some? && genderText.value != [] ==> r == Some(StartCase(genderText.value))
    ensures (genderText.None? || genderText.value == []) && |segments| > 0 ==> r == Some(segments[0])
    ensures r.None? <==> (genderText.None? || genderText.value == []) && |segments| == 0
  {
    if genderText.Some? && genderText.value != [] then Some(StartCase(genderText.value))
    else if |segments| > 0 then Some(segments[0])
    else None
  }

  /** `deriveTypeLabel`: from the third segment on, joined by " / ", when
      there are at least three; else the last segment; absent for none. */
  function DeriveTypeLabel(segments: seq<string>): (r: Option<string>)
    ensures r.None? <==> |segments| == 0
    ensures |segments| >= 3 ==> r == Some(Join(segments[2..], " / "))
    ensures 1 <= |segments| <= 2 ==> r == Some(segments[|segments| - 1])
  {
    if |segments| >= 3 then Some(Join(segments[2..], " / "))
    else if |segments| >= 2 then Some(segments[|segments| - 1])
    else if |segments| > 0 then Some(segments[|segments| - 1])
    else None
  }

  /** For a three-level path the type is its last segment, the same as for
      a two-level one. */
  lemma TypeOfThreeLevels(a: string, b: string, c: string)
    ensures DeriveTypeLabel([a, b, c]) == Some(c) == DeriveTypeLabel([b, c])
  {
    assert [a, b, c][2..] == [c];
  }

  /** The type label the caller uses: `deriveTypeLabel ?? 'Chaussures'`. */
  function TypeLabelOrDefault(segments: seq<string>): (r: string)
    ensures |segments| == 0 ==> r == "Chaussures"
    ensures |segments| > 0 ==> Some(r) == DeriveTypeLabel(segments)
  {
    DeriveTypeLabel(segments).GetOr("Chaussures")
  }
}
