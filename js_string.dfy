/** The JavaScript string operations the generator relies on, written out over
    Dafny strings: `includes`, `startsWith`, `join`, `split`, `trim`, the
    ASCII part of `toLowerCase`, integer formatting, and the handful of
    regular-expression replacements the renderers and the post-processing
    apply (each one is a recursive function that follows how the JavaScript
    regex engine scans its input). */
module JsString {
  import opened Wrappers

  // ---------------------------------------------------------------------
  // Searching
  // ---------------------------------------------------------------------

  /** `s.startsWith(p)` */
  predicate StartsWith(s: string, p: string)
  {
    |p| <= |s| && s[..|p|] == p
  }

  /** `s.includes(t)` */
  predicate Contains(s: string, t: string)
  {
    exists i | 0 <= i <= |s| :: StartsWith(s[i..], t)
  }

  lemma ContainsSelf(t: string)
    ensures Contains(t, t)
  {
    assert StartsWith(t[0..], t);
  }

  /** A string that holds a non-empty string is not empty. */
  lemma ContainsNonEmpty(s: string, t: string)
    requires Contains(s, t) && t != ""
    ensures s != ""
  {
    var i :| 0 <= i <= |s| && StartsWith(s[i..], t);
  }

  /** A string found in one part of a concatenation is found in the whole. */
  lemma ContainsConcat(a: string, b: string, t: string)
    ensures Contains(a, t) ==> Contains(a + b, t)
    ensures Contains(b, t) ==> Contains(a + b, t)
  {
    if Contains(a, t) {
      var i :| 0 <= i <= |a| && StartsWith(a[i..], t);
      assert (a + b)[i..][..|t|] == a[i..][..|t|];
      assert StartsWith((a + b)[i..], t);
    }
    if Contains(b, t) {
      var i :| 0 <= i <= |b| && StartsWith(b[i..], t);
      assert (a + b)[|a| + i..] == b[i..];
      assert StartsWith((a + b)[|a| + i..], t);
    }
  }

  /** Every string contains itself inside any surrounding text. */
  lemma ContainsInfix(a: string, t: string, b: string)
    ensures Contains(a + t + b, t)
  {
    ContainsSelf(t);
    ContainsConcat(t, b, t);
    ContainsConcat(a, t + b, t);
    assert a + t + b == a + (t + b);
  }

  /** A prefix stays a prefix when more text follows. */
  lemma StartsWithConcat(s: string, p: string, x: string)
    requires StartsWith(s, p)
    ensures StartsWith(s + x, p)
  {
    assert (s + x)[..|p|] == s[..|p|];
  }

  /** Every string is found at the end of a concatenation. */
  lemma ContainsEnd(a: string, t: string)
    ensures Contains(a + t, t)
  {
    assert (a + t)[|a|..] == t;
    assert StartsWith((a + t)[|a|..], t);
  }

  /** A string found inside a string found in `s` is found in `s`. */
  lemma ContainsTrans(s: string, t: string, u: string)
    requires Contains(s, t) && Contains(t, u)
    ensures Contains(s, u)
  {
    var i :| 0 <= i <= |s| && StartsWith(s[i..], t);
    var j :| 0 <= j <= |t| && StartsWith(t[j..], u);
    forall k | 0 <= k < |u| ensures s[i + j + k] == u[k] {
      assert u[k] == t[j + k] == s[i..][..|t|][j + k];
    }
    assert s[i + j..][..|u|] == u;
  }

  /** `a || b` on strings: the empty string is the only falsy one. */
  function OrElse(a: string, b: string): (r: string)
    ensures r == b <==> a == "" || a == b
    ensures r == "" <==> a == "" && b == ""
  {
    if a != "" then a else b
  }

  /** The position of the first occurrence of `t` in `s` at or after `from`
      (`s.indexOf(t, from)`, with -1 as None). */
  function IndexOf(s: string, t: string, from: nat): (r: Option<nat>)
    decreases |s| - from
    ensures r.Some? ==> from <= r.value <= |s| && StartsWith(s[r.value..], t)
    ensures r.Some? ==> forall k {:trigger StartsWith(s[k..], t)} | from <= k < r.value :: !StartsWith(s[k..], t)
    ensures r.None? ==> forall k {:trigger StartsWith(s[k..], t)} | from <= k <= |s| :: !StartsWith(s[k..], t)
  {
    if from > |s| then None
    else if StartsWith(s[from..], t) then Some(from)
    else IndexOf(s, t, from + 1)
  }

  /** The position of the last occurrence of `t` in `s` at or after `from`. */
  function LastIndexOf(s: string, t: string, from: nat): (r: Option<nat>)
    decreases |s| - from
    ensures r.Some? ==> from <= r.value <= |s| && StartsWith(s[r.value..], t)
    ensures r.Some? ==> forall k {:trigger StartsWith(s[k..], t)} | r.value < k <= |s| :: !StartsWith(s[k..], t)
    ensures r.None? ==> forall k {:trigger StartsWith(s[k..], t)} | from <= k <= |s| :: !StartsWith(s[k..], t)
  {
    if from > |s| then None
    else
      match LastIndexOf(s, t, from + 1)
      case Some(k) => Some(k)
      case None => if StartsWith(s[from..], t) then Some(from) else None
  }

  // ---------------------------------------------------------------------
  // join and split
  // ---------------------------------------------------------------------

  /** `parts.join(sep)` */
  function Join(parts: seq<string>, sep: string): (r: string)
    ensures |parts| == 0 ==> r == ""
    ensures |parts| == 1 ==> r == parts[0]
    ensures |parts| >= 1 ==> StartsWith(r, parts[0])
  {
    if |parts| == 0 then ""
    else if |parts| == 1 then parts[0]
    else parts[0] + sep + Join(parts[1..], sep)
  }

  /** The joined string is empty exactly when there is nothing to show: no
      part, or a single empty part (the separator is never empty here). */
  lemma {:induction false} JoinEmpty(parts: seq<string>, sep: string)
    requires sep != ""
    ensures Join(parts, sep) == "" <==> (|parts| == 0 || (|parts| == 1 && parts[0] == ""))
  {
    if |parts| >= 2 {
      assert |Join(parts, sep)| >= |sep|;
    }
  }

  /** Every part of a join appears in the joined string. */
  lemma {:induction false} JoinContains(parts: seq<string>, sep: string, i: nat)
    requires i < |parts|
    ensures Contains(Join(parts, sep), parts[i])
  {
    if |parts| == 1 {
      ContainsSelf(parts[0]);
    } else if i == 0 {
      ContainsSelf(parts[0]);
      ContainsConcat(parts[0], sep + Join(parts[1..], sep), parts[0]);
      assert Join(parts, sep) == parts[0] + (sep + Join(parts[1..], sep));
    } else {
      JoinContains(parts[1..], sep, i - 1);
      ContainsConcat(parts[0] + sep, Join(parts[1..], sep), parts[i]);
    }
  }

  /** A template literal: its pieces, literal text and interpolated values,
      written one after another. */
  function Template(pieces: seq<string>): (r: string)
    ensures |pieces| > 0 ==> StartsWith(r, pieces[0])
  {
    Join(pieces, "")
  }

  /** Every piece of a template, in particular every interpolated value,
      is found in the text. */
  lemma TemplateHas(pieces: seq<string>, i: nat)
    requires i < |pieces|
    ensures Contains(Template(pieces), pieces[i])
  {
    JoinContains(pieces, "", i);
  }

  /** `s.split(c)` for a one-character separator. */
  function Split(s: string, c: char): (r: seq<string>)
    ensures |r| >= 1
  {
    if |s| == 0 then [""]
    else
      var rest := Split(s[1..], c);
      if s[0] == c then [""] + rest
      else [[s[0]] + rest[0]] + rest[1..]
  }

  /** No piece holds the separator. */
  lemma {:induction false} SplitPiecesFree(s: string, c: char)
    ensures forall k | 0 <= k < |Split(s, c)| :: c !in Split(s, c)[k]
  {
    if |s| > 0 {
      SplitPiecesFree(s[1..], c);
    }
  }

  /** Splitting and joining again with the same separator gives back the
      string. */
  lemma {:induction false} JoinSplit(s: string, c: char)
    ensures Join(Split(s, c), [c]) == s
  {
    if |s| > 0 {
      var rest := Split(s[1..], c);
      JoinSplit(s[1..], c);
      if s[0] == c {
        assert Split(s, c)[1..] == rest;
      } else {
        var r := Split(s, c);
        if |rest| == 1 {
          assert r == [[s[0]] + rest[0]];
        } else {
          assert r[1..] == rest[1..];
          assert Join(rest, [c]) == rest[0] + [c] + Join(rest[1..], [c]);
        }
      }
    }
  }

  /** A separator splits the text on its two sides apart. */
  lemma {:induction false} SplitAround(a: string, c: char, b: string)
    ensures Split(a + [c] + b, c) == Split(a, c) + Split(b, c)
  {
    if |a| == 0 {
      assert a + [c] + b == [c] + b;
      SplitCons(c, b, c);
    } else {
      var x, t := a[0], a[1..];
      assert a == [x] + t;
      assert a + [c] + b == [x] + (t + [c] + b);
      SplitAround(t, c, b);
      SplitCons(x, t + [c] + b, c);
      SplitCons(x, t, c);
      var front, back := Split(t, c), Split(b, c);
      if x == c {
        assert [""] + (front + back) == [""] + front + back;
      } else {
        PiecesAssoc([x] + front[0], front, back);
      }
    }
  }

  lemma PiecesAssoc(h: string, front: seq<string>, back: seq<string>)
    requires |front| > 0
    ensures [h] + (front + back)[1..] == [h] + front[1..] + back
  {
    assert (front + back)[1..] == front[1..] + back;
  }

  /** Splitting a string one character longer at the front. */
  lemma SplitCons(x: char, t: string, c: char)
    ensures var rest := Split(t, c);
      Split([x] + t, c) == if x == c then [""] + rest else [[x] + rest[0]] + rest[1..]
  {
    assert ([x] + t)[0] == x;
    assert ([x] + t)[1..] == t;
  }

  /** Text without the separator is a single piece. */
  lemma {:induction false} SplitNone(s: string, c: char)
    requires c !in s
    ensures Split(s, c) == [s]
  {
    if |s| > 0 {
      assert c !in s[1..] by {
        forall k | 0 <= k < |s[1..]| ensures s[1..][k] != c {
          assert s[1..][k] == s[k + 1];
        }
      }
      SplitNone(s[1..], c);
      assert [s[0]] + s[1..] == s;
    }
  }

  /** `s.split(c)[0]`: the text before the first `c`. */
  function BeforeFirst(s: string, c: char): (r: string)
    ensures StartsWith(s, r) && c !in r
    ensures |r| < |s| ==> s[|r|] == c
  {
    if |s| == 0 || s[0] == c then "" else [s[0]] + BeforeFirst(s[1..], c)
  }

  // ---------------------------------------------------------------------
  // trim and case
  // ---------------------------------------------------------------------

  /** The characters `String.prototype.trim` removes: the white space and
      line terminators of section 12.2 and 12.3 of ECMA-262. */
  predicate IsWhite(c: char)
  {
    c == '\t' || c == '\U{000B}' || c == '\U{000C}' || c == ' ' || c == '\U{00A0}'
    || c == '\U{FEFF}' || c == '\U{1680}' || ('\U{2000}' <= c <= '\U{200A}')
    || c == '\U{202F}' || c == '\U{205F}' || c == '\U{3000}'
    || c == '\n' || c == '\r' || c == '\U{2028}' || c == '\U{2029}'
  }

  predicate AllWhite(s: string)
  {
    forall k | 0 <= k < |s| :: IsWhite(s[k])
  }

  function TrimStart(s: string): (r: string)
    ensures |r| <= |s| && r == s[|s| - |r|..]
    ensures AllWhite(s[..|s| - |r|])
    ensures r != "" ==> !IsWhite(r[0])
  {
    if |s| > 0 && IsWhite(s[0]) then
      var r := TrimStart(s[1..]);
      assert s[..|s| - |r|] == [s[0]] + s[1..][..|s| - 1 - |r|];
      r
    else s
  }

  function TrimEnd(s: string): (r: string)
    ensures |r| <= |s| && r == s[..|r|]
    ensures AllWhite(s[|r|..])
    ensures r != "" ==> !IsWhite(r[|r| - 1])
  {
    if |s| > 0 && IsWhite(s[|s| - 1]) then
      var t := s[..|s| - 1];
      var r := TrimEnd(t);
      assert s[|r|..] == t[|r|..] + [s[|s| - 1]];
      r
    else s
  }

  /** `s.trim()`: the longest middle part that neither starts nor ends with
      white space; it is empty exactly when `s` is all white space. */
  function Trim(s: string): (r: string)
    ensures |r| <= |s|
    ensures r == "" <==> AllWhite(s)
    ensures r != "" ==> !IsWhite(r[0]) && !IsWhite(r[|r| - 1])
  {
    TrimParts(s);
    TrimStart(TrimEnd(s))
  }

  /** Trimming keeps every part of the text that starts and ends with
      something other than white space. */
  lemma ContainsTrim(s: string, u: string)
    requires Contains(s, u) && u != "" && !IsWhite(u[0]) && !IsWhite(u[|u| - 1])
    ensures Contains(Trim(s), u)
  {
    var i :| 0 <= i <= |s| && StartsWith(s[i..], u);
    ContainsTrimEnd(s, u, i);
    ContainsTrimStart(TrimEnd(s), u, i);
  }

  lemma ContainsTrimEnd(s: string, u: string, i: nat)
    requires i <= |s| && StartsWith(s[i..], u) && u != "" && !IsWhite(u[|u| - 1])
    ensures i + |u| <= |TrimEnd(s)| && StartsWith(TrimEnd(s)[i..], u)
  {
    var e := TrimEnd(s);
    var k := i + |u| - 1;
    assert s[k] == s[i..][..|u|][|u| - 1];
    assert e[i..][..|u|] == s[i..][..|u|];
  }

  lemma ContainsTrimStart(e: string, u: string, i: nat)
    requires i + |u| <= |e| && StartsWith(e[i..], u) && u != "" && !IsWhite(u[0])
    ensures Contains(TrimStart(e), u)
  {
    var t := TrimStart(e);
    var j := |e| - |t|;
    assert e[i] == e[i..][..|u|][0];
    TrimStartStops(e, i);
    assert t[i - j..] == e[i..];
    assert StartsWith(t[i - j..], u);
  }

  /** Trimming the start stops at the first character that is not white
      space. */
  lemma {:induction false} TrimStartStops(e: string, i: nat)
    requires i < |e| && !IsWhite(e[i])
    ensures |TrimStart(e)| >= |e| - i
  {
    if IsWhite(e[0]) {
      assert e[1..][i - 1] == e[i];
      TrimStartStops(e[1..], i - 1);
    }
  }

  /** Trimming text that is white space followed by a part that starts and
      ends with something else gives that part. */
  lemma {:induction false} TrimLeading(w: string, core: string)
    requires AllWhite(w) && core != "" && !IsWhite(core[0]) && !IsWhite(core[|core| - 1])
    ensures Trim(w + core) == core
  {
    assert (w + core)[|w + core| - 1] == core[|core| - 1];
    assert TrimEnd(w + core) == w + core;
    TrimStartWhite(w, core);
  }

  lemma {:induction false} TrimStartWhite(w: string, core: string)
    requires AllWhite(w) && core != "" && !IsWhite(core[0])
    ensures TrimStart(w + core) == core
  {
    if |w| == 0 {
      assert w + core == core;
    } else {
      assert (w + core)[0] == w[0];
      assert (w + core)[1..] == w[1..] + core;
      TrimStartWhite(w[1..], core);
    }
  }

  /** Trimming text that is a part ending in something other than white
      space, followed by white space, at its end gives that part. */
  lemma {:induction false} TrimEndWhite(s: string, w: string)
    requires AllWhite(w) && s != "" && !IsWhite(s[|s| - 1])
    ensures TrimEnd(s + w) == s
  {
    if |w| == 0 {
      assert s + w == s;
    } else {
      assert (s + w)[|s + w| - 1] == w[|w| - 1];
      assert (s + w)[..|s + w| - 1] == s + w[..|w| - 1];
      TrimEndWhite(s, w[..|w| - 1]);
    }
  }

  /** Trimming a part that starts and ends with something other than white
      space and is surrounded by white space gives that part. */
  lemma TrimAround(w1: string, core: string, w2: string)
    requires AllWhite(w1) && AllWhite(w2)
    requires core != "" && !IsWhite(core[0]) && !IsWhite(core[|core| - 1])
    ensures Trim(w1 + core + w2) == core
  {
    assert (w1 + core)[|w1 + core| - 1] == core[|core| - 1];
    TrimEndWhite(w1 + core, w2);
    TrimStartWhite(w1, core);
  }

  lemma TrimParts(s: string)
    ensures var r := TrimStart(TrimEnd(s)); r == "" <==> AllWhite(s)
  {
    var t := TrimEnd(s);
    TrimEndEmpty(s);
    TrimStartEmpty(t);
    if AllWhite(t) {
      assert s == t + s[|t|..];
      AllWhiteConcat(t, s[|t|..]);
    }
  }

  lemma AllWhiteConcat(a: string, b: string)
    requires AllWhite(a) && AllWhite(b)
    ensures AllWhite(a + b)
  {
    forall k | 0 <= k < |a + b| ensures IsWhite((a + b)[k]) {
      if k >= |a| {
        assert (a + b)[k] == b[k - |a|];
      }
    }
  }

  lemma TrimStartEmpty(t: string)
    ensures TrimStart(t) == "" <==> AllWhite(t)
  {
    var r := TrimStart(t);
    if r == "" {
      assert t[..|t|] == t;
    } else {
      assert r[0] == t[|t| - |r|];
    }
  }

  lemma TrimEndEmpty(t: string)
    ensures TrimEnd(t) == "" <==> AllWhite(t)
  {
    var r := TrimEnd(t);
    if r == "" {
      assert t[0..] == t;
    } else {
      assert r[|r| - 1] == t[|r| - 1];
    }
  }

  /** Trimming is idempotent. */
  lemma TrimIdempotent(s: string)
    ensures Trim(Trim(s)) == Trim(s)
  {
    var r := Trim(s);
    if r != "" {
      assert TrimEnd(r) == r;
      assert TrimStart(r) == r;
    }
  }

  /** `s.toLowerCase()` on the ASCII letters. */
  function ToLower(s: string): (r: string)
    ensures |r| == |s|
    ensures forall k | 0 <= k < |s| :: r[k] == (if 'A' <= s[k] <= 'Z' then (s[k] as int + 32) as char else s[k])
  {
    if |s| == 0 then ""
    else [if 'A' <= s[0] <= 'Z' then (s[0] as int + 32) as char else s[0]] + ToLower(s[1..])
  }

  /** `s.replace(/ /g, c)` */
  function ReplaceSpaces(s: string, c: char): (r: string)
    ensures |r| == |s|
    ensures ' ' != c ==> ' ' !in r
    ensures forall k | 0 <= k < |s| :: r[k] == (if s[k] == ' ' then c else s[k])
  {
    if |s| == 0 then "" else [if s[0] == ' ' then c else s[0]] + ReplaceSpaces(s[1..], c)
  }

  // ---------------------------------------------------------------------
  // Numbers
  // ---------------------------------------------------------------------

  function DigitChar(d: nat): (c: char)
    requires d < 10
    ensures '0' <= c <= '9'
  {
    ('0' as int + d) as char
  }

  /** The decimal text of a natural number, as template literals print it. */
  function NatToString(n: nat): (r: string)
    ensures |r| >= 1
    ensures forall k | 0 <= k < |r| :: '0' <= r[k] <= '9'
    ensures n >= 10 ==> r[0] != '0'
  {
    if n < 10 then [DigitChar(n)] else NatToString(n / 10) + [DigitChar(n % 10)]
  }

  /** Reading the decimal text back gives the number. */
  function DigitsValue(s: string): nat
    requires forall k | 0 <= k < |s| :: '0' <= s[k] <= '9'
  {
    if |s| == 0 then 0 else DigitsValue(s[..|s| - 1]) * 10 + (s[|s| - 1] as int - '0' as int)
  }

  lemma {:induction false} NatToStringValue(n: nat)
    ensures DigitsValue(NatToString(n)) == n
  {
    if n >= 10 {
      var r := NatToString(n);
      NatToStringValue(n / 10);
      assert r[..|r| - 1] == NatToString(n / 10);
    }
  }

  /** Distinct numbers print differently. */
  lemma NatToStringInjective(m: nat, n: nat)
    requires NatToString(m) == NatToString(n)
    ensures m == n
  {
    NatToStringValue(m);
    NatToStringValue(n);
  }

  /** The text of an integer, with a leading minus for negative values. */
  function IntToString(i: int): (r: string)
    ensures i >= 0 ==> r == NatToString(i)
    ensures i < 0 ==> r == "-" + NatToString(-i)
  {
    if i >= 0 then NatToString(i) else "-" + NatToString(-i)
  }

  /** `Math.round(n / d)` computed exactly: the integer nearest to `n / d`,
      halves rounding up. */
  function Round(n: int, d: nat): (r: int)
    requires d > 0
    ensures d * (2 * r - 1) <= 2 * n < d * (2 * r + 1)
  {
    var q := (2 * n + d) / (2 * d);
    assert 2 * d * q <= 2 * n + d < 2 * d * q + 2 * d;
    q
  }

  // ---------------------------------------------------------------------
  // Regular-expression replacements
  // ---------------------------------------------------------------------

  /** The line terminators the regex `.` does not match. */
  predicate IsLineTerminator(c: char)
  {
    c == '\n' || c == '\r' || c == '\U{2028}' || c == '\U{2029}'
  }

  /** `s.replace(/-plain|-original|-wordmark/g, '')`: scanning left to right,
      each occurrence of one of the three suffixes is removed. */
  function StripDeviconVariant(s: string): (r: string)
    ensures |r| <= |s|
    ensures '-' !in s ==> r == s
  {
    if |s| == 0 then ""
    else if s[0] != '-' then [s[0]] + StripDeviconVariant(s[1..])
    else if StartsWith(s, "-plain") then StripDeviconVariant(s[6..])
    else if StartsWith(s, "-original") then StripDeviconVariant(s[9..])
    else if StartsWith(s, "-wordmark") then StripDeviconVariant(s[9..])
    else [s[0]] + StripDeviconVariant(s[1..])
  }

  /** Where the lazy `.+?>` of a tag starting at `s[0] == '<'` ends, having
      already consumed `s[1..k]`: the next character must be matched by `.`,
      and the match ends on the first `>` after it. */
  function TagClose(s: string, k: nat): (r: Option<nat>)
    requires 1 <= k
    decreases |s| - k
    ensures r.Some? ==> k < r.value < |s| && s[r.value] == '>'
  {
    if k >= |s| || IsLineTerminator(s[k]) then None
    else if k + 1 < |s| && s[k + 1] == '>' then Some(k + 1)
    else TagClose(s, k + 1)
  }

  /** `s.replace(/<.+?>/g, '')`: every `<`, followed on the same line by at
      least one character and then a `>`, is removed up to the first such
      `>`. */
  function StripTags(s: string): (r: string)
    decreases |s|
    ensures |r| <= |s|
    ensures '<' !in s ==> r == s
  {
    if |s| == 0 then ""
    else if s[0] == '<' then
      match TagClose(s, 1)
      case Some(j) => StripTags(s[j + 1..])
      case None => [s[0]] + StripTags(s[1..])
    else [s[0]] + StripTags(s[1..])
  }

  /** The replacement text of `replace` when it is a string, as the
      GetSubstitution operation of ECMA-262 builds it for a pattern without
      capture groups: `$$` stands for `$`, `$&` for the matched text, `` $` ``
      for the text before the match and `$'` for the text after it; every
      other `$` is kept as it is. */
  function Substitute(rep: string, matched: string, before: string, after: string): string
    decreases |rep|
  {
    if |rep| == 0 then ""
    else if rep[0] == '$' && |rep| >= 2 && IsPatternChar(rep[1]) then
      PatternText(rep[1], matched, before, after) + Substitute(rep[2..], matched, before, after)
    else [rep[0]] + Substitute(rep[1..], matched, before, after)
  }

  /** The characters that make a `$` pattern. */
  predicate IsPatternChar(c: char)
  {
    c == '$' || c == '&' || c == '`' || c == '\''
  }

  /** What a `$` pattern stands for. */
  function PatternText(c: char, matched: string, before: string, after: string): string
  {
    if c == '$' then "$" else if c == '&' then matched else if c == '`' then before else after
  }

  /** A replacement without `$` is inserted as it is. */
  lemma {:induction false} SubstituteLiteral(rep: string, matched: string, before: string, after: string)
    requires '$' !in rep
    ensures Substitute(rep, matched, before, after) == rep
    decreases |rep|
  {
    if |rep| > 0 {
      assert '$' !in rep[1..] by {
        forall k | 0 <= k < |rep[1..]| ensures rep[1..][k] != '$' {
          assert rep[1..][k] == rep[k + 1];
        }
      }
      SubstituteLiteral(rep[1..], matched, before, after);
      assert rep == [rep[0]] + rep[1..];
    }
  }

  /** Text without `$` in front of the replacement is copied. */
  lemma SubstituteFreePrefix(x: string, y: string, matched: string, before: string, after: string)
    requires '$' !in x
    ensures Substitute(x + y, matched, before, after) == x + Substitute(y, matched, before, after)
  {
    SubstituteLiteral(x, matched, before, after);
    SubstituteAppend(x, y, matched, before, after);
  }

  /** The replacement splits at a point where no pattern can start. */
  lemma {:induction false} SubstituteAppend(x: string, y: string, matched: string, before: string, after: string)
    requires y == "" || !IsPatternChar(y[0]) || '$' !in x
    ensures Substitute(x + y, matched, before, after) ==
      Substitute(x, matched, before, after) + Substitute(y, matched, before, after)
    decreases |x|
  {
    if |x| == 0 {
      assert x + y == y;
    } else if x[0] == '$' && |x| >= 2 && IsPatternChar(x[1]) {
      assert x[0] in x;
      SubstituteAppend(x[2..], y, matched, before, after);
      AppendPairStep(x, y, matched, before, after);
    } else if x[0] == '$' && |x| == 1 {
      assert x[0] in x;
      AppendDollarStep(x, y, matched, before, after);
    } else {
      assert '$' !in x ==> '$' !in x[1..] by {
        if '$' !in x {
          forall k | 0 <= k < |x[1..]| ensures x[1..][k] != '$' {
            assert x[1..][k] == x[k + 1];
          }
        }
      }
      SubstituteAppend(x[1..], y, matched, before, after);
      AppendCharStep(x, y, matched, before, after);
    }
  }

  /** A two-character pattern at the front of `x` is also at the front of `x + y`. */
  lemma AppendPairStep(x: string, y: string, matched: string, before: string, after: string)
    requires |x| >= 2 && x[0] == '$' && IsPatternChar(x[1])
    requires Substitute(x[2..] + y, matched, before, after) ==
      Substitute(x[2..], matched, before, after) + Substitute(y, matched, before, after)
    ensures Substitute(x + y, matched, before, after) ==
      Substitute(x, matched, before, after) + Substitute(y, matched, before, after)
  {
    assert (x + y)[0] == '$' && (x + y)[1] == x[1];
    assert (x + y)[2..] == x[2..] + y;
    UnfoldPair(x + y, matched, before, after);
    UnfoldPair(x, matched, before, after);
    AppendAssoc(PatternText(x[1], matched, before, after),
      Substitute(x[2..], matched, before, after), Substitute(y, matched, before, after));
  }

  /** A lone trailing `$` stays literal when no pattern character follows it. */
  lemma AppendDollarStep(x: string, y: string, matched: string, before: string, after: string)
    requires x == "$" && (y == "" || !IsPatternChar(y[0]))
    ensures Substitute(x + y, matched, before, after) ==
      Substitute(x, matched, before, after) + Substitute(y, matched, before, after)
  {
    assert (x + y)[1..] == y;
    assert Substitute(x, matched, before, after) == "$";
  }

  /** A literal first character of `x` is also a literal first character of `x + y`. */
  lemma AppendCharStep(x: string, y: string, matched: string, before: string, after: string)
    requires |x| >= 1 && !(x[0] == '$' && |x| >= 2 && IsPatternChar(x[1]))
    requires x[0] == '$' ==> |x| >= 2
    requires Substitute(x[1..] + y, matched, before, after) ==
      Substitute(x[1..], matched, before, after) + Substitute(y, matched, before, after)
    ensures Substitute(x + y, matched, before, after) ==
      Substitute(x, matched, before, after) + Substitute(y, matched, before, after)
  {
    assert (x + y)[0] == x[0] && (|x| >= 2 ==> (x + y)[1] == x[1]);
    assert (x + y)[1..] == x[1..] + y;
    UnfoldChar(x + y, matched, before, after);
    UnfoldChar(x, matched, before, after);
    AppendAssoc([x[0]], Substitute(x[1..], matched, before, after), Substitute(y, matched, before, after));
  }

  lemma UnfoldPair(rep: string, matched: string, before: string, after: string)
    requires |rep| >= 2 && rep[0] == '$' && IsPatternChar(rep[1])
    ensures Substitute(rep, matched, before, after) ==
      PatternText(rep[1], matched, before, after) + Substitute(rep[2..], matched, before, after)
  {
  }

  lemma UnfoldChar(rep: string, matched: string, before: string, after: string)
    requires |rep| >= 1 && !(rep[0] == '$' && |rep| >= 2 && IsPatternChar(rep[1]))
    ensures Substitute(rep, matched, before, after) == [rep[0]] + Substitute(rep[1..], matched, before, after)
  {
  }

  lemma AppendAssoc(a: string, b: string, c: string)
    ensures a + (b + c) == (a + b) + c
  {
  }

  /** `s.replace(/start[\s\S]*end/g, rep)`: the greedy pattern matches from
      the first `start` to the last `end` after it, and the match becomes
      the substituted replacement; once that span is replaced no further
      match is left. */
  function ReplaceSpan(s: string, start: string, end: string, rep: string): (r: string)
  {
    match FindSpan(s, start, end)
    case None => s
    case Some(span) => Splice(s, span.0, span.1, rep)
  }

  /** The bounds of what `/start[\s\S]*end/` matches first: from the first
      `start` to the end of the last `end` that follows it. */
  function FindSpan(s: string, start: string, end: string): (r: Option<(nat, nat)>)
    ensures r.Some? ==> r.value.0 <= r.value.1 <= |s|
  {
    match IndexOf(s, start, 0)
    case None => None
    case Some(i) =>
      match LastIndexOf(s, end, i + |start|)
      case None => None
      case Some(j) => Some((i, j + |end|))
  }

  /** `s` with `s[i..k]` replaced by `rep` substituted for that match. */
  function Splice(s: string, i: nat, k: nat, rep: string): string
    requires i <= k <= |s|
  {
    s[..i] + Substitute(rep, s[i..k], s[..i], s[k..]) + s[k..]
  }

  /** Text with no `start` followed later by an `end` is left as it is. */
  lemma ReplaceSpanNone(s: string, start: string, end: string, rep: string)
    requires forall i, j | 0 <= i && i + |start| <= j <= |s| :: !(StartsWith(s[i..], start) && StartsWith(s[j..], end))
    ensures ReplaceSpan(s, start, end, rep) == s
  {
  }

  /** Where a `start` is followed by an `end`, the text from the first
      `start` to the last `end` after it becomes the substituted `rep`. */
  lemma ReplaceSpanParts(s: string, start: string, end: string, rep: string, a: nat, b: nat) returns (i: nat, j: nat)
    requires a + |start| <= b <= |s| && StartsWith(s[a..], start) && StartsWith(s[b..], end)
    ensures i <= a && b <= j && j + |end| <= |s|
    ensures FindSpan(s, start, end).Some?
    ensures FindSpan(s, start, end).value.0 == i && FindSpan(s, start, end).value.1 == j + |end|
    ensures ReplaceSpan(s, start, end, rep) ==
      s[..i] + Substitute(rep, s[i..j + |end|], s[..i], s[j + |end|..]) + s[j + |end|..]
    ensures Contains(ReplaceSpan(s, start, end, rep), Substitute(rep, s[i..j + |end|], s[..i], s[j + |end|..]))
  {
    i, j := SpanLocated(s, start, end, a, b);
    SpanReplaced(s, start, end, rep, i, j + |end|);
  }

  /** The span found around a `start` at `a` and an `end` at `b` begins at
      or before `a` and ends at or after `b`. */
  lemma SpanLocated(s: string, start: string, end: string, a: nat, b: nat) returns (i: nat, j: nat)
    requires a + |start| <= b <= |s| && StartsWith(s[a..], start) && StartsWith(s[b..], end)
    ensures i <= a && b <= j && j + |end| <= |s|
    ensures FindSpan(s, start, end).Some?
    ensures FindSpan(s, start, end).value.0 == i && FindSpan(s, start, end).value.1 == j + |end|
  {
    i := FirstOccurrence(s, start, a);
    j := LastOccurrence(s, end, i + |start|, b);
    SpanFound(s, start, end, i, j);
  }

  /** A found span starts at the first `start` and ends with the last `end`:
      what stays in front has no `start` and what stays behind has no `end`. */
  lemma SpanFirstToLast(s: string, start: string, end: string, i: nat, k: nat)
    requires FindSpan(s, start, end).Some?
    requires FindSpan(s, start, end).value.0 == i && FindSpan(s, start, end).value.1 == k
    ensures i + |start| <= k - |end| && StartsWith(s[i..], start) && forall m | 0 <= m < i :: !StartsWith(s[m..], start)
    ensures StartsWith(s[k - |end|..], end) && forall m | k - |end| < m <= |s| :: !StartsWith(s[m..], end)
  {
  }

  lemma SpanReplaced(s: string, start: string, end: string, rep: string, i: nat, k: nat)
    requires FindSpan(s, start, end).Some?
    requires FindSpan(s, start, end).value.0 == i && FindSpan(s, start, end).value.1 == k
    ensures i <= k <= |s|
    ensures ReplaceSpan(s, start, end, rep) == s[..i] + Substitute(rep, s[i..k], s[..i], s[k..]) + s[k..]
    ensures Contains(ReplaceSpan(s, start, end, rep), Substitute(rep, s[i..k], s[..i], s[k..]))
  {
    ReplaceSpanIsSplice(s, start, end, rep, i, k);
    SpliceContains(s, i, k, rep);
  }

  lemma SpanFound(s: string, start: string, end: string, i: nat, j: nat)
    requires IndexOf(s, start, 0) == Some(i) && LastIndexOf(s, end, i + |start|) == Some(j)
    ensures FindSpan(s, start, end).Some?
    ensures FindSpan(s, start, end).value.0 == i && FindSpan(s, start, end).value.1 == j + |end|
  {
  }

  lemma ReplaceSpanIsSplice(s: string, start: string, end: string, rep: string, i: nat, k: nat)
    requires FindSpan(s, start, end).Some?
    requires FindSpan(s, start, end).value.0 == i && FindSpan(s, start, end).value.1 == k
    ensures ReplaceSpan(s, start, end, rep) == Splice(s, i, k, rep)
  {
  }

  lemma SpliceContains(s: string, i: nat, k: nat, rep: string)
    requires i <= k <= |s|
    ensures Splice(s, i, k, rep) == s[..i] + Substitute(rep, s[i..k], s[..i], s[k..]) + s[k..]
    ensures Contains(Splice(s, i, k, rep), Substitute(rep, s[i..k], s[..i], s[k..]))
  {
    ContainsInfix(s[..i], Substitute(rep, s[i..k], s[..i], s[k..]), s[k..]);
  }

  lemma FirstOccurrence(s: string, t: string, a: nat) returns (i: nat)
    requires a <= |s| && StartsWith(s[a..], t)
    ensures IndexOf(s, t, 0) == Some(i) && i <= a
    ensures StartsWith(s[i..], t) && forall k | 0 <= k < i :: !StartsWith(s[k..], t)
  {
    i := IndexOf(s, t, 0).value;
  }

  lemma LastOccurrence(s: string, t: string, from: nat, b: nat) returns (j: nat)
    requires from <= b <= |s| && StartsWith(s[b..], t)
    ensures LastIndexOf(s, t, from) == Some(j) && b <= j && j + |t| <= |s|
    ensures StartsWith(s[j..], t) && forall k | j < k <= |s| :: !StartsWith(s[k..], t)
  {
    j := LastIndexOf(s, t, from).value;
  }

  /** `s.replace(/(\n\n---\n\n)+/g, '\n\n---\n\n')`: every maximal run of
      back-to-back dividers, found left to right, becomes one divider. */
  const Divider := "\n\n---\n\n"

  function CollapseDividers(s: string): (r: string)
    ensures |r| <= |s|
  {
    CollapseRuns(s, Divider)
  }

  /** `s.replace(/(d)+/g, d)` for a literal `d`. */
  function CollapseRuns(s: string, d: string): (r: string)
    requires |d| > 0
    decreases |s|
    ensures |r| <= |s|
  {
    if |s| == 0 then ""
    else if StartsWith(s, d) then d + CollapseRuns(SkipLeading(s[|d|..], d), d)
    else [s[0]] + CollapseRuns(s[1..], d)
  }

  /** The rest of `s` after the copies of `d` at its start. */
  function SkipLeading(s: string, d: string): (r: string)
    requires |d| > 0
    ensures |r| <= |s|
    ensures !StartsWith(r, d)
  {
    if StartsWith(s, d) then SkipLeading(s[|d|..], d) else s
  }

  /** Text without two copies of `d` back to back is left as it is. */
  lemma {:induction false} CollapseNoRun(s: string, d: string)
    requires |d| > 0 && !Contains(s, d + d)
    ensures CollapseRuns(s, d) == s
  {
    if |s| > 0 {
      if StartsWith(s, d) {
        var t := s[|d|..];
        if StartsWith(t, d) {
          DoubleAtStart(s, d);
        }
        NoRunSuffix(s, d, |d|);
        CollapseNoRun(t, d);
        assert s == d + t;
      } else {
        NoRunSuffix(s, d, 1);
        CollapseNoRun(s[1..], d);
        assert s == [s[0]] + s[1..];
      }
    }
  }

  lemma NoRunSuffix(s: string, d: string, n: nat)
    requires n <= |s| && !Contains(s, d + d)
    ensures !Contains(s[n..], d + d)
  {
    forall i | 0 <= i <= |s[n..]| ensures !StartsWith(s[n..][i..], d + d) {
      assert s[n..][i..] == s[n + i..];
    }
  }

  lemma DoubleAtStart(s: string, d: string)
    requires StartsWith(s, d) && StartsWith(s[|d|..], d)
    ensures Contains(s, d + d)
  {
    assert s[0..][..|d + d|] == d + d;
  }

  /** A run of `k >= 1` copies of `d` in front of text that does not start
      with `d` becomes a single copy. */
  lemma {:induction false} CollapseRun(k: nat, t: string, d: string)
    requires k >= 1 && |d| > 0 && !StartsWith(t, d)
    ensures CollapseRuns(Repeat(d, k) + t, d) == d + CollapseRuns(t, d)
  {
    var x := Repeat(d, k - 1) + t;
    SkipRun(k - 1, t, d);
    assert Repeat(d, k) + t == d + x;
    PrefixConcat(d, x);
    assert CollapseRuns(d + x, d) == d + CollapseRuns(SkipLeading(x, d), d);
  }

  lemma {:induction false} SkipRun(k: nat, t: string, d: string)
    requires |d| > 0 && !StartsWith(t, d)
    ensures SkipLeading(Repeat(d, k) + t, d) == t
  {
    if k > 0 {
      var x := Repeat(d, k - 1) + t;
      SkipRun(k - 1, t, d);
      assert Repeat(d, k) + t == d + x;
      PrefixConcat(d, x);
      assert SkipLeading(d + x, d) == SkipLeading(x, d);
    }
  }

  lemma PrefixConcat(a: string, x: string)
    ensures StartsWith(a + x, a) && (a + x)[|a|..] == x
  {
    assert (a + x)[..|a|] == a;
  }

  /** `k` copies of `s` back to back. */
  function Repeat(s: string, k: nat): string
  {
    if k == 0 then "" else s + Repeat(s, k - 1)
  }
}
