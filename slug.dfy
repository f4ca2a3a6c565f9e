/**
 * `toSlug(input)`: trim, lower-case, delete quote characters, turn every run
 * of characters outside [a-z0-9] into one '-', and drop a '-' at either end.
 */
module Slug {

  /** The characters `String.prototype.trim` removes (white space and line terminators). */
  predicate IsSpace(c: char) {
    c == '\t' || c == '\n' || c == '\U{000B}' || c == '\U{000C}' || c == '\r' || c == ' '
    || c == '\U{00A0}' || c == '\U{1680}' || ('\U{2000}' <= c <= '\U{200A}')
    || c == '\U{2028}' || c == '\U{2029}' || c == '\U{202F}' || c == '\U{205F}'
    || c == '\U{3000}' || c == '\U{FEFF}'
  }

  predicate IsAlnum(c: char) {
    ('a' <= c <= 'z') || ('0' <= c <= '9')
  }

  predicate IsQuote(c: char) {
    c == '\'' || c == '"' || c == '`'
  }

  /** A slug: only [a-z0-9-], no "--", and no '-' at either end. */
  predicate IsSlug(s: string) {
    && (forall i :: 0 <= i < |s| ==> IsAlnum(s[i]) || s[i] == '-')
    && (forall i :: 0 <= i < |s| - 1 ==> !(s[i] == '-' && s[i + 1] == '-'))
    && (|s| > 0 ==> s[0] != '-' && s[|s| - 1] != '-')
  }

  function TrimStart(s: string): (r: string)
    ensures |r| <= |s| && r == s[|s| - |r|..]
    ensures r == [] || !IsSpace(r[0])
  {
    if |s| > 0 && IsSpace(s[0]) then TrimStart(s[1..]) else s
  }

  function TrimEnd(s: string): (r: string)
    ensures |r| <= |s| && r == s[..|r|]
    ensures r == [] || !IsSpace(r[|r| - 1])
  {
    if |s| > 0 && IsSpace(s[|s| - 1]) then TrimEnd(s[..|s| - 1]) else s
  }

  /** `trim()`. */
  function Trim(s: string): (r: string)
    ensures r == [] || (!IsSpace(r[0]) && !IsSpace(r[|r| - 1]))
  {
    TrimEnd(TrimStart(s))
  }

  /**
   * `toLowerCase()` of one character. Only the mappings that can land in
   * [a-z0-9] matter for a slug: A-Z, the Kelvin sign (to 'k') and the
   * capital I with dot above (to "i" and a combining dot). Every other
   * character is kept, which gives the same slug because its lower-case
   * form lies outside [a-z0-9] and is not a quote either.
   */
  function LowerChar(c: char): (r: string)
    ensures 1 <= |r| <= 2
    ensures 'A' <= c <= 'Z' ==> r == [(c as int + 32) as char]
  {
    if 'A' <= c <= 'Z' then [(c as int + 32) as char]
    else if c == '\U{212A}' then "k"
    else if c == '\U{0130}' then "i\U{0307}"
    else [c]
  }

  /** `toLowerCase()`. */
  function Lower(s: string): (r: string)
    ensures |s| <= |r|
  {
    if s == [] then [] else LowerChar(s[0]) + Lower(s[1..])
  }

  /** `.replace(/['"`]/g, "")`. */
  function RemoveQuotes(s: string): (r: string)
    ensures |r| <= |s|
    ensures forall i :: 0 <= i < |r| ==> !IsQuote(r[i])
    ensures (forall i :: 0 <= i < |s| ==> !IsQuote(s[i])) ==> r == s
  {
    if s == [] then []
    else if IsQuote(s[0]) then RemoveQuotes(s[1..])
    else [s[0]] + RemoveQuotes(s[1..])
  }

  /** Drops the leading run of characters outside [a-z0-9]. */
  function SkipRun(s: string): (r: string)
    ensures |r| <= |s| && r == s[|s| - |r|..]
    ensures r == [] || IsAlnum(r[0])
    ensures |s| > 0 && !IsAlnum(s[0]) ==> |r| < |s|
  {
    if |s| > 0 && !IsAlnum(s[0]) then SkipRun(s[1..]) else s
  }

  /** `.replace(/[^a-z0-9]+/g, "-")`: each maximal run outside [a-z0-9] becomes one '-'. */
  function Collapse(s: string): (r: string)
    ensures forall i :: 0 <= i < |r| ==> IsAlnum(r[i]) || r[i] == '-'
    ensures |s| > 0 && IsAlnum(s[0]) ==> |r| > 0 && r[0] == s[0]
    ensures |s| > 0 && !IsAlnum(s[0]) ==> |r| > 0 && r[0] == '-'
    ensures (r == []) == (s == [])
    decreases |s|
  {
    if s == [] then []
    else if IsAlnum(s[0]) then [s[0]] + Collapse(s[1..])
    else "-" + Collapse(SkipRun(s))
  }

  /** `.replace(/(^-|-$)+/g, "")`: one '-' at the start and one at the end are removed. */
  function StripDashEnds(s: string): (r: string)
  {
    var t := if |s| > 0 && s[0] == '-' then s[1..] else s;
    if |t| > 0 && t[|t| - 1] == '-' then t[..|t| - 1] else t
  }

  /** `toSlug(input)`. */
  function ToSlug(input: string): (r: string)
  {
    StripDashEnds(Collapse(RemoveQuotes(Lower(Trim(input)))))
  }

  /** Collapse never leaves two '-' side by side. */
  lemma {:induction false} CollapseNoDoubleDash(s: string)
    ensures forall i :: 0 <= i < |Collapse(s)| - 1 ==> !(Collapse(s)[i] == '-' && Collapse(s)[i + 1] == '-')
    decreases |s|
  {
    if s == [] {
    } else if IsAlnum(s[0]) {
      CollapseNoDoubleDash(s[1..]);
      assert Collapse(s) == [s[0]] + Collapse(s[1..]);
    } else {
      var t := SkipRun(s);
      CollapseNoDoubleDash(t);
      assert Collapse(s) == "-" + Collapse(t);
    }
  }

  /** Only slug characters and no "--". */
  predicate DashSingle(s: string) {
    && (forall i :: 0 <= i < |s| ==> IsAlnum(s[i]) || s[i] == '-')
    && (forall i :: 0 <= i < |s| - 1 ==> !(s[i] == '-' && s[i + 1] == '-'))
  }

  /** Every result of `toSlug` is a slug. */
  lemma ToSlugIsSlug(input: string)
    ensures IsSlug(ToSlug(input))
  {
    var c := Collapse(RemoveQuotes(Lower(Trim(input))));
    CollapseNoDoubleDash(RemoveQuotes(Lower(Trim(input))));
    assert DashSingle(c);
    StripDashEndsIsSlug(c);
  }

  /** Removing one '-' at each end of text with single dashes leaves a slug. */
  lemma StripDashEndsIsSlug(c: string)
    requires DashSingle(c)
    ensures IsSlug(StripDashEnds(c))
  {
    var t := if |c| > 0 && c[0] == '-' then c[1..] else c;
    DropLeadingDash(c);
    DropTrailingDash(t);
  }

  lemma DropLeadingDash(c: string)
    requires DashSingle(c)
    ensures var t := if |c| > 0 && c[0] == '-' then c[1..] else c;
      DashSingle(t) && (|t| > 0 ==> t[0] != '-')
  {
  }

  lemma DropTrailingDash(t: string)
    requires DashSingle(t) && (|t| > 0 ==> t[0] != '-')
    ensures IsSlug(if |t| > 0 && t[|t| - 1] == '-' then t[..|t| - 1] else t)
  {
    if |t| > 0 && t[|t| - 1] == '-' {
      var u := t[..|t| - 1];
      assert |u| > 0 ==> u[|u| - 1] == t[|t| - 2];
    }
  }

  /** Text of slug characters with no "--" and no trailing '-' (a leading one is allowed). */
  predicate SlugPart(s: string) {
    && (forall i :: 0 <= i < |s| ==> IsAlnum(s[i]) || s[i] == '-')
    && (forall i :: 0 <= i < |s| - 1 ==> !(s[i] == '-' && s[i + 1] == '-'))
    && (|s| > 0 ==> s[|s| - 1] != '-')
  }

  /** Collapse leaves a string already made of [a-z0-9] and single inner dashes as it is. */
  lemma {:induction false} CollapseOfSlugPart(s: string)
    requires SlugPart(s)
    ensures Collapse(s) == s
    decreases |s|
  {
    if s == [] {
      assert Collapse(s) == [];
    } else {
      SlugPartTail(s);
      CollapseOfSlugPart(s[1..]);
      if IsAlnum(s[0]) {
        assert s == [s[0]] + s[1..];
      } else {
        SkipOneDash(s);
        assert s == "-" + s[1..];
      }
    }
  }

  lemma SlugPartTail(s: string)
    requires SlugPart(s) && s != []
    ensures SlugPart(s[1..])
    ensures !IsAlnum(s[0]) ==> s[0] == '-' && |s| >= 2 && IsAlnum(s[1])
  {
    if !IsAlnum(s[0]) {
      assert s[0] == '-';
      assert |s| >= 2;
    }
  }

  /** A lone '-' followed by a letter or digit is a run of length one. */
  lemma SkipOneDash(s: string)
    requires |s| >= 2 && s[0] == '-' && IsAlnum(s[1])
    ensures SkipRun(s) == s[1..]
  {
    assert SkipRun(s[1..]) == s[1..];
  }

  /** A slug is its own slug. */
  lemma {:induction false} ToSlugOfSlug(s: string)
    requires IsSlug(s)
    ensures ToSlug(s) == s
  {
    TrimOfSlug(s);
    LowerOfSlug(s);
    assert RemoveQuotes(s) == s;
    CollapseOfSlugPart(s);
  }

  lemma TrimOfSlug(s: string)
    requires IsSlug(s)
    ensures Trim(s) == s
  {
    if s == [] {
      assert TrimStart(s) == s;
    } else {
      EndsNotSpace(s, s[0], s[|s| - 1]);
    }
  }

  /** A string whose first and last characters are not white space is its own trim. */
  lemma EndsNotSpace(s: string, first: char, last: char)
    requires s != [] && s[0] == first && s[|s| - 1] == last
    requires IsAlnum(first) || first == '-'
    requires IsAlnum(last) || last == '-'
    ensures Trim(s) == s
  {
    assert TrimStart(s) == s;
  }

  lemma {:induction false} LowerOfSlug(s: string)
    requires forall i :: 0 <= i < |s| ==> IsAlnum(s[i]) || s[i] == '-'
    ensures Lower(s) == s
  {
    if s != [] {
      LowerOfSlug(s[1..]);
    }
  }

  /** `toSlug` is idempotent. */
  lemma ToSlugIdempotent(input: string)
    ensures ToSlug(ToSlug(input)) == ToSlug(input)
  {
    ToSlugIsSlug(input);
    ToSlugOfSlug(ToSlug(input));
  }

  /** A character from which lower-casing cannot make a letter or digit of a slug. */
  predicate NoSlugSource(c: char) {
    !IsAlnum(c) && !('A' <= c <= 'Z') && c != '\U{212A}' && c != '\U{0130}'
  }

  /** Input with no letter or digit (only spaces and symbols) gives the empty slug. */
  lemma AllSymbolsGiveEmpty(input: string)
    requires forall i :: 0 <= i < |input| ==> NoSlugSource(input[i])
    ensures ToSlug(input) == ""
  {
    var a := TrimStart(input);
    assert forall i :: 0 <= i < |a| ==> a[i] == input[|input| - |a| + i];
    var t := TrimEnd(a);
    assert t == Trim(input);
    assert forall i :: 0 <= i < |t| ==> t[i] == a[i];
    LowerKeepsNonAlnum(t);
    var q := RemoveQuotes(Lower(t));
    RemoveQuotesKeepsNonAlnum(Lower(t));
    if q != [] {
      assert SkipRun(q) == [];
      assert Collapse(q) == "-";
    }
  }

  lemma {:induction false} LowerKeepsNonAlnum(s: string)
    requires forall i :: 0 <= i < |s| ==> NoSlugSource(s[i])
    ensures forall i :: 0 <= i < |Lower(s)| ==> !IsAlnum(Lower(s)[i])
  {
    if s != [] {
      LowerKeepsNonAlnum(s[1..]);
      assert Lower(s) == [s[0]] + Lower(s[1..]);
    }
  }

  lemma {:induction false} RemoveQuotesKeepsNonAlnum(s: string)
    requires forall i :: 0 <= i < |s| ==> !IsAlnum(s[i])
    ensures forall i :: 0 <= i < |RemoveQuotes(s)| ==> !IsAlnum(RemoveQuotes(s)[i])
  {
    if s != [] {
      RemoveQuotesKeepsNonAlnum(s[1..]);
    }
  }

  /** Quote characters vanish without leaving a separator: "A'b" gives "ab". */
  lemma QuotesLeaveNoSeparator()
    ensures ToSlug("A'b") == "ab"
  {
    TrimOfSample();
    LowerOfSample();
    RemoveQuotesOfSample();
    CollapseOfSlugPart("ab");
  }

  lemma TrimOfSample()
    ensures Trim("A'b") == "A'b"
  {
    assert !IsSpace('A') && !IsSpace('b');
    assert TrimStart("A'b") == "A'b";
  }

  lemma LowerOfSample()
    ensures Lower("A'b") == "a'b"
  {
    assert Lower("b") == "b" by { assert Lower("b") == LowerChar('b') + Lower([]); }
    assert Lower("'b") == "'b" by {
      assert "'b"[1..] == "b";
      assert Lower("'b") == LowerChar('\'') + Lower("b");
    }
    assert "A'b"[1..] == "'b";
  }

  lemma RemoveQuotesOfSample()
    ensures RemoveQuotes("a'b") == "ab"
  {
    assert "a'b"[1..] == "'b";
    assert "'b"[1..] == "b";
    assert RemoveQuotes("b") == "b";
  }
}
