/** The Python string operations the registry relies on: `sub in s`,
    `s.startswith(p)`, `s.split(sep)[-1]`, `s.split()`, `sep.join(parts)`,
    `str(n)` on a natural number and `int(s)`. */
module Strings {
  import opened Results

  /** `c.isspace()`: the characters Python's `str.split()` and `int()` treat as whitespace. */
  predicate IsSpace(c: char)
  {
    || c == ' ' || ('\t' <= c <= '\r') || ('\U{1C}' <= c <= '\U{1F}')
    || c == '\U{85}' || c == '\U{A0}' || c == '\U{1680}' || ('\U{2000}' <= c <= '\U{200A}')
    || c == '\U{2028}' || c == '\U{2029}' || c == '\U{202F}' || c == '\U{205F}' || c == '\U{3000}'
  }

  predicate NoSpace(s: string)
  {
    forall i :: 0 <= i < |s| ==> !IsSpace(s[i])
  }

  predicate IsDigit(c: char)
  {
    '0' <= c <= '9'
  }

  predicate AllDigits(s: string)
  {
    forall i :: 0 <= i < |s| ==> IsDigit(s[i])
  }

  // ---------------------------------------------------------------------------
  // `sub in s` and `s.startswith(p)`

  /** `sub` occurs in `s` starting at index `i`. */
  predicate OccursAt(s: string, sub: string, i: nat)
  {
    i + |sub| <= |s| && s[i..i + |sub|] == sub
  }

  /** Python's `sub in s` on two strings. */
  predicate Contains(s: string, sub: string)
  {
    exists i | 0 <= i <= |s| :: OccursAt(s, sub, i)
  }

  /** `s.startswith(prefix)`. */
  predicate StartsWith(s: string, prefix: string)
  {
    prefix <= s
  }

  /** A string that occurs inside a string that occurs in `s` occurs in `s`. */
  lemma ContainsTransitive(s: string, mid: string, sub: string)
    requires Contains(s, mid) && Contains(mid, sub)
    ensures Contains(s, sub)
  {
    var i :| 0 <= i <= |s| && OccursAt(s, mid, i);
    var j :| 0 <= j <= |mid| && OccursAt(mid, sub, j);
    assert forall k :: 0 <= k < |sub| ==> s[i + j + k] == mid[j + k] == sub[k];
    assert s[i + j..i + j + |sub|] == sub;
    assert OccursAt(s, sub, i + j);
  }

  /** What occurs in a part of a concatenation occurs in the whole. */
  lemma ContainsInConcat(a: string, b: string, sub: string)
    requires Contains(a, sub) || Contains(b, sub)
    ensures Contains(a + b, sub)
  {
    if Contains(a, sub) {
      var i :| 0 <= i <= |a| && OccursAt(a, sub, i);
      assert (a + b)[i..i + |sub|] == a[i..i + |sub|];
      assert OccursAt(a + b, sub, i);
    } else {
      var i :| 0 <= i <= |b| && OccursAt(b, sub, i);
      assert (a + b)[|a| + i..|a| + i + |sub|] == b[i..i + |sub|];
      assert OccursAt(a + b, sub, |a| + i);
    }
  }

  /** Python's `any([each in s for each in subs])`. */
  function ContainsAny(s: string, subs: seq<string>): (r: bool)
    ensures r <==> exists k :: 0 <= k < |subs| && Contains(s, subs[k])
  {
    if subs == [] then false
    else
      var rest := ContainsAny(s, subs[1..]);
      assert forall k :: 1 <= k < |subs| ==> subs[1..][k - 1] == subs[k];
      Contains(s, subs[0]) || rest
  }

  /** A character of `sub` that never appears in `s` keeps `sub` out of `s`. */
  lemma MissingCharExcludes(s: string, sub: string, i: nat)
    requires i < |sub| && sub[i] !in s
    ensures !Contains(s, sub)
  {
  }

  /** A string occurs in any text built around it. */
  lemma ContainsMiddle(a: string, sub: string, b: string)
    ensures Contains(a + sub + b, sub)
  {
    assert (a + sub + b)[|a|..|a| + |sub|] == sub;
    assert OccursAt(a + sub + b, sub, |a|);
  }

  /** What occurs in the middle part of a text occurs in the text. */
  lemma ContainsInSandwich(a: string, m: string, b: string, sub: string)
    requires Contains(m, sub)
    ensures Contains(a + m + b, sub)
  {
    ContainsInConcat(a, m, sub);
    ContainsInConcat(a + m, b, sub);
  }

  /** A string occurs in itself. */
  lemma ContainsSelf(s: string)
    ensures Contains(s, s)
  {
    assert OccursAt(s, s, 0);
  }

  // ---------------------------------------------------------------------------
  // `s.split(sep)[-1]`

  /** `s.split(sep)[-1]`: the text after the last `sep`, or all of `s` when it has none. */
  function LastSegment(s: string, sep: char): (r: string)
    ensures sep !in r
    ensures |r| <= |s| && r == s[|s| - |r|..]
    ensures |r| == |s| || s[|s| - |r| - 1] == sep
  {
    if s == [] then []
    else if s[|s| - 1] == sep then []
    else LastSegment(s[..|s| - 1], sep) + [s[|s| - 1]]
  }

  /** The last segment of `dir + sep + entry` is `entry` when `entry` holds no separator. */
  lemma LastSegmentOfChild(dir: string, sep: char, entry: string)
    requires sep !in entry
    ensures LastSegment(dir + [sep] + entry, sep) == entry
  {
    var s := dir + [sep] + entry;
    assert s[|s| - |entry| - 1] == sep;
    assert s[|s| - |entry|..] == entry;
  }

  // ---------------------------------------------------------------------------
  // `s.split()` and `sep.join(parts)`

  /** Length of the longest prefix of `s` without whitespace. */
  function TokenEnd(s: string): (n: nat)
    ensures n <= |s| && NoSpace(s[..n])
    ensures n < |s| ==> IsSpace(s[n])
  {
    if s == [] || IsSpace(s[0]) then 0
    else
      var n := 1 + TokenEnd(s[1..]);
      assert s[..n] == [s[0]] + s[1..][..n - 1];
      n
  }

  /** Python's `s.split()` with no argument: the maximal runs of non-whitespace, in order. */
  function SplitWs(s: string): (parts: seq<string>)
    ensures forall k :: 0 <= k < |parts| ==> parts[k] != [] && NoSpace(parts[k])
    decreases |s|
  {
    if s == [] then []
    else if IsSpace(s[0]) then SplitWs(s[1..])
    else
      var n := TokenEnd(s);
      [s[..n]] + SplitWs(s[n..])
  }

  /** Python's `sep.join(parts)`. */
  function JoinWith(sep: string, parts: seq<string>): string
  {
    if |parts| == 0 then ""
    else if |parts| == 1 then parts[0]
    else parts[0] + sep + JoinWith(sep, parts[1..])
  }

  /** One step of the join, grouped either way. */
  lemma JoinUnfold(sep: string, parts: seq<string>)
    requires |parts| > 1
    ensures JoinWith(sep, parts) == (parts[0] + sep) + JoinWith(sep, parts[1..])
    ensures JoinWith(sep, parts) == parts[0] + (sep + JoinWith(sep, parts[1..]))
  {
    var rest := JoinWith(sep, parts[1..]);
    assert (parts[0] + sep) + rest == parts[0] + (sep + rest);
  }

  /** A text holds its own prefix. */
  lemma ContainsPrefix(a: string, b: string)
    ensures Contains(a + b, a)
  {
    assert OccursAt(a + b, a, 0);
  }

  /** Every part shows in the joined text. */
  lemma {:induction false} JoinContainsEach(sep: string, parts: seq<string>, k: nat)
    requires k < |parts|
    ensures Contains(JoinWith(sep, parts), parts[k])
  {
    if |parts| == 1 {
      ContainsSelf(parts[0]);
    } else {
      var rest := JoinWith(sep, parts[1..]);
      JoinUnfold(sep, parts);
      if k == 0 {
        ContainsPrefix(parts[0], sep + rest);
      } else {
        JoinContainsEach(sep, parts[1..], k - 1);
        assert parts[1..][k - 1] == parts[k];
        ContainsInConcat(parts[0] + sep, rest, parts[k]);
      }
    }
  }

  /** Text written piece after piece: `"".join(parts)`. */
  function Concat(parts: seq<string>): (r: string)
    ensures parts == [] ==> r == ""
  {
    if parts == [] then "" else Concat(parts[..|parts| - 1]) + parts[|parts| - 1]
  }

  lemma ConcatSnoc(parts: seq<string>, p: string)
    ensures Concat(parts + [p]) == Concat(parts) + p
  {
    assert (parts + [p])[..|parts|] == parts;
  }

  /** Every piece shows in the text written from the pieces. */
  lemma {:induction false} ConcatContainsEach(parts: seq<string>, k: nat)
    requires k < |parts|
    ensures Contains(Concat(parts), parts[k])
  {
    var init := parts[..|parts| - 1];
    if k == |parts| - 1 {
      ContainsSelf(parts[k]);
      ContainsInConcat(Concat(init), parts[k], parts[k]);
    } else {
      ConcatContainsEach(init, k);
      ContainsInConcat(Concat(init), parts[|parts| - 1], parts[k]);
    }
  }

  lemma {:induction false} TokenEndOfWord(w: string, rest: string)
    requires NoSpace(w)
    requires rest == [] || IsSpace(rest[0])
    ensures TokenEnd(w + rest) == |w|
  {
    if w != [] {
      assert (w + rest)[1..] == w[1..] + rest;
      TokenEndOfWord(w[1..], rest);
    }
  }

  lemma {:induction false} SplitWsLeadingSpaces(sp: string, s: string)
    requires forall i :: 0 <= i < |sp| ==> IsSpace(sp[i])
    ensures SplitWs(sp + s) == SplitWs(s)
  {
    if sp == [] {
      assert sp + s == s;
    } else {
      assert (sp + s)[0] == sp[0];
      assert (sp + s)[1..] == sp[1..] + s;
      SplitWsLeadingSpaces(sp[1..], s);
    }
  }

  /** Splitting a space-joined list of words gives the words back. */
  lemma {:induction false} SplitJoinRoundTrip(parts: seq<string>)
    requires forall k :: 0 <= k < |parts| ==> parts[k] != [] && NoSpace(parts[k])
    ensures SplitWs(JoinWith(" ", parts)) == parts
  {
    if |parts| == 1 {
      var w := parts[0];
      TokenEndOfWord(w, []);
      assert w + [] == w;
      assert w[..|w|] == w && w[|w|..] == [];
    } else if |parts| > 1 {
      var w := parts[0];
      var tail := JoinWith(" ", parts[1..]);
      var s := w + " " + tail;
      assert s == w + (" " + tail);
      TokenEndOfWord(w, " " + tail);
      assert s[..|w|] == w;
      assert s[|w|..] == " " + tail;
      SplitWsLeadingSpaces(" ", tail);
      SplitJoinRoundTrip(parts[1..]);
      assert [w] + parts[1..] == parts;
    }
  }

  // ---------------------------------------------------------------------------
  // `str(n)` and `int(s)`

  function DigitChar(d: nat): (c: char)
    requires d < 10
    ensures IsDigit(c) && c as int - '0' as int == d
  {
    ('0' as int + d) as char
  }

  function DigitValue(c: char): nat
    requires IsDigit(c)
  {
    c as int - '0' as int
  }

  /** Python's `str(n)` for a natural number: decimal digits, no leading zero. */
  function NatToString(n: nat): (s: string)
    ensures |s| >= 1 && AllDigits(s)
    ensures s[0] == '0' ==> s == "0"
  {
    if n < 10 then [DigitChar(n)] else NatToString(n / 10) + [DigitChar(n % 10)]
  }

  /** The number a string of decimal digits denotes. */
  function DecimalValue(s: string): nat
    requires AllDigits(s)
  {
    if s == [] then 0 else 10 * DecimalValue(s[..|s| - 1]) + DigitValue(s[|s| - 1])
  }

  /** Reading back what `str(n)` wrote gives `n`. */
  lemma {:induction false} DecimalOfNatToString(n: nat)
    ensures DecimalValue(NatToString(n)) == n
  {
    if n >= 10 {
      DecimalOfNatToString(n / 10);
      var s := NatToString(n);
      assert s[..|s| - 1] == NatToString(n / 10);
    }
  }

  /** Distinct numbers have distinct decimal strings. */
  lemma NatToStringInjective(m: nat, n: nat)
    requires NatToString(m) == NatToString(n)
    ensures m == n
  {
    DecimalOfNatToString(m);
    DecimalOfNatToString(n);
  }

  /** ... read the other way round. */
  lemma NatToStringDiffers(m: nat, n: nat)
    requires m != n
    ensures NatToString(m) != NatToString(n)
  {
    DecimalOfNatToString(m);
    DecimalOfNatToString(n);
  }

  /** The position of the first character at or after `i` that is not
      whitespace: where `s.strip()` starts. */
  function SkipSpaces(s: string, i: nat): (j: nat)
    requires i <= |s|
    ensures i <= j <= |s|
    ensures j == |s| || !IsSpace(s[j])
    decreases |s| - i
  {
    if i < |s| && IsSpace(s[i]) then SkipSpaces(s, i + 1) else i
  }

  /** The end of `s[lo..hi]` once trailing whitespace is dropped: where
      `s.strip()` ends. */
  function TrimEnd(s: string, lo: nat, hi: nat): (j: nat)
    requires lo <= hi <= |s|
    ensures lo <= j <= hi
    ensures j == lo || !IsSpace(s[j - 1])
  {
    if lo < hi && IsSpace(s[hi - 1]) then TrimEnd(s, lo, hi - 1) else hi
  }

  /** From position `i` to `hi`, `s` holds digits and underscores, each
      underscore followed by a digit. */
  predicate GroupRest(s: string, i: nat, hi: nat)
    requires hi <= |s|
    decreases hi - i
  {
    i >= hi ||
    ((IsDigit(s[i]) || (s[i] == '_' && i + 1 < hi && IsDigit(s[i + 1]))) && GroupRest(s, i + 1, hi))
  }

  /** `s[lo..hi]` is a literal body `int()` accepts: ASCII digits, a single `_`
      allowed between two digits. */
  predicate DigitGroup(s: string, lo: nat, hi: nat)
    requires hi <= |s|
  {
    lo < hi && IsDigit(s[lo]) && GroupRest(s, lo, hi)
  }

  /** The value of the digits of `s[lo..hi]`, underscores ignored. */
  function GroupValue(s: string, lo: nat, hi: nat): nat
    requires lo <= hi <= |s|
  {
    if hi == lo then 0
    else if IsDigit(s[hi - 1]) then 10 * GroupValue(s, lo, hi - 1) + DigitValue(s[hi - 1])
    else GroupValue(s, lo, hi - 1)
  }

  /** Python's `int(s)` on a string, in base 10: surrounding whitespace, an optional
      sign, then a digit group; `None` stands for the `ValueError` it raises. */
  function ParseInt(s: string): Option<int>
  {
    var lo := SkipSpaces(s, 0);
    var hi := TrimEnd(s, lo, |s|);
    var signed := lo < hi && (s[lo] == '+' || s[lo] == '-');
    var start := if signed then lo + 1 else lo;
    if DigitGroup(s, start, hi) then
      var v: int := GroupValue(s, start, hi);
      Some(if signed && s[lo] == '-' then -v else v)
    else None
  }

  /** `int()` rejects every string without a decimal digit, so such a token is never an id. */
  lemma ParseIntNeedsDigit(s: string)
    requires ParseInt(s).Some?
    ensures exists i :: 0 <= i < |s| && IsDigit(s[i])
  {
    var lo := SkipSpaces(s, 0);
    var hi := TrimEnd(s, lo, |s|);
    var start := if lo < hi && (s[lo] == '+' || s[lo] == '-') then lo + 1 else lo;
    assert IsDigit(s[start]);
  }

  /** A run of digits is a digit group. */
  lemma {:induction false} DigitsFormGroup(s: string, i: nat)
    requires AllDigits(s) && i <= |s|
    ensures GroupRest(s, i, |s|)
    decreases |s| - i
  {
    if i < |s| {
      DigitsFormGroup(s, i + 1);
    }
  }

  /** On a run of digits the group value is the decimal value. */
  lemma {:induction false} GroupValueOfDigits(s: string, hi: nat)
    requires AllDigits(s) && hi <= |s|
    ensures GroupValue(s, 0, hi) == DecimalValue(s[..hi])
  {
    if hi > 0 {
      GroupValueOfDigits(s, hi - 1);
      assert s[..hi][..hi - 1] == s[..hi - 1];
    }
  }

  lemma DigitsAreNotSpace(c: char)
    requires IsDigit(c)
    ensures !IsSpace(c)
  {
  }

  /** `int(str(n)) == n`: every id the registry writes is read back as the same number. */
  lemma ParseIntOfNatToString(n: nat)
    ensures ParseInt(NatToString(n)) == Some(n)
  {
    var s := NatToString(n);
    DigitsAreNotSpace(s[0]);
    DigitsAreNotSpace(s[|s| - 1]);
    assert SkipSpaces(s, 0) == 0;
    assert TrimEnd(s, 0, |s|) == |s|;
    DigitsFormGroup(s, 0);
    GroupValueOfDigits(s, |s|);
    assert s[..|s|] == s;
    DecimalOfNatToString(n);
  }
}
