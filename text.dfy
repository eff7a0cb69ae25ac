/** The handful of Python `str` operations the integration relies on, written out
    with their Python meaning: `strip`, `rstrip`, `startswith`, `in`, `split`,
    `replace`, `int(...)` and `str(int)`. */
module Text {
  import opened Wrappers

  /** Characters for which Python's `str.isspace()` holds; `str.strip()` and
      `int()` trim exactly these. */
  predicate IsSpace(c: char) {
    c == ' ' || ('\t' <= c <= '\r') || ('\U{1c}' <= c <= '\U{1f}')
    || c == '\U{85}' || c == '\U{a0}' || c == '\U{1680}'
    || ('\U{2000}' <= c <= '\U{200a}') || c == '\U{2028}' || c == '\U{2029}'
    || c == '\U{202f}' || c == '\U{205f}' || c == '\U{3000}'
  }

  /** Python's `s.lstrip()`: what is left after the leading whitespace. */
  function LStrip(s: string): (r: string)
    ensures |r| <= |s| && r == s[|s| - |r|..]
    ensures forall i :: 0 <= i < |s| - |r| ==> IsSpace(s[i])
    ensures r != [] ==> !IsSpace(r[0])
  {
    if s != [] && IsSpace(s[0]) then LStrip(s[1..]) else s
  }

  /** Python's `s.rstrip()`: what is left before the trailing whitespace. */
  function RStrip(s: string): (r: string)
    ensures |r| <= |s| && r == s[..|r|]
    ensures forall i :: |r| <= i < |s| ==> IsSpace(s[i])
    ensures r != [] ==> !IsSpace(r[|r| - 1])
  {
    if s != [] && IsSpace(s[|s| - 1]) then RStrip(s[..|s| - 1]) else s
  }

  /** Python's `s.strip()`. */
  function Strip(s: string): (r: string)
    ensures r == [] || (!IsSpace(r[0]) && !IsSpace(r[|r| - 1]))
    ensures r == [] <==> forall i :: 0 <= i < |s| ==> IsSpace(s[i])
  {
    var l := LStrip(s);
    var r := RStrip(l);
    assert r != [] ==> r[0] == l[0];
    assert r == [] ==> l == [];
    r
  }

  /** `strip()` removes exactly the surrounding whitespace: the result is a slice
      of the input with only whitespace before and after it. With the ends of the
      result not being whitespace, this fixes it. */
  lemma StripIsTrim(s: string)
    ensures exists i, j ::
              && 0 <= i <= j <= |s| && Strip(s) == s[i..j]
              && (forall k :: 0 <= k < i ==> IsSpace(s[k]))
              && (forall k :: j <= k < |s| ==> IsSpace(s[k]))
  {
    var l := LStrip(s);
    var r := RStrip(l);
    assert Strip(s) == r;
    TrimSlice(s, l, r);
  }

  /** A prefix `r` of a suffix `l` of `s`, with only whitespace before `l` in `s` and
      after `r` in `l`, is a slice of `s` with only whitespace around it. */
  lemma TrimSlice(s: string, l: string, r: string)
    requires |l| <= |s| && l == s[|s| - |l|..]
    requires |r| <= |l| && r == l[..|r|]
    requires forall k :: |r| <= k < |l| ==> IsSpace(l[k])
    requires forall k :: 0 <= k < |s| - |l| ==> IsSpace(s[k])
    ensures exists i, j ::
              && 0 <= i <= j <= |s| && r == s[i..j]
              && (forall k :: 0 <= k < i ==> IsSpace(s[k]))
              && (forall k :: j <= k < |s| ==> IsSpace(s[k]))
  {
    var i := |s| - |l|;
    forall k | i + |r| <= k < |s| ensures IsSpace(s[k]) {
      assert s[k] == l[k - i];
    }
    assert r == s[i..i + |r|];
  }

  /** A string that neither starts nor ends with whitespace is its own `strip()`. */
  lemma StripTrimmed(s: string)
    requires s == [] || (!IsSpace(s[0]) && !IsSpace(s[|s| - 1]))
    ensures Strip(s) == s
  {
    assert LStrip(s) == s;
    assert RStrip(s) == s;
  }

  /** `strip()` is idempotent. */
  lemma StripIdempotent(s: string)
    ensures Strip(Strip(s)) == Strip(s)
  {
    StripTrimmed(Strip(s));
  }

  /** Python's `s.rstrip(c)` for one character `c`: drops every trailing `c`. */
  function RStripChar(s: string, c: char): (r: string)
    ensures |r| <= |s| && r == s[..|r|]
    ensures forall i :: |r| <= i < |s| ==> s[i] == c
    ensures r == [] || r[|r| - 1] != c
  {
    if s != [] && s[|s| - 1] == c then RStripChar(s[..|s| - 1], c) else s
  }

  /** Python's `s.startswith(prefix)`. */
  predicate StartsWith(s: string, prefix: string) {
    |prefix| <= |s| && s[..|prefix|] == prefix
  }

  /** `sub` occurs in `s` starting at index `i`. */
  predicate OccursAt(s: string, sub: string, i: int) {
    0 <= i && i + |sub| <= |s| && s[i..i + |sub|] == sub
  }

  /** Python's `s.find(sub, from)`: the first index at or after `from` where `sub` occurs. */
  function FindFrom(s: string, sub: string, from: nat): (r: Option<nat>)
    requires from <= |s|
    ensures r.Some? ==> from <= r.value && OccursAt(s, sub, r.value)
    ensures r.Some? ==> forall k :: from <= k < r.value ==> !OccursAt(s, sub, k)
    ensures r.None? ==> forall k :: from <= k ==> !OccursAt(s, sub, k)
    decreases |s| - from
  {
    if OccursAt(s, sub, from) then Some(from)
    else if from == |s| then None
    else FindFrom(s, sub, from + 1)
  }

  /** Python's `sub in s`. */
  predicate Contains(s: string, sub: string)
    ensures Contains(s, sub) <==> exists k :: OccursAt(s, sub, k)
  {
    FindFrom(s, sub, 0).Some?
  }

  /** The pieces of `s[from..]` between occurrences of `sep`, scanning left to right. */
  function SplitFrom(s: string, sep: string, from: nat): (parts: seq<string>)
    requires sep != [] && from <= |s|
    ensures parts != []
    decreases |s| - from
  {
    match FindFrom(s, sep, from)
    case None => [s[from..]]
    case Some(j) => [s[from..j]] + SplitFrom(s, sep, j + |sep|)
  }

  /** Python's `s.split(sep)` for a non-empty separator. */
  function Split(s: string, sep: string): (parts: seq<string>)
    requires sep != []
    ensures parts != []
  {
    SplitFrom(s, sep, 0)
  }

  /** Python's `sep.join(parts)`. */
  function Join(parts: seq<string>, sep: string): string {
    if |parts| == 0 then ""
    else if |parts| == 1 then parts[0]
    else parts[0] + sep + Join(parts[1..], sep)
  }

  /** Python's `s.replace(target, with)` for a non-empty `target`: every occurrence, left to
      right and without overlap, is replaced, which is `with.join(s.split(target))`. */
  function Replace(s: string, target: string, with: string): string
    requires target != []
  {
    Join(Split(s, target), with)
  }

  /** Python's `s.split(sep)[-1]`. */
  function LastPiece(s: string, sep: string): string
    requires sep != []
  {
    var parts := Split(s, sep);
    parts[|parts| - 1]
  }

  lemma {:induction false} SplitFromJoin(s: string, sep: string, from: nat)
    requires sep != [] && from <= |s|
    ensures Join(SplitFrom(s, sep, from), sep) == s[from..]
    decreases |s| - from
  {
    match FindFrom(s, sep, from)
    case None =>
    case Some(j) =>
      var rest := SplitFrom(s, sep, j + |sep|);
      SplitFromJoin(s, sep, j + |sep|);
      assert SplitFrom(s, sep, from) == [s[from..j]] + rest;
      assert s[from..] == s[from..j] + s[j..j + |sep|] + s[j + |sep|..];
  }

  /** Splitting and joining again with the same separator gives back the string. */
  lemma SplitJoin(s: string, sep: string)
    requires sep != []
    ensures Join(Split(s, sep), sep) == s
  {
    SplitFromJoin(s, sep, 0);
  }

  /** A slice of `s` in which no occurrence of `sub` starts, inside the slice, does not contain `sub`. */
  lemma NoOccurrenceInSlice(s: string, sub: string, lo: nat, hi: nat)
    requires sub != [] && lo <= hi <= |s|
    requires forall k :: lo <= k && k + |sub| <= hi ==> !OccursAt(s, sub, k)
    ensures !Contains(s[lo..hi], sub)
  {
    forall k | OccursAt(s[lo..hi], sub, k) ensures OccursAt(s, sub, lo + k) {
      var w := s[lo..hi];
      assert k + |sub| <= |w| && w[k..k + |sub|] == sub;
      forall t | 0 <= t < |sub| ensures s[lo + k + t] == sub[t] {
        assert w[k..k + |sub|][t] == w[k + t] == s[lo + k + t];
      }
      assert s[lo + k..lo + k + |sub|] == sub;
    }
  }

  lemma {:induction false} SplitFromPieces(s: string, sep: string, from: nat)
    requires sep != [] && from <= |s|
    ensures forall p :: p in SplitFrom(s, sep, from) ==> !Contains(p, sep)
    decreases |s| - from
  {
    match FindFrom(s, sep, from)
    case None =>
      NoOccurrenceInSlice(s, sep, from, |s|);
      assert s[from..] == s[from..|s|];
    case Some(j) =>
      NoOccurrenceInSlice(s, sep, from, j);
      SplitFromPieces(s, sep, j + |sep|);
  }

  /** No piece that `split` returns contains the separator. */
  lemma SplitPieces(s: string, sep: string)
    requires sep != []
    ensures forall p :: p in Split(s, sep) ==> !Contains(p, sep)
  {
    SplitFromPieces(s, sep, 0);
  }

  /** Where the left-to-right, non-overlapping scan of `s[from..].split(sep)`
      resumes after the last separator it consumes: the start of the last piece. */
  function LastCut(s: string, sep: string, from: nat): (m: nat)
    requires sep != [] && from <= |s|
    ensures from <= m <= |s|
    decreases |s| - from
  {
    match FindFrom(s, sep, from)
    case None => from
    case Some(j) => LastCut(s, sep, j + |sep|)
  }

  lemma {:induction false} SplitFromLast(s: string, sep: string, from: nat)
    requires sep != [] && from <= |s|
    ensures var parts, m := SplitFrom(s, sep, from), LastCut(s, sep, from);
      && parts[|parts| - 1] == s[m..]
      && (m == from <==> forall k :: from <= k ==> !OccursAt(s, sep, k))
      && (m != from ==> from + |sep| <= m && OccursAt(s, sep, m - |sep|))
      && forall k :: m <= k ==> !OccursAt(s, sep, k)
    decreases |s| - from
  {
    match FindFrom(s, sep, from)
    case None =>
      assert SplitFrom(s, sep, from)[0] == s[from..];
    case Some(j) =>
      SplitFromLast(s, sep, j + |sep|);
      var rest := SplitFrom(s, sep, j + |sep|);
      assert SplitFrom(s, sep, from)[|SplitFrom(s, sep, from)| - 1] == rest[|rest| - 1];
  }

  /** `s.split(sep)[-1]` starts where the split's scan last resumed: right after an
      occurrence of `sep` that the scan consumed, with no occurrence starting from
      there on, or at the start of `s` when `sep` does not occur. Because the scan
      skips occurrences that overlap one it consumed, this need not be after the
      last occurrence (see LastPieceAfterLastOccurrence). */
  lemma LastPieceAtLastCut(s: string, sep: string)
    requires sep != []
    ensures var m := LastCut(s, sep, 0);
      && LastPiece(s, sep) == s[m..]
      && (m == 0 <==> !Contains(s, sep))
      && (m != 0 ==> |sep| <= m && OccursAt(s, sep, m - |sep|))
      && (forall k :: m <= k ==> !OccursAt(s, sep, k))
      && !Contains(LastPiece(s, sep), sep)
  {
    SplitFromLast(s, sep, 0);
    SplitPieces(s, sep);
  }

  /** `sep` cannot overlap itself: no proper suffix of it is also a prefix. */
  predicate SelfOverlapFree(sep: string) {
    forall d :: 0 < d < |sep| ==> sep[d..] != sep[..|sep| - d]
  }

  /** Two occurrences of `sep` less than `|sep|` apart make a proper suffix of it a prefix. */
  lemma OverlapIsBorder(s: string, sep: string, k: nat, k': nat)
    requires OccursAt(s, sep, k) && OccursAt(s, sep, k') && k < k' < k + |sep|
    ensures sep[k' - k..] == sep[..|sep| - (k' - k)]
  {
    var d, m := k' - k, k + |sep|;
    assert sep[d..] == s[k'..m] by {
      assert s[k..m][d..] == s[k'..m];
    }
    assert sep[..|sep| - d] == s[k'..m] by {
      assert s[k'..k' + |sep|][..|sep| - d] == s[k'..m];
    }
  }

  /** For a separator that cannot overlap itself, `s.split(sep)[-1]` is the text
      after the last occurrence of `sep`. */
  lemma LastPieceAfterLastOccurrence(s: string, sep: string)
    requires sep != [] && SelfOverlapFree(sep) && Contains(s, sep)
    ensures exists k ::
              && OccursAt(s, sep, k)
              && (forall k' :: OccursAt(s, sep, k') ==> k' <= k)
              && LastPiece(s, sep) == s[k + |sep|..]
  {
    LastPieceAtLastCut(s, sep);
    var m := LastCut(s, sep, 0);
    NothingAfterLast(s, sep, m - |sep|);
    assert LastPiece(s, sep) == s[m - |sep| + |sep|..];
  }

  /** With no occurrence from its end on, an occurrence of a separator that cannot
      overlap itself is the last one. */
  lemma NothingAfterLast(s: string, sep: string, k: nat)
    requires SelfOverlapFree(sep) && OccursAt(s, sep, k)
    requires forall j :: k + |sep| <= j ==> !OccursAt(s, sep, j)
    ensures forall k' :: OccursAt(s, sep, k') ==> k' <= k
  {
    forall k' | OccursAt(s, sep, k') ensures k' <= k {
      if k' > k {
        OverlapIsBorder(s, sep, k, k');
      }
    }
  }

  /** Replacing `pre` by the empty string in `pre + rest`, where `rest` does not
      contain `pre`, leaves exactly `rest`. */
  lemma ReplaceLeadingOnly(pre: string, rest: string)
    requires pre != [] && !Contains(rest, pre)
    ensures Replace(pre + rest, pre, "") == rest
  {
    var s := pre + rest;
    assert OccursAt(s, pre, 0) by { assert s[0..|pre|] == pre; }
    assert FindFrom(s, pre, 0) == Some(0);
    forall k | |pre| <= k && OccursAt(s, pre, k) ensures OccursAt(rest, pre, k - |pre|) {
      assert s[k..k + |pre|] == rest[k - |pre|..k - |pre| + |pre|];
    }
    assert FindFrom(s, pre, |pre|) == None;
    assert s[|pre|..] == rest;
    assert SplitFrom(s, pre, |pre|) == [rest];
    assert Split(s, pre) == [s[0..0]] + [rest];
    assert Join(["", rest], "") == "" + "" + rest;
  }

  predicate IsDigit(c: char) {
    '0' <= c <= '9'
  }

  function DigitChar(d: nat): (c: char)
    requires d < 10
    ensures IsDigit(c)
  {
    ('0' as int + d) as char
  }

  function DigitValue(c: char): (d: nat)
    requires IsDigit(c)
    ensures d < 10 && DigitChar(d) == c
  {
    c as int - '0' as int
  }

  /** Python's `str(n)` for a non-negative integer: its decimal digits, no leading zero. */
  function NatToDecimal(n: nat): (r: string)
    ensures r != [] && forall i :: 0 <= i < |r| ==> IsDigit(r[i])
    ensures |r| > 1 ==> r[0] != '0'
  {
    if n < 10 then [DigitChar(n)] else NatToDecimal(n / 10) + [DigitChar(n % 10)]
  }

  /** Python's `str(n)` (and `f"{n}"`) for an integer. */
  function IntToDecimal(n: int): string {
    if n < 0 then "-" + NatToDecimal(-n) else NatToDecimal(n)
  }

  /** The digit part that Python's `int()` accepts: digits, with single underscores
      allowed between two digits. */
  predicate IsDigitGroups(u: string) {
    && u != [] && IsDigit(u[0]) && IsDigit(u[|u| - 1])
    && (forall i :: 0 <= i < |u| ==> IsDigit(u[i]) || u[i] == '_')
    && (forall i :: 0 <= i < |u| - 1 && u[i] == '_' ==> u[i + 1] != '_')
  }

  /** The value of a digit string, underscores ignored. */
  function DigitsValue(u: string): nat
    requires forall i :: 0 <= i < |u| ==> IsDigit(u[i]) || u[i] == '_'
  {
    if u == [] then 0
    else if u[|u| - 1] == '_' then DigitsValue(u[..|u| - 1])
    else DigitsValue(u[..|u| - 1]) * 10 + DigitValue(u[|u| - 1])
  }

  /** Python's `int(s)` on a string: surrounding whitespace, then an optional sign,
      then digit groups; `None` where Python raises `ValueError`. */
  function ParseInt(s: string): Option<int> {
    ParseTrimmed(Strip(s))
  }

  /** What `int()` makes of the text once its surrounding whitespace is gone. */
  function ParseTrimmed(t: string): Option<int> {
    var signed := t != [] && (t[0] == '+' || t[0] == '-');
    var body := if signed then t[1..] else t;
    if IsDigitGroups(body) then
      var v: int := DigitsValue(body);
      Some(if signed && t[0] == '-' then -v else v)
    else None
  }

  lemma {:induction false} DecimalValue(n: nat)
    ensures DigitsValue(NatToDecimal(n)) == n
  {
    if n >= 10 {
      var d := NatToDecimal(n);
      DecimalValue(n / 10);
      assert d[..|d| - 1] == NatToDecimal(n / 10);
    }
  }

  /** The digits of a natural number form one group `int()` accepts. */
  lemma DecimalIsDigitGroups(n: nat)
    ensures IsDigitGroups(NatToDecimal(n))
  {
  }

  /** A formatted integer has no surrounding whitespace. */
  lemma DecimalTrimmed(n: int)
    ensures Strip(IntToDecimal(n)) == IntToDecimal(n)
  {
    var t := IntToDecimal(n);
    assert !IsSpace(t[0]) && !IsSpace(t[|t| - 1]);
    StripTrimmed(t);
  }

  /** `int(str(n)) == n`: reading back a formatted integer gives the integer. */
  lemma ParseDecimal(n: int)
    ensures ParseInt(IntToDecimal(n)) == Some(n)
  {
    var m: nat := if n < 0 then -n else n;
    var t := IntToDecimal(n);
    var d := NatToDecimal(m);
    DecimalTrimmed(n);
    DecimalIsDigitGroups(m);
    DecimalValue(m);
    var signed := t != [] && (t[0] == '+' || t[0] == '-');
    var body := if signed then t[1..] else t;
    if n < 0 {
      assert signed && t[0] == '-';
      assert body == d;
    } else {
      assert !signed;
      assert body == d;
    }
  }

  /** Splitting `a + [c] + b` on the one character `c`, when neither side contains
      it, gives the two sides. */
  lemma SplitAroundChar(a: string, c: char, b: string)
    requires c !in a && c !in b
    ensures Split(a + [c] + b, [c]) == [a, b]
  {
    var s := a + [c] + b;
    forall k | 0 <= k < |a| ensures !OccursAt(s, [c], k) {
      assert s[k..k + 1] == [a[k]];
    }
    assert s[|a|..|a| + 1] == [c];
    assert OccursAt(s, [c], |a|);
    assert FindFrom(s, [c], 0) == Some(|a|);
    forall k | |a| + 1 <= k ensures !OccursAt(s, [c], k) {
      if k < |s| {
        assert s[k..k + 1] == [b[k - |a| - 1]];
      }
    }
    assert FindFrom(s, [c], |a| + 1) == None;
    assert s[..|a|] == a && s[|a| + 1..] == b;
    assert SplitFrom(s, [c], |a| + 1) == [b];
  }

  /** A string without the separator splits into itself alone. */
  lemma SplitWithoutSeparator(s: string, sep: string)
    requires sep != [] && !Contains(s, sep)
    ensures Split(s, sep) == [s]
  {
    assert FindFrom(s, sep, 0) == None;
    assert s[0..] == s;
  }
}
