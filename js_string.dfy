/** The JavaScript string operations the application relies on: `trim`,
    `toLowerCase`/`toUpperCase`, `includes`, `split` on one character, `join`,
    and the truthiness of an optional string (`s || fallback`).
    Strings are sequences of Unicode scalar values; case mapping covers the
    ASCII letters only. */
module JsString {
  import opened Wrappers

  predicate IsUpperAscii(c: char) { 'A' <= c <= 'Z' }
  predicate IsLowerAscii(c: char) { 'a' <= c <= 'z' }

  /** The characters ECMAScript's `String.prototype.trim` removes: WhiteSpace
      (including every space separator) and LineTerminator. */
  predicate IsWhitespace(c: char) {
    || c == '\t' || c == '\U{B}' || c == '\U{C}' || c == ' ' || c == '\U{A0}'
    || c == '\U{FEFF}' || c == '\U{1680}' || ('\U{2000}' <= c <= '\U{200A}')
    || c == '\U{202F}' || c == '\U{205F}' || c == '\U{3000}'
    || c == '\n' || c == '\r' || c == '\U{2028}' || c == '\U{2029}'
  }

  /** The characters a regular-expression `.` does not match. */
  predicate IsLineTerminator(c: char) {
    c == '\n' || c == '\r' || c == '\U{2028}' || c == '\U{2029}'
  }

  predicate AllWhitespace(s: string) {
    forall i | 0 <= i < |s| :: IsWhitespace(s[i])
  }

  function LowerChar(c: char): (r: char)
    ensures !IsUpperAscii(r)
    ensures IsUpperAscii(c) ==> IsLowerAscii(r)
    ensures !IsUpperAscii(c) ==> r == c
  {
    if IsUpperAscii(c) then (c as int + 32) as char else c
  }

  function UpperChar(c: char): (r: char)
    ensures !IsLowerAscii(r)
    ensures IsLowerAscii(c) ==> IsUpperAscii(r)
    ensures !IsLowerAscii(c) ==> r == c
  {
    if IsLowerAscii(c) then (c as int - 32) as char else c
  }

  function ToLower(s: string): (r: string)
    ensures |r| == |s|
    ensures forall i | 0 <= i < |s| :: r[i] == LowerChar(s[i])
  {
    seq(|s|, i requires 0 <= i < |s| => LowerChar(s[i]))
  }

  function ToUpper(s: string): (r: string)
    ensures |r| == |s|
    ensures forall i | 0 <= i < |s| :: r[i] == UpperChar(s[i])
  {
    seq(|s|, i requires 0 <= i < |s| => UpperChar(s[i]))
  }

  /** `s.charAt(0).toUpperCase() + s.slice(1)` */
  function CapitalizeFirst(s: string): (r: string)
    ensures |r| == |s|
    ensures s != "" ==> r[0] == UpperChar(s[0]) && r[1..] == s[1..]
  {
    if s == "" then "" else [UpperChar(s[0])] + s[1..]
  }

  lemma ToLowerAppend(a: string, b: string)
    ensures ToLower(a + b) == ToLower(a) + ToLower(b)
  {
    assert forall i | 0 <= i < |a + b| :: ToLower(a + b)[i] == (ToLower(a) + ToLower(b))[i];
  }

  /** Lower-casing neither creates nor removes whitespace. */
  lemma LowerCharWhitespace(c: char)
    ensures IsWhitespace(LowerChar(c)) == IsWhitespace(c)
  {
  }

  // ---------------------------------------------------------------- trim

  /** The number of whitespace characters at the front of `s`. */
  function LeadingSpace(s: string): (k: nat)
    ensures k <= |s|
    ensures forall j | 0 <= j < k :: IsWhitespace(s[j])
    ensures k < |s| ==> !IsWhitespace(s[k])
  {
    if |s| > 0 && IsWhitespace(s[0]) then 1 + LeadingSpace(s[1..]) else 0
  }

  /** The number of whitespace characters at the end of `s`. */
  function TrailingSpace(s: string): (k: nat)
    ensures k <= |s|
    ensures forall j | |s| - k <= j < |s| :: IsWhitespace(s[j])
    ensures k < |s| ==> !IsWhitespace(s[|s| - k - 1])
  {
    if |s| > 0 && IsWhitespace(s[|s| - 1]) then 1 + TrailingSpace(s[..|s| - 1]) else 0
  }

  /** `s.trimStart()` */
  function TrimStart(s: string): (r: string)
    ensures r == s[LeadingSpace(s)..]
    ensures r == [] || !IsWhitespace(r[0])
  {
    s[LeadingSpace(s)..]
  }

  /** `s.trimEnd()` */
  function TrimEnd(s: string): (r: string)
    ensures r == s[..|s| - TrailingSpace(s)]
    ensures r == [] || !IsWhitespace(r[|r| - 1])
  {
    s[..|s| - TrailingSpace(s)]
  }

  /** `s.trim()` */
  function Trim(s: string): (r: string)
    ensures |r| <= |s|
    ensures r == [] || (!IsWhitespace(r[0]) && !IsWhitespace(r[|r| - 1]))
  {
    TrimEnd(TrimStart(s))
  }

  /** Whitespace in front of a string that does not itself start with
      whitespace is exactly what `TrimStart` removes. */
  lemma {:induction false} LeadingSpaceOfPadded(a: string, r: string)
    requires AllWhitespace(a)
    requires r == [] || !IsWhitespace(r[0])
    ensures LeadingSpace(a + r) == |a|
    decreases |a|
  {
    if a != [] {
      assert (a + r)[1..] == a[1..] + r;
      LeadingSpaceOfPadded(a[1..], r);
    }
  }

  lemma {:induction false} TrailingSpaceOfPadded(r: string, b: string)
    requires AllWhitespace(b)
    requires r == [] || !IsWhitespace(r[|r| - 1])
    ensures TrailingSpace(r + b) == |b|
    decreases |b|
  {
    if b != [] {
      assert (r + b)[..|r + b| - 1] == r + b[..|b| - 1];
      TrailingSpaceOfPadded(r, b[..|b| - 1]);
    }
  }

  /** A string that does not start with whitespace is its own `trimStart`. */
  lemma TrimStartKeeps(s: string)
    requires s == [] || !IsWhitespace(s[0])
    ensures TrimStart(s) == s
  {
  }

  /** A string that is a core without surrounding whitespace, padded with
      whitespace on both sides, trims to that core. */
  lemma TrimUnique(a: string, r: string, b: string)
    requires AllWhitespace(a) && AllWhitespace(b)
    requires r == [] || (!IsWhitespace(r[0]) && !IsWhitespace(r[|r| - 1]))
    ensures Trim(a + r + b) == r
  {
    if r == [] {
      AllWhitespaceAppend(a, b);
      assert a + r + b == (a + b) + [];
      LeadingSpaceOfPadded(a + b, []);
    } else {
      assert a + r + b == a + (r + b);
      LeadingSpaceOfPadded(a, r + b);
      assert TrimStart(a + r + b) == r + b;
      TrailingSpaceOfPadded(r, b);
    }
  }

  lemma SplitAt(s: string, k: nat)
    requires k <= |s|
    ensures s == s[..k] + s[k..]
  {
  }

  lemma TrimStartSplit(s: string) returns (front: string)
    ensures s == front + TrimStart(s) && AllWhitespace(front)
  {
    var i := LeadingSpace(s);
    front := s[..i];
    SplitAt(s, i);
  }

  lemma TrimEndSplit(t: string) returns (back: string)
    ensures t == TrimEnd(t) + back && AllWhitespace(back)
  {
    var k := |t| - TrailingSpace(t);
    back := t[k..];
    SplitAt(t, k);
  }

  /** Every string is its trimmed core padded with whitespace. */
  lemma TrimDecompose(s: string) returns (front: string, back: string)
    ensures s == front + Trim(s) + back
    ensures AllWhitespace(front) && AllWhitespace(back)
  {
    var t := TrimStart(s);
    front := TrimStartSplit(s);
    back := TrimEndSplit(t);
    var r := TrimEnd(t);
    assert Trim(s) == r;
    assert s == front + (r + back);
    assert front + (r + back) == front + r + back;
  }

  lemma AllWhitespaceAppend(a: string, b: string)
    requires AllWhitespace(a) && AllWhitespace(b)
    ensures AllWhitespace(a + b)
  {
  }

  lemma Regroup(a: string, f: string, r: string, k: string, b: string)
    ensures a + (f + r + k) + b == (a + f) + r + (k + b)
  {
  }

  /** Surrounding whitespace does not change the trimmed string. */
  lemma TrimIgnoresPadding(s: string, a: string, b: string)
    requires AllWhitespace(a) && AllWhitespace(b)
    ensures Trim(a + s + b) == Trim(s)
  {
    var r := Trim(s);
    var front, back := TrimDecompose(s);
    Regroup(a, front, r, back, b);
    AllWhitespaceAppend(a, front);
    AllWhitespaceAppend(back, b);
    TrimUnique(a + front, r, back + b);
  }

  lemma ToLowerKeepsWhitespace(s: string)
    requires AllWhitespace(s)
    ensures AllWhitespace(ToLower(s))
  {
    forall i | 0 <= i < |s| ensures IsWhitespace(ToLower(s)[i]) {
      LowerCharWhitespace(s[i]);
    }
  }

  /** Lower-casing keeps a string free of whitespace at both ends. */
  lemma LowerKeepsEnds(t: string)
    requires t == [] || (!IsWhitespace(t[0]) && !IsWhitespace(t[|t| - 1]))
    ensures var r := ToLower(t);
      r == [] || (!IsWhitespace(r[0]) && !IsWhitespace(r[|r| - 1]))
  {
    if t != [] {
      LowerCharWhitespace(t[0]);
      LowerCharWhitespace(t[|t| - 1]);
    }
  }

  /** Lower-casing a padded core and then trimming gives the lower-cased
      core. */
  lemma TrimOfLowerPadded(a: string, r: string, b: string)
    requires AllWhitespace(a) && AllWhitespace(b)
    requires r == [] || (!IsWhitespace(r[0]) && !IsWhitespace(r[|r| - 1]))
    ensures Trim(ToLower(a + r + b)) == ToLower(r)
  {
    ToLowerAppend(a + r, b);
    ToLowerAppend(a, r);
    ToLowerKeepsWhitespace(a);
    ToLowerKeepsWhitespace(b);
    LowerKeepsEnds(r);
    TrimUnique(ToLower(a), ToLower(r), ToLower(b));
  }

  /** Trimming and lower-casing commute. */
  lemma TrimToLowerCommute(s: string)
    ensures Trim(ToLower(s)) == ToLower(Trim(s))
  {
    var front, back := TrimDecompose(s);
    TrimOfLowerPadded(front, Trim(s), back);
  }

  // ---------------------------------------------------------- includes

  /** `sub` occurs in `s` starting at position `i`. */
  predicate OccursAt(s: string, sub: string, i: int) {
    0 <= i <= |s| - |sub| && s[i..i + |sub|] == sub
  }

  /** `s.includes(sub)` */
  predicate Contains(s: string, sub: string) {
    exists i | 0 <= i <= |s| - |sub| :: OccursAt(s, sub, i)
  }

  lemma ContainsPrefix(s: string, p: string)
    requires |p| <= |s| && s[..|p|] == p
    ensures Contains(s, p)
  {
    assert OccursAt(s, p, 0);
  }

  /** A string containing `outer` contains every piece of `outer`. */
  lemma ContainsTransitive(s: string, outer: string, inner: string, k: nat)
    requires Contains(s, outer)
    requires k + |inner| <= |outer| && outer[k..k + |inner|] == inner
    ensures Contains(s, inner)
  {
    var i :| 0 <= i <= |s| - |outer| && OccursAt(s, outer, i);
    forall j | 0 <= j < |inner| ensures s[i + k + j] == inner[j] {
      assert s[i..i + |outer|][k + j] == outer[k..k + |inner|][j];
    }
    assert s[i + k..i + k + |inner|] == inner;
    assert OccursAt(s, inner, i + k);
  }

  // ------------------------------------------------------ split and join

  /** `parts.join(sep)` */
  function Join(parts: seq<string>, sep: string): string {
    if |parts| == 0 then ""
    else if |parts| == 1 then parts[0]
    else parts[0] + sep + Join(parts[1..], sep)
  }

  /** The first position of `c` in `s`. */
  function IndexOf(s: string, c: char): (i: nat)
    requires c in s
    ensures i < |s| && s[i] == c && c !in s[..i]
  {
    if s[0] == c then 0
    else
      var j := IndexOf(s[1..], c);
      assert s[..j + 1] == [s[0]] + s[1..][..j];
      1 + j
  }

  /** `s.split(sep)` for a one-character separator: the pieces between the
      separators, an empty string included where two separators are adjacent
      or at either end. */
  function Split(s: string, sep: char): (parts: seq<string>)
    ensures |parts| >= 1
    ensures forall k | 0 <= k < |parts| :: sep !in parts[k]
    ensures Join(parts, [sep]) == s
    decreases |s|
  {
    if sep !in s then [s]
    else
      var i := IndexOf(s, sep);
      var rest := Split(s[i + 1..], sep);
      assert ([s[..i]] + rest)[1..] == rest;
      assert s == s[..i] + [sep] + s[i + 1..];
      [s[..i]] + rest
  }

  /** Every occurrence of `c` in `s` replaced by `d`. */
  function Replace(s: string, c: char, d: char): (r: string)
    ensures |r| == |s|
    ensures forall i | 0 <= i < |s| :: r[i] == (if s[i] == c then d else s[i])
  {
    seq(|s|, i requires 0 <= i < |s| => if s[i] == c then d else s[i])
  }

  lemma ReplaceAppend(x: string, y: string, c: char, d: char)
    ensures Replace(x + y, c, d) == Replace(x, c, d) + Replace(y, c, d)
  {
    assert forall i | 0 <= i < |x + y| ::
      Replace(x + y, c, d)[i] == (Replace(x, c, d) + Replace(y, c, d))[i];
  }

  /** Splitting on `c` and joining with `d` replaces `c` by `d`. */
  lemma {:induction false} JoinSplitIsReplace(s: string, c: char, d: char)
    ensures Join(Split(s, c), [d]) == Replace(s, c, d)
    decreases |s|
  {
    if c !in s {
      assert Replace(s, c, d) == s;
    } else {
      var i := IndexOf(s, c);
      var head, tail := s[..i], s[i + 1..];
      var rest := Split(tail, c);
      assert Split(s, c) == [head] + rest;
      assert ([head] + rest)[1..] == rest;
      assert Join(Split(s, c), [d]) == head + [d] + Join(rest, [d]);
      JoinSplitIsReplace(tail, c, d);
      assert Replace(head, c, d) == head;
      assert Replace([c], c, d) == [d];
      assert s == head + [c] + tail;
      ReplaceAppend(head + [c], tail, c, d);
      ReplaceAppend(head, [c], c, d);
    }
  }

  // ------------------------------------------------------ truthiness

  /** An optional string is truthy when present and non-empty. */
  predicate Truthy(o: Option<string>) {
    o.Some? && o.value != ""
  }

  /** `o || fallback` for an optional string. */
  function OrString(o: Option<string>, fallback: string): (r: string)
    ensures Truthy(o) ==> r == o.value
    ensures !Truthy(o) ==> r == fallback
  {
    if Truthy(o) then o.value else fallback
  }

  /** `v` is what `o || fallback` yields: the present, non-empty value, or
      else the fallback. */
  predicate Defaulted(o: Option<string>, fallback: string, v: string) {
    if Truthy(o) then v == o.value else v == fallback
  }

  /** `o || undefined`: the empty string becomes absent. */
  function OrAbsent(o: Option<string>): (r: Option<string>)
    ensures Truthy(o) ==> r == o
    ensures !Truthy(o) ==> r == None
  {
    if Truthy(o) then o else None
  }
}
