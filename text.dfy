/**
 * The JavaScript string operations the application relies on, written over
 * `seq<char>`: `trim`, ASCII `toLowerCase`, `indexOf`/`includes`,
 * `startsWith`/`endsWith`, `split` and `join`, and the decimal rendering
 * of a whole number inside a template string.
 */
module Text {
  import opened Wrappers

  /** ECMAScript WhiteSpace and LineTerminator code points: what `trim` strips. */
  predicate IsSpace(c: char) {
    || c == ' ' || c == '\t' || c == '\n' || c == '\r'
    || c == '\U{000B}' || c == '\U{000C}' || c == '\U{00A0}' || c == '\U{1680}'
    || ('\U{2000}' <= c <= '\U{200A}')
    || c == '\U{2028}' || c == '\U{2029}' || c == '\U{202F}' || c == '\U{205F}'
    || c == '\U{3000}' || c == '\U{FEFF}'
  }

  predicate AllSpace(s: string) {
    forall i :: 0 <= i < |s| ==> IsSpace(s[i])
  }

  /** `s.trimStart()`: drops the leading white space and nothing else. */
  function TrimStart(s: string): (r: string)
    ensures |r| <= |s| && r == s[|s| - |r|..]
    ensures r == [] || !IsSpace(r[0])
  {
    if s != [] && IsSpace(s[0]) then TrimStart(s[1..]) else s
  }

  /** What `trimStart` drops is white space. */
  lemma {:induction false} TrimStartDropsSpace(s: string)
    ensures AllSpace(s[..|s| - |TrimStart(s)|])
    decreases |s|
  {
    if s != [] && IsSpace(s[0]) {
      TrimStartDropsSpace(s[1..]);
      var k := |s| - |TrimStart(s)|;
      assert forall i :: 1 <= i < k ==> s[..k][i] == s[1..][..k - 1][i - 1];
    }
  }

  /** `s.trimEnd()`: drops the trailing white space and nothing else. */
  function TrimEnd(s: string): (r: string)
    ensures |r| <= |s| && r == s[..|r|]
    ensures r == [] || !IsSpace(r[|r| - 1])
  {
    if s != [] && IsSpace(s[|s| - 1]) then TrimEnd(s[..|s| - 1]) else s
  }

  /** What `trimEnd` drops is white space. */
  lemma {:induction false} TrimEndDropsSpace(s: string)
    ensures AllSpace(s[|TrimEnd(s)|..])
    decreases |s|
  {
    if s != [] && IsSpace(s[|s| - 1]) {
      var u := s[..|s| - 1];
      TrimEndDropsSpace(u);
      var k := |TrimEnd(s)|;
      assert forall i :: k <= i < |s| - 1 ==> s[i] == u[k..][i - k];
    }
  }

  /** `s.trim()`: the text between the leading and the trailing white space. */
  function Trim(s: string): (r: string)
    ensures |r| <= |s|
    ensures r == [] || (!IsSpace(r[0]) && !IsSpace(r[|r| - 1]))
  {
    TrimEnd(TrimStart(s))
  }

  /** The trimmed text begins with the first character `trimStart` keeps. */
  lemma TrimHead(s: string)
    ensures Trim(s) != [] ==> TrimStart(s) != [] && TrimStart(s)[0] == Trim(s)[0]
  {
    var t := TrimStart(s);
    if Trim(s) != [] {
      assert Trim(s) == t[..|Trim(s)|];
    }
  }

  /** A string trims to empty exactly when it consists of white space only. */
  lemma TrimEmptyIffBlank(s: string)
    ensures Trim(s) == [] <==> AllSpace(s)
  {
    var t := TrimStart(s);
    TrimStartDropsSpace(s);
    TrimEndDropsSpace(t);
    assert s[..|s| - |t|] + t == s;
    if t != [] {
      assert !AllSpace(t[0..]);
    }
  }

  /** `trimStart` of a text with one more character at its end. */
  lemma {:induction false} TrimStartSnoc(s: string, c: char)
    ensures !AllSpace(s) ==> TrimStart(s + [c]) == TrimStart(s) + [c]
    ensures AllSpace(s) && IsSpace(c) ==> TrimStart(s + [c]) == []
    decreases |s|
  {
    var sc := s + [c];
    if s == [] {
      assert sc == [c];
      assert sc[1..] == [];
    } else {
      assert sc[0] == s[0];
      assert sc[1..] == s[1..] + [c];
      AllSpaceHead(s);
      if IsSpace(s[0]) {
        TrimStartSnoc(s[1..], c);
      }
    }
  }

  /** White space throughout: the first character and the rest. */
  lemma AllSpaceHead(s: string)
    requires s != []
    ensures AllSpace(s) <==> IsSpace(s[0]) && AllSpace(s[1..])
  {
    assert forall i :: 1 <= i < |s| ==> s[i] == s[1..][i - 1];
  }

  /** A trailing white-space character never changes what `trim` returns. */
  lemma TrimIgnoresTrailingSpace(s: string, c: char)
    requires IsSpace(c)
    ensures Trim(s + [c]) == Trim(s)
  {
    TrimStartSnoc(s, c);
    if !AllSpace(s) {
      TrimEndSnoc(TrimStart(s), c);
    } else {
      TrimEmptyIffBlank(s);
    }
  }

  lemma TrimEndSnoc(t: string, c: char)
    requires IsSpace(c)
    ensures TrimEnd(t + [c]) == TrimEnd(t)
  {
    assert (t + [c])[..|t|] == t;
  }

  predicate IsBlank(s: string) {
    Trim(s) == []
  }

  /** ASCII case folding, the part of `toLowerCase` the fixed word lists exercise. */
  function LowerChar(c: char): char {
    if 'A' <= c <= 'Z' then (c as int + 32) as char else c
  }

  function ToLower(s: string): (r: string)
    ensures |r| == |s|
    ensures forall i :: 0 <= i < |s| ==> r[i] == LowerChar(s[i])
  {
    seq(|s|, i requires 0 <= i < |s| => LowerChar(s[i]))
  }

  /** Lowercasing twice is lowercasing once. */
  lemma ToLowerIdempotent(s: string)
    ensures ToLower(ToLower(s)) == ToLower(s)
  {
    forall i | 0 <= i < |s| ensures ToLower(ToLower(s))[i] == ToLower(s)[i] {
      assert ToLower(s)[i] == LowerChar(s[i]);
    }
  }

  predicate OccursAt(s: string, p: string, j: int) {
    0 <= j && j + |p| <= |s| && s[j..j + |p|] == p
  }

  /** `s.indexOf(p)`: the first position at which `p` occurs. */
  function IndexOf(s: string, p: string): (r: Option<nat>)
    ensures r.Some? ==> OccursAt(s, p, r.value) && forall j :: 0 <= j < r.value ==> !OccursAt(s, p, j)
    ensures r.None? ==> forall j :: !OccursAt(s, p, j)
    decreases |s|
  {
    if |p| > |s| then None
    else if s[..|p|] == p then Some(0)
    else
      match IndexOf(s[1..], p)
      case None =>
        assert forall j :: 1 <= j ==> OccursAt(s, p, j) == OccursAt(s[1..], p, j - 1);
        None
      case Some(k) =>
        assert forall j :: 1 <= j ==> OccursAt(s, p, j) == OccursAt(s[1..], p, j - 1);
        Some(k + 1)
  }

  /** The first occurrence is the one with no occurrence before it. */
  lemma IndexOfIs(s: string, p: string, k: nat)
    requires OccursAt(s, p, k) && forall j :: 0 <= j < k ==> !OccursAt(s, p, j)
    ensures IndexOf(s, p) == Some(k)
  {
  }

  /** Text appended after the first occurrence does not move it. */
  lemma IndexOfAppend(s: string, t: string, p: string, i: nat)
    requires IndexOf(s, p) == Some(i)
    ensures IndexOf(s + t, p) == Some(i)
  {
    assert (s + t)[i..i + |p|] == s[i..i + |p|];
    forall j | 0 <= j < i ensures !OccursAt(s + t, p, j) {
      assert !OccursAt(s, p, j);
      assert (s + t)[j..j + |p|] == s[j..j + |p|];
    }
    IndexOfIs(s + t, p, i);
  }

  /** `s.includes(p)`. */
  predicate Contains(s: string, p: string) {
    IndexOf(s, p).Some?
  }

  predicate StartsWith(s: string, p: string) {
    |p| <= |s| && s[..|p|] == p
  }

  predicate EndsWith(s: string, p: string) {
    |p| <= |s| && s[|s| - |p|..] == p
  }

  /** `parts.join(sep)`. */
  function Join(parts: seq<string>, sep: string): string {
    if parts == [] then ""
    else if |parts| == 1 then parts[0]
    else parts[0] + sep + Join(parts[1..], sep)
  }

  /** `s.split(sep)` for a non-empty separator: the pieces between occurrences, left to right. */
  function Split(s: string, sep: string): (r: seq<string>)
    requires |sep| > 0
    ensures |r| >= 1
    decreases |s|
  {
    match IndexOf(s, sep)
    case None => [s]
    case Some(i) => [s[..i]] + Split(s[i + |sep|..], sep)
  }

  /** No piece of a split holds the separator. */
  lemma {:induction false} SplitPiecesFree(s: string, sep: string)
    requires |sep| > 0
    ensures forall k :: 0 <= k < |Split(s, sep)| ==> !Contains(Split(s, sep)[k], sep)
    decreases |s|
  {
    match IndexOf(s, sep)
    case None =>
    case Some(i) =>
      NoEarlierOccurrence(s, sep, i);
      SplitPiecesFree(s[i + |sep|..], sep);
      SplitUnfold(s, sep, i);
  }

  /** The prefix before the first occurrence of `sep` holds no occurrence of it. */
  lemma NoEarlierOccurrence(s: string, sep: string, i: nat)
    requires |sep| > 0 && IndexOf(s, sep) == Some(i)
    ensures !Contains(s[..i], sep)
  {
    var pre := s[..i];
    forall j ensures !OccursAt(pre, sep, j) {
      if OccursAt(pre, sep, j) {
        assert s[j..j + |sep|] == pre[j..j + |sep|];
        assert OccursAt(s, sep, j);
      }
    }
  }

  /** Splitting and joining again with the same separator gives back the text. */
  lemma {:induction false} JoinSplit(s: string, sep: string)
    requires |sep| > 0
    ensures Join(Split(s, sep), sep) == s
    decreases |s|
  {
    var o := IndexOf(s, sep);
    if o.Some? {
      var i := o.value;
      var rest := s[i + |sep|..];
      JoinSplit(rest, sep);
      SplitUnfold(s, sep, i);
      JoinCons(s[..i], Split(rest, sep), sep);
      Reassemble(s, sep, i);
    }
  }

  lemma Reassemble(s: string, p: string, i: nat)
    requires OccursAt(s, p, i)
    ensures s[..i] + p + s[i + |p|..] == s
  {
    assert s == s[..i] + s[i..i + |p|] + s[i + |p|..];
  }

  lemma SplitUnfold(s: string, sep: string, i: nat)
    requires |sep| > 0 && IndexOf(s, sep) == Some(i)
    ensures Split(s, sep) == [s[..i]] + Split(s[i + |sep|..], sep)
  {
  }

  lemma ConcatParts(a: string, b: string, c: string)
    ensures (a + b + c)[..|a|] == a && (a + b + c)[|a| + |b|..] == c
  {
    assert (a + b + c)[..|a|] == a;
  }

  lemma JoinCons(head: string, tail: seq<string>, sep: string)
    requires tail != []
    ensures Join([head] + tail, sep) == head + sep + Join(tail, sep)
  {
    assert ([head] + tail)[1..] == tail;
  }

  /**
   * Joining pieces that hold no character starting the separator and
   * splitting again gives the pieces back.
   */
  lemma {:induction false} SplitJoin(parts: seq<string>, sep: string)
    requires |sep| > 0 && parts != []
    requires forall k, j :: 0 <= k < |parts| && 0 <= j < |parts[k]| ==> parts[k][j] != sep[0]
    ensures Split(Join(parts, sep), sep) == parts
    decreases |parts|
  {
    var h := parts[0];
    assert forall j :: 0 <= j < |h| ==> h[j] != sep[0];
    if |parts| == 1 {
      forall j ensures !OccursAt(h, sep, j) {
        if 0 <= j < |h| && j + |sep| <= |h| {
          assert h[j..j + |sep|][0] == h[j];
        }
      }
    } else {
      var rest := parts[1..];
      var tail := Join(rest, sep);
      var s := Join(parts, sep);
      assert s == h + sep + tail;
      ConcatParts(h, sep, tail);
      assert s[|h|..|h| + |sep|] == sep;
      forall j | 0 <= j < |h| ensures !OccursAt(s, sep, j) {
        assert s[j] == h[j];
        if j + |sep| <= |s| {
          assert s[j..j + |sep|][0] == s[j];
        }
      }
      IndexOfIs(s, sep, |h|);
      SplitUnfold(s, sep, |h|);
      NoSeparatorStartTail(parts, sep);
      SplitJoin(rest, sep);
      HeadTail(parts);
    }
  }

  lemma HeadTail(parts: seq<string>)
    requires parts != []
    ensures parts == [parts[0]] + parts[1..]
  {
  }

  lemma NoSeparatorStartTail(parts: seq<string>, sep: string)
    requires |sep| > 0 && parts != []
    requires forall k, j :: 0 <= k < |parts| && 0 <= j < |parts[k]| ==> parts[k][j] != sep[0]
    ensures forall k, j :: 0 <= k < |parts[1..]| && 0 <= j < |parts[1..][k]| ==> parts[1..][k][j] != sep[0]
  {
    forall k, j | 0 <= k < |parts[1..]| && 0 <= j < |parts[1..][k]| ensures parts[1..][k][j] != sep[0] {
      assert parts[1..][k] == parts[k + 1];
    }
  }

  /** An occurrence inside a slice is an occurrence in the whole text. */
  lemma ContainsSlice(s: string, p: string, a: nat, b: nat)
    requires a <= b <= |s|
    ensures Contains(s[a..b], p) ==> Contains(s, p)
  {
    if Contains(s[a..b], p) {
      var x := s[a..b];
      var j := IndexOf(x, p).value;
      assert forall i :: 0 <= i < |p| ==> p[i] == x[j + i] == s[a + j + i];
      assert OccursAt(s, p, a + j);
    }
  }

  /** Where the trimmed text starts inside `s`. */
  lemma TrimOffset(s: string) returns (c: nat)
    ensures c + |Trim(s)| <= |s| && Trim(s) == s[c..c + |Trim(s)|]
  {
    var t := TrimStart(s);
    c := |s| - |t|;
    assert Trim(s) == t[..|Trim(s)|];
  }

  /** A piece of a piece of `s` is a piece of `s`. */
  lemma SliceOfSlice(s: string, a: nat, y: string, c: nat, r: string) returns (b: nat)
    requires a + |y| <= |s| && y == s[a..a + |y|]
    requires c + |r| <= |y| && r == y[c..c + |r|]
    ensures b == a + c && b + |r| <= |s| && r == s[b..b + |r|]
  {
    b := a + c;
    assert forall i :: 0 <= i < |r| ==> r[i] == s[b + i];
  }

  /** A prefix of a piece of `s` is a piece of `s` starting at the same place. */
  lemma PrefixOfPiece(s: string, a: nat, x: string, y: string)
    requires a + |x| <= |s| && x == s[a..a + |x|]
    requires |y| <= |x| && y == x[..|y|]
    ensures a + |y| <= |s| && y == s[a..a + |y|]
  {
    assert forall i :: 0 <= i < |y| ==> y[i] == s[a + i];
  }

  /** Trimming a piece `y` of `s` that starts at `a` leaves a piece of `s` starting at or after `a`. */
  lemma TrimPieceOffset(s: string, a: nat, y: string, r: string) returns (b: nat)
    requires a + |y| <= |s| && y == s[a..a + |y|]
    requires r == Trim(y)
    ensures a <= b && b + |r| <= |s| && r == s[b..b + |r|]
  {
    var c := TrimOffset(y);
    b := SliceOfSlice(s, a, y, c, r);
  }

  /** Trimming never creates an occurrence. */
  lemma ContainsTrim(s: string, p: string)
    ensures Contains(Trim(s), p) ==> Contains(s, p)
  {
    var i := TrimOffset(s);
    ContainsSlice(s, p, i, i + |Trim(s)|);
  }

  /** The first piece of a split is the text before the first occurrence. */
  lemma SplitFirst(s: string, sep: string)
    requires |sep| > 0
    ensures IndexOf(s, sep).None? ==> Split(s, sep)[0] == s
    ensures IndexOf(s, sep).Some? ==> Split(s, sep)[0] == s[..IndexOf(s, sep).value]
  {
  }

  /** The second piece is a prefix of the text after the first occurrence. */
  lemma SplitSecond(s: string, sep: string)
    requires |sep| > 0 && Contains(s, sep)
    ensures var i := IndexOf(s, sep).value;
      |Split(s, sep)[1]| <= |s| - i - |sep| && Split(s, sep)[1] == s[i + |sep|..][..|Split(s, sep)[1]|]
  {
    var i := IndexOf(s, sep).value;
    var rest := s[i + |sep|..];
    SplitFirst(rest, sep);
  }

  function DigitChar(d: nat): char
    requires d < 10
  {
    "0123456789"[d]
  }

  function DigitValue(c: char): nat {
    if '0' <= c <= '9' then c as int - '0' as int else 0
  }

  predicate IsDigit(c: char) {
    '0' <= c <= '9'
  }

  /** `${n}` for a whole number: its decimal digits, most significant first. */
  function NatToString(n: nat): (r: string)
    ensures |r| >= 1
    ensures forall i :: 0 <= i < |r| ==> IsDigit(r[i])
  {
    if n < 10 then [DigitChar(n)] else NatToString(n / 10) + [DigitChar(n % 10)]
  }

  /** The number a string of decimal digits denotes. */
  function DigitsValue(s: string): nat {
    if s == [] then 0 else DigitsValue(s[..|s| - 1]) * 10 + DigitValue(s[|s| - 1])
  }

  /** Reading the rendered digits back gives the number. */
  lemma {:induction false} NatToStringRoundTrip(n: nat)
    ensures DigitsValue(NatToString(n)) == n
  {
    if n >= 10 {
      NatToStringRoundTrip(n / 10);
      var s := NatToString(n);
      assert s[..|s| - 1] == NatToString(n / 10);
    }
  }
}
