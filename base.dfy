/** Shared vocabulary: optional values, results, and the few string
    operations of Rust's `str` that the i18n crates rely on (`contains`,
    `split`, `to_lowercase`, `to_uppercase`). Strings are `seq<char>`;
    case mapping is modelled on ASCII letters only. */
module Base {

  datatype Option<+T> = None | Some(value: T) {
    /** `Option::unwrap_or` */
    function GetOr(default: T): T {
      match this
      case Some(v) => v
      case None => default
    }
  }

  datatype Result<+R, +E> = Success(value: R) | Failure(error: E)

  // ---------------------------------------------------------------------------
  // ASCII case mapping (`str::to_lowercase` / `str::to_uppercase`)
  // ---------------------------------------------------------------------------

  predicate IsUpperAscii(c: char) { 'A' <= c <= 'Z' }
  predicate IsLowerAscii(c: char) { 'a' <= c <= 'z' }

  function LowerChar(c: char): (r: char)
    ensures IsUpperAscii(c) ==> IsLowerAscii(r) && r as int - 'a' as int == c as int - 'A' as int
    ensures !IsUpperAscii(c) ==> r == c
  {
    if IsUpperAscii(c) then (c as int - 'A' as int + 'a' as int) as char else c
  }

  function UpperChar(c: char): (r: char)
    ensures IsLowerAscii(c) ==> IsUpperAscii(r) && r as int - 'A' as int == c as int - 'a' as int
    ensures !IsLowerAscii(c) ==> r == c
  {
    if IsLowerAscii(c) then (c as int - 'a' as int + 'A' as int) as char else c
  }

  function Lower(s: string): (r: string)
    ensures |r| == |s|
    ensures forall i :: 0 <= i < |s| ==> r[i] == LowerChar(s[i])
  {
    seq(|s|, i requires 0 <= i < |s| => LowerChar(s[i]))
  }

  function Upper(s: string): (r: string)
    ensures |r| == |s|
    ensures forall i :: 0 <= i < |s| ==> r[i] == UpperChar(s[i])
  {
    seq(|s|, i requires 0 <= i < |s| => UpperChar(s[i]))
  }

  /** Upper-casing forgets the original case: two strings that agree up to
      case upper-case to the same string. */
  lemma UpperIgnoresCase(s: string)
    ensures Upper(Lower(s)) == Upper(s)
    ensures Upper(Upper(s)) == Upper(s)
  {
    assert forall i :: 0 <= i < |s| ==> Upper(Lower(s))[i] == Upper(s)[i];
  }

  /** Case mapping leaves every non-letter, and in particular both language
      tag separators, where it was. */
  lemma CaseKeepsSeparators(s: string, c: char)
    requires !IsUpperAscii(c) && !IsLowerAscii(c)
    ensures c in Lower(s) <==> c in s
    ensures c in Upper(s) <==> c in s
  {
    if c in s {
      var i :| 0 <= i < |s| && s[i] == c;
      assert Lower(s)[i] == c && Upper(s)[i] == c;
    }
    if c in Lower(s) {
      var i :| 0 <= i < |s| && Lower(s)[i] == c;
      assert s[i] == c;
    }
    if c in Upper(s) {
      var i :| 0 <= i < |s| && Upper(s)[i] == c;
      assert s[i] == c;
    }
  }

  // ---------------------------------------------------------------------------
  // Substring search and `str::split`
  // ---------------------------------------------------------------------------

  /** `p` occurs in `s` starting at index `i`. */
  predicate OccursAt(s: string, p: string, i: int) {
    0 <= i && i + |p| <= |s| && s[i..i + |p|] == p
  }

  /** Index of the leftmost occurrence of `p` in `s`, as `str::find` gives it. */
  function Find(s: string, p: string): (r: Option<nat>)
    ensures r.Some? ==> OccursAt(s, p, r.value)
    ensures r.Some? ==> forall j :: 0 <= j < r.value ==> !OccursAt(s, p, j)
    ensures r.None? ==> forall j :: !OccursAt(s, p, j)
    decreases |s|
  {
    if |s| < |p| then None
    else if s[..|p|] == p then Some(0)
    else
      var rest := Find(s[1..], p);
      assert !OccursAt(s, p, 0) by { assert s[0..|p|] == s[..|p|]; }
      ShiftOccurrence(s, p);
      match rest
      case None => None
      case Some(j) => Some(j + 1)
  }

  /** Occurrences in `s[1..]` are the occurrences in `s` moved one to the left. */
  lemma ShiftOccurrence(s: string, p: string)
    requires |s| > 0
    ensures forall j :: 1 <= j ==> (OccursAt(s, p, j) <==> OccursAt(s[1..], p, j - 1))
  {
    forall j | 1 <= j ensures OccursAt(s, p, j) <==> OccursAt(s[1..], p, j - 1) {
      if j + |p| <= |s| {
        assert s[1..][j - 1..j - 1 + |p|] == s[j..j + |p|];
      }
    }
  }

  /** A one-character pattern occurs exactly where the character does. */
  lemma FindChar(s: string, c: char)
    ensures Find(s, [c]).Some? <==> c in s
  {
    if c in s {
      var i :| 0 <= i < |s| && s[i] == c;
      assert s[i..i + 1] == [c];
      assert OccursAt(s, [c], i);
    }
    if Find(s, [c]).Some? {
      var i := Find(s, [c]).value;
      assert s[i..i + 1] == [c];
      assert s[i] == c;
    }
  }

  /** `s.split(p)` for a non-empty pattern: the pieces between the
      non-overlapping occurrences of `p`, scanning left to right. */
  function Split(s: string, p: string): (r: seq<string>)
    requires |p| > 0
    ensures |r| >= 1
    decreases |s|
  {
    match Find(s, p)
    case None => [s]
    case Some(i) => [s[..i]] + Split(s[i + |p|..], p)
  }

  /** `parts.join(p)` */
  function Join(parts: seq<string>, p: string): (r: string)
    requires |parts| >= 1
    decreases |parts|
  {
    if |parts| == 1 then parts[0] else parts[0] + p + Join(parts[1..], p)
  }

  lemma JoinCons(head: string, tail: seq<string>, p: string)
    requires |tail| >= 1
    ensures Join([head] + tail, p) == head + p + Join(tail, p)
  {
    assert ([head] + tail)[1..] == tail;
  }

  /** One step of `split`: the text before the leftmost occurrence, then
      the pieces of what follows it. */
  lemma SplitStep(s: string, p: string)
    requires |p| > 0 && Find(s, p).Some?
    ensures var i := Find(s, p).value;
            && s == s[..i] + p + s[i + |p|..]
            && Split(s, p) == [s[..i]] + Split(s[i + |p|..], p)
  {
    var i := Find(s, p).value;
    assert OccursAt(s, p, i);
    assert s[..i] + p == s[..i + |p|];
    assert s[..i + |p|] + s[i + |p|..] == s;
  }

  /** Splitting loses nothing: joining the pieces back with the pattern gives
      the original string. */
  lemma {:induction false} SplitJoin(s: string, p: string)
    requires |p| > 0
    ensures Join(Split(s, p), p) == s
    decreases |s|
  {
    if Find(s, p).None? {
      assert Split(s, p) == [s];
    } else {
      var i := Find(s, p).value;
      var rest := s[i + |p|..];
      SplitStep(s, p);
      SplitJoin(rest, p);
      JoinCons(s[..i], Split(rest, p), p);
    }
  }

  /** No piece produced by `split` contains the pattern. */
  lemma {:induction false} SplitPiecesAvoidPattern(s: string, p: string)
    requires |p| > 0
    ensures forall k, j :: 0 <= k < |Split(s, p)| ==> !OccursAt(Split(s, p)[k], p, j)
    decreases |s|
  {
    match Find(s, p)
    case None =>
    case Some(i) =>
      var rest := s[i + |p|..];
      SplitPiecesAvoidPattern(rest, p);
      forall j | OccursAt(s[..i], p, j) ensures false {
        assert s[..i][j..j + |p|] == s[j..j + |p|];
        assert OccursAt(s, p, j);
      }
      assert Split(s, p) == [s[..i]] + Split(rest, p);
  }

  /** No piece of a split on a single character contains that character. */
  lemma SplitPiecesAvoidChar(s: string, c: char)
    ensures forall k :: 0 <= k < |Split(s, [c])| ==> c !in Split(s, [c])[k]
  {
    SplitPiecesAvoidPattern(s, [c]);
    forall k | 0 <= k < |Split(s, [c])| ensures c !in Split(s, [c])[k] {
      FindChar(Split(s, [c])[k], c);
    }
  }

  /** `split` yields a second piece exactly when the pattern occurs. */
  lemma SplitHasSecond(s: string, p: string)
    requires |p| > 0
    ensures |Split(s, p)| >= 2 <==> Find(s, p).Some?
  {
  }

  /** The first piece is the text before the leftmost occurrence (or all of
      `s`), the second the text between the first two occurrences. */
  lemma SplitFirstTwo(s: string, p: string)
    requires |p| > 0
    ensures Find(s, p).None? ==> Split(s, p) == [s]
    ensures Find(s, p).Some? ==>
              var i := Find(s, p).value;
              Split(s, p)[0] == s[..i] && Split(s, p)[1] == Split(s[i + |p|..], p)[0]
  {
    if Find(s, p).Some? {
      SplitStep(s, p);
    }
  }

  /** Splitting a non-empty string by itself gives two empty pieces. */
  lemma SplitBySelf(s: string)
    requires |s| > 0
    ensures Split(s, s) == ["", ""]
  {
    assert s[..|s|] == s;
    assert Find(s, s) == Some(0);
    assert s[|s|..] == "";
    assert Split("", s) == [""];
  }

  /** The first piece of a split on a single character is the longest
      prefix free of that character: either all of `s`, or the text just
      before the character's first occurrence. */
  lemma FirstPieceOfCharSplit(s: string, c: char)
    ensures var piece := Split(s, [c])[0];
            && piece <= s
            && c !in piece
            && (|piece| == |s| <==> c !in s)
            && (|piece| < |s| ==> s[|piece|] == c)
  {
    FindChar(s, c);
    var piece := Split(s, [c])[0];
    match Find(s, [c])
    case None =>
      assert piece == s;
    case Some(i) =>
      assert piece == s[..i];
      assert s[i..i + 1] == [c];
      forall j | 0 <= j < i ensures s[j] != c {
        assert !OccursAt(s, [c], j);
        assert s[j..j + 1] == [s[j]];
      }
  }

  /** Lower-casing does not move a non-letter character, so searching for it
      finds the same index. */
  lemma FindLowerChar(s: string, c: char)
    requires !IsUpperAscii(c) && !IsLowerAscii(c)
    ensures Find(Lower(s), [c]) == Find(s, [c])
  {
    forall j ensures OccursAt(Lower(s), [c], j) <==> OccursAt(s, [c], j) {
      if 0 <= j < |s| {
        assert Lower(s)[j..j + 1] == [Lower(s)[j]];
        assert s[j..j + 1] == [s[j]];
      }
    }
  }

  /** Splitting on a non-letter commutes with lower-casing. */
  lemma {:induction false} SplitLower(s: string, c: char)
    requires !IsUpperAscii(c) && !IsLowerAscii(c)
    ensures |Split(Lower(s), [c])| == |Split(s, [c])|
    ensures forall k :: 0 <= k < |Split(s, [c])| ==> Split(Lower(s), [c])[k] == Lower(Split(s, [c])[k])
    decreases |s|
  {
    FindLowerChar(s, c);
    match Find(s, [c])
    case None =>
    case Some(i) =>
      assert Lower(s)[..i] == Lower(s[..i]);
      assert Lower(s)[i + 1..] == Lower(s[i + 1..]);
      SplitLower(s[i + 1..], c);
      assert Split(s, [c]) == [s[..i]] + Split(s[i + 1..], [c]);
      assert Split(Lower(s), [c]) == [Lower(s[..i])] + Split(Lower(s[i + 1..]), [c]);
  }

  /** Splitting text whose first occurrence of `c` is right after `x` gives
      `x`, then the pieces of what follows. */
  lemma SplitAtFirst(x: string, c: char, y: string)
    requires c !in x
    ensures Split(x + [c] + y, [c]) == [x] + Split(y, [c])
  {
    var s := x + [c] + y;
    assert OccursAt(s, [c], |x|) by { assert s[|x|..|x| + 1] == [c]; }
    forall j | 0 <= j < |x| ensures !OccursAt(s, [c], j) {
      assert s[j..j + 1] == [x[j]];
    }
    assert Find(s, [c]) == Some(|x|);
    assert s[..|x|] == x;
    assert s[|x| + 1..] == y;
  }
}
