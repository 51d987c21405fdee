/**
 * Values shared by both order lineages: optional values, results, and the
 * string normalisations that Mongoose schema setters apply (`trim: true`,
 * `lowercase: true`) with JavaScript's notion of white space.
 */
module Common {

  datatype Option<+T> = None | Some(value: T)

  datatype Result<+T, +E> = Ok(value: T) | Err(error: E)

  /** Failures raised by the document store itself when a write is attempted. */
  datatype StoreFailure =
    | ValidationFailed   // Mongoose `ValidationError`, answered with 400 by the error handlers
    | DuplicateKey       // MongoDB error 11000 on a unique index, answered with 409

  function StoreFailureStatus(f: StoreFailure): (code: nat)
    ensures f.ValidationFailed? <==> code == 400
    ensures f.DuplicateKey? <==> code == 409
  {
    match f
    case ValidationFailed => 400
    case DuplicateKey => 409
  }

  /** WhiteSpace and LineTerminator code points of ECMAScript (what `trim` removes and `\s` matches). */
  predicate IsJsSpace(c: char) {
    || c == '\t' || c == '\n' || c == '\U{B}' || c == '\U{C}' || c == '\r' || c == ' '
    || c == '\U{A0}' || c == '\U{1680}' || ('\U{2000}' <= c <= '\U{200A}')
    || c == '\U{2028}' || c == '\U{2029}' || c == '\U{202F}' || c == '\U{205F}'
    || c == '\U{3000}' || c == '\U{FEFF}'
  }

  /** The first position at or after `i` that does not hold white space (`|s|` when there is none). */
  function SkipSpaces(s: string, i: nat): (r: nat)
    requires i <= |s|
    ensures i <= r <= |s|
    ensures forall k :: i <= k < r ==> IsJsSpace(s[k])
    ensures r == |s| || !IsJsSpace(s[r])
    decreases |s| - i
  {
    if i < |s| && IsJsSpace(s[i]) then SkipSpaces(s, i + 1) else i
  }

  /** The position just after the last character before `j` that is not white space (`0` when there is none). */
  function SkipSpacesBack(s: string, j: nat): (r: nat)
    requires j <= |s|
    ensures r <= j
    ensures forall k :: r <= k < j ==> IsJsSpace(s[k])
    ensures r == 0 || !IsJsSpace(s[r - 1])
  {
    if j > 0 && IsJsSpace(s[j - 1]) then SkipSpacesBack(s, j - 1) else j
  }

  /** `String.prototype.trim`: the infix between the white space runs at both ends. */
  function Trim(s: string): (r: string)
    ensures |r| <= |s|
    ensures r == [] || (!IsJsSpace(r[0]) && !IsJsSpace(r[|r| - 1]))
  {
    var i := SkipSpaces(s, 0);
    var j := SkipSpacesBack(s, |s|);
    if j <= i then [] else s[i..j]
  }

  /** What `Trim` keeps and drops: white space at both ends, and nothing else. */
  lemma TrimIsInfix(s: string)
    ensures var i := SkipSpaces(s, 0);
              && i + |Trim(s)| <= |s| && Trim(s) == s[i..i + |Trim(s)|]
              && (forall k :: 0 <= k < i ==> IsJsSpace(s[k]))
              && (forall k :: i + |Trim(s)| <= k < |s| ==> IsJsSpace(s[k]))
  {
    var i := SkipSpaces(s, 0);
    var j := SkipSpacesBack(s, |s|);
    assert j <= i ==> i == |s|;
  }

  /** A string that already has no white space at either end is its own trim. */
  lemma {:induction false} TrimOfTrimmed(s: string)
    requires s == [] || (!IsJsSpace(s[0]) && !IsJsSpace(s[|s| - 1]))
    ensures Trim(s) == s
  {
  }

  /** Trimming is idempotent, so a value stored by a `trim` setter reads back unchanged. */
  lemma TrimIdempotent(s: string)
    ensures Trim(Trim(s)) == Trim(s)
  {
    TrimOfTrimmed(Trim(s));
  }

  function LowerChar(c: char): (d: char)
    ensures 'A' <= c <= 'Z' ==> 'a' <= d <= 'z'
    ensures !('A' <= c <= 'Z') ==> d == c
  {
    if 'A' <= c <= 'Z' then (c as int + 32) as char else c
  }

  /** The `lowercase: true` setter, restricted to ASCII letters. */
  function AsciiLower(s: string): (r: string)
    ensures |r| == |s|
    ensures forall k :: 0 <= k < |s| ==> r[k] == LowerChar(s[k])
  {
    seq(|s|, k requires 0 <= k < |s| => LowerChar(s[k]))
  }

  /** Lowering twice is lowering once. */
  lemma AsciiLowerIdempotent(s: string)
    ensures AsciiLower(AsciiLower(s)) == AsciiLower(s)
  {
  }

  /** What a schema path declared with `trim: true, lowercase: true` stores. */
  function NormalizeKey(s: string): string {
    AsciiLower(Trim(s))
  }

  /** A stored key normalises to itself, so looking it up again finds it. */
  lemma NormalizeKeyIdempotent(s: string)
    ensures NormalizeKey(NormalizeKey(s)) == NormalizeKey(s)
  {
    var t := Trim(s);
    var u := AsciiLower(t);
    assert u == [] || (!IsJsSpace(u[0]) && !IsJsSpace(u[|u| - 1])) by {
      if u != [] {
        assert u[0] == LowerChar(t[0]) && u[|u| - 1] == LowerChar(t[|t| - 1]);
      }
    }
    TrimOfTrimmed(u);
    AsciiLowerIdempotent(t);
  }

  /** The documents of a collection paired with their positions, the `_id`s they are stored under. */
  function Numbered<T>(s: seq<T>): (r: seq<(nat, T)>)
    ensures |r| == |s| && forall i :: 0 <= i < |s| ==> r[i] == (i, s[i])
  {
    seq(|s|, i requires 0 <= i < |s| => (i, s[i]))
  }

  /** `findOne`: the position of the first element of `s`, in natural order, that satisfies `p`. */
  function FindFirst<T>(s: seq<T>, p: T -> bool): (r: Option<nat>)
    ensures r.Some? ==> r.value < |s| && p(s[r.value]) && forall k :: 0 <= k < r.value ==> !p(s[k])
    ensures r.None? <==> forall k :: 0 <= k < |s| ==> !p(s[k])
  {
    if s == [] then None
    else if p(s[0]) then Some(0)
    else match FindFirst(s[1..], p)
      case None => None
      case Some(i) => Some(i + 1)
  }

  /** How many elements of `s` satisfy `p`. */
  function Count<T>(s: seq<T>, p: T -> bool): (n: nat)
    ensures n <= |s|
  {
    if s == [] then 0 else Count(s[..|s| - 1], p) + (if p(s[|s| - 1]) then 1 else 0)
  }

  /** The elements of `s` that satisfy `p`, in their order. */
  function Filter<T>(s: seq<T>, p: T -> bool): (r: seq<T>)
    ensures |r| == Count(s, p)
    ensures forall k :: 0 <= k < |r| ==> r[k] in s && p(r[k])
    ensures forall k :: 0 <= k < |s| && p(s[k]) ==> s[k] in r
    ensures multiset(r) <= multiset(s)
  {
    if s == [] then []
    else
      var init := s[..|s| - 1];
      assert s == init + [s[|s| - 1]];
      Filter(init, p) + (if p(s[|s| - 1]) then [s[|s| - 1]] else [])
  }
}
