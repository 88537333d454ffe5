/** The few JavaScript built-ins that the portfolio scripts lean on, stated exactly:
    optional values (a missing argument or element), the whitespace class shared by
    `String.prototype.trim` and the regular-expression escape `\s`, `substring` with its
    clamping, the decimal rendering of a small number, and `Math.floor(Math.random() * n)`
    with the random draw taken as a parameter in [0, 1). */
module JsPrims {

  datatype Option<+T> = None | Some(value: T)

  /** A random draw as `Math.random()` produces it. */
  predicate IsUnit(r: real) {
    0.0 <= r < 1.0
  }

  /** Every draw in `rnd` is a `Math.random()` value. */
  predicate AllUnit(rnd: seq<real>) {
    forall i :: 0 <= i < |rnd| ==> IsUnit(rnd[i])
  }

  /** The draws of `count` objects built one after another, each taking `size` draws of
      `Math.random()` in turn: `rnd[i]` holds the draws of the `i`-th. */
  predicate Batches(rnd: seq<seq<real>>, count: nat, size: nat) {
    |rnd| == count && forall i :: 0 <= i < count ==> |rnd[i]| == size && AllUnit(rnd[i])
  }

  /** `Math.floor(r * n)`: the index a uniform draw picks out of `n` choices. */
  function RandomIndex(r: real, n: nat): (k: int)
    requires IsUnit(r) && n > 0
    ensures 0 <= k < n
    ensures k as real <= r * n as real < k as real + 1.0
  {
    DrawIndex(r, n);
    (r * n as real).Floor
  }

  /** The floor of a draw scaled to `n` choices is one of them. */
  lemma DrawIndex(r: real, n: nat)
    requires IsUnit(r) && n > 0
    ensures var k := (r * n as real).Floor;
      0 <= k < n && k as real <= r * n as real < k as real + 1.0
  {
    var x := r * n as real;
    ScaleUnit(r, n as real);
    FloorBelow(x, n);
  }

  /** The floor of a point of [0, n) is an index below n. */
  lemma FloorBelow(x: real, n: nat)
    requires 0.0 <= x < n as real
    ensures 0 <= x.Floor < n
  {
    var k := x.Floor;
    assert k as real <= x < k as real + 1.0;
    assert -1.0 < k as real < n as real;
  }

  /** `Math.random() * w` for a non-negative extent `w`: a point of [0, w), or 0 when
      the extent is empty. */
  lemma ScaleUnit(r: real, w: real)
    requires IsUnit(r) && w >= 0.0
    ensures 0.0 <= r * w <= w
    ensures w > 0.0 ==> r * w < w
  {
    var rest := 1.0 - r;
    assert 0.0 < rest;
    assert w - r * w == rest * w;
    assert 0.0 <= r * w && 0.0 <= rest * w;
    if w > 0.0 {
      assert 0.0 < rest * w;
    }
  }

  /** A number that JavaScript treats as false in `x || d`: `undefined` (a missing
      argument) or zero. NaN is not modelled. */
  predicate Falsy(x: Option<real>) {
    x.None? || x.value == 0.0
  }

  /** `x || d` for a number argument. */
  function OrElse(x: Option<real>, d: real): (r: real)
    ensures Falsy(x) ==> r == d
    ensures !Falsy(x) ==> x == Some(r) && r != 0.0
  {
    if Falsy(x) then d else x.value
  }

  /** The characters that `\s` matches and that `trim` removes: the ECMAScript
      WhiteSpace and LineTerminator code points. */
  predicate IsJsSpace(c: char) {
    c == '\t' || c == '\n' || c == '\U{B}' || c == '\U{C}' || c == '\r' || c == ' '
    || c == '\U{A0}' || c == '\U{1680}' || ('\U{2000}' <= c <= '\U{200A}')
    || c == '\U{2028}' || c == '\U{2029}' || c == '\U{202F}' || c == '\U{205F}'
    || c == '\U{3000}' || c == '\U{FEFF}'
  }

  predicate AllSpace(s: string) {
    forall i :: 0 <= i < |s| ==> IsJsSpace(s[i])
  }

  predicate NoSpace(s: string) {
    forall i :: 0 <= i < |s| ==> !IsJsSpace(s[i])
  }

  /** Drops the leading whitespace of `s`. */
  function TrimStart(s: string): (r: string)
    ensures |r| <= |s| && r == s[|s| - |r|..]
    ensures AllSpace(s[..|s| - |r|])
    ensures r != [] ==> !IsJsSpace(r[0])
  {
    if s != [] && IsJsSpace(s[0]) then
      var r := TrimStart(s[1..]);
      DropFirst(s, r);
      SpaceCons(s[0], s[1..][..|s| - 1 - |r|]);
      r
    else s
  }

  /** Drops the trailing whitespace of `s`. */
  function TrimEnd(s: string): (r: string)
    ensures |r| <= |s| && r == s[..|r|]
    ensures AllSpace(s[|r|..])
    ensures r != [] ==> !IsJsSpace(r[|r| - 1])
  {
    if s != [] && IsJsSpace(s[|s| - 1]) then
      var r := TrimEnd(s[..|s| - 1]);
      DropLast(s, r);
      SpaceSnoc(s[..|s| - 1][|r|..], s[|s| - 1]);
      r
    else s
  }

  /** A suffix of `s[1..]` is a suffix of `s`, and the part of `s` before it is `s[0]`
      followed by the part of `s[1..]` before it. */
  lemma DropFirst<T>(s: seq<T>, r: seq<T>)
    requires s != [] && |r| < |s| && r == s[1..][|s| - 1 - |r|..]
    ensures r == s[|s| - |r|..] && s[..|s| - |r|] == [s[0]] + s[1..][..|s| - 1 - |r|]
  {
  }

  /** The mirror image of `DropFirst` for a prefix of `s[..|s| - 1]`. */
  lemma DropLast<T>(s: seq<T>, r: seq<T>)
    requires s != [] && |r| < |s| && r == s[..|s| - 1][..|r|]
    ensures r == s[..|r|] && s[|r|..] == s[..|s| - 1][|r|..] + [s[|s| - 1]]
  {
  }

  lemma SpaceCons(c: char, s: string)
    requires IsJsSpace(c) && AllSpace(s)
    ensures AllSpace([c] + s)
  {
  }

  lemma SpaceSnoc(s: string, c: char)
    requires AllSpace(s) && IsJsSpace(c)
    ensures AllSpace(s + [c])
  {
  }

  /** `String.prototype.trim`: `s` is the result with only whitespace before and after
      it, and the result neither starts nor ends with whitespace. */
  function Trim(s: string): (r: string)
    ensures exists lead: string, trail: string ::
      s == lead + r + trail && AllSpace(lead) && AllSpace(trail)
    ensures r != [] ==> !IsJsSpace(r[0]) && !IsJsSpace(r[|r| - 1])
  {
    var t := TrimStart(s);
    var r := TrimEnd(t);
    var lead, trail := s[..|s| - |t|], t[|r|..];
    SplitThree(s, t, r);
    r
  }

  /** A suffix `t` of `s` and a prefix `r` of `t` split `s` into three. */
  lemma SplitThree(s: string, t: string, r: string)
    requires |t| <= |s| && t == s[|s| - |t|..] && |r| <= |t| && r == t[..|r|]
    ensures s == s[..|s| - |t|] + r + t[|r|..]
  {
    assert t == r + t[|r|..];
  }

  /** `s.indexOf(c)`: the first position of `c`, if any. */
  function IndexOf(s: string, c: char): (r: Option<nat>)
    ensures r.None? ==> forall i :: 0 <= i < |s| ==> s[i] != c
    ensures r.Some? ==>
      r.value < |s| && s[r.value] == c && forall i :: 0 <= i < r.value ==> s[i] != c
  {
    if s == [] then None
    else if s[0] == c then Some(0)
    else match IndexOf(s[1..], c)
      case None => None
      case Some(k) => Some(k + 1)
  }

  /** `s.substring(0, n)`: JavaScript clamps `n` into [0, |s|]. */
  function Prefix(s: string, n: int): (r: string)
    ensures r <= s
    ensures 0 <= n <= |s| ==> |r| == n
    ensures n < 0 ==> r == []
    ensures n > |s| ==> r == s
  {
    if n < 0 then [] else if n > |s| then s else s[..n]
  }

  function DigitChar(d: nat): (c: char)
    requires d < 10
    ensures '0' <= c <= '9'
    ensures c as int - '0' as int == d
  {
    "0123456789"[d]
  }

  predicate AllDigits(s: string) {
    forall i :: 0 <= i < |s| ==> '0' <= s[i] <= '9'
  }

  /** The number a run of decimal digits denotes, read most significant digit first. */
  function DigitsValue(s: string): nat
    requires AllDigits(s)
  {
    if s == [] then 0
    else DigitsValue(s[..|s| - 1]) * 10 + (s[|s| - 1] as int - '0' as int)
  }

  /** The decimal rendering of a natural number, as a template literal gives it: a run of
      digits that denotes `n`, with no leading zero. */
  function NatToString(n: nat): (r: string)
    ensures |r| >= 1 && AllDigits(r)
    ensures DigitsValue(r) == n
    ensures n >= 1 ==> r[0] != '0'
    ensures n < 10 ==> r == [DigitChar(n)]
  {
    if n < 10 then [DigitChar(n)]
    else
      var r := NatToString(n / 10) + [DigitChar(n % 10)];
      assert r[..|r| - 1] == NatToString(n / 10);
      r
  }

  /** `Math.max(lo, Math.min(hi, x))`, the clamp the character's eye tracking uses. */
  function Clamp(lo: real, hi: real, x: real): (r: real)
    requires lo <= hi
    ensures lo <= r <= hi
    ensures lo <= x <= hi ==> r == x
    ensures x < lo ==> r == lo
    ensures x > hi ==> r == hi
  {
    var m := if x < hi then x else hi;
    if lo < m then m else lo
  }
}
