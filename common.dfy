/** Shared vocabulary for the three core files: optional values and error
    results, the two languages' rounding rules, clamping, sums, ASCII
    lower-casing and substring search, and the risk classification. */
module Common {

  datatype Option<+T> = None | Some(value: T) {
    function GetOr(default: T): T {
      match this
      case Some(v) => v
      case None => default
    }
  }

  /** A computation that either produces a value or raises with a message. */
  datatype Result<+T> = Success(value: T) | Failure(error: string)

  /** Risk classes shared by the frontend and the backend. */
  datatype Risk = Low | Medium | High

  /** Both ends classify a confidence with the thresholds 85 and 70: low
      risk from 85 up, high risk below 70. */
  function RiskLevel(confidence: int): (r: Risk)
    ensures r == Low <==> confidence >= 85
    ensures r == High <==> confidence < 70
  {
    if confidence >= 85 then Low
    else if confidence >= 70 then Medium
    else High
  }

  /** The six business functions, in the declaration order both the
      frontend table and the backend configuration use. */
  datatype AgentName = Sales | Marketing | Finance | Operations | Support | HR

  const AllAgents: seq<AgentName> := [Sales, Marketing, Finance, Operations, Support, HR]

  function NameText(a: AgentName): string
  {
    match a
    case Sales => "Sales"
    case Marketing => "Marketing"
    case Finance => "Finance"
    case Operations => "Operations"
    case Support => "Support"
    case HR => "HR"
  }

  /** The agents' display names, in that order. */
  const AgentNames: seq<string> := ["Sales", "Marketing", "Finance", "Operations", "Support", "HR"]

  /** JavaScript `Math.round`: the nearest integer, halves rounded up. */
  function JsRound(x: real): (r: int)
    ensures x - 0.5 < r as real <= x + 0.5
  {
    (x + 0.5).Floor
  }

  /** Rounding never reverses an order. */
  lemma JsRoundMonotone(x: real, y: real)
    requires x <= y
    ensures JsRound(x) <= JsRound(y)
  {
  }

  /** Python 3 `round(x)`: the nearest integer, halves rounded to even. */
  function PyRound(x: real): (r: int)
    ensures x - 0.5 <= r as real <= x + 0.5
    ensures (r as real - x == 0.5 || x - r as real == 0.5) ==> r % 2 == 0
  {
    var f := x.Floor;
    var d := x - f as real;
    if d < 0.5 then f
    else if d > 0.5 then f + 1
    else if f % 2 == 0 then f else f + 1
  }

  /** Python's rounding gives a whole number back unchanged. */
  lemma PyRoundOfWhole(n: int)
    ensures PyRound(n as real) == n
  {
  }

  /** Python's rounding never reverses an order, and keeps the sign. */
  lemma PyRoundMonotone(x: real, y: real)
    requires x <= y
    ensures PyRound(x) <= PyRound(y)
  {
  }

  lemma PyRoundSign(x: real)
    ensures 0.0 <= x ==> 0 <= PyRound(x)
    ensures x <= 0.0 ==> PyRound(x) <= 0
  {
  }

  /** Scaling by a non-negative factor keeps an order. */
  lemma ScaleMonotone(x: real, y: real, k: real)
    requires x <= y && 0.0 <= k
    ensures x * k <= y * k
  {
  }

  lemma ScaleMonotoneLeft(x: real, y: real, k: real)
    requires x <= y && 0.0 <= k
    ensures k * x <= k * y
  {
  }

  /** Scaling by a non-negative factor keeps a sign. */
  lemma ScaleSign(x: real, k: real)
    requires 0.0 <= k
    ensures 0.0 <= x ==> 0.0 <= x * k
    ensures x <= 0.0 ==> x * k <= 0.0
  {
  }

  /** Python `round(x * k)`, kept as one term so that facts about it are
      stated once, here. */
  function RoundedProduct(x: real, k: real): int
  {
    PyRound(x * k)
  }

  /** Rounding a number scaled by a non-negative factor keeps its sign. */
  lemma RoundedProductSign(x: real, k: real)
    requires 0.0 <= k
    ensures 0.0 <= x ==> 0 <= RoundedProduct(x, k)
    ensures x <= 0.0 ==> RoundedProduct(x, k) <= 0
  {
    ScaleSign(x, k);
    PyRoundSign(x * k);
  }

  /** Rounding a product with a non-negative factor keeps the order of the
      other factor. */
  lemma RoundedProductMonotone(k: real, u1: real, u2: real)
    requires 0.0 <= k && u1 <= u2
    ensures RoundedProduct(k, u1) <= RoundedProduct(k, u2)
  {
    ScaleMonotoneLeft(u1, u2, k);
    PyRoundMonotone(k * u1, k * u2);
  }

  /** Scaling a non-positive integer by a factor between 0 and 1 and
      rounding lands between that integer and zero. */
  lemma RoundedProductShrinks(x: int, k: real)
    requires x <= 0 && 0.0 <= k <= 1.0
    ensures x <= RoundedProduct(x as real, k) <= 0
  {
    ScaleMonotoneLeft(k, 1.0, -(x as real));
    PyRoundMonotone(x as real, x as real * k);
    RoundedProductSign(x as real, k);
  }

  /** Python 3 `round(x, 1)`, on exact reals: half-to-even at one decimal. */
  function PyRound1(x: real): (r: real)
    ensures x - 0.05 <= r <= x + 0.05
  {
    PyRound(x * 10.0) as real / 10.0
  }

  /** Python `int(x)` on a float: truncation toward zero. */
  function Trunc(x: real): (r: int)
    ensures 0.0 <= x ==> 0 <= r && r as real <= x < r as real + 1.0
    ensures x < 0.0 ==> r <= 0 && r as real - 1.0 < x <= r as real
  {
    if x >= 0.0 then x.Floor else -((-x).Floor)
  }

  function Min(a: real, b: real): (r: real)
    ensures r <= a && r <= b && (r == a || r == b)
  {
    if a <= b then a else b
  }

  function Max(a: real, b: real): (r: real)
    ensures a <= r && b <= r && (r == a || r == b)
  {
    if a >= b then a else b
  }

  type NonNegReal = x: real | 0.0 <= x

  /** `x ** 0.8` cannot be computed on reals: it is taken as a parameter of
      type `real -> NonNegReal` (never negative) that satisfies the one
      equation the properties use, 1 ** 0.8 == 1. */
  predicate PowLaw(pow: real -> NonNegReal)
  {
    pow(1.0) == 1.0
  }

  function SumInts(s: seq<int>): int
  {
    if s == [] then 0 else SumInts(s[..|s| - 1]) + s[|s| - 1]
  }

  function SumReals(s: seq<real>): real
  {
    if s == [] then 0.0 else SumReals(s[..|s| - 1]) + s[|s| - 1]
  }

  /** Extending a prefix by one element adds that element to the sum. */
  lemma SumIntsPrefix(s: seq<int>, k: nat)
    requires k < |s|
    ensures SumInts(s[..k + 1]) == SumInts(s[..k]) + s[k]
  {
    assert s[..k + 1][..k] == s[..k];
  }

  /** A sum of six numbers, written out. */
  lemma SumIntsSix(s: seq<int>)
    requires |s| == 6
    ensures SumInts(s) == s[0] + s[1] + s[2] + s[3] + s[4] + s[5]
  {
    SumIntsPrefix(s, 0);
    SumIntsPrefix(s, 1);
    SumIntsPrefix(s, 2);
    SumIntsPrefix(s, 3);
    SumIntsPrefix(s, 4);
    SumIntsPrefix(s, 5);
    assert s[..6] == s;
  }

  /** A sum of n terms each between lo and hi lies between n*lo and n*hi. */
  lemma {:induction false} SumIntsBounds(s: seq<int>, lo: int, hi: int)
    requires forall i :: 0 <= i < |s| ==> lo <= s[i] <= hi
    ensures |s| * lo <= SumInts(s) <= |s| * hi
  {
    if s != [] {
      SumIntsBounds(s[..|s| - 1], lo, hi);
    }
  }

  /** A sum of n copies of c is n*c. */
  lemma {:induction false} SumRealsConstant(s: seq<real>, c: real)
    requires forall i :: 0 <= i < |s| ==> s[i] == c
    ensures SumReals(s) == |s| as real * c
  {
    if s != [] {
      SumRealsConstant(s[..|s| - 1], c);
    }
  }

  function LowerChar(c: char): (r: char)
    ensures 'A' <= c <= 'Z' ==> 'a' <= r <= 'z'
    ensures !('A' <= c <= 'Z') ==> r == c
  {
    if 'A' <= c <= 'Z' then (c as int + 32) as char else c
  }

  /** Python `str.lower()`, restricted to the ASCII letters. */
  function Lower(s: string): (r: string)
    ensures |r| == |s|
    ensures forall i :: 0 <= i < |s| ==> r[i] == LowerChar(s[i])
  {
    if s == [] then [] else [LowerChar(s[0])] + Lower(s[1..])
  }

  predicate StartsWith(s: string, prefix: string)
  {
    |prefix| <= |s| && s[..|prefix|] == prefix
  }

  /** Python `sub in s`. */
  predicate Contains(s: string, sub: string)
    decreases |s|
  {
    StartsWith(s, sub) || (|s| > 0 && Contains(s[1..], sub))
  }

  /** `sub` occurs in `s` starting at position `i`. */
  predicate OccursAt(s: string, sub: string, i: int)
  {
    0 <= i <= |s| - |sub| && s[i..i + |sub|] == sub
  }

  /** `Contains` holds exactly when `sub` occurs at some position of `s`. */
  lemma {:induction false} ContainsAt(s: string, sub: string)
    ensures Contains(s, sub) <==> exists i :: OccursAt(s, sub, i)
    decreases |s|
  {
    if StartsWith(s, sub) {
      assert OccursAt(s, sub, 0);
    } else if |s| > 0 {
      ContainsAt(s[1..], sub);
      if Contains(s[1..], sub) {
        var i :| OccursAt(s[1..], sub, i);
        assert s[i + 1..i + 1 + |sub|] == s[1..][i..i + |sub|];
        assert OccursAt(s, sub, i + 1);
      }
      if exists i :: OccursAt(s, sub, i) {
        var i :| OccursAt(s, sub, i);
        assert i != 0;
        assert s[1..][i - 1..i - 1 + |sub|] == s[i..i + |sub|];
        assert OccursAt(s[1..], sub, i - 1);
      }
    }
  }

  /** Lower-casing leaves a string without capitals unchanged. */
  lemma LowerOfLowerCase(s: string)
    requires forall k :: 0 <= k < |s| ==> !('A' <= s[k] <= 'Z')
    ensures Lower(s) == s
  {
  }

  /** A string lacking one of the characters of `sub` does not contain it. */
  lemma AbsentByChar(s: string, sub: string, j: nat)
    requires j < |sub| && sub[j] !in s
    ensures !Contains(s, sub)
  {
    forall i | 0 <= i <= |s| - |sub| ensures !OccursAt(s, sub, i) {
      assert s[i..i + |sub|][j] == s[i + j];
      assert s[i + j] in s;
    }
    ContainsAt(s, sub);
  }

  /** A string lacking two adjacent characters of `sub` does not contain it. */
  lemma AbsentByPair(s: string, sub: string, j: nat, c: char, d: char)
    requires j + 1 < |sub| && sub[j] == c && sub[j + 1] == d
    requires forall k :: 0 <= k < |s| - 1 ==> !(s[k] == c && s[k + 1] == d)
    ensures !Contains(s, sub)
  {
    forall i | 0 <= i <= |s| - |sub| ensures !OccursAt(s, sub, i) {
      assert s[i..i + |sub|][j] == s[i + j] && s[i..i + |sub|][j + 1] == s[i + j + 1];
    }
    ContainsAt(s, sub);
  }

  function DigitChar(d: int): char
    requires 0 <= d < 10
  {
    ['0', '1', '2', '3', '4', '5', '6', '7', '8', '9'][d]
  }

  function NatToString(n: nat): (r: string)
    ensures |r| >= 1
    decreases n
  {
    if n < 10 then [DigitChar(n)] else NatToString(n / 10) + [DigitChar(n % 10)]
  }

  /** Python `str(n)` on an int. */
  function IntToString(n: int): string
  {
    if n < 0 then "-" + NatToString(-n) else NatToString(n)
  }
}
