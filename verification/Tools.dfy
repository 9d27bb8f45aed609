// tools/tools.go: printing and parsing of ordinals, and the two loops over finalizer lists.
module Tools {

  // ----- decimal numerals, as fmt.Sprintf("%v") and strconv.Itoa print them -----

  function Digit(d: nat): char
    requires d < 10
  {
    (48 + d) as char
  }

  predicate IsDigit(c: char) {
    '0' <= c <= '9'
  }

  function Numeral(n: nat): (s: string)
    ensures |s| > 0 && forall k :: 0 <= k < |s| ==> IsDigit(s[k])
  {
    if n < 10 then [Digit(n)] else Numeral(n / 10) + [Digit(n % 10)]
  }

  function Itoa(i: int): string {
    if i < 0 then "-" + Numeral(-i) else Numeral(i)
  }

  predicate AllDigits(s: string) {
    forall k :: 0 <= k < |s| ==> IsDigit(s[k])
  }

  function NumeralValue(s: string): nat
    requires AllDigits(s)
  {
    if s == [] then 0
    else NumeralValue(s[..|s| - 1]) * 10 + (s[|s| - 1] as int - 48)
  }

  const MAX_INT: int := 0x7fff_ffff_ffff_ffff
  const MIN_INT: int := -0x8000_0000_0000_0000

  /** strconv.Atoi with its error dropped: 0 for malformed text, and the nearest
      64-bit value for a numeral that is out of range. */
  function StringToInt(str: string): int {
    var signed := |str| > 0 && (str[0] == '-' || str[0] == '+');
    var body := if signed then str[1..] else str;
    if body == [] || !AllDigits(body) then 0
    else
      var v: int := NumeralValue(body);
      if signed && str[0] == '-'
      then (if -v < MIN_INT then MIN_INT else -v)
      else (if v > MAX_INT then MAX_INT else v)
  }

  /** int32(index): the low 32 bits read as a two's complement number. */
  function IntToInt32(index: int): (r: int)
    ensures -0x8000_0000 <= r < 0x8000_0000
    ensures (r - index) % 0x1_0000_0000 == 0
    ensures -0x8000_0000 <= index < 0x8000_0000 ==> r == index
  {
    var low := index % 0x1_0000_0000;
    if low < 0x8000_0000 then low else low - 0x1_0000_0000
  }

  lemma {:induction false} NumeralRoundTrip(n: nat)
    ensures NumeralValue(Numeral(n)) == n
  {
    if n >= 10 {
      NumeralRoundTrip(n / 10);
      var s := Numeral(n);
      assert s[..|s| - 1] == Numeral(n / 10);
    } else {
      var s := Numeral(n);
      assert s[..|s| - 1] == [];
    }
  }

  /** A printed ordinal reads back as itself, for every Go int. */
  lemma ParsePrinted(i: int)
    requires MIN_INT <= i <= MAX_INT
    ensures StringToInt(Itoa(i)) == i
  {
    var m := if i < 0 then -i else i;
    NumeralRoundTrip(m);
    var s := Itoa(i);
    if i < 0 {
      assert s[1..] == Numeral(m);
    } else {
      assert s == Numeral(m) && IsDigit(s[0]);
    }
  }

  // ----- names built as <prefix>-<ordinal> -----

  function Dashed(prefix: string, i: nat): string {
    prefix + "-" + Numeral(i)
  }

  /** In a dashed name the ordinal is all digits, so its last dash is the one Dashed put there. */
  lemma LastDash(p: string, i: nat, k: nat)
    requires k < |Dashed(p, i)|
    ensures k == |p| ==> Dashed(p, i)[k] == '-'
    ensures k > |p| ==> IsDigit(Dashed(p, i)[k])
  {
    assert k > |p| ==> Dashed(p, i)[k] == Numeral(i)[k - |p| - 1];
  }

  /** A dashed name determines both its prefix and its ordinal. */
  lemma DashedInjective(p: string, i: nat, q: string, j: nat)
    ensures Dashed(p, i) == Dashed(q, j) <==> p == q && i == j
  {
    if Dashed(p, i) == Dashed(q, j) {
      var a, b := Dashed(p, i), Dashed(q, j);
      LastDash(p, i, |p|);
      LastDash(p, i, |q|);
      LastDash(q, j, |p|);
      LastDash(q, j, |q|);
      assert |p| == |q|;
      assert p == a[..|p|] && q == b[..|p|];
      assert Numeral(i) == a[|p| + 1..] && Numeral(j) == b[|p| + 1..];
      NumeralRoundTrip(i);
      NumeralRoundTrip(j);
    }
  }

  // ----- finalizer lists -----

  function Count(a: seq<string>, v: string): nat {
    multiset(a)[v]
  }

  /** What RemoveString leaves: the list without the first occurrence of v. */
  function WithoutFirst(a: seq<string>, v: string): seq<string> {
    if a == [] then []
    else if a[0] == v then a[1..]
    else [a[0]] + WithoutFirst(a[1..], v)
  }

  method MatchStringFromArray(strArray: seq<string>, value: string) returns (found: bool)
    ensures found <==> value in strArray
  {
    for i := 0 to |strArray|
      invariant value !in strArray[..i]
    {
      if strArray[i] == value {
        return true;
      }
    }
    return false;
  }

  lemma {:induction false} FirstRemoved(a: seq<string>, v: string, i: nat)
    requires i <= |a| && v !in a[..i] && (i < |a| ==> a[i] == v)
    ensures WithoutFirst(a, v) == if i < |a| then a[..i] + a[i + 1..] else a
  {
    if i > 0 {
      assert a[0] == a[..i][0];
      assert a[1..][..i - 1] == a[..i][1..];
      FirstRemoved(a[1..], v, i - 1);
    }
  }

  method RemoveString(strArray: seq<string>, value: string) returns (r: seq<string>)
    ensures r == WithoutFirst(strArray, value)
  {
    r := strArray;
    for i := 0 to |strArray|
      invariant r == strArray && value !in strArray[..i]
    {
      if strArray[i] == value {
        FirstRemoved(strArray, value, i);
        return strArray[..i] + strArray[i + 1..];
      }
    }
    FirstRemoved(strArray, value, |strArray|);
  }

  /** Appending a value that was absent and then removing it gives the list back, in order. */
  lemma {:induction false} RemoveUndoesAppend(a: seq<string>, v: string)
    requires v !in a
    ensures WithoutFirst(a + [v], v) == a
  {
    if a != [] {
      RemoveUndoesAppend(a[1..], v);
      assert (a + [v])[1..] == a[1..] + [v];
    }
  }

  /** One removal takes away exactly one occurrence and touches no other value. */
  lemma {:induction false} RemoveCounts(a: seq<string>, v: string)
    ensures multiset(WithoutFirst(a, v)) == multiset(a) - multiset{v}
    ensures v !in WithoutFirst(a, v) <==> Count(a, v) <= 1
  {
    if a != [] {
      assert a == [a[0]] + a[1..];
      if a[0] != v {
        RemoveCounts(a[1..], v);
      }
    }
  }
}
