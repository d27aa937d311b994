/** Java's hash of a byte array, computed with JavaScript numbers in
    fe1-web's Mnemonic.ts, and the words chosen by it. */
module JavaHash {

  const TWO_TO_31: int := 0x8000_0000
  const TWO_TO_32: int := 0x1_0000_0000

  type Byte = x: int | 0 <= x < 256

  /** The integers that a JavaScript number holds exactly. */
  type JsInt = x: int | -0x20_0000_0000_0000 <= x <= 0x20_0000_0000_0000

  /** JavaScript's remainder takes the sign of the dividend. */
  function JsRem(a: int, b: int): (r: int)
    requires b > 0
    ensures -b < r < b && (a >= 0 ==> r >= 0) && (a <= 0 ==> r <= 0)
    ensures exists q :: a == q * b + r
  {
    if a >= 0 then
      assert a == (a / b) * b + a % b;
      a % b
    else
      assert a == (-((-a) / b)) * b + -((-a) % b);
      -((-a) % b)
  }

  // ---------- The reference: Arrays.hashCode(byte[]) of Java SE ----------

  /** The two's complement value of the low 32 bits. */
  function Int32(x: int): (r: int)
    ensures -TWO_TO_31 <= r < TWO_TO_31
  {
    (x + TWO_TO_31) % TWO_TO_32 - TWO_TO_31
  }

  function Signed(b: Byte): int {
    if b < 128 then b else b - 256
  }

  /** Java's byte: the value between -128 and 127 with these eight bits. */
  lemma SignedIsByte(b: Byte)
    ensures -128 <= Signed(b) < 128 && Signed(b) % 256 == b
  {
  }

  function Pow31(n: nat): int {
    if n == 0 then 1 else 31 * Pow31(n - 1)
  }

  /** Each byte weighted by its distance from the end. */
  function Weighted(s: seq<Byte>): int {
    if s == [] then 0 else Signed(s[0]) * Pow31(|s| - 1) + Weighted(s[1..])
  }

  function JavaHashCode(s: seq<Byte>): int {
    Int32(Pow31(|s|) + Weighted(s))
  }

  // ---------- The two agree ----------

  lemma Int32Shift(x: int, k: int)
    ensures Int32(x + k * TWO_TO_32) == Int32(x)
  {
  }

  lemma {:induction false} WeightedSnoc(s: seq<Byte>, b: Byte)
    ensures Weighted(s + [b]) == 31 * Weighted(s) + Signed(b)
  {
    if s == [] {
      assert Weighted([b]) == Signed(b) * Pow31(0) + Weighted([]);
    } else {
      WeightedSnoc(s[1..], b);
      assert (s + [b])[1..] == s[1..] + [b];
      assert Pow31(|s|) == 31 * Pow31(|s| - 1);
    }
  }

  /** One more byte. Wrapping before the step changes nothing after it. */
  lemma HashSnoc(s: seq<Byte>, b: Byte)
    ensures JavaHashCode(s + [b]) == Int32(31 * JavaHashCode(s) + Signed(b))
  {
    WeightedSnoc(s, b);
    var p := Pow31(|s|) + Weighted(s);
    var k := (p + TWO_TO_31) / TWO_TO_32;
    assert p == Int32(p) + k * TWO_TO_32;
    assert 31 * p + Signed(b) == 31 * Int32(p) + Signed(b) + (31 * k) * TWO_TO_32;
    Int32Shift(31 * Int32(p) + Signed(b), 31 * k);
  }

  /** One turn of the loop's arithmetic: the remainder and the two corrections are the wrap. */
  lemma Corrections(x: int, y: int)
    requires y == JsRem(x, TWO_TO_32)
    ensures Int32(x) == if y >= TWO_TO_31 then y - TWO_TO_32 else if y < -TWO_TO_31 then y + TWO_TO_32 else y
  {
    var q :| x == q * TWO_TO_32 + y;
    assert Int32(x) == Int32(y) by { Int32Shift(y, q); }
  }

  /** Every number the loop holds is a JsInt, so no step is rounded. A buffer that is null hashes to 0. */
  method HashCode(isNull: bool, buf: seq<Byte>) returns (result: JsInt)
    ensures result == if isNull then 0 else JavaHashCode(buf)
    ensures -TWO_TO_31 <= result < TWO_TO_31
  {
    if isNull { return 0; }
    result := 1;
    var n := 0;
    while n < |buf|
      invariant n <= |buf|
      invariant result == JavaHashCode(buf[..n])
      invariant -TWO_TO_31 <= result < TWO_TO_31
    {
      ghost var before := result;
      assert buf[..n + 1] == buf[..n] + [buf[n]];
      HashSnoc(buf[..n], buf[n]);
      var element: JsInt := buf[n];
      if element >= 128 {
        element := element - 256;
      }
      var product: JsInt := 31 * result;
      result := product + element;
      Corrections(result, JsRem(result, TWO_TO_32));
      result := JsRem(result, TWO_TO_32);
      if result >= TWO_TO_31 {
        result := result - TWO_TO_32;
      }
      if result < -TWO_TO_31 {
        result := result + TWO_TO_32;
      }
      n := n + 1;
    }
    assert buf[..n] == buf;
  }

  // ---------- Choosing words ----------

  function Abs(x: int): nat { if x < 0 then -x else x }

  /** The words chosen, from the first: consecutive around the list, but mirrored below zero. */
  function Chosen(words: seq<string>, hc: int, n: nat): seq<string>
    requires |words| > 0
  {
    seq(n, i => words[Abs(hc + i) % |words|])
  }

  /** The place in the list of the word chosen for place i. */
  function WordIndex(hc: int, i: nat, words: nat): (w: nat)
    requires words > 0
    ensures w < words
  {
    Abs(hc + i) % words
  }

  /** The first word is at the hash, without its sign, around the list. */
  lemma FirstWord(words: seq<string>, hc: int, n: nat)
    requires words != [] && n > 0
    ensures hc >= 0 ==> Chosen(words, hc, n)[0] == words[hc % |words|]
    ensures hc < 0 ==> Chosen(words, hc, n)[0] == words[-hc % |words|]
  {
    assert Chosen(words, hc, n)[0] == words[Abs(hc + 0) % |words|];
  }

  /** From there the words follow each other around the list, backwards below zero. */
  lemma WordsFollow(words: seq<string>, hc: int, n: nat, i: nat)
    requires words != [] && i < n
    ensures Chosen(words, hc, n)[i] == words[WordIndex(hc, i, |words|)]
    ensures hc + i >= 0 ==> WordIndex(hc, i + 1, |words|) == (WordIndex(hc, i, |words|) + 1) % |words|
    ensures hc + i < 0 ==> WordIndex(hc, i, |words|) == (WordIndex(hc, i + 1, |words|) + 1) % |words|
  {
    NextModulo(if hc + i >= 0 then hc + i else -(hc + i) - 1, |words|);
  }

  lemma NextModulo(a: nat, n: nat)
    requires n > 0
    ensures (a + 1) % n == (a % n + 1) % n
  {
    assert a == (a / n) * n + a % n;
    SameModulo(a + 1, a % n + 1, a / n, n);
  }

  lemma SameModulo(a: int, b: int, k: int, n: int)
    requires n > 0 && a == b + k * n
    ensures a % n == b % n
  {
    var q := b / n;
    assert a == (q + k) * n + b % n;
    Quotient(a, q + k, b % n, n);
  }

  lemma Quotient(a: int, q: int, r: nat, n: int)
    requires r < n && a == q * n + r
    ensures a % n == r
  {
    var d := a / n - q;
    assert a == (a / n) * n + a % n;
    assert d * n == r - a % n;
    Multiples(d, n);
  }

  lemma Multiples(d: int, n: int)
    requires n > 0
    ensures d > 0 ==> d * n >= n
    ensures d < 0 ==> d * n <= -n
  {
  }

  /** Of at most as many words as the list has, two are the same exactly when they lie on both sides of zero
      and their places add up to a multiple of the length of the list. */
  lemma WordsRepeatExactly(words: int, hc: int, i: nat, j: nat)
    requires i < j && j - i < words
    ensures WordIndex(hc, i, words) == WordIndex(hc, j, words) <==>
            hc + i < 0 < hc + j && (hc + i + hc + j) % words == 0
  {
    var a, b := Abs(hc + i), Abs(hc + j);
    SameRemainder(a, b, words);
    if hc + i >= 0 || hc + j <= 0 {
      assert -words < a - b < words && a != b;
      SmallMultiple(a - b, words);
    } else {
      Negated(hc + i + hc + j, words);
      assert a - b == -(hc + i + hc + j);
    }
  }

  lemma SameRemainder(a: nat, b: nat, n: nat)
    requires n > 0
    ensures a % n == b % n <==> (a - b) % n == 0
  {
    assert a == (a / n) * n + a % n && b == (b / n) * n + b % n;
    SameModulo(a - b, a % n - b % n, a / n - b / n, n);
    SmallMultiple(a % n - b % n, n);
  }

  lemma SmallMultiple(x: int, n: int)
    requires -n < x < n
    ensures x % n == 0 <==> x == 0
  {
    if 0 <= x { Quotient(x, 0, x, n); } else { Quotient(x, -1, x + n, n); }
  }

  lemma Negated(x: int, n: int)
    requires n > 0
    ensures x % n == 0 <==> -x % n == 0
  {
    if x % n == 0 { Quotient(-x, -(x / n), 0, n); }
    if -x % n == 0 { Quotient(x, -(-x / n), 0, n); }
  }

  function Joined(parts: seq<string>): string {
    if parts == [] then "" else Joined(parts[..|parts| - 1]) + " " + parts[|parts| - 1]
  }

  /** generateMnemonicFromBase64, given the words; every index is in range. */
  method GenerateMnemonic(words: seq<string>, data: seq<Byte>, numberOfWords: nat) returns (r: string)
    ensures words == [] ==> r == "none"
    ensures words != [] && numberOfWords == 0 ==> r == ""
    ensures words != [] && numberOfWords > 0 ==> " " + r == Joined(Chosen(words, JavaHashCode(data), numberOfWords))
  {
    if |words| == 0 { return "none"; }
    var result := "";
    var hc := HashCode(false, data);
    for i := 0 to numberOfWords
      invariant result == Joined(Chosen(words, hc, i))
      invariant i > 0 ==> result != "" && result[0] == ' '
    {
      assert Chosen(words, hc, i + 1)[..i] == Chosen(words, hc, i);
      var wordIndex := Abs(hc + i) % |words|;
      result := result + " " + words[wordIndex];
    }
    if numberOfWords == 0 { return ""; }
    r := result[1..];
    assert " " + r == result;
  }
}
