/**
 * The `jti` (JWT ID) claim: a random alphanumeric string whose length is drawn
 * once from [16, 128] and whose characters are drawn one per position from the
 * 62-symbol alphabet `string.ascii_letters + string.digits`.
 *
 * The secure random source is given as a value: its `randint` function and
 * its stream of `random()` results, each result `r` in [0, 1) taken as the
 * alphabet index `int(r * 62)`.
 */
module Jti {

  const JtiMinLength: nat := 16
  const JtiMaxLength: nat := 128

  /** The symbol at position k of ascii_letters + digits: a-z, then A-Z, then 0-9. */
  function AlphabetChar(k: int): char
    requires 0 <= k < 62
  {
    if k < 26 then ('a' as int + k) as char
    else if k < 52 then ('A' as int + (k - 26)) as char
    else ('0' as int + (k - 52)) as char
  }

  /** string.ascii_letters + string.digits, the 62 symbols a jti is drawn from. */
  function Alphabet(): (a: string)
    ensures |a| == 62
  {
    seq(62, k requires 0 <= k < 62 => AlphabetChar(k))
  }

  /** A letter or a digit in ASCII, stated independently of Alphabet. */
  predicate IsAlnum(c: char) {
    ('a' <= c <= 'z') || ('A' <= c <= 'Z') || ('0' <= c <= '9')
  }

  /** Every alphanumeric character occurs in Alphabet; this gives its position. */
  function AlphabetIndex(c: char): (k: int)
    requires IsAlnum(c)
    ensures 0 <= k < |Alphabet()| && Alphabet()[k] == c
  {
    if 'a' <= c <= 'z' then c as int - 'a' as int
    else if 'A' <= c <= 'Z' then 26 + (c as int - 'A' as int)
    else 52 + (c as int - '0' as int)
  }

  /** Alphabet is the Python string ascii_letters + digits, symbol for symbol. */
  lemma AlphabetIsAsciiLettersDigits()
    ensures Alphabet() == "abcdefghijklmnopqrstuvwxyz" + "ABCDEFGHIJKLMNOPQRSTUVWXYZ" + "0123456789"
  {
  }

  /** Alphabet holds exactly the 62 alphanumerics, each once. */
  lemma AlphabetIsAlnum(k: int)
    requires 0 <= k < |Alphabet()|
    ensures IsAlnum(Alphabet()[k]) && AlphabetIndex(Alphabet()[k]) == k
  {
  }

  /**
   * The jti built from the first `len` character draws: position i holds the
   * alphabet symbol at index draws[i]; later draws are not consumed.
   */
  function MakeJti(len: nat, draws: seq<int>): (jti: string)
    requires len <= |draws|
    requires forall i :: 0 <= i < len ==> 0 <= draws[i] < |Alphabet()|
    ensures |jti| == len
    ensures forall i :: 0 <= i < len ==> jti[i] == Alphabet()[draws[i]]
    decreases len
  {
    if len == 0 then [] else MakeJti(len - 1, draws) + [Alphabet()[draws[len - 1]]]
  }

  /** Every character of a jti is a letter or a digit. */
  lemma JtiIsAlphanumeric(len: nat, draws: seq<int>)
    requires len <= |draws|
    requires forall i :: 0 <= i < len ==> 0 <= draws[i] < |Alphabet()|
    ensures forall i :: 0 <= i < len ==> IsAlnum(MakeJti(len, draws)[i])
  {
  }

  /** Recovers the character draws from an alphanumeric jti. */
  function JtiDraws(jti: string): (draws: seq<int>)
    requires forall i :: 0 <= i < |jti| ==> IsAlnum(jti[i])
    ensures |draws| == |jti|
    ensures forall i :: 0 <= i < |jti| ==> 0 <= draws[i] < |Alphabet()| && Alphabet()[draws[i]] == jti[i]
  {
    if jti == [] then [] else JtiDraws(jti[..|jti| - 1]) + [AlphabetIndex(jti[|jti| - 1])]
  }

  /** The jti determines the draws it consumed: decoding a jti gives them back. */
  lemma {:induction false} JtiDrawsRoundTrip(len: nat, draws: seq<int>)
    requires len <= |draws|
    requires forall i :: 0 <= i < len ==> 0 <= draws[i] < |Alphabet()|
    ensures forall i :: 0 <= i < len ==> IsAlnum(MakeJti(len, draws)[i])
    ensures JtiDraws(MakeJti(len, draws)) == draws[..len]
    decreases len
  {
    JtiIsAlphanumeric(len, draws);
    if len > 0 {
      var jti := MakeJti(len, draws);
      assert jti[..len - 1] == MakeJti(len - 1, draws);
      JtiDrawsRoundTrip(len - 1, draws);
      AlphabetIsAlnum(draws[len - 1]);
      assert draws[..len] == draws[..len - 1] + [draws[len - 1]];
    }
  }

  /** Different character draws give different jti values of the same length. */
  lemma JtiInjective(len: nat, draws1: seq<int>, draws2: seq<int>)
    requires len <= |draws1| && len <= |draws2|
    requires forall i :: 0 <= i < len ==> 0 <= draws1[i] < |Alphabet()|
    requires forall i :: 0 <= i < len ==> 0 <= draws2[i] < |Alphabet()|
    ensures MakeJti(len, draws1) == MakeJti(len, draws2) <==> draws1[..len] == draws2[..len]
  {
  }

  /**
   * The secure random source: `randint(lo, hi)` is what SystemRandom.randint
   * answers, and `index(k)` is the k-th random() call taken as an alphabet
   * index, int(r * 62).
   */
  datatype Entropy = Entropy(randint: (int, int) -> int, index: nat -> int) {
    /** What the source itself promises: randint stays within its bounds, and every index is in range. */
    ghost predicate Valid() {
      && (forall lo, hi :: lo <= hi ==> lo <= randint(lo, hi) <= hi)
      && (forall k: nat :: 0 <= index(k) < |Alphabet()|)
    }
  }

  /** The first `n` indices the source yields. */
  function Indices(e: Entropy, n: nat): (draws: seq<int>)
    requires e.Valid()
    ensures |draws| == n
    ensures forall i :: 0 <= i < n ==> draws[i] == e.index(i) && 0 <= draws[i] < |Alphabet()|
  {
    seq(n, i requires 0 <= i => e.index(i))
  }

  /** One jti draw: the jti and the number of random() calls made. */
  datatype JtiDraw = JtiDraw(jti: string, randomCalls: nat)

  /**
   * The jti of one authentication: one randint(16, 128) call for the length,
   * then exactly that many random() calls, one per character. The ensures
   * on |d.jti| is what shows that randint is asked for (16, 128).
   */
  function DrawJti(e: Entropy): (d: JtiDraw)
    requires e.Valid()
    ensures |d.jti| == e.randint(JtiMinLength, JtiMaxLength)
    ensures JtiMinLength <= |d.jti| <= JtiMaxLength
    ensures d.randomCalls == |d.jti|
    ensures forall i :: 0 <= i < |d.jti| ==> IsAlnum(d.jti[i])
    ensures JtiDraws(d.jti) == Indices(e, d.randomCalls)
  {
    var len: nat := e.randint(JtiMinLength, JtiMaxLength);
    var draws := Indices(e, len);
    JtiDrawsRoundTrip(len, draws);
    assert draws[..len] == draws;
    JtiDraw(MakeJti(len, draws), len)
  }
}
