/** The seeded generator of the live metrics ticker (`xmur3`, `sfc32`, `rngFromSeed` in
    src/components/hero/LiveMetricsTicker.client.tsx).

    All arithmetic there is 32-bit and wrapping. A 32-bit word is modelled as an integer in
    [0, 2^32): the unsigned reading of its bits. JavaScript's signed `| 0` results and
    `Math.imul` results have the same bits, and every operation the code applies to them
    (`^`, `<<`, `>>>`, `Math.imul`, `+` followed by `| 0`) depends only on the bits, so the
    unsigned reading loses nothing:
    - `x + y | 0` and `Math.imul(x, y)` are sums and products modulo 2^32;
    - `x >>> k` is `x / 2^k` and `x << k` is `(x * 2^k) % 2^32`;
    - `(x << k) | (x >>> (32 - k))` joins two bit ranges that do not overlap, so the `|` is a sum;
    - `^` is the bitwise exclusive or of the two 32-bit patterns. */
module SeededRng {

  const TWO_32: int := 0x1_0000_0000

  /** A 32-bit word, read as unsigned. */
  type Word = x: int | 0 <= x < 0x1_0000_0000

  /** One UTF-16 code unit, what `String.prototype.charCodeAt` returns. */
  type CodeUnit = x: int | 0 <= x < 0x10000

  /** The code units of one character: one below U+10000, a surrogate pair above. */
  function CodeUnits(c: char): (u: seq<CodeUnit>)
    ensures (c as int < 0x10000) <==> |u| == 1
    ensures |u| == 1 ==> u[0] == c as int
    ensures |u| == 2 ==> 0xD800 <= u[0] < 0xDC00 <= u[1] < 0xE000
  {
    if c as int < 0x10000 then [c as int]
    else
      var v := c as int - 0x10000;
      [0xD800 + v / 0x400, 0xDC00 + v % 0x400]
  }

  /** The UTF-16 code units of a string: `str.length` is the length of this sequence and
      `str.charCodeAt(i)` its `i`-th element. */
  function Utf16(s: string): (u: seq<CodeUnit>)
    ensures |s| <= |u| <= 2 * |s|
  {
    if s == [] then [] else CodeUnits(s[0]) + Utf16(s[1..])
  }

  /** A string of characters below U+10000 (every key of the ticker is ASCII) has one code
      unit per character, equal to the character. */
  lemma {:induction false} Utf16OfBmp(s: string)
    requires forall i :: 0 <= i < |s| ==> s[i] as int < 0x10000
    ensures |Utf16(s)| == |s|
    ensures forall i :: 0 <= i < |s| ==> Utf16(s)[i] == s[i] as int
  {
    if s != [] {
      Utf16OfBmp(s[1..]);
      assert Utf16(s) == [s[0] as int] + Utf16(s[1..]);
    }
  }

  // ---------- 32-bit operations ----------

  /** The exclusive or of the low `n` bits of `x` and `y`, bit by bit from the lowest: the
      lowest bit of the result is the parity of the lowest bits. */
  function XorBits(x: nat, y: nat, n: nat): nat
    decreases n
  {
    if n == 0 then 0 else 2 * XorBits(x / 2, y / 2, n - 1) + (x + y) % 2
  }

  /** `x ^ y`: the exclusive or of the 32 bits of each word (there are no higher bits, so
      the reduction modulo 2^32 leaves the value alone). */
  function Xor(x: Word, y: Word): Word {
    XorBits(x, y, 32) % TWO_32
  }

  /** `(x + y) | 0`. */
  function Add(x: Word, y: Word): Word {
    (x + y) % TWO_32
  }

  /** `Math.imul(x, y)`. */
  function Imul(x: Word, y: Word): Word {
    (x * y) % TWO_32
  }

  /** `(x << 13) | (x >>> 19)`. */
  function RotateLeft13(x: Word): Word {
    (x * 0x2000) % TWO_32 + x / 0x8_0000
  }

  /** `(x << 21) | (x >>> 11)`. */
  function RotateLeft21(x: Word): Word {
    (x * 0x20_0000) % TWO_32 + x / 0x800
  }

  /** `x ^ (x >>> 9)`. */
  function XorShift9(x: Word): Word {
    Xor(x, x / 0x200)
  }

  /** `x ^ (x >>> 13)`. */
  function XorShift13(x: Word): Word {
    Xor(x, x / 0x2000)
  }

  /** `x ^ (x >>> 16)`. */
  function XorShift16(x: Word): Word {
    Xor(x, x / 0x1_0000)
  }

  /** `(c + (c << 3)) | 0`. */
  function TimesNine(x: Word): Word {
    Add(x, (x * 8) % TWO_32)
  }

  // ---------- xmur3 ----------

  /** `1779033703 ^ str.length`, the length taken modulo 2^32 as `^` does. */
  function InitialHash(len: nat): Word {
    Xor(1779033703, len % TWO_32)
  }

  /** One iteration of the folding loop:
      `h = Math.imul(h ^ code, 3432918353); h = (h << 13) | (h >>> 19)`. */
  function HashStep(h: Word, u: CodeUnit): Word {
    RotateLeft13(Imul(Xor(h, u), 3432918353))
  }

  /** The hash after folding the code units `us` into `h`, first unit first. */
  function Absorb(h: Word, us: seq<CodeUnit>): Word
    decreases |us|
  {
    if us == [] then h else HashStep(Absorb(h, us[..|us| - 1]), us[|us| - 1])
  }

  /** Folding one more code unit in is one more `HashStep`. */
  lemma AbsorbSnoc(h: Word, us: seq<CodeUnit>, i: nat)
    requires i < |us|
    ensures Absorb(h, us[..i + 1]) == HashStep(Absorb(h, us[..i]), us[i])
  {
    assert us[..i + 1][..i] == us[..i];
  }

  /** The state `h` captured by the closure `xmur3(str)` returns. */
  function XmurState(us: seq<CodeUnit>): Word {
    Absorb(InitialHash(|us|), us)
  }

  /** The finaliser run by each call of that closure, with the MurmurHash3 `fmix32`
      constants; its result is both the word returned and the new captured state. */
  function Mix(h: Word): Word {
    XorShift16(Imul(XorShift13(Imul(XorShift16(h), 2246822507)), 3266489909))
  }

  /** The closure returned by `xmur3`: its captured `h` is the field, each call is `Next`. */
  class Xmur3 {
    var h: Word

    /** `xmur3(str)`: start from the length and fold every code unit in. Total on every
        string, the empty one included. */
    constructor (str: string)
      ensures h == XmurState(Utf16(str))
    {
      var us := Utf16(str);
      var x := InitialHash(|us|);
      var i := 0;
      while i < |us|
        invariant 0 <= i <= |us|
        invariant x == Absorb(InitialHash(|us|), us[..i])
      {
        AbsorbSnoc(InitialHash(|us|), us, i);
        x := HashStep(x, us[i]);
        i := i + 1;
      }
      assert us[..|us|] == us;
      h := x;
    }

    /** One call of the closure: re-finalise the carried state and return it unsigned. */
    method Next() returns (w: Word)
      modifies this
      ensures w == Mix(old(h)) && h == w
    {
      h := Imul(XorShift16(h), 2246822507);
      h := Imul(XorShift13(h), 3266489909);
      h := XorShift16(h);
      w := h;
    }
  }

  // ---------- sfc32, as written: `d` is counted but never added into `t` ----------

  datatype Sfc32State = Sfc32State(a: Word, b: Word, c: Word, d: Word)

  /** The word `t = (a + b) | 0` one call returns, before scaling. */
  function Output(s: Sfc32State): Word {
    Add(s.a, s.b)
  }

  /** The captured words after one call. */
  function StepState(s: Sfc32State): Sfc32State {
    Sfc32State(XorShift9(s.b), TimesNine(s.c), Add(RotateLeft21(s.c), Output(s)), Add(s.d, 1))
  }

  /** `(t >>> 0) / 4294967296`: the unsigned word scaled into [0, 1). */
  function Unit(w: Word): (x: real)
    ensures 0.0 <= x < 1.0
    ensures x * 4294967296.0 == w as real
  {
    w as real / 4294967296.0
  }

  /** The first `n` words a generator in state `s` returns. */
  function Outputs(s: Sfc32State, n: nat): (ws: seq<Word>)
    ensures |ws| == n
    ensures n > 0 ==> ws[0] == Output(s)
    decreases n
  {
    if n == 0 then [] else [Output(s)] + Outputs(StepState(s), n - 1)
  }

  /** The captured words after `i` calls. */
  function Iterate(s: Sfc32State, i: nat): Sfc32State
    decreases i
  {
    if i == 0 then s else Iterate(StepState(s), i - 1)
  }

  /** The `i`-th call returns the output of the state after `i` earlier calls. */
  lemma {:induction false} OutputsAt(s: Sfc32State, n: nat, i: nat)
    requires i < n
    ensures Outputs(s, n)[i] == Output(Iterate(s, i))
    decreases i
  {
    if i > 0 {
      OutputsAt(StepState(s), n - 1, i - 1);
    }
  }

  /** Later calls never change earlier results: `m` calls return the first `m` of the words
      that `n >= m` calls return. */
  lemma {:induction false} OutputsPrefix(s: Sfc32State, m: nat, n: nat)
    requires m <= n
    ensures Outputs(s, m) == Outputs(s, n)[..m]
    decreases m
  {
    if m > 0 {
      OutputsPrefix(StepState(s), m - 1, n - 1);
      assert Outputs(s, n)[..m] == [Output(s)] + Outputs(StepState(s), n - 1)[..m - 1];
    }
  }

  /** The first three words, one per call. */
  lemma ThreeOutputs(s: Sfc32State)
    ensures Outputs(s, 3) == [Output(s), Output(StepState(s)), Output(StepState(StepState(s)))]
  {
    var s1 := StepState(s);
    var s2 := StepState(s1);
    assert Outputs(s2, 1) == [Output(s2)];
    assert Outputs(s1, 2) == [Output(s1)] + Outputs(s2, 1);
  }

  /** The first four words, one per call. */
  lemma FourOutputs(s: Sfc32State)
    ensures Outputs(s, 4) == [Output(s), Output(StepState(s)), Output(StepState(StepState(s))),
                              Output(StepState(StepState(StepState(s))))]
  {
    var s1 := StepState(s);
    ThreeOutputs(s1);
    assert Outputs(s, 4) == [Output(s)] + Outputs(s1, 3);
  }

  /** Two states that agree on `a`, `b` and `c`. */
  predicate SameWords(s1: Sfc32State, s2: Sfc32State) {
    s1.a == s2.a && s1.b == s2.b && s1.c == s2.c
  }

  /** One call: the new `a`, `b`, `c` and the output are computed from `a`, `b`, `c` alone. */
  lemma StepIgnoresD(s1: Sfc32State, s2: Sfc32State)
    requires SameWords(s1, s2)
    ensures Output(s1) == Output(s2)
    ensures SameWords(StepState(s1), StepState(s2))
  {}

  /** The fourth word `d` never influences any output: two generators that differ only in `d`
      return the same words forever. */
  lemma {:induction false} OutputsIgnoreD(s1: Sfc32State, s2: Sfc32State, n: nat)
    requires SameWords(s1, s2)
    ensures Outputs(s1, n) == Outputs(s2, n)
    decreases n
  {
    if n > 0 {
      StepIgnoresD(s1, s2);
      OutputsIgnoreD(StepState(s1), StepState(s2), n - 1);
    }
  }

  /** The closure returned by `sfc32(a, b, c, d)`: the captured words are the fields. */
  class Sfc32 {
    var a: Word
    var b: Word
    var c: Word
    var d: Word

    function State(): Sfc32State
      reads this
    {
      Sfc32State(a, b, c, d)
    }

    constructor (a0: Word, b0: Word, c0: Word, d0: Word)
      ensures State() == Sfc32State(a0, b0, c0, d0)
    {
      a, b, c, d := a0, b0, c0, d0;
    }

    /** One call of the closure. */
    method Next() returns (x: real)
      modifies this
      ensures State() == StepState(old(State()))
      ensures x == Unit(Output(old(State())))
    {
      var t := Add(a, b);
      d := Add(d, 1);
      a := XorShift9(b);
      b := TimesNine(c);
      c := RotateLeft21(c);
      c := Add(c, t);
      x := Unit(t);
    }
  }

  /** The four words `sfc32(seed(), seed(), seed(), seed())` receives, in argument order. */
  function SeedState(us: seq<CodeUnit>): Sfc32State {
    var w1 := Mix(XmurState(us));
    var w2 := Mix(w1);
    var w3 := Mix(w2);
    Sfc32State(w1, w2, w3, Mix(w3))
  }

  /** The first `n` words of `rngFromSeed(seedStr)`. */
  function Draws(seedStr: string, n: nat): (ws: seq<Word>)
    ensures |ws| == n
  {
    Outputs(SeedState(Utf16(seedStr)), n)
  }

  /** The `i`-th draw of a seeded generator is the output of the seed state after `i` calls,
      and drawing more never changes the earlier draws. */
  lemma DrawsStream(seedStr: string, m: nat, n: nat, i: nat)
    requires i < m <= n
    ensures Draws(seedStr, n)[i] == Output(Iterate(SeedState(Utf16(seedStr)), i))
    ensures Draws(seedStr, m) == Draws(seedStr, n)[..m]
  {
    OutputsAt(SeedState(Utf16(seedStr)), n, i);
    OutputsPrefix(SeedState(Utf16(seedStr)), m, n);
  }

  /** `rngFromSeed`: hash the seed string, draw four seed words, start the generator. */
  method RngFromSeed(seedStr: string) returns (r: Sfc32)
    ensures fresh(r)
    ensures r.State() == SeedState(Utf16(seedStr))
  {
    var seed := new Xmur3(seedStr);
    var w1 := seed.Next();
    var w2 := seed.Next();
    var w3 := seed.Next();
    var w4 := seed.Next();
    r := new Sfc32(w1, w2, w3, w4);
  }
}
