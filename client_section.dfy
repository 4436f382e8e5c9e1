/** The logo rows of src/components/ClientSection.tsx: the client list is split into two
    halves, and two marquee strips repeat the halves, each logo keyed by the strip's
    prefix, the client's name and its position in the strip. */
module ClientSection {
  import opened Decimal

  /** A client; only the name takes part in the layout, the image and link are
      presentation. */
  datatype Client = Client(name: string)

  /** `Math.ceil(n / 2)`. */
  function CeilHalf(n: nat): (h: nat)
    ensures n <= 2 * h <= n + 1
  {
    (n + 1) / 2
  }

  /** `clients.slice(0, Math.ceil(clients.length / 2))`. */
  function FirstRow<T>(clients: seq<T>): seq<T> {
    clients[..CeilHalf(|clients|)]
  }

  /** `clients.slice(Math.ceil(clients.length / 2))`. */
  function SecondRow<T>(clients: seq<T>): seq<T> {
    clients[CeilHalf(|clients|)..]
  }

  /** The two rows put back together are the client list; the first holds the larger half
      (`ceil(n / 2)`), the second the smaller (`floor(n / 2)`). */
  lemma RowsSplit<T>(clients: seq<T>)
    ensures FirstRow(clients) + SecondRow(clients) == clients
    ensures |FirstRow(clients)| == (|clients| + 1) / 2 && |SecondRow(clients)| == |clients| / 2
    ensures 0 <= |FirstRow(clients)| - |SecondRow(clients)| <= 1
  {
    assert clients[..CeilHalf(|clients|)] + clients[CeilHalf(|clients|)..] == clients;
  }

  /** The top strip: `[...firstRow, ...secondRow, ...firstRow]`. */
  function TopStrip<T>(clients: seq<T>): seq<T> {
    FirstRow(clients) + SecondRow(clients) + FirstRow(clients)
  }

  /** The bottom strip: `[...secondRow, ...firstRow, ...secondRow, ...firstRow, ...secondRow]`. */
  function BottomStrip<T>(clients: seq<T>): seq<T> {
    SecondRow(clients) + FirstRow(clients) + SecondRow(clients) + FirstRow(clients) + SecondRow(clients)
  }

  /** The top strip is the whole list followed by the first row again: `n + ceil(n / 2)`
      logos. */
  lemma TopStripShape<T>(clients: seq<T>)
    ensures TopStrip(clients) == clients + FirstRow(clients)
    ensures |TopStrip(clients)| == |clients| + (|clients| + 1) / 2
  {
    RowsSplit(clients);
  }

  /** The bottom strip is the second row followed by the whole list twice:
      `2n + floor(n / 2)` logos. */
  lemma BottomStripShape<T>(clients: seq<T>)
    ensures BottomStrip(clients) == SecondRow(clients) + clients + clients
    ensures |BottomStrip(clients)| == 2 * |clients| + |clients| / 2
  {
    RowsSplit(clients);
    var f, s := FirstRow(clients), SecondRow(clients);
    assert s + f + s + f + s == s + (f + s) + (f + s);
  }

  /** The React key of a logo: `${prefix}${client.name}-${index}`. */
  function Key(prefix: string, name: string, index: nat): string {
    prefix + name + "-" + NatToDecimal(index)
  }

  /** The keys of a strip, one per position. */
  function StripKeys(prefix: string, strip: seq<Client>): (keys: seq<string>)
    ensures |keys| == |strip|
  {
    seq(|strip|, i requires 0 <= i < |strip| => Key(prefix, strip[i].name, i))
  }

  /** The longest run of digits at the end of a text. */
  function DigitSuffix(k: string): (d: string)
    ensures AllDigits(d)
    decreases |k|
  {
    if k == [] || !IsDigit(k[|k| - 1]) then [] else DigitSuffix(k[..|k| - 1]) + [k[|k| - 1]]
  }

  /** After a text ending in a non-digit, the digit run at the end is exactly the digits
      appended. */
  lemma {:induction false} DigitSuffixOf(a: string, d: string)
    requires |a| > 0 && !IsDigit(a[|a| - 1]) && AllDigits(d)
    ensures DigitSuffix(a + d) == d
    decreases |d|
  {
    if d == [] {
      assert a + d == a;
    } else {
      var init := d[..|d| - 1];
      assert (a + d)[..|a + d| - 1] == a + init;
      DigitSuffixOf(a, init);
      assert init + [d[|d| - 1]] == d;
    }
  }

  /** The position can be read back from a key, whatever the names: it is the run of digits
      after the last `-`. */
  lemma KeyDeterminesIndex(prefix: string, n1: string, i1: nat, n2: string, i2: nat)
    requires Key(prefix, n1, i1) == Key(prefix, n2, i2)
    ensures i1 == i2
  {
    DigitSuffixOf(prefix + n1 + "-", NatToDecimal(i1));
    DigitSuffixOf(prefix + n2 + "-", NatToDecimal(i2));
    DecimalInjective(i1, i2);
  }

  /** The keys within a strip are pairwise distinct. */
  lemma StripKeysDistinct(prefix: string, strip: seq<Client>)
    ensures forall i, j :: 0 <= i < j < |strip| ==> StripKeys(prefix, strip)[i] != StripKeys(prefix, strip)[j]
  {
    var keys := StripKeys(prefix, strip);
    forall i, j | 0 <= i < j < |strip|
      ensures keys[i] != keys[j]
    {
      if keys[i] == keys[j] {
        KeyDeterminesIndex(prefix, strip[i].name, i, strip[j].name, j);
      }
    }
  }

  /** The keys of the two strips: `first-…` on the top strip and `second-…` on the bottom
      one, distinct within each strip. */
  lemma StripsKeyed(clients: seq<Client>)
    ensures var top := StripKeys("first-", TopStrip(clients));
      |top| == |clients| + (|clients| + 1) / 2
      && forall i, j :: 0 <= i < j < |top| ==> top[i] != top[j]
    ensures var bottom := StripKeys("second-", BottomStrip(clients));
      |bottom| == 2 * |clients| + |clients| / 2
      && forall i, j :: 0 <= i < j < |bottom| ==> bottom[i] != bottom[j]
  {
    TopStripShape(clients);
    BottomStripShape(clients);
    StripKeysDistinct("first-", TopStrip(clients));
    StripKeysDistinct("second-", BottomStrip(clients));
  }
}
