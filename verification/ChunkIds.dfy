/** Chunk ids (qc/rag.py): a document id and the number of the part, written with at least four digits. */
module ChunkIds {
  import opened Reports

  function Zeros(n: nat): (z: string)
    ensures |z| == n && forall c | c in z :: c == '0'
  {
    seq(n, _ => '0')
  }

  /** `{n:04d}`. */
  function Padded(n: nat): string {
    var digits := Decimal(n);
    Zeros(if |digits| < 4 then 4 - |digits| else 0) + digits
  }

  function ChunkId(documentId: string, n: nat): string {
    documentId + "#c" + Padded(n)
  }

  predicate AllDigits(text: string) {
    forall c | c in text :: '0' <= c <= '9'
  }

  /** The number a text of digits stands for. */
  function Value(text: string): int {
    if text == [] then 0 else 10 * Value(text[..|text| - 1]) + (text[|text| - 1] as int - '0' as int)
  }

  lemma DigitValue(n: nat)
    requires n < 10
    ensures "0123456789"[n] as int - '0' as int == n && '0' <= "0123456789"[n] <= '9'
  {
  }

  lemma {:induction false} DecimalReads(n: nat)
    ensures AllDigits(Decimal(n)) && Value(Decimal(n)) == n
    decreases n
  {
    DigitValue(n % 10);
    if n < 10 {
      assert Decimal(n)[..0] == [];
    } else {
      DecimalReads(n / 10);
      assert Decimal(n)[..|Decimal(n)| - 1] == Decimal(n / 10);
    }
  }

  lemma {:induction false} ZerosAreNothing(k: nat, text: string)
    ensures Value(Zeros(k) + text) == Value(text)
    decreases k + |text|
  {
    var all := Zeros(k) + text;
    if text != [] {
      assert all[..|all| - 1] == Zeros(k) + text[..|text| - 1];
      ZerosAreNothing(k, text[..|text| - 1]);
    } else if k > 0 {
      assert all[..|all| - 1] == Zeros(k - 1) + text;
      ZerosAreNothing(k - 1, text);
    } else {
      assert all == text;
    }
  }

  lemma PaddedReads(n: nat)
    ensures AllDigits(Padded(n)) && Value(Padded(n)) == n
  {
    hide Decimal, Value;
    DecimalReads(n);
    ZerosAreNothing(if |Decimal(n)| < 4 then 4 - |Decimal(n)| else 0, Decimal(n));
  }

  /** The marker is followed by digits only. */
  lemma MarkerIsLast(a: string, x: string)
    requires AllDigits(x)
    ensures var s := a + "#c" + x;
            s[|a|] == '#' && forall k | |a| < k < |s| :: s[k] != '#'
  {
    var s := a + "#c" + x;
    assert s[|a| + 1] == 'c';
    forall k | |a| + 2 <= k < |s|
      ensures s[k] != '#'
    {
      assert s[k] == x[k - |a| - 2] && x[k - |a| - 2] in x;
    }
  }

  lemma SameSplit(a: string, x: string, b: string, y: string)
    requires a + "#c" + x == b + "#c" + y && AllDigits(x) && AllDigits(y)
    ensures a == b && x == y
  {
    var s := a + "#c" + x;
    MarkerIsLast(a, x);
    MarkerIsLast(b, y);
    assert |a| == |b|;
    assert a == s[..|a|] && b == s[..|b|] && x == s[|a| + 2..] && y == s[|b| + 2..];
  }

  /** Two parts share a chunk id only if they are the same part of documents with the same id. */
  lemma ChunkIdsDiffer(a: string, m: nat, b: string, n: nat)
    requires ChunkId(a, m) == ChunkId(b, n)
    ensures a == b && m == n
  {
    hide Padded, Value;
    PaddedReads(m);
    PaddedReads(n);
    SameSplit(a, Padded(m), b, Padded(n));
  }
}
