/** The currency clean-up of the Amount text: every `$` and `,` is deleted (app_airtable.py:26). */
module Amounts {
  import opened Sequences

  /** The characters the regular expression `[\$,]` does not match. */
  predicate IsKeptChar(c: char) {
    c != '$' && c != ','
  }

  /** Every `$` and `,` deleted; every other character kept, in order and as often as before. */
  function StripCurrency(s: string): (r: string)
    ensures forall i :: 0 <= i < |r| ==> r[i] != '$' && r[i] != ','
    ensures IsSubsequence(r, s)
    ensures forall c :: IsKeptChar(c) ==> multiset(r)[c] == multiset(s)[c]
    ensures |r| == |s| - multiset(s)['$'] - multiset(s)[',']
  {
    KeepIsSubsequence(s, IsKeptChar);
    KeepCounts(s, IsKeptChar);
    StrippedLength(s);
    Keep(s, IsKeptChar)
  }

  lemma {:induction false} StrippedLength(s: string)
    ensures |Keep(s, IsKeptChar)| == |s| - multiset(s)['$'] - multiset(s)[',']
  {
    if s != [] {
      StrippedLength(s[1..]);
      assert s == [s[0]] + s[1..];
      assert multiset(s) == multiset{s[0]} + multiset(s[1..]);
    }
  }

  /** Text without currency marks is left as it is. */
  lemma StripCurrencyPlain(s: string)
    requires forall i :: 0 <= i < |s| ==> IsKeptChar(s[i])
    ensures StripCurrency(s) == s
  {
    KeepAll(s, IsKeptChar);
  }

  /** Stripping works piecewise: a mark is removed wherever it stands. */
  lemma StripCurrencyAppend(a: string, b: string)
    ensures StripCurrency(a + b) == StripCurrency(a) + StripCurrency(b)
  {
    KeepAppend(a, b, IsKeptChar);
  }

  /** Stripping twice is stripping once. */
  lemma StripCurrencyIdempotent(s: string)
    ensures StripCurrency(StripCurrency(s)) == StripCurrency(s)
  {
    StripCurrencyPlain(StripCurrency(s));
  }
}
