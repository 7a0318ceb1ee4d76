/** Ordinal, case-insensitive comparison of strings (ASCII letters). */
module Text {

  function Upper(c: char): char {
    if 'a' <= c <= 'z' then c - 'a' + 'A' else c
  }

  /** The form two strings share when StringComparer.OrdinalIgnoreCase calls them equal. */
  function Fold(s: string): string {
    seq(|s|, i requires 0 <= i < |s| => Upper(s[i]))
  }

  /** The same letter, or the same in the other case. */
  predicate SameLetter(a: char, b: char) {
    || a == b
    || ('a' <= a <= 'z' && b as int == a as int - 32)
    || ('a' <= b <= 'z' && a as int == b as int - 32)
  }

  /** Two strings fold alike exactly when they agree letter by letter up to case. */
  lemma {:induction false} FoldIgnoresCase(s: string, t: string)
    ensures Fold(s) == Fold(t) <==> |s| == |t| && forall i | 0 <= i < |s| :: SameLetter(s[i], t[i])
  {
    assert forall a: char, b: char :: Upper(a) == Upper(b) <==> SameLetter(a, b);
    if |s| == |t| && forall i | 0 <= i < |s| :: SameLetter(s[i], t[i]) {
      forall i | 0 <= i < |s| ensures Fold(s)[i] == Fold(t)[i] { assert SameLetter(s[i], t[i]); }
    }
    if Fold(s) == Fold(t) {
      assert |s| == |Fold(s)| && |t| == |Fold(t)|;
      forall i | 0 <= i < |s| ensures SameLetter(s[i], t[i]) { assert Fold(s)[i] == Fold(t)[i]; }
    }
  }
}
