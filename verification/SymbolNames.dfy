/** Symbol names: the lower-case key of the tables (symbolKey) and the folding comparison (strings.EqualFold). */
module SymbolNames {

  type Name = string
  type Key = string

  const LONG_S: char := '\U{017F}'
  const KELVIN: char := '\U{212A}'
  const DOTTED_I: char := '\U{0130}'
  const SIGMA: char := '\U{03C3}'
  const FINAL_SIGMA: char := '\U{03C2}'
  const CAPITAL_SIGMA: char := '\U{03A3}'

  /**
   unicode.ToLower on ASCII letters and on the characters above; a character outside both stands
   for itself. The safety lemma below is about ASCII names only.
   */
  function Lower(c: char): char {
    if 'A' <= c <= 'Z' then (c as int + 32) as char
    else if c == KELVIN then 'k'
    else if c == DOTTED_I then 'i'
    else if c == CAPITAL_SIGMA then SIGMA
    else c
  }

  /**
   The representative of c's fold class. The long s folds with s and the final sigma with sigma, though
   lower-casing keeps them; the dotted I folds with nothing, though lower-casing makes it an i.
   */
  function Fold(c: char): char {
    if c == LONG_S then 's'
    else if c == FINAL_SIGMA then SIGMA
    else if c == DOTTED_I then c
    else Lower(c)
  }

  function Map(f: char -> char, s: Name): (r: string)
    ensures |r| == |s| && forall i | 0 <= i < |s| :: r[i] == f(s[i])
  {
    seq(|s|, i requires 0 <= i < |s| => f(s[i]))
  }

  function KeyOf(s: Name): Key {
    Map(Lower, s)
  }

  predicate EqualFold(a: Name, b: Name) {
    Map(Fold, a) == Map(Fold, b)
  }

  /** Folding and keying tell the same pairs of these names apart. */
  ghost predicate Compatible(names: set<Name>) {
    forall a, b | a in names && b in names :: EqualFold(a, b) <==> KeyOf(a) == KeyOf(b)
  }

  predicate Ascii(s: Name) {
    forall i | 0 <= i < |s| :: s[i] as int < 128
  }

  lemma AsciiFoldsToKey(s: Name)
    requires Ascii(s)
    ensures Map(Fold, s) == KeyOf(s)
  {
    forall i | 0 <= i < |s| ensures Map(Fold, s)[i] == KeyOf(s)[i] {
      assert Fold(s[i]) == Lower(s[i]);
    }
  }

  /** Any ASCII names are compatible. */
  lemma AsciiCompatible(names: set<Name>)
    requires forall a | a in names :: Ascii(a)
    ensures Compatible(names)
  {
    forall a, b | a in names && b in names ensures EqualFold(a, b) <==> KeyOf(a) == KeyOf(b) {
      AsciiFoldsToKey(a);
      AsciiFoldsToKey(b);
    }
  }

  predicate Letter(c: char) {
    'a' <= c <= 'z' || 'A' <= c <= 'Z'
  }

  /** The same character, or the same letter in the other case. */
  predicate SameLetter(c: char, d: char) {
    c == d || (Letter(c) && Letter(d) && (c as int == d as int + 32 || d as int == c as int + 32))
  }

  /** Two ASCII names have the same key exactly when they differ in case only. */
  lemma AsciiKeyIgnoresCase(a: Name, b: Name)
    requires Ascii(a) && Ascii(b)
    ensures KeyOf(a) == KeyOf(b) <==> |a| == |b| && forall i | 0 <= i < |a| :: SameLetter(a[i], b[i])
  {
    if KeyOf(a) == KeyOf(b) {
      assert |a| == |KeyOf(a)| == |b|;
      forall i | 0 <= i < |a| ensures SameLetter(a[i], b[i]) {
        assert Lower(a[i]) == KeyOf(a)[i] == KeyOf(b)[i] == Lower(b[i]);
      }
    }
  }

  /**
   * Outside ASCII both directions fail: two names that fold under different keys, twice, and one key for two names
   * that do not fold.
   */
  lemma NonAsciiIncompatible()
    ensures EqualFold([LONG_S], "s") && KeyOf([LONG_S]) != KeyOf("s")
    ensures EqualFold([FINAL_SIGMA], [SIGMA]) && KeyOf([FINAL_SIGMA]) != KeyOf([SIGMA])
    ensures !EqualFold([DOTTED_I], "i") && KeyOf([DOTTED_I]) == KeyOf("i")
  {
    assert Map(Fold, [LONG_S]) == "s" == Map(Fold, "s");
    assert Map(Fold, [FINAL_SIGMA]) == [SIGMA] == Map(Fold, [SIGMA]);
    assert KeyOf([LONG_S])[0] != KeyOf("s")[0];
    assert KeyOf([FINAL_SIGMA])[0] != KeyOf([SIGMA])[0];
    assert Map(Fold, [DOTTED_I])[0] != Map(Fold, "i")[0];
    assert KeyOf([DOTTED_I]) == "i" == KeyOf("i");
  }
}
