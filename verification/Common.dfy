/** What the models share. */
module Common {

  /** A value the source types as `T | null` or `T | undefined`. */
  datatype Option<+T> = None | Some(value: T)

  /** Stated for any element type, so that no proof about sequences of texts has to look inside the texts. */
  lemma Associate<T>(a: seq<T>, b: seq<T>, c: seq<T>)
    ensures (a + b) + c == a + (b + c)
  {
  }

  /**
   * What is said of whatever equals a number is said of the number, but stays folded until `Of` is asked of
   * it. Definitions that many proofs only pass on are written that way.
   */
  predicate Of(n: int) {
    true
  }

  predicate StartsWith(s: string, prefix: string) {
    |prefix| <= |s| && s[..|prefix|] == prefix
  }

  predicate IsAlphanumeric(c: char) {
    'A' <= c <= 'Z' || 'a' <= c <= 'z' || '0' <= c <= '9'
  }

  /** A number as it is printed. */
  function Digits(n: nat): string {
    if n < 10 then [('0' as int + n) as char] else Digits(n / 10) + [('0' as int + n % 10) as char]
  }
}
