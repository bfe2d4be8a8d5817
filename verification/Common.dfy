/** What several components share. */
module Common {
  datatype Option<+T> = None | Some(value: T)

  // uint32_t
  const WORDS := 0x1_0000_0000

  type Word = w: nat | w < WORDS

  lemma WrapAdds(a: nat, n: nat)
    ensures (a % WORDS + n) % WORDS == (a + n) % WORDS
  {
  }
}
