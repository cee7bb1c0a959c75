/** Go strings and byte slices: sequences of 8-bit characters. */
module ByteStrings {
  type Byte = c: char | c as int < 256 witness 'a'

  type Bytes = seq<Byte>

  datatype Option<+T> = None | Some(value: T)

  lemma Inhabited(keys: set<int>)
    ensures keys != {} ==> exists k :: k in keys
  {
    if !exists k :: k in keys {
      assert keys == {};
    }
  }
}
