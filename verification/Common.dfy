/** The option type, and two facts about concatenation, that several modules share. */
module Common {
  datatype Option<+T> = None | Some(value: T)

  lemma Associates<T>(a: seq<T>, b: seq<T>, c: seq<T>)
    ensures (a + b) + c == a + (b + c)
  {
  }

  lemma HeadFirst<T>(a: seq<T>, b: seq<T>)
    requires a != []
    ensures a + b == [a[0]] + (a[1..] + b)
    ensures (a + b)[1..] == a[1..] + b
  {
  }
}
