/** Small helpers shared by the tokenizer, the parser and the styler. */
module Common {

  datatype Option<T> = None | Some(value: T)

  lemma AppendAssoc<T>(a: seq<T>, b: seq<T>, c: seq<T>)
    ensures (a + b) + c == a + (b + c)
  {
  }

  lemma SplitAt<T>(xs: seq<T>, i: nat)
    requires i <= |xs|
    ensures xs == xs[..i] + xs[i..]
  {
  }

  /** Python's `' '.join(words)`. */
  function JoinSpace(words: seq<string>): string
  {
    if words == [] then ""
    else if |words| == 1 then words[0]
    else words[0] + " " + JoinSpace(words[1..])
  }

  /** Every word followed by one space: the text of a word sequence, insensitive
      to how the words were grouped by single spaces. */
  function Spaced(words: seq<string>): string
  {
    if words == [] then "" else words[0] + " " + Spaced(words[1..])
  }

  lemma {:induction false} SpacedAppend(a: seq<string>, b: seq<string>)
    ensures Spaced(a + b) == Spaced(a) + Spaced(b)
  {
    if a == [] {
      assert a + b == b;
    } else {
      assert (a + b)[1..] == a[1..] + b;
      SpacedAppend(a[1..], b);
    }
  }

  /** Joining by single spaces and then adding one space is the spaced text. */
  lemma {:induction false} JoinSpaceSpaced(words: seq<string>)
    requires words != []
    ensures JoinSpace(words) + " " == Spaced(words)
  {
    if |words| > 1 {
      JoinSpaceSpaced(words[1..]);
    }
  }

  /** The same character sequence, concatenated. */
  function Concat(pieces: seq<string>): string
  {
    if pieces == [] then "" else pieces[0] + Concat(pieces[1..])
  }

  lemma ConcatCons(piece: string, pieces: seq<string>)
    ensures Concat([piece] + pieces) == piece + Concat(pieces)
  {
    assert ([piece] + pieces)[1..] == pieces;
  }
}
