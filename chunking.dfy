/** `utils.chunks`: the reordered request list cut into consecutive groups of
    `size` elements, the last group possibly shorter. */
module Chunking {

  function Flatten<T>(cs: seq<seq<T>>): seq<T>
  {
    if cs == [] then [] else Flatten(cs[..|cs| - 1]) + cs[|cs| - 1]
  }

  lemma {:induction false} FlattenCons<T>(c: seq<T>, cs: seq<seq<T>>)
    ensures Flatten([c] + cs) == c + Flatten(cs)
  {
    if cs != [] {
      assert ([c] + cs)[..|cs|] == [c] + cs[..|cs| - 1];
      FlattenCons(c, cs[..|cs| - 1]);
    }
  }

  function Chunks<T>(s: seq<T>, size: nat): (r: seq<seq<T>>)
    requires size >= 1
    ensures Flatten(r) == s
    ensures forall c :: 0 <= c < |r| ==> 1 <= |r[c]| <= size
    ensures forall c :: 0 <= c < |r| - 1 ==> |r[c]| == size
    decreases |s|
  {
    if s == [] then []
    else if |s| <= size then
      assert Flatten([s]) == Flatten([]) + s;
      [s]
    else
      var rest := Chunks(s[size..], size);
      FlattenCons(s[..size], rest);
      assert s == s[..size] + s[size..];
      [s[..size]] + rest
  }

  /** Each group is a contiguous slice of the flattened list, starting where the groups
      before it end. */
  lemma {:induction false} FlattenSlice<T>(cs: seq<seq<T>>, c: nat)
    requires c < |cs|
    ensures |Flatten(cs[..c])| + |cs[c]| <= |Flatten(cs)|
    ensures cs[c] == Flatten(cs)[|Flatten(cs[..c])| .. |Flatten(cs[..c])| + |cs[c]|]
  {
    var init := cs[..|cs| - 1];
    if c < |cs| - 1 {
      FlattenSlice(init, c);
      assert init[..c] == cs[..c];
      assert Flatten(cs) == Flatten(init) + cs[|cs| - 1];
    } else {
      assert init == cs[..c];
    }
  }
}
