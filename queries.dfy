/** The query sequencer: expands a topic list into a query list of an exact length. */
module Queries {

  /**
   * `_build_queries`: cycle through `base` until exactly `count` queries exist.
   * An empty topic list yields no queries; so does a count of zero or less.
   */
  method BuildQueries(base: seq<string>, count: int) returns (out: seq<string>)
    ensures |base| == 0 || count <= 0 ==> out == []
    ensures |base| > 0 && count >= 0 ==> |out| == count
    ensures forall i :: 0 <= i < |out| ==> out[i] == base[i % |base|]
    ensures count <= |base| ==> out == base[..if count < 0 then 0 else count]
  {
    if |base| == 0 {
      return [];
    }
    out := [];
    var i := 0;
    while |out| < count
      invariant i == |out|
      invariant forall j :: 0 <= j < |out| ==> out[j] == base[j % |base|]
      invariant count >= 0 ==> |out| <= count
      invariant count <= 0 ==> out == []
      decreases count - |out|
    {
      out := out + [base[i % |base|]];
      i := i + 1;
    }
    // `out[:count]` is the whole list here: the loop never overshoots.
    if count <= |base| {
      forall j | 0 <= j < |out| ensures out[j] == base[j] {
        SmallMod(j, |base|);
      }
    }
  }

  lemma SmallMod(j: int, n: int)
    requires 0 <= j < n
    ensures j % n == j
  {
  }
}
