/** The citation chips under an agent message: two or three of Leonardo's four
    codices, in a random order. The two random draws are parameters. */
module Citations {

  /** A codex a citation chip names (the chip's icon glyph is not modelled). */
  datatype Source = Source(name: string)

  /** The four fixed sources, in the order they are listed. */
  const Sources: seq<Source> := [
    Source("Codex Atlanticus"),
    Source("Codex Leicester"),
    Source("Windsor Manuscripts"),
    Source("Codex Madrid I")
  ]

  predicate Distinct(s: seq<Source>) {
    forall i, j :: 0 <= i < j < |s| ==> s[i] != s[j]
  }

  /** A possible outcome of sorting the sources with a random comparator:
      whatever order the sort settles on, it is a rearrangement of the four. */
  predicate IsShuffle(order: seq<Source>) {
    multiset(order) == multiset(Sources)
  }

  /** The outcome of the two random draws of one selection: the shuffled order,
      and the `Math.random()` value that decides how many chips are kept. */
  datatype Draw = Draw(order: seq<Source>, coin: real)

  predicate ValidDraw(d: Draw) {
    IsShuffle(d.order) && 0.0 <= d.coin < 1.0
  }

  /** `Math.floor(Math.random() * 2) + 2`. */
  function ChipCount(coin: real): int {
    (coin * 2.0).Floor + 2
  }

  /** Two or three different sources, each one of the four. */
  predicate ValidSelection(sel: seq<Source>) {
    2 <= |sel| <= 3 && Distinct(sel) && forall i :: 0 <= i < |sel| ==> sel[i] in Sources
  }

  /** In a sequence without repeats an element occurs at most once. */
  lemma {:induction false} DistinctCount(s: seq<Source>, x: Source)
    requires Distinct(s)
    ensures multiset(s)[x] == if x in s then 1 else 0
  {
    if s != [] {
      assert s == [s[0]] + s[1..];
      DistinctCount(s[1..], x);
      assert s[0] !in s[1..] by {
        forall k | 0 <= k < |s[1..]| ensures s[1..][k] != s[0] {
          assert s[1..][k] == s[k + 1];
        }
      }
    }
  }

  /** An element at two positions occurs at least twice. */
  lemma RepeatCount(s: seq<Source>, i: int, j: int)
    requires 0 <= i < j < |s| && s[i] == s[j]
    ensures multiset(s)[s[i]] >= 2
  {
    assert s == s[..i] + [s[i]] + s[i + 1..j] + [s[j]] + s[j + 1..];
  }

  /** A shuffle holds each of the four sources exactly once. */
  lemma ShuffleFacts(order: seq<Source>)
    requires IsShuffle(order)
    ensures |order| == |Sources| && Distinct(order)
    ensures forall x :: x in order <==> x in Sources
  {
    assert |order| == |multiset(order)| == |multiset(Sources)| == |Sources|;
    forall x ensures x in order <==> x in Sources {
      assert x in order <==> x in multiset(order);
      assert x in Sources <==> x in multiset(Sources);
    }
    forall i, j | 0 <= i < j < |order| ensures order[i] != order[j] {
      if order[i] == order[j] {
        RepeatCount(order, i, j);
      }
    }
  }

  /** The chips kept: the first two or three sources of the shuffled order. */
  function Select(d: Draw): (sel: seq<Source>)
    requires ValidDraw(d)
    ensures ValidSelection(sel)
    ensures |sel| == 2 <==> d.coin < 0.5
  {
    ShuffleFacts(d.order);
    d.order[..ChipCount(d.coin)]
  }

  /** The sources of `s` that are not in `taken`, in their order in `s`. */
  function Without(s: seq<Source>, taken: seq<Source>): (r: seq<Source>)
    ensures forall x :: x in r <==> x in s && x !in taken
    ensures Distinct(s) ==> Distinct(r)
  {
    if s == [] then []
    else
      var rest := Without(s[1..], taken);
      assert Distinct(s) ==> s[0] !in s[1..] by {
        if Distinct(s) {
          forall k | 0 <= k < |s[1..]| ensures s[1..][k] != s[0] {
            assert s[1..][k] == s[k + 1];
          }
        }
      }
      (if s[0] in taken then [] else [s[0]]) + rest
  }

  /** Putting a repeat-free part of a repeat-free sequence first, followed by
      the rest of it, rearranges the sequence. */
  lemma ComplementRearranges(all: seq<Source>, sel: seq<Source>)
    requires Distinct(all) && Distinct(sel)
    requires forall i :: 0 <= i < |sel| ==> sel[i] in all
    ensures multiset(sel + Without(all, sel)) == multiset(all)
  {
    var rest := Without(all, sel);
    forall x ensures multiset(sel + rest)[x] == multiset(all)[x] {
      DistinctCount(sel, x);
      DistinctCount(rest, x);
      DistinctCount(all, x);
    }
  }

  lemma SourcesDistinct()
    ensures Distinct(Sources)
  {}

  /** A valid selection followed by the sources it leaves out is a shuffle. */
  lemma CompletedSelectionIsShuffle(sel: seq<Source>)
    requires ValidSelection(sel)
    ensures IsShuffle(sel + Without(Sources, sel))
  {
    SourcesDistinct();
    ComplementRearranges(Sources, sel);
  }

  /** A shuffle that starts with `sel`, with a coin that keeps `|sel|` chips,
      selects `sel`. */
  lemma SelectsPrefix(sel: seq<Source>, order: seq<Source>)
    requires ValidSelection(sel) && IsShuffle(order) && order[..|sel|] == sel
    ensures exists d :: ValidDraw(d) && Select(d) == sel
  {
    var coin := if |sel| == 2 then 0.0 else 0.5;
    assert ValidDraw(Draw(order, coin)) && Select(Draw(order, coin)) == sel;
  }

  /** Every choice of two or three different sources, in any order, is a
      possible selection: the random draws can produce exactly these. */
  lemma SelectionReachable(sel: seq<Source>)
    requires ValidSelection(sel)
    ensures exists d :: ValidDraw(d) && Select(d) == sel
  {
    var order := sel + Without(Sources, sel);
    CompletedSelectionIsShuffle(sel);
    assert order[..|sel|] == sel;
    SelectsPrefix(sel, order);
  }
}
