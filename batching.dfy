/**
 * The batches of `processSearchResults` (content.js:222-226): the cards `slice(i, i + k)`
 * for i = 0, k, 2k, ... while i is below the number of cards.
 */
module Batching {

  function Min(a: int, b: int): int {
    if a <= b then a else b
  }

  /** The concatenation of a sequence of batches. */
  function Flatten<T>(bs: seq<seq<T>>): seq<T> {
    if bs == [] then [] else bs[0] + Flatten(bs[1..])
  }

  /** The slices the loop takes, front to back. */
  function Batches<T>(s: seq<T>, k: nat): seq<seq<T>>
    requires k >= 1
    decreases |s|
  {
    if |s| == 0 then []
    else if |s| <= k then [s]
    else [s[..k]] + Batches(s[k..], k)
  }

  /** No batch is empty, each has at most `k` cards and all but the last exactly `k`. */
  lemma {:induction false} BatchesSizes<T>(s: seq<T>, k: nat)
    requires k >= 1
    ensures forall j :: 0 <= j < |Batches(s, k)| ==> 1 <= |Batches(s, k)[j]| <= k
    ensures forall j :: 0 <= j < |Batches(s, k)| - 1 ==> |Batches(s, k)[j]| == k
    ensures |s| == 0 <==> Batches(s, k) == []
    decreases |s|
  {
    if |s| > k {
      BatchesSizes(s[k..], k);
      var bs, rest := Batches(s, k), Batches(s[k..], k);
      assert bs == [s[..k]] + rest;
      forall j | 0 <= j < |bs|
        ensures 1 <= |bs[j]| <= k && (j < |bs| - 1 ==> |bs[j]| == k)
      {
        if j > 0 {
          assert bs[j] == rest[j - 1];
        }
      }
    }
  }

  /** The batches in order are the cards: each card lands in exactly one batch. */
  lemma {:induction false} BatchesFlatten<T>(s: seq<T>, k: nat)
    requires k >= 1
    ensures Flatten(Batches(s, k)) == s
    decreases |s|
  {
    if |s| > k {
      BatchesFlatten(s[k..], k);
      var bs := Batches(s, k);
      assert bs[0] == s[..k] && bs[1..] == Batches(s[k..], k);
      assert s == s[..k] + s[k..];
    } else if |s| > 0 {
      assert [s][1..] == [];
      assert s + [] == s;
    }
  }

  /** There are as many batches as `k`-card slices are needed to cover the cards: |s|/k rounded up. */
  lemma {:induction false} BatchesCount<T>(s: seq<T>, k: nat)
    requires k >= 1
    ensures (|Batches(s, k)| - 1) * k < |s| <= |Batches(s, k)| * k
    decreases |s|
  {
    if |s| > k {
      var rest := s[k..];
      assert Batches(s, k) == [s[..k]] + Batches(rest, k);
      BatchesCount(rest, k);
      var m := |Batches(rest, k)|;
      assert (m + 1) * k == m * k + k && m * k == (m - 1) * k + k;
    }
  }

  /**
   * One turn of the loop at index `i`: the batches still to come are `slice(i, i + k)`, which
   * JavaScript clamps to the end of the cards, followed by the batches from there on.
   */
  lemma BatchesFrom<T>(s: seq<T>, i: nat, k: nat)
    requires k >= 1 && i < |s|
    ensures Batches(s[i..], k) == [s[i..Min(i + k, |s|)]] + Batches(s[Min(i + k, |s|)..], k)
  {
    var t := s[i..];
    if |t| <= k {
      assert t == s[i..Min(i + k, |s|)];
      assert s[Min(i + k, |s|)..] == [];
    } else {
      assert t[..k] == s[i..i + k];
      assert t[k..] == s[i + k..];
    }
  }

  /** The loop's account of the batches handed out so far extends by the slice at `i`. */
  lemma BatchesNext<T>(s: seq<T>, i: nat, k: nat, done: seq<seq<T>>)
    requires k >= 1 && i < |s|
    requires Batches(s, k) == done + Batches(s[i..], k)
    ensures Batches(s, k) == (done + [s[i..Min(i + k, |s|)]]) + Batches(s[Min(i + k, |s|)..], k)
  {
    BatchesFrom(s, i, k);
    var b, rest := s[i..Min(i + k, |s|)], Batches(s[Min(i + k, |s|)..], k);
    assert done + ([b] + rest) == (done + [b]) + rest;
  }

  /** Appending one batch appends its cards. */
  lemma {:induction false} FlattenSnoc<T>(bs: seq<seq<T>>, b: seq<T>)
    ensures Flatten(bs + [b]) == Flatten(bs) + b
  {
    if bs == [] {
      assert [] + [b] == [b];
    } else {
      assert (bs + [b])[0] == bs[0];
      assert (bs + [b])[1..] == bs[1..] + [b];
      FlattenSnoc(bs[1..], b);
    }
  }
}
