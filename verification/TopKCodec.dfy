// Top-k prompt log-probabilities packed into dense N by K matrices (src/tuft/compat.py).
module TopKCodec {
  import opened Wrappers

  datatype Pair = Pair(tokenId: int, logprob: real)

  type Entry = Option<seq<Pair>>

  const PADDING := Pair(0, -99999.0)

  // K is the length of the first entry that is present.
  function FirstLength(topk: seq<Entry>): nat {
    if topk == [] then 0 else if topk[0].Some? then |topk[0].value| else FirstLength(topk[1..])
  }

  method ChooseK(topk: seq<Entry>) returns (k: nat)
    ensures k == FirstLength(topk)
  {
    k := 0;
    for i := 0 to |topk|
      invariant k == 0 && FirstLength(topk) == FirstLength(topk[i..])
    {
      if topk[i].Some? {
        return |topk[i].value|;
      }
      assert topk[i..][1..] == topk[i + 1..];
    }
  }

  function Pairs(e: Entry): seq<Pair> {
    if e.Some? then e.value else []
  }

  function Cell(e: Entry, j: nat): Pair {
    if j < |Pairs(e)| then Pairs(e)[j] else PADDING
  }

  // The matrices hold each entry's first K pairs, then padding; with K zero nothing is sent.
  method PackTopK(topk: seq<Entry>) returns (sent: Option<(array2<int>, array2<real>)>, k: nat)
    ensures k == FirstLength(topk)
    ensures sent == None <==> k == 0
    ensures sent.Some? ==>
              && sent.value.0.Length0 == sent.value.1.Length0 == |topk| && sent.value.0.Length1 == sent.value.1.Length1 == k
              && fresh(sent.value.0) && fresh(sent.value.1)
              && forall i, j :: 0 <= i < |topk| && 0 <= j < k ==> Pair(sent.value.0[i, j], sent.value.1[i, j]) == Cell(topk[i], j)
  {
    k := ChooseK(topk);
    if k == 0 {
      return None, k;
    }
    var n := |topk|;
    var ids := new int[n, k]((i, j) => 0);
    var logprobs := new real[n, k]((i, j) => -99999.0);
    for i := 0 to n
      invariant forall r, j :: 0 <= r < n && 0 <= j < k ==> Pair(ids[r, j], logprobs[r, j]) == if r < i then Cell(topk[r], j) else PADDING
    {
      FillRow(ids, logprobs, i, Pairs(topk[i]), topk[i]);
    }
    sent := Some((ids, logprobs));
  }

  method FillRow(ids: array2<int>, logprobs: array2<real>, i: nat, pairs: seq<Pair>, ghost e: Entry)
    requires i < ids.Length0 == logprobs.Length0 && ids.Length1 == logprobs.Length1 && pairs == Pairs(e)
    requires forall j :: 0 <= j < ids.Length1 ==> Pair(ids[i, j], logprobs[i, j]) == PADDING
    modifies ids, logprobs
    ensures forall j :: 0 <= j < ids.Length1 ==> Pair(ids[i, j], logprobs[i, j]) == Cell(e, j)
    ensures forall r, j :: 0 <= r < ids.Length0 && 0 <= j < ids.Length1 && r != i ==>
                             ids[r, j] == old(ids[r, j]) && logprobs[r, j] == old(logprobs[r, j])
  {
    var stop := if |pairs| < ids.Length1 then |pairs| else ids.Length1;
    for j := 0 to stop
      invariant forall c :: 0 <= c < ids.Length1 ==> Pair(ids[i, c], logprobs[i, c]) == if c < j then Cell(e, c) else PADDING
      invariant forall r, c :: 0 <= r < ids.Length0 && 0 <= c < ids.Length1 && r != i ==>
                                 ids[r, c] == old(ids[r, c]) && logprobs[r, c] == old(logprobs[r, c])
    {
      ids[i, j] := pairs[j].tokenId;
      logprobs[i, j] := pairs[j].logprob;
    }
  }

  // K and the cells, read off the entries.
  lemma {:induction false} FirstPresentDecides(topk: seq<Entry>, first: nat)
    requires first < |topk| && topk[first].Some? && forall i :: 0 <= i < first ==> topk[i] == None
    ensures FirstLength(topk) == |topk[first].value|
  {
    if first > 0 {
      FirstPresentDecides(topk[1..], first - 1);
    }
  }

  lemma {:induction false} NonePresent(topk: seq<Entry>)
    requires forall i :: 0 <= i < |topk| ==> topk[i] == None
    ensures FirstLength(topk) == 0
  {
    if topk != [] {
      NonePresent(topk[1..]);
    }
  }

  lemma CellSays(e: Entry, j: nat)
    ensures e.Some? && j < |e.value| ==> Cell(e, j) == e.value[j]
    ensures e.None? || j >= |e.value| ==> Cell(e, j).tokenId == 0 && Cell(e, j).logprob == -99999.0
  {
  }

  // What a reader finds in row i.
  function Row(e: Entry, k: nat): seq<Pair> {
    seq(k, j requires 0 <= j => Cell(e, j))
  }

  // Nothing is lost exactly when no entry is longer than the first one present.
  lemma LosslessExactlyWhenFirstIsLongest(topk: seq<Entry>)
    ensures (forall i :: 0 <= i < |topk| ==> Pairs(topk[i]) <= Row(topk[i], FirstLength(topk)))
              <==> forall i :: 0 <= i < |topk| ==> |Pairs(topk[i])| <= FirstLength(topk)
  {
    var k := FirstLength(topk);
    forall i | 0 <= i < |topk| && |Pairs(topk[i])| <= k
      ensures Pairs(topk[i]) <= Row(topk[i], k)
    {
      assert Row(topk[i], k)[..|Pairs(topk[i])|] == Pairs(topk[i]);
    }
  }

  // When the first entry present is empty, every entry's pairs are dropped.
  lemma {:induction false} EmptyFirstEntryDropsAll(topk: seq<Entry>, first: nat)
    requires first < |topk| && topk[first] == Some([]) && forall i :: 0 <= i < first ==> topk[i] == None
    ensures FirstLength(topk) == 0
    ensures forall i :: 0 <= i < |topk| ==> Row(topk[i], FirstLength(topk)) == []
  {
    if first > 0 {
      EmptyFirstEntryDropsAll(topk[1..], first - 1);
    }
  }

  // A pair that is lost this way.
  lemma DroppedPair()
    ensures var topk := [None, Some([]), Some([Pair(7, -0.5)])];
            Pairs(topk[2]) == [Pair(7, -0.5)] && Row(topk[2], FirstLength(topk)) == []
  {
    EmptyFirstEntryDropsAll([None, Some([]), Some([Pair(7, -0.5)])], 1);
  }
}
