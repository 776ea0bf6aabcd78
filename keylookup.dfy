/** The batch lookup behind listOfKundeForKeys, listOfAuftragForKeys and
    listOfSchlagwortForKeys: fold duplicate keys, scan the collection in
    order, take every element whose key is still wanted, consume that key,
    and stop once no key is left. The collection is given together with the
    key of each element (ks[i] is the key of all[i]). */
module KeyLookup {
  import opened Seqs

  /** The positions the lookup takes, in increasing order: each position whose
      key is wanted and does not occur at an earlier position. */
  function Selected(ks: seq<string>, wanted: set<string>): (idx: seq<nat>)
    ensures forall j :: 0 <= j < |idx| ==> idx[j] < |ks|
    ensures forall j, k :: 0 <= j < k < |idx| ==> idx[j] < idx[k]
  {
    if |ks| == 0 then []
    else
      var front := ks[..|ks| - 1];
      if ks[|ks| - 1] in wanted && ks[|ks| - 1] !in front then
        Selected(front, wanted) + [|ks| - 1]
      else
        Selected(front, wanted)
  }

  /** A position is taken exactly when its key is wanted and has not occurred before it. */
  lemma {:induction false} SelectedMembers(ks: seq<string>, wanted: set<string>, p: int)
    ensures p in Selected(ks, wanted) <==> 0 <= p < |ks| && ks[p] in wanted && ks[p] !in ks[..p]
  {
    if |ks| > 0 {
      var front := ks[..|ks| - 1];
      SelectedMembers(front, wanted, p);
      if 0 <= p < |front| {
        assert ks[..p] == front[..p];
      }
      if p == |ks| - 1 {
        assert ks[..p] == front;
      }
    }
  }

  /** The elements at the given positions, in that order. */
  function Gather<T>(all: seq<T>, idx: seq<nat>): (r: seq<T>)
    requires forall j :: 0 <= j < |idx| ==> idx[j] < |all|
    ensures |r| == |idx|
    ensures forall j :: 0 <= j < |idx| ==> r[j] == all[idx[j]]
  {
    if |idx| == 0 then [] else [all[idx[0]]] + Gather(all, idx[1..])
  }

  /** No key is taken twice. */
  lemma SelectedKeysDistinct(ks: seq<string>, wanted: set<string>, idx: seq<nat>)
    requires idx == Selected(ks, wanted)
    ensures forall j, k :: 0 <= j < k < |idx| ==> ks[idx[j]] != ks[idx[k]]
  {
    forall j, k | 0 <= j < k < |idx| ensures ks[idx[j]] != ks[idx[k]] {
      SelectedMembers(ks, wanted, idx[k]);
      assert idx[k] in idx;
      assert ks[idx[j]] == ks[..idx[k]][idx[j]];
    }
  }

  /** The keys of the taken positions, in order. */
  function KeysAt(ks: seq<string>, idx: seq<nat>): (r: seq<string>)
    requires forall j :: 0 <= j < |idx| ==> idx[j] < |ks|
    ensures |r| == |idx| && forall j :: 0 <= j < |idx| ==> r[j] == ks[idx[j]]
  {
    Gather(ks, idx)
  }

  /** The lookup never returns more elements than there are distinct wanted keys. */
  lemma SelectedBound(ks: seq<string>, wanted: set<string>)
    ensures |Selected(ks, wanted)| <= |wanted|
  {
    var idx := Selected(ks, wanted);
    var keys := KeysAt(ks, idx);
    SelectedKeysDistinct(ks, wanted, idx);
    forall j, k | 0 <= j < k < |keys| ensures keys[j] != keys[k] {
      assert keys[j] == ks[idx[j]] && keys[k] == ks[idx[k]];
    }
    DistinctCard(keys);
    forall x | x in Elems(keys) ensures x in wanted {
      var j :| 0 <= j < |keys| && keys[j] == x;
      SelectedMembers(ks, wanted, idx[j]);
      assert idx[j] in idx;
    }
    CardMono(Elems(keys), wanted);
  }

  lemma CardMono<T>(a: set<T>, b: set<T>)
    requires a <= b
    ensures |a| <= |b|
  {
    assert b == a + (b - a);
  }

  /** No wanted keys, no elements. */
  lemma {:induction false} NothingWanted(ks: seq<string>)
    ensures Selected(ks, {}) == []
  {
    if |ks| > 0 {
      NothingWanted(ks[..|ks| - 1]);
    }
  }

  /** Once every wanted key has occurred, later positions add nothing. */
  lemma {:induction false} SelectedStable(ks: seq<string>, n: nat, wanted: set<string>)
    requires n <= |ks| && wanted <= Elems(ks[..n])
    ensures Selected(ks, wanted) == Selected(ks[..n], wanted)
    decreases |ks|
  {
    if |ks| > n {
      var front := ks[..|ks| - 1];
      assert front[..n] == ks[..n];
      SelectedStable(front, n, wanted);
      var x := ks[|ks| - 1];
      if x in wanted {
        var p :| 0 <= p < n && ks[p] == x;
        assert front[p] == x;
      }
    } else {
      assert ks[..n] == ks;
    }
  }

  /** Extending the scanned prefix by one position. */
  lemma SelectedStep(ks: seq<string>, i: nat, wanted: set<string>)
    requires i < |ks|
    ensures Selected(ks[..i + 1], wanted) ==
      Selected(ks[..i], wanted) + (if ks[i] in wanted && ks[i] !in ks[..i] then [i] else [])
  {
    assert ks[..i + 1][..i] == ks[..i];
  }

  /** One position of the scan: the folded key list and the result keep
      describing the scanned prefix. */
  lemma ScanStep<T>(all: seq<T>, ks: seq<string>, i: nat, wanted: set<string>, keys: seq<string>, found: seq<T>)
    requires |ks| == |all| && i < |ks|
    requires NoDuplicates(keys) && Elems(keys) == wanted - Elems(ks[..i])
    requires found == Gather(all, Selected(ks[..i], wanted))
    ensures ks[i] in keys ==>
      && NoDuplicates(RemoveOne(keys, ks[i]))
      && Elems(RemoveOne(keys, ks[i])) == wanted - Elems(ks[..i + 1])
      && found + [all[i]] == Gather(all, Selected(ks[..i + 1], wanted))
    ensures ks[i] !in keys ==>
      && Elems(keys) == wanted - Elems(ks[..i + 1])
      && found == Gather(all, Selected(ks[..i + 1], wanted))
  {
    SelectedStep(ks, i, wanted);
    assert Elems(ks[..i + 1]) == Elems(ks[..i]) + {ks[i]} by {
      assert ks[..i + 1] == ks[..i] + [ks[i]];
    }
    var before := Selected(ks[..i], wanted);
    assert ks[i] in Elems(ks[..i]) <==> ks[i] in ks[..i];
    assert ks[i] in Elems(keys) <==> ks[i] in keys;
    if ks[i] in keys {
      assert Gather(all, before + [i]) == Gather(all, before) + [all[i]];
      RemoveOneDistinct(keys, ks[i]);
    }
  }

  /** The loop of listOf...ForKeys; keyList is the caller's list, which the
      source folds and consumes as a local copy. */
  method ListForKeys<T>(all: seq<T>, ks: seq<string>, keyList: seq<string>) returns (found: seq<T>)
    requires |ks| == |all|
    ensures found == Gather(all, Selected(ks, Elems(keyList)))
  {
    ghost var wanted := Elems(keyList);
    var keys := RemoveDuplicates(keyList);
    found := [];
    if |keys| == 0 {
      assert Elems(keys) == {};
      NothingWanted(ks);
      return;
    }
    var i := 0;
    while i < |all|
      invariant 0 <= i <= |all|
      invariant NoDuplicates(keys) && Elems(keys) == wanted - Elems(ks[..i])
      invariant found == Gather(all, Selected(ks[..i], wanted))
    {
      ScanStep(all, ks, i, wanted, keys, found);
      if ks[i] in keys {
        found := found + [all[i]];
        keys := RemoveOne(keys, ks[i]);
        if |keys| == 0 {
          SelectedStable(ks, i + 1, wanted);
          return;
        }
      }
      i := i + 1;
    }
    assert ks[..i] == ks;
  }
}
