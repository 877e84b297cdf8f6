/** What the demand map is: the last write at each instance name wins, and the map pairs the flattened
    pod replicas with the names position by position exactly when each item starts at its own index. */
module Demand {
  import opened GoPrimitives
  import opened Model

  // ----- the names -----

  /** The AppWrapper's label lists these instance names, with underscores in between. */
  predicate Names(aw: AppWrapper, names: seq<string>) {
    && |names| > 0 && (forall i | 0 <= i < |names| :: '_' !in names[i])
    && "orderedinstance" in aw.labels && aw.labels["orderedinstance"] == Join(names, '_')
  }

  lemma NamesAreRead(aw: AppWrapper, names: seq<string>)
    requires Names(aw, names)
    ensures InstanceRequired(aw.labels) == names
  {
    SplitInvertsJoin(names, '_');
  }

  /** Every label lists some names, just one list of them. */
  lemma EveryLabelNames(aw: AppWrapper)
    requires "orderedinstance" in aw.labels
    ensures Names(aw, InstanceRequired(aw.labels))
    ensures forall names | Names(aw, names) :: names == InstanceRequired(aw.labels)
  {
    var text := aw.labels["orderedinstance"];
    JoinInvertsSplit(text, '_');
    PartsArePlain(text, '_');
    forall names | Names(aw, names)
      ensures names == InstanceRequired(aw.labels)
    {
      NamesAreRead(aw, names);
    }
  }

  lemma {:induction false} PartsArePlain(s: string, sep: char)
    ensures forall i | 0 <= i < |Split(s, sep)| :: sep !in Split(s, sep)[i]
  {
    if s != [] {
      PartsArePlain(s[1..], sep);
      var rest := Split(s[1..], sep);
      assert sep !in rest[0];
    }
  }

  /** Without the label nothing is demanded. */
  lemma NoLabelNoDemand(aw: AppWrapper)
    requires "orderedinstance" !in aw.labels
    ensures DemandOf(aw) == map[]
  {
    forall t | t in DemandOf(aw)
      ensures false
    {
      ItemsLastWrite([], aw.items, |aw.items|, t);
    }
  }

  // ----- the last write wins -----

  /** Pod template j of item i is written under name t. */
  predicate Writes(names: seq<string>, items: seq<seq<int>>, i: int, j: int, t: string) {
    0 <= i < |items| && 0 <= j < |items[i]| && i + j < |names| && names[i + j] == t
  }

  /** The last position, in the order of the loops, that writes t. */
  ghost predicate LastWrite(names: seq<string>, items: seq<seq<int>>, i: int, j: int, t: string) {
    && Writes(names, items, i, j, t)
    && forall i', j' | Writes(names, items, i', j', t) :: i' < i || (i' == i && j' <= j)
  }

  /** Among the first n pod templates of `pods`, as item `item`. */
  lemma {:induction false} PodsLastWrite(base: map<string, int>, names: seq<string>, pods: seq<int>, item: nat,
        n: nat, t: string)
    requires n <= |pods|
    ensures var m := AddPods(base, names, pods, item, n);
            (exists j :: LastPodWrite(names, pods, item, n, j, t) && t in m && m[t] == pods[j])
            || ((forall j :: !PodWrites(names, pods, item, n, j, t)) && (t in m <==> t in base)
                && (t in base ==> m[t] == base[t]))
  {
    if n > 0 {
      PodsLastWrite(base, names, pods, item, n - 1, t);
      if n - 1 + item < |names| && names[n - 1 + item] == t {
        assert LastPodWrite(names, pods, item, n, n - 1, t);
      } else {
        var k := n - 1;
        assert forall j :: PodWrites(names, pods, item, n, j, t) <==> PodWrites(names, pods, item, k, j, t);
        assert forall j :: LastPodWrite(names, pods, item, n, j, t) <==> LastPodWrite(names, pods, item, k, j, t);
      }
    }
  }

  predicate PodWrites(names: seq<string>, pods: seq<int>, item: nat, n: nat, j: int, t: string)
    requires n <= |pods|
  {
    0 <= j < n && item + j < |names| && names[item + j] == t
  }

  ghost predicate LastPodWrite(names: seq<string>, pods: seq<int>, item: nat, n: nat, j: int, t: string)
    requires n <= |pods|
  {
    PodWrites(names, pods, item, n, j, t) && forall j' | PodWrites(names, pods, item, n, j', t) :: j' <= j
  }

  lemma {:induction false} ItemsLastWrite(names: seq<string>, items: seq<seq<int>>, n: nat, t: string)
    requires n <= |items|
    ensures var m := AddItems(names, items, n);
            (exists i, j :: i < n && LastWrite(names, items[..n], i, j, t) && t in m && m[t] == items[i][j])
            || ((forall i, j :: !Writes(names, items[..n], i, j, t)) && t !in m)
  {
    if n > 0 {
      ItemsLastWrite(names, items, n - 1, t);
      var k, before, now := n - 1, items[..n - 1], items[..n];
      var pods := items[k];
      PodsLastWrite(AddItems(names, items, k), names, pods, k, |pods|, t);
      assert forall i, j :: Writes(names, now, i, j, t) <==>
        Writes(names, before, i, j, t) || (i == k && PodWrites(names, pods, k, |pods|, j, t));
      if j :| LastPodWrite(names, pods, k, |pods|, j, t) {
        assert LastWrite(names, now, k, j, t);
      } else if i, j :| LastWrite(names, before, i, j, t) {
        assert LastWrite(names, now, i, j, t);
      }
    }
  }

  /** The demand map: t is demanded if and only if some pod template is written under it, and its value is
      that of the last one. */
  lemma LastWriterWins(aw: AppWrapper, names: seq<string>, t: string)
    requires Names(aw, names)
    ensures t in DemandOf(aw) <==> exists i, j :: Writes(names, aw.items, i, j, t)
    ensures forall i, j | LastWrite(names, aw.items, i, j, t) ::
              t in DemandOf(aw) && DemandOf(aw)[t] == aw.items[i][j]
  {
    NamesAreRead(aw, names);
    ItemsLastWrite(names, aw.items, |aw.items|, t);
    assert aw.items[..|aw.items|] == aw.items;
  }

  // ----- positional pairing -----

  function Flatten(items: seq<seq<int>>): seq<int> {
    if items == [] then [] else Flatten(items[..|items| - 1]) + items[|items| - 1]
  }

  /** The number of pod templates before item i. */
  function Offset(items: seq<seq<int>>, i: nat): nat
    requires i <= |items|
  {
    if i == 0 then 0 else Offset(items, i - 1) + |items[i - 1]|
  }

  lemma {:induction false} FlattenedLength(items: seq<seq<int>>, i: nat)
    requires i <= |items|
    ensures |Flatten(items[..i])| == Offset(items, i)
  {
    if i > 0 {
      FlattenedLength(items, i - 1);
      assert items[..i][..i - 1] == items[..i - 1];
    }
  }

  predicate Distinct(names: seq<string>) {
    forall a, b | 0 <= a < |names| && 0 <= b < |names| && names[a] == names[b] :: a == b
  }

  function Pairing(names: seq<string>, values: seq<int>, n: nat): map<string, int>
    requires n <= |values| && n <= |names|
  {
    if n == 0 then map[] else Pairing(names, values, n - 1)[names[n - 1] := values[n - 1]]
  }

  /** Every item that has pod templates starts at its own index: as many pod templates as items lie before it. */
  predicate Aligned(items: seq<seq<int>>) {
    forall i | 0 <= i < |items| && items[i] != [] :: Offset(items, i) == i
  }

  // ----- aligned items are paired -----

  lemma {:induction false} PodsExtendPairing(names: seq<string>, flat: seq<int>, pods: seq<int>, at: nat, n: nat)
    requires n <= |pods| && at + |pods| <= |flat| && |flat| <= |names|
    requires flat[at..at + |pods|] == pods
    ensures AddPods(Pairing(names, flat, at), names, pods, at, n) == Pairing(names, flat, at + n)
  {
    if n > 0 {
      PodsExtendPairing(names, flat, pods, at, n - 1);
      assert flat[at + n - 1] == flat[at..at + |pods|][n - 1];
    }
  }

  lemma TailOf(a: seq<int>, b: seq<int>)
    ensures (a + b)[|a|..|a| + |b|] == b
  {
  }

  lemma {:induction false} FlattenPart(items: seq<seq<int>>, i: nat)
    requires i < |items|
    ensures Offset(items, i) + |items[i]| <= |Flatten(items)|
    ensures Flatten(items)[Offset(items, i)..Offset(items, i) + |items[i]|] == items[i]
    decreases |items|
  {
    var n := |items| - 1;
    var rest := items[..n];
    FlattenedLength(items, n);
    assert Flatten(items) == Flatten(rest) + items[n];
    if i == n {
      TailOf(Flatten(rest), items[n]);
    } else {
      OffsetOfPrefix(items, n, i);
      FlattenPart(rest, i);
      var lo, hi := Offset(items, i), Offset(items, i) + |items[i]|;
      assert Flatten(items)[lo..hi] == Flatten(rest)[lo..hi];
    }
  }

  lemma {:induction false} OffsetOfPrefix(items: seq<seq<int>>, n: nat, i: nat)
    requires i <= n <= |items|
    ensures Offset(items[..n], i) == Offset(items, i)
  {
    if i > 0 {
      OffsetOfPrefix(items, n, i - 1);
    }
  }

  lemma {:induction false} OffsetsGrow(items: seq<seq<int>>, i: nat, n: nat)
    requires i <= n <= |items|
    ensures Offset(items, i) <= Offset(items, n)
  {
    if i < n {
      OffsetsGrow(items, i, n - 1);
    }
  }

  lemma {:induction false} AlignedIsPaired(names: seq<string>, items: seq<seq<int>>, n: nat)
    requires n <= |items| && Aligned(items) && |Flatten(items)| <= |names|
    ensures Offset(items, n) <= |Flatten(items)|
    ensures AddItems(names, items, n) == Pairing(names, Flatten(items), Offset(items, n))
  {
    FlattenedLength(items, |items|);
    assert items[..|items|] == items;
    OffsetsGrow(items, n, |items|);
    if n > 0 {
      AlignedIsPaired(names, items, n - 1);
      OneMoreItem(names, items, n - 1);
    }
  }

  lemma OneMoreItem(names: seq<string>, items: seq<seq<int>>, i: nat)
    requires i < |items| && Aligned(items) && |Flatten(items)| <= |names|
    requires Offset(items, i + 1) <= |Flatten(items)|
    requires AddItems(names, items, i) == Pairing(names, Flatten(items), Offset(items, i))
    ensures AddItems(names, items, i + 1) == Pairing(names, Flatten(items), Offset(items, i + 1))
  {
    if items[i] != [] {
      FlattenPart(items, i);
      PodsExtendPairing(names, Flatten(items), items[i], i, |items[i]|);
    }
  }

  // ----- paired items are aligned -----

  /** Writing n pod templates adds at most n names, and fewer if the first one is there already. */
  lemma {:induction false} PodsAddNames(base: map<string, int>, names: seq<string>, pods: seq<int>, item: nat, n: nat)
    requires n <= |pods|
    ensures |AddPods(base, names, pods, item, n)| <= |base| + n
    ensures base.Keys <= AddPods(base, names, pods, item, n).Keys
    ensures n > 0 && item < |names| && names[item] in base ==> |AddPods(base, names, pods, item, n)| < |base| + n
  {
    if n > 0 {
      PodsAddNames(base, names, pods, item, n - 1);
      var m := AddPods(base, names, pods, item, n - 1);
      if n - 1 + item < |names| {
        OneNameMore(m, names[n - 1 + item], pods[n - 1]);
      }
    }
  }

  lemma OneNameMore(m: map<string, int>, t: string, v: int)
    ensures |m[t := v]| == |m| + if t in m then 0 else 1
  {
    if t in m {
      assert m[t := v].Keys == m.Keys;
    } else {
      assert m[t := v].Keys == m.Keys + {t};
    }
  }

  lemma {:induction false} ItemsAddNames(names: seq<string>, items: seq<seq<int>>, i: nat, n: nat)
    requires i <= n <= |items|
    ensures |AddItems(names, items, n)| - |AddItems(names, items, i)| <= Offset(items, n) - Offset(items, i)
    decreases n
  {
    if i < n {
      ItemsAddNames(names, items, i, n - 1);
      PodsAddNames(AddItems(names, items, n - 1), names, items[n - 1], n - 1, |items[n - 1]|);
    }
  }

  /** Names before position i are not written by item i or a later one. */
  lemma {:induction false} EarlierNamesUntouched(names: seq<string>, items: seq<seq<int>>, i: nat, n: nat, p: nat)
    requires i <= n <= |items| && p < i && p < |names| && Distinct(names)
    ensures names[p] in AddItems(names, items, n) <==> names[p] in AddItems(names, items, i)
    decreases n
  {
    if i < n {
      EarlierNamesUntouched(names, items, i, n - 1, p);
      PodsLastWrite(AddItems(names, items, n - 1), names, items[n - 1], n - 1, |items[n - 1]|, names[p]);
    }
  }

  lemma {:induction false} PairingNames(names: seq<string>, values: seq<int>, n: nat)
    requires n <= |values| && n <= |names| && Distinct(names)
    ensures forall t :: t in Pairing(names, values, n) <==> t in names[..n]
    ensures |Pairing(names, values, n)| == n
  {
    if n > 0 {
      PairingNames(names, values, n - 1);
      assert names[..n] == names[..n - 1] + [names[n - 1]];
      assert names[n - 1] !in names[..n - 1];
      OneNameMore(Pairing(names, values, n - 1), names[n - 1], values[n - 1]);
    }
  }

  /** The first item out of place spoils the pairing. */
  lemma FirstMisalignedSpoils(names: seq<string>, items: seq<seq<int>>, i: nat)
    requires Distinct(names) && |Flatten(items)| <= |names|
    requires i < |items| && items[i] != [] && Offset(items, i) != i && Aligned(items[..i])
    ensures AddItems(names, items, |items|) != Pairing(names, Flatten(items), |Flatten(items)|)
  {
    var total := |Flatten(items)|;
    var flat := Flatten(items);
    FlattenPart(items, i);
    FlattenedLength(items, |items|);
    assert items[..|items|] == items;
    PairingNames(names, flat, total);
    PrefixIsPaired(names, items, i);
    var at := Offset(items, i);
    PairingNames(names, Flatten(items[..i]), at);
    if at < i {
      EarlierNamesUntouched(names, items, i, |items|, at);
      assert names[at] in names[..total];
      assert names[at] !in names[..at];
    } else {
      assert names[i] in names[..at];
      PodsAddNames(AddItems(names, items, i), names, items[i], i, |items[i]|);
      ItemsAddNames(names, items, i + 1, |items|);
    }
  }

  /** The items before i, on their own, are paired. */
  lemma PrefixIsPaired(names: seq<string>, items: seq<seq<int>>, i: nat)
    requires i <= |items| && Aligned(items[..i]) && Offset(items, i) <= |names|
    ensures |Flatten(items[..i])| == Offset(items, i)
    ensures AddItems(names, items, i) == Pairing(names, Flatten(items[..i]), Offset(items, i))
  {
    FlattenedLength(items, i);
    AlignedIsPaired(names, items[..i], i);
    OffsetOfPrefix(items, i, i);
    ItemsOfPrefix(names, items, i, i);
  }

  lemma {:induction false} ItemsOfPrefix(names: seq<string>, items: seq<seq<int>>, n: nat, i: nat)
    requires i <= n <= |items|
    ensures AddItems(names, items[..n], i) == AddItems(names, items, i)
  {
    if i > 0 {
      ItemsOfPrefix(names, items, n, i - 1);
    }
  }

  lemma {:induction false} FirstMisaligned(items: seq<seq<int>>, n: nat) returns (i: nat)
    requires n <= |items| && !Aligned(items[..n])
    ensures i < n && items[i] != [] && Offset(items, i) != i && Aligned(items[..i])
  {
    if Aligned(items[..n - 1]) {
      i := n - 1;
      OffsetsOfPrefixes(items, n);
    } else {
      i := FirstMisaligned(items, n - 1);
    }
  }

  lemma OffsetsOfPrefixes(items: seq<seq<int>>, n: nat)
    requires 0 < n <= |items| && Aligned(items[..n - 1]) && !Aligned(items[..n])
    ensures items[n - 1] != [] && Offset(items, n - 1) != n - 1
  {
    forall i | 0 <= i < n
      ensures Offset(items[..n], i) == Offset(items, i)
      ensures i < n - 1 ==> Offset(items[..n - 1], i) == Offset(items, i)
    {
      OffsetOfPrefix(items, n, i);
      if i < n - 1 {
        OffsetOfPrefix(items, n - 1, i);
      }
    }
  }

  /** The demand pairs the pod templates of all items, in order, with the instance names, in order, if
      and only if every item that has pod templates starts at its own index. The names are distinct
      and suffice. */
  lemma DemandIsPairingIff(aw: AppWrapper, names: seq<string>)
    requires Names(aw, names) && Distinct(names) && |Flatten(aw.items)| <= |names|
    ensures DemandOf(aw) == Pairing(names, Flatten(aw.items), |Flatten(aw.items)|) <==> Aligned(aw.items)
  {
    NamesAreRead(aw, names);
    var items := aw.items;
    FlattenedLength(items, |items|);
    assert items[..|items|] == items;
    if Aligned(items) {
      AlignedIsPaired(names, items, |items|);
    } else {
      var i := FirstMisaligned(items, |items|);
      FirstMisalignedSpoils(names, items, i);
    }
  }

  /** One pod template per item, or one item: the cases the samples use. */
  lemma OrdinaryItemsAreAligned(items: seq<seq<int>>)
    requires |items| <= 1 || forall i | 0 <= i < |items| :: |items[i]| == 1
    ensures Aligned(items)
  {
    forall i | 0 <= i < |items| && items[i] != []
      ensures Offset(items, i) == i
    {
      if |items| > 1 {
        OnesCount(items, i);
      }
    }
  }

  lemma {:induction false} OnesCount(items: seq<seq<int>>, i: nat)
    requires i <= |items| && forall j | 0 <= j < |items| :: |items[j]| == 1
    ensures Offset(items, i) == i
  {
    if i > 0 {
      OnesCount(items, i - 1);
    }
  }

  /** Two pod templates in the first of two items are out of place: the second item overwrites the second
      template's entry, and the third name is not demanded. */
  lemma TwoPodsThenOne()
    ensures !Aligned([[1, 2], [3]])
    ensures AddItems(["a", "b", "c"], [[1, 2], [3]], 2) == map["a" := 1, "b" := 3]
  {
    var items, names := [[1, 2], [3]], ["a", "b", "c"];
    assert Offset(items, 1) == Offset(items, 0) + |items[0]| == 2;
    assert AddPods(map[], names, [1, 2], 0, 1) == map["a" := 1];
    assert AddPods(map[], names, [1, 2], 0, 2) == map["a" := 1, "b" := 2];
    assert AddItems(names, items, 1) == map["a" := 1, "b" := 2];
    assert AddPods(AddItems(names, items, 1), names, [3], 1, 1) == map["a" := 1, "b" := 3];
  }
}
