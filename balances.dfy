/** Assets and balances of an exchange account (balances.go).

    An Asset is a value object: its operations return new Assets.  A Balance maps asset
    names to Assets and is changed in place.  Quantities are modelled as `real`: the
    float64 rounding of the source is not modelled.
 */
module Balances {
  import opened Panics

  /** The quantity of one named asset, split into a free part and a part locked by
      pending orders.  The constructor `Asset(name, free, locked)` is NewAsset. */
  datatype Asset = Asset(name: string, free: real, locked: real)
  {
    /** Free plus locked. */
    function Total(): real
    {
      free + locked
    }

    /** Adds `delta` component-wise; aborts when `delta` is about another asset. */
    function Change(delta: Asset): (r: Result<Asset>)
      ensures r.Ok? <==> name == delta.name
      ensures r.Panicked? ==> r.reason == AssetNameMismatch
      ensures r.Ok? ==> r.value.name == name
      ensures r.Ok? ==> r.value.free == free + delta.free && r.value.locked == locked + delta.locked
      ensures r.Ok? ==> r.value.Total() == Total() + delta.Total()
    {
      if name != delta.name then Panicked(AssetNameMismatch)
      else Ok(Asset(name, free + delta.free, locked + delta.locked))
    }

    /** Moves everything into the free part. */
    function UnlockAll(): (r: Asset)
      ensures r.name == name && r.locked == 0.0 && r.Total() == Total()
    {
      Asset(name, free + locked, 0.0)
    }

    /** Moves everything into the locked part. */
    function LockAll(): (r: Asset)
      ensures r.name == name && r.free == 0.0 && r.Total() == Total()
    {
      Asset(name, 0.0, locked + free)
    }
  }

  /** Changing by `d1` and then by `d2` is changing once by the sum of the two deltas. */
  lemma ChangeTwice(a: Asset, d1: Asset, d2: Asset)
    requires a.name == d1.name == d2.name
    ensures a.Change(d1).Ok? && d1.Change(d2).Ok?
    ensures a.Change(d1).value.Change(d2) == a.Change(d1.Change(d2).value)
  {
  }

  /** Locking after unlocking, or unlocking after locking, forgets the first move. */
  lemma LockUnlockAbsorb(a: Asset)
    ensures a.UnlockAll().LockAll() == a.LockAll()
    ensures a.LockAll().UnlockAll() == a.UnlockAll()
  {
  }

  /** `(*b)[name]`: the held asset, or the zero value of Asset (empty name, nothing
      free, nothing locked) when there is none. */
  function Lookup(m: map<string, Asset>, name: string): (r: Asset)
    ensures name in m ==> r == m[name]
    ensures name !in m ==> r.name == "" && r.free == 0.0 && r.locked == 0.0
  {
    // `name[..0]` is "", written so to keep proofs about the zero Asset cheap
    if name in m then m[name] else Asset(name[..0], 0.0, 0.0)
  }

  /** The names the assets of `s` carry. */
  function Names(s: seq<Asset>): set<string>
  {
    set i | 0 <= i < |s| :: s[i].name
  }

  /** Every entry is stored under its own name (as NewBalances and Change keep it). */
  ghost predicate WellKeyed(m: map<string, Asset>)
  {
    forall k :: k in m ==> m[k].name == k
  }

  // ---------------------------------------------------------------------------
  // NewBalances

  /** The map obtained by storing each asset of `assets` in turn under its name. */
  function Keyed(assets: seq<Asset>): map<string, Asset>
    decreases |assets|
  {
    if assets == [] then map[]
    else
      var last := assets[|assets| - 1];
      Keyed(assets[..|assets| - 1])[last.name := last]
  }

  /** NewBalances holds exactly the names of its arguments, each under its own name. */
  lemma {:induction false} KeyedKeys(assets: seq<Asset>)
    ensures Keyed(assets).Keys == Names(assets)
    ensures WellKeyed(Keyed(assets))
    decreases |assets|
  {
    if assets != [] {
      var init := assets[..|assets| - 1];
      KeyedKeys(init);
      assert Names(assets) == Names(init) + {assets[|assets| - 1].name} by {
        forall n | n in Names(assets) ensures n in Names(init) + {assets[|assets| - 1].name} {
          var i :| 0 <= i < |assets| && assets[i].name == n;
          if i < |assets| - 1 {
            assert init[i] == assets[i];
          }
        }
        forall n | n in Names(init) ensures n in Names(assets) {
          var i :| 0 <= i < |init| && init[i].name == n;
          assert assets[i] == init[i];
        }
      }
    }
  }

  /** The asset stored under a name is the last argument with that name: a later
      asset overwrites an earlier one. */
  lemma {:induction false} KeyedLatest(assets: seq<Asset>, i: nat)
    requires i < |assets|
    requires forall j :: i < j < |assets| ==> assets[j].name != assets[i].name
    ensures assets[i].name in Keyed(assets) && Keyed(assets)[assets[i].name] == assets[i]
    decreases |assets|
  {
    if i < |assets| - 1 {
      var init := assets[..|assets| - 1];
      assert init[i] == assets[i];
      KeyedLatest(init, i);
    }
  }

  // ---------------------------------------------------------------------------
  // Balance.Change

  /** What applying a batch of deltas leaves behind: the map at the moment the loop
      ended, and whether it ended by a panic. */
  datatype Applied = Applied(assets: map<string, Asset>, outcome: Outcome)

  /** Applies the deltas left to right, each to the entry of its own name (the zero
      Asset when there is none); stops at the first delta that panics, keeping the
      effect of the deltas before it. */
  function ApplyDeltas(m: map<string, Asset>, deltas: seq<Asset>): Applied
    decreases |deltas|
  {
    if deltas == [] then Applied(m, Pass)
    else
      match Lookup(m, deltas[0].name).Change(deltas[0])
      case Panicked(p) => Applied(m, Fail(p))
      case Ok(a) => ApplyDeltas(m[deltas[0].name := a], deltas[1..])
  }

  /** Sum of the free parts of the deltas named `n`. */
  function FreeSum(deltas: seq<Asset>, n: string): real
    decreases |deltas|
  {
    if deltas == [] then 0.0
    else (if deltas[0].name == n then deltas[0].free else 0.0) + FreeSum(deltas[1..], n)
  }

  /** Sum of the locked parts of the deltas named `n`. */
  function LockedSum(deltas: seq<Asset>, n: string): real
    decreases |deltas|
  {
    if deltas == [] then 0.0
    else (if deltas[0].name == n then deltas[0].locked else 0.0) + LockedSum(deltas[1..], n)
  }

  lemma NamesTail(deltas: seq<Asset>)
    requires deltas != []
    ensures Names(deltas) == {deltas[0].name} + Names(deltas[1..])
  {
    forall n | n in Names(deltas) ensures n in {deltas[0].name} + Names(deltas[1..]) {
      var i :| 0 <= i < |deltas| && deltas[i].name == n;
      if i > 0 {
        assert deltas[1..][i - 1] == deltas[i];
      }
    }
    forall n | n in Names(deltas[1..]) ensures n in Names(deltas) {
      var i :| 0 <= i < |deltas| - 1 && deltas[1..][i].name == n;
      assert deltas[i + 1] == deltas[1..][i];
    }
  }

  /** An entry no delta names is left as it was, whether the batch completes or panics. */
  lemma {:induction false} ApplyDeltasFrame(m: map<string, Asset>, deltas: seq<Asset>, n: string)
    requires n !in Names(deltas)
    ensures n in ApplyDeltas(m, deltas).assets <==> n in m
    ensures n in m ==> ApplyDeltas(m, deltas).assets[n] == m[n]
    decreases |deltas|
  {
    if deltas != [] {
      NamesTail(deltas);
      var c := Lookup(m, deltas[0].name).Change(deltas[0]);
      if c.Ok? {
        ApplyDeltasFrame(m[deltas[0].name := c.value], deltas[1..], n);
      }
    }
  }

  /** A batch that completes adds to each entry the sum of the deltas of its name,
      and leaves each named entry stored under its own name. */
  lemma {:induction false} ApplyDeltasSums(m: map<string, Asset>, deltas: seq<Asset>, n: string)
    requires ApplyDeltas(m, deltas).outcome.Pass?
    ensures Lookup(ApplyDeltas(m, deltas).assets, n).free == Lookup(m, n).free + FreeSum(deltas, n)
    ensures Lookup(ApplyDeltas(m, deltas).assets, n).locked == Lookup(m, n).locked + LockedSum(deltas, n)
    ensures n in Names(deltas) ==> n in ApplyDeltas(m, deltas).assets && ApplyDeltas(m, deltas).assets[n].name == n
    decreases |deltas|
  {
    if deltas != [] {
      NamesTail(deltas);
      var d := deltas[0];
      var a := Lookup(m, d.name).Change(d).value;
      var m' := m[d.name := a];
      ApplyDeltasSums(m', deltas[1..], n);
      if n == d.name && n !in Names(deltas[1..]) {
        ApplyDeltasFrame(m', deltas[1..], n);
      }
    }
  }

  /** On a well-keyed balance, the entry read for a delta has the delta's name exactly
      when the name is held or is "", and storing the changed entry keeps the balance
      well keyed. */
  lemma ChangeOnWellKeyed(m: map<string, Asset>, d: Asset)
    requires WellKeyed(m)
    ensures Lookup(m, d.name).Change(d).Ok? <==> d.name in m || d.name == ""
    ensures Lookup(m, d.name).Change(d).Ok? ==> WellKeyed(m[d.name := Lookup(m, d.name).Change(d).value])
  {
  }

  /** A batch keeps a well-keyed balance well keyed, whether it completes or panics. */
  lemma {:induction false} ApplyDeltasWellKeyed(m: map<string, Asset>, deltas: seq<Asset>)
    requires WellKeyed(m)
    ensures WellKeyed(ApplyDeltas(m, deltas).assets)
    decreases |deltas|
  {
    if deltas != [] {
      var d := deltas[0];
      ChangeOnWellKeyed(m, d);
      var c := Lookup(m, d.name).Change(d);
      if c.Ok? {
        ApplyDeltasWellKeyed(m[d.name := c.value], deltas[1..]);
      }
    }
  }

  /** The names of a batch are all in `known` exactly when its first name and the
      names of the rest are. */
  lemma NamesWithin(deltas: seq<Asset>, known: set<string>)
    requires deltas != []
    ensures Names(deltas) <= known <==> deltas[0].name in known && Names(deltas[1..]) <= known
  {
    NamesTail(deltas);
  }

  /** A name the balance can change without panic: a held one, or the zero Asset's. */
  predicate Held(m: map<string, Asset>, n: string)
  {
    n in m || n == ""
  }

  /** Every delta of the batch names a held asset, as a recursion over the batch. */
  predicate AllHeld(m: map<string, Asset>, deltas: seq<Asset>)
    decreases |deltas|
  {
    deltas == [] || (Held(m, deltas[0].name) && AllHeld(m, deltas[1..]))
  }

  lemma {:induction false} AllHeldNames(m: map<string, Asset>, deltas: seq<Asset>)
    ensures AllHeld(m, deltas) <==> Names(deltas) <= m.Keys + {""}
    decreases |deltas|
  {
    if deltas != [] {
      NamesWithin(deltas, m.Keys + {""});
      AllHeldNames(m, deltas[1..]);
    }
  }

  /** Storing under a held name holds the same names. */
  lemma {:induction false} AllHeldStore(m: map<string, Asset>, k: string, v: Asset, deltas: seq<Asset>)
    requires Held(m, k)
    ensures AllHeld(m[k := v], deltas) <==> AllHeld(m, deltas)
    decreases |deltas|
  {
    if deltas != [] {
      AllHeldStore(m, k, v, deltas[1..]);
    }
  }

  lemma {:induction false} ApplyDeltasPassesHeld(m: map<string, Asset>, deltas: seq<Asset>)
    requires WellKeyed(m)
    ensures ApplyDeltas(m, deltas).outcome.Pass? <==> AllHeld(m, deltas)
    decreases |deltas|
  {
    if deltas != [] {
      var d := deltas[0];
      var c := Lookup(m, d.name).Change(d);
      assert c.Ok? <==> Held(m, d.name) by {
        ChangeOnWellKeyed(m, d);
      }
      if c.Ok? {
        var next := m[d.name := c.value];
        assert WellKeyed(next) by {
          ChangeOnWellKeyed(m, d);
        }
        assert ApplyDeltas(m, deltas) == ApplyDeltas(next, deltas[1..]) by {
          ApplyDeltasHead(m, deltas);
        }
        ApplyDeltasPassesHeld(next, deltas[1..]);
        AllHeldStore(m, d.name, c.value, deltas[1..]);
      } else {
        assert ApplyDeltas(m, deltas).outcome.Fail? by {
          ApplyDeltasHead(m, deltas);
        }
      }
    }
  }

  /** On a well-keyed balance a batch panics exactly when some delta names an asset
      that is not held (the zero Asset read for it is named ""), unless that delta's
      own name is "". */
  lemma ApplyDeltasPasses(m: map<string, Asset>, deltas: seq<Asset>)
    requires WellKeyed(m)
    ensures ApplyDeltas(m, deltas).outcome.Pass? <==> Names(deltas) <= m.Keys + {""}
  {
    ApplyDeltasPassesHeld(m, deltas);
    AllHeldNames(m, deltas);
  }

  /** One step of ApplyDeltas: the first delta either panics or changes its entry. */
  lemma ApplyDeltasHead(m: map<string, Asset>, deltas: seq<Asset>)
    requires deltas != []
    ensures var c := Lookup(m, deltas[0].name).Change(deltas[0]);
            ApplyDeltas(m, deltas) ==
              if c.Ok? then ApplyDeltas(m[deltas[0].name := c.value], deltas[1..]) else Applied(m, Fail(c.reason))
  {
  }

  /** Applying two batches in turn is applying their concatenation. */
  lemma {:induction false} ApplyDeltasConcat(m: map<string, Asset>, first: seq<Asset>, second: seq<Asset>)
    ensures ApplyDeltas(m, first + second) ==
            if ApplyDeltas(m, first).outcome.Pass? then ApplyDeltas(ApplyDeltas(m, first).assets, second)
            else ApplyDeltas(m, first)
    decreases |first|
  {
    if first == [] {
      assert first + second == second;
    } else {
      var both := first + second;
      assert both[0] == first[0] && both[1..] == first[1..] + second;
      ApplyDeltasHead(m, both);
      ApplyDeltasHead(m, first);
      var c := Lookup(m, first[0].name).Change(first[0]);
      if c.Ok? {
        ApplyDeltasConcat(m[first[0].name := c.value], first[1..], second);
      }
    }
  }

  // ---------------------------------------------------------------------------
  // Balance.Total

  /** What one held asset is worth at its price. */
  ghost function AssetValue(assets: map<string, Asset>, prices: map<string, real>, n: string): real
    requires n in assets && n in prices
  {
    assets[n].Total() * prices[n]
  }

  /** The worth of the assets held under `names`. */
  ghost function SumOver(assets: map<string, Asset>, prices: map<string, real>, names: set<string>): real
    requires names <= assets.Keys && names <= prices.Keys
    decreases names
  {
    if names == {} then 0.0
    else
      var n :| n in names;
      AssetValue(assets, prices, n) + SumOver(assets, prices, names - {n})
  }

  /** The mark-to-market value of a balance: the sum over held assets of
      (free + locked) times the asset's price. */
  ghost function Worth(assets: map<string, Asset>, prices: map<string, real>): real
    requires assets.Keys <= prices.Keys
  {
    SumOver(assets, prices, assets.Keys)
  }

  /** The sum does not depend on the order in which the names are visited: any
      name may be taken out first. */
  lemma {:induction false} SumOverPick(assets: map<string, Asset>, prices: map<string, real>, names: set<string>, n: string)
    requires names <= assets.Keys && names <= prices.Keys && n in names
    ensures SumOver(assets, prices, names) == AssetValue(assets, prices, n) + SumOver(assets, prices, names - {n})
    decreases names
  {
    var m :| m in names && SumOver(assets, prices, names) == AssetValue(assets, prices, m) + SumOver(assets, prices, names - {m});
    if m != n {
      SumOverPick(assets, prices, names - {m}, n);
      SumOverPick(assets, prices, names - {n}, m);
      assert names - {m} - {n} == names - {n} - {m};
    }
  }

  /** Two balances whose held assets have the same totals on `names` are worth the
      same there. */
  lemma {:induction false} SumOverAgree(a1: map<string, Asset>, a2: map<string, Asset>, prices: map<string, real>, names: set<string>)
    requires names <= a1.Keys && names <= a2.Keys && names <= prices.Keys
    requires forall n :: n in names ==> a1[n].Total() == a2[n].Total()
    ensures SumOver(a1, prices, names) == SumOver(a2, prices, names)
    decreases names
  {
    if names != {} {
      var n :| n in names;
      SumOverPick(a1, prices, names, n);
      SumOverPick(a2, prices, names, n);
      SumOverAgree(a1, a2, prices, names - {n});
    }
  }

  /** A balance holding one asset is worth that asset's total at its price. */
  lemma WorthSingle(a: Asset, prices: map<string, real>)
    requires a.name in prices
    ensures Worth(map[a.name := a], prices) == a.Total() * prices[a.name]
  {
    var m := map[a.name := a];
    assert m.Keys == {a.name};
    SumOverPick(m, prices, {a.name}, a.name);
    assert {a.name} - {a.name} == {};
    assert SumOver(m, prices, {}) == 0.0;
  }

  /** Replacing one held asset changes the worth by the difference of its two values. */
  lemma WorthUpdate(assets: map<string, Asset>, prices: map<string, real>, k: string, v: Asset)
    requires assets.Keys <= prices.Keys && k in assets
    ensures Worth(assets[k := v], prices) == Worth(assets, prices) - AssetValue(assets, prices, k) + v.Total() * prices[k]
  {
    var updated := assets[k := v];
    assert updated.Keys == assets.Keys;
    SumOverPick(assets, prices, assets.Keys, k);
    SumOverPick(updated, prices, assets.Keys, k);
    SumOverAgree(assets, updated, prices, assets.Keys - {k});
  }

  /** A balance: asset name to Asset (`type Balance map[string]Asset`). */
  class Balance {
    var assets: map<string, Asset>

    /** A balance holding exactly `m`, as obtained from the balance decoder. */
    constructor FromMap(m: map<string, Asset>)
      ensures assets == m
    {
      assets := m;
    }

    /** Applies the deltas in order, each to the entry of its own name; the change
        made before a panicking delta stays in place. */
    method Change(deltas: seq<Asset>) returns (outcome: Outcome)
      modifies this
      ensures Applied(assets, outcome) == ApplyDeltas(old(assets), deltas)
    {
      var i := 0;
      while i < |deltas|
        invariant 0 <= i <= |deltas|
        invariant ApplyDeltas(old(assets), deltas) == ApplyDeltas(assets, deltas[i..])
      {
        var d := deltas[i];
        assert deltas[i..][0] == d && deltas[i..][1..] == deltas[i + 1..];
        var changed := Lookup(assets, d.name).Change(d);
        if changed.Panicked? {
          return Fail(changed.reason);
        }
        assets := assets[d.name := changed.value];
        i := i + 1;
      }
      return Pass;
    }

    /** The mark-to-market value of the balance; aborts when a held asset has no price.
        Go visits the entries in an unspecified order, so the loop picks any
        remaining name. */
    method Total(prices: map<string, real>) returns (r: Result<real>)
      ensures r.Ok? <==> assets.Keys <= prices.Keys
      ensures r.Panicked? ==> r.reason == MissingPrice
      ensures r.Ok? ==> r.value == Worth(assets, prices)
    {
      var total := 0.0;
      var pending := assets.Keys;
      ghost var visited: set<string> := {};
      while pending != {}
        invariant pending !! visited && pending + visited == assets.Keys
        invariant visited <= prices.Keys
        invariant total == SumOver(assets, prices, visited)
        decreases pending
      {
        var n :| n in pending;
        if n !in prices {
          return Panicked(MissingPrice);
        }
        SumOverPick(assets, prices, visited + {n}, n);
        assert (visited + {n}) - {n} == visited;
        total := total + assets[n].Total() * prices[n];
        pending := pending - {n};
        visited := visited + {n};
      }
      return Ok(total);
    }
  }

  /** A balance holding the given assets, each under its name. */
  method NewBalances(assets: seq<Asset>) returns (b: Balance)
    ensures fresh(b) && b.assets == Keyed(assets)
  {
    b := new Balance.FromMap(map[]);
    for i := 0 to |assets|
      invariant b.assets == Keyed(assets[..i])
    {
      assert assets[..i + 1][..i] == assets[..i];
      b.assets := b.assets[assets[i].name := assets[i]];
    }
    assert assets[..|assets|] == assets;
  }
}
