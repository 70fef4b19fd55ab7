/** The signal selection of the signals dashboard: sort by confidence,
    keep the confident active signals, show the first six whose asset is
    known. */
module SignalsDashboard {
  import opened Util
  import opened Types
  import Sorting

  function Confidence(s: TradingSignal): real
  {
    s.confidence
  }

  predicate Descending(s: seq<TradingSignal>)
  {
    forall i, j :: 0 <= i < j < |s| ==> s[i].confidence >= s[j].confidence
  }

  /** `sortedSignals`: the signals rearranged by descending confidence. */
  function SortedSignals(signals: seq<TradingSignal>): (r: seq<TradingSignal>)
    ensures multiset(r) == multiset(signals)
    ensures Descending(r)
  {
    Sorting.SortIsOrdered(signals, Confidence);
    Sorting.SortByKeyDescending(signals, Confidence)
  }

  /** The sort is stable: signals of equal confidence keep their order. */
  lemma {:induction false} SortedSignalsAreStable(signals: seq<TradingSignal>, c: real)
    ensures Filter(SortedSignals(signals), Sorting.KeyIs(Confidence, c)) == Filter(signals, Sorting.KeyIs(Confidence, c))
  {
    Sorting.SortIsStable(signals, Confidence, c);
  }

  predicate HighConfidence(s: TradingSignal)
  {
    s.confidence >= 85.0 && s.action != Hold
  }

  /** `highConfidenceSignals`: the signals of at least 85 % confidence that
      do not say hold, in sorted order. */
  function HighConfidenceSignals(signals: seq<TradingSignal>): (r: seq<TradingSignal>)
    ensures forall s :: s in r <==> s in signals && HighConfidence(s)
    ensures Descending(r)
  {
    var sorted := SortedSignals(signals);
    FilterMembers(sorted, HighConfidence);
    assert forall s :: s in sorted <==> s in signals by {
      forall s ensures s in sorted <==> s in signals {
        assert s in sorted <==> s in multiset(sorted);
        assert s in signals <==> s in multiset(signals);
      }
    }
    FilterKeepsOrder(sorted, HighConfidence);
    Filter(sorted, HighConfidence)
  }

  /** Filtering keeps a descending order. */
  lemma {:induction false} FilterKeepsOrder(s: seq<TradingSignal>, p: TradingSignal -> bool)
    requires Descending(s)
    ensures Descending(Filter(s, p))
  {
    if |s| > 0 {
      assert Descending(s[1..]);
      FilterKeepsOrder(s[1..], p);
      FilterMembers(s[1..], p);
      var rest := Filter(s[1..], p);
      forall k | 0 <= k < |rest| ensures s[0].confidence >= rest[k].confidence {
        assert rest[k] in rest;
        var m :| 0 <= m < |s[1..]| && s[1..][m] == rest[k];
        assert s[1..][m] == s[m + 1];
      }
    }
  }

  /** At most six cards. */
  const MaxCards: nat := 6

  /** The cards rendered: the first six high-confidence signals, each with
      the first asset of its id; a signal whose asset is unknown renders
      nothing. */
  function Cards(signals: seq<TradingSignal>, assets: seq<Asset>): (r: seq<(TradingSignal, Asset)>)
    ensures |r| <= MaxCards
    ensures forall i :: 0 <= i < |r| ==>
      r[i].0 in signals && HighConfidence(r[i].0) && r[i].1 in assets && r[i].1.id == r[i].0.assetId
  {
    var high := HighConfidenceSignals(signals);
    var shown := high[..IntMin(MaxCards, |high|)];
    assert forall s :: s in shown ==> s in high;
    WithAssets(shown, assets)
  }

  /** Pairs each signal with the first asset of its id, skipping the
      signals whose asset is missing. */
  function WithAssets(signals: seq<TradingSignal>, assets: seq<Asset>): (r: seq<(TradingSignal, Asset)>)
    ensures |r| <= |signals|
    ensures forall i :: 0 <= i < |r| ==> r[i].0 in signals && r[i].1 in assets && r[i].1.id == r[i].0.assetId
  {
    if |signals| == 0 then []
    else
      var s := signals[0];
      var rest := WithAssets(signals[1..], assets);
      match FindFirst(assets, (a: Asset) => a.id == s.assetId)
      case None => rest
      case Some(k) => [(s, assets[k])] + rest
  }

  /** A signal is shown exactly when its asset is known. */
  lemma {:induction false} ShownIffAssetKnown(signals: seq<TradingSignal>, assets: seq<Asset>)
    ensures |WithAssets(signals, assets)| == Count(signals, (s: TradingSignal) => exists a :: a in assets && a.id == s.assetId)
  {
    if |signals| > 0 {
      ShownIffAssetKnown(signals[1..], assets);
      var s := signals[0];
      match FindFirst(assets, (a: Asset) => a.id == s.assetId)
      case None =>
        assert !exists a :: a in assets && a.id == s.assetId;
      case Some(k) =>
        assert assets[k] in assets;
    }
  }

  predicate AssetKnown(s: TradingSignal, assets: seq<Asset>)
  {
    exists a :: a in assets && a.id == s.assetId
  }

  lemma {:induction false} AllKnownKeepsAll(signals: seq<TradingSignal>, assets: seq<Asset>)
    requires forall i :: 0 <= i < |signals| ==> AssetKnown(signals[i], assets)
    ensures |WithAssets(signals, assets)| == |signals|
    ensures forall i :: 0 <= i < |signals| ==> WithAssets(signals, assets)[i].0 == signals[i]
  {
    if |signals| > 0 {
      AllKnownKeepsAll(signals[1..], assets);
      var s := signals[0];
      var w :| w in assets && w.id == s.assetId;
      var k :| 0 <= k < |assets| && assets[k] == w;
      var found := FindFirst(assets, (a: Asset) => a.id == s.assetId);
      assert found.Some?;
      var rest := WithAssets(signals[1..], assets);
      var all := WithAssets(signals, assets);
      assert all == [(s, assets[found.value])] + rest;
      forall i | 0 <= i < |signals| ensures all[i].0 == signals[i] {
        if i > 0 {
          assert all[i] == rest[i - 1];
          assert signals[1..][i - 1] == signals[i];
        }
      }
    }
  }

  /** When every asset is known, the cards are the first six high-confidence
      signals, in order. */
  lemma {:induction false} CardsAreTopSix(signals: seq<TradingSignal>, assets: seq<Asset>)
    requires forall s :: s in signals ==> AssetKnown(s, assets)
    ensures var high := HighConfidenceSignals(signals);
      && |Cards(signals, assets)| == IntMin(MaxCards, |high|)
      && forall i :: 0 <= i < |Cards(signals, assets)| ==> Cards(signals, assets)[i].0 == high[i]
  {
    var high := HighConfidenceSignals(signals);
    var shown := high[..IntMin(MaxCards, |high|)];
    forall i | 0 <= i < |shown| ensures AssetKnown(shown[i], assets) {
      assert shown[i] in high;
    }
    AllKnownKeepsAll(shown, assets);
  }
}
