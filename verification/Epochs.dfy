/** Grouping of block heights into epochs (chain/src/epoch.rs). */
module Epochs {

  datatype Epoch = Epoch(index: nat, duration: nat) {
    function StartHeight(): nat { index * duration }

    function EndHeight(): int { (index + 1) * duration - 1 }

    predicate IsEpochEnd(height: nat) { EndHeight() == height }
  }

  function FromHeight(height: nat, duration: nat): Epoch
    requires duration > 0
  {
    Epoch(height / duration, duration)
  }

  /** Every height lies in exactly one epoch, the one `FromHeight` names. */
  lemma EpochsPartitionHeights(height: nat, duration: nat, k: nat)
    requires duration > 0
    ensures Epoch(k, duration).StartHeight() <= height <= Epoch(k, duration).EndHeight()
            <==> FromHeight(height, duration) == Epoch(k, duration)
  {
    var q := height / duration;
    assert q * duration <= height < (q + 1) * duration by { assert (q + 1) * duration == q * duration + duration; }
    if k < q {
      assert (k + 1) * duration <= q * duration;
    } else if q < k {
      assert (q + 1) * duration <= k * duration;
    }
  }

  /** The epoch index moves at a block boundary exactly when the last block ended its epoch. */
  lemma NextHeightEpoch(height: nat, duration: nat)
    requires duration > 0
    ensures FromHeight(height + 1, duration).index ==
            FromHeight(height, duration).index + (if FromHeight(height, duration).IsEpochEnd(height) then 1 else 0)
  {
    var k := height / duration;
    EpochsPartitionHeights(height, duration, k);
    if (k + 1) * duration - 1 == height {
      assert (k + 2) * duration == (k + 1) * duration + duration;
      EpochsPartitionHeights(height + 1, duration, k + 1);
    } else {
      EpochsPartitionHeights(height + 1, duration, k);
    }
  }

  /** Consecutive epochs abut. */
  lemma EpochsAbut(k: nat, duration: nat)
    ensures Epoch(k + 1, duration).StartHeight() == Epoch(k, duration).EndHeight() + 1
  {}
}
