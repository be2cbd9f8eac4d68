/** Types shared by every component. */
module Basics {

  newtype Byte = x: int | 0 <= x < 256

  type Bytes = seq<Byte>

  /** A miner actor. */
  type ActorID = nat

  datatype Option<+T> = None | Some(value: T)
}

/** Tipsets and chains of tipsets; the empty chain is bottom (gpbft/chain.go). */
module Chains {
  import opened Basics

  datatype TipSet = TipSet(epoch: int, key: Bytes, powerTable: Bytes, commitments: Bytes)

  type Chain = seq<TipSet>

  const BOTTOM: Chain := []
  const CHAIN_MAX_LEN: nat := 128
  const CID_MAX_LEN: nat := 38
  const TIPSET_KEY_MAX_LEN: nat := 20 * CID_MAX_LEN

  predicate ValidTipSet(t: TipSet) {
    && 0 < |t.key| <= TIPSET_KEY_MAX_LEN
    && 0 < |t.powerTable| <= CID_MAX_LEN
  }

  /** Bottom is valid; otherwise epochs are non-negative and strictly increase. */
  predicate ValidChain(c: Chain) {
    && |c| <= CHAIN_MAX_LEN
    && (forall i :: 0 <= i < |c| ==> ValidTipSet(c[i]) && c[i].epoch >= 0)
    && (forall i, j :: 0 <= i < j < |c| ==> c[i].epoch < c[j].epoch)
  }

  /** Validates tipset by tipset. */
  method CheckChain(c: Chain) returns (ok: bool)
    ensures ok == ValidChain(c)
    ensures ok <==>
      && |c| <= 128
      && (forall i :: 0 <= i < |c| ==> 1 <= |c[i].key| <= 760 && 1 <= |c[i].powerTable| <= 38 && c[i].epoch >= 0)
      && (forall i :: 0 < i < |c| ==> c[i - 1].epoch < c[i].epoch)
  {
    if |c| > CHAIN_MAX_LEN {
      return false;
    }
    var lastEpoch := -1;
    for i := 0 to |c|
      invariant lastEpoch == if i == 0 then -1 else c[i - 1].epoch
      invariant forall k :: 0 <= k < i ==> ValidTipSet(c[k]) && 0 <= c[k].epoch <= lastEpoch
      invariant forall j, k :: 0 <= j < k < i ==> c[j].epoch < c[k].epoch
    {
      if !ValidTipSet(c[i]) || c[i].epoch <= lastEpoch {
        return false;
      }
      lastEpoch := c[i].epoch;
    }
    ok := true;
  }

  /** The chain with its suffix after the base cut to `to` tipsets. */
  function Prefix(c: Chain, to: nat): Chain {
    if to + 1 <= |c| then c[..to + 1] else c
  }

  function BaseChain(c: Chain): Chain {
    if c == [] then [] else c[..1]
  }

  predicate HasBase(c: Chain, base: TipSet) {
    c != [] && c[0] == base
  }

  lemma PrefixOfValid(p: Chain, c: Chain)
    requires p <= c && ValidChain(c)
    ensures ValidChain(p)
  {
    assert forall i :: 0 <= i < |p| ==> p[i] == c[i];
  }
}
