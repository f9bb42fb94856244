/**
  Packing prefixes into size-limited batches (the 4096-octet message limit of section 4.1 of
  RFC 4271), with the limit computed in 32-bit unsigned arithmetic.
 */
module SizeLimit {
  import opened Types

  const MAX_BGP_MSG_LEN: nat := 4096
  const BGP_MSG_HEADER_LEN: nat := 19
  const MAX_SERIALIZED_CHAIN_LEN: nat := 10
  const MAX_V4_PREFIX_LEN: nat := 5
  const TWO_32: nat := 0x1_0000_0000

  const REMAINING_BYTES: nat := MAX_BGP_MSG_LEN - BGP_MSG_HEADER_LEN

  /** The bytes a chain of messages leaves for prefixes, as unsigned 32-bit arithmetic computes them. */
  function ChainBytes(attrLen: nat): nat {
    (((REMAINING_BYTES - attrLen) % TWO_32) * MAX_SERIALIZED_CHAIN_LEN) % TWO_32
  }

  function PrefixLimit(attrLen: nat, maxPrefixLen: nat): nat
    requires maxPrefixLen > 0
  {
    ChainBytes(attrLen) / maxPrefixLen
  }

  /** The bytes that are really there. */
  function Budget(attrLen: nat): nat {
    if attrLen <= REMAINING_BYTES then (REMAINING_BYTES - attrLen) * MAX_SERIALIZED_CHAIN_LEN else 0
  }

  /** While the attributes fit into one message nothing wraps around. */
  lemma NoWrap(attrLen: nat)
    requires attrLen <= REMAINING_BYTES
    ensures ChainBytes(attrLen) == Budget(attrLen) < TWO_32
  {
    var d: nat := REMAINING_BYTES - attrLen;
    assert d % TWO_32 == d;
  }

  lemma LimitWithin(bytes: nat, maxPrefixLen: nat, n: nat)
    requires maxPrefixLen > 0 && n <= bytes / maxPrefixLen
    ensures n * maxPrefixLen <= bytes
  {
    var q := bytes / maxPrefixLen;
    assert n * maxPrefixLen <= q * maxPrefixLen;
    assert q * maxPrefixLen <= bytes;
  }

  lemma AtLeastOne(bytes: nat, maxPrefixLen: nat)
    requires 0 < maxPrefixLen <= bytes
    ensures (bytes / maxPrefixLen) * maxPrefixLen > 0
  {
    assert bytes / maxPrefixLen >= 1;
  }

  lemma NotEvenOne(bytes: nat, maxPrefixLen: nat)
    requires bytes < maxPrefixLen
    ensures bytes / maxPrefixLen == 0
  {
  }

  lemma Unlimited(attrLen: nat, maxPrefixLen: nat)
    requires maxPrefixLen > 0 && attrLen > REMAINING_BYTES
    ensures PrefixLimit(attrLen, maxPrefixLen) * maxPrefixLen <= 0 <==> ChainBytes(attrLen) < maxPrefixLen
  {
    var bytes := ChainBytes(attrLen);
    if bytes >= maxPrefixLen {
      AtLeastOne(bytes, maxPrefixLen);
    } else {
      NotEvenOne(bytes, maxPrefixLen);
    }
  }

  /**
    Full batches stay within the budget exactly when the attributes fit, or the wrapped value
    happens to be smaller than one prefix.  Attributes that do not fit wrap around instead of
    giving a limit of zero.
   */
  lemma FullBatchFitsIff(attrLen: nat, maxPrefixLen: nat)
    requires maxPrefixLen > 0
    ensures PrefixLimit(attrLen, maxPrefixLen) * maxPrefixLen <= Budget(attrLen) <==>
      (attrLen <= REMAINING_BYTES || ChainBytes(attrLen) < maxPrefixLen)
  {
    if attrLen <= REMAINING_BYTES {
      NoWrap(attrLen);
      LimitWithin(Budget(attrLen), maxPrefixLen, PrefixLimit(attrLen, maxPrefixLen));
    } else {
      Unlimited(attrLen, maxPrefixLen);
    }
  }

  /** One octet too many attribute bytes, and the limit is over four billion bytes' worth of prefixes. */
  lemma WrapExample()
    ensures Budget(REMAINING_BYTES + 1) == 0
    ensures PrefixLimit(REMAINING_BYTES + 1, MAX_V4_PREFIX_LEN) == 858993457
  {
    assert (REMAINING_BYTES - (REMAINING_BYTES + 1)) % TWO_32 == TWO_32 - 1;
    assert ((TWO_32 - 1) * 10) % TWO_32 == TWO_32 - 10;
  }

  // ---------------------------------------------------------------- packing

  /** Take prefixes off the set until the limit is reached. */
  method PackPrefixesWithLimit(prefixes: set<Key>, attrLen: nat, maxPrefixLen: nat) returns (batch: set<Key>, rest: set<Key>)
    requires maxPrefixLen > 0
    ensures batch + rest == prefixes && batch !! rest && |prefixes| == |batch| + |rest|
    ensures |batch| == if |prefixes| <= PrefixLimit(attrLen, maxPrefixLen) then |prefixes| else PrefixLimit(attrLen, maxPrefixLen)
  {
    batch, rest := {}, prefixes;
    var packed := 0;
    while rest != {} && packed < PrefixLimit(attrLen, maxPrefixLen)
      invariant batch + rest == prefixes && batch !! rest
      invariant packed == |batch| <= PrefixLimit(attrLen, maxPrefixLen)
      decreases |rest|
    {
      var k :| k in rest;
      batch, rest, packed := batch + {k}, rest - {k}, packed + 1;
    }
    assert |prefixes| == |batch| + |rest|;
  }

  /** Every key is in exactly one batch. */
  ghost predicate Partition(batches: seq<set<Key>>, all: set<Key>) {
    && (forall k :: k in all <==> exists i | 0 <= i < |batches| :: k in batches[i])
    && (forall i, j | 0 <= i < j < |batches| :: batches[i] !! batches[j])
  }

  lemma PartitionMore(batches: seq<set<Key>>, all: set<Key>, batch: set<Key>)
    requires Partition(batches, all) && all !! batch
    ensures Partition(batches + [batch], all + batch)
  {
    var more := batches + [batch];
    forall k
      ensures k in all + batch <==> exists i | 0 <= i < |more| :: k in more[i]
    {
      if k in all {
        var i :| 0 <= i < |batches| && k in batches[i];
        assert k in more[i];
      }
      if k in batch { assert k in more[|batches|]; }
    }
    forall i | 0 <= i < |batches|
      ensures batches[i] !! batch
    {
      forall k | k in batches[i] ensures k in all { }
    }
  }

  /** No batch is empty, and the worst case of each is within the budget. */
  ghost predicate WithinBudget(batches: seq<set<Key>>, attrLen: nat, maxPrefixLen: nat) {
    forall b | b in batches :: b != {} && |b| * maxPrefixLen <= Budget(attrLen)
  }

  ghost predicate AtMost(batches: seq<set<Key>>, limit: nat) {
    forall b | b in batches :: b != {} && |b| <= limit
  }

  lemma AtMostFits(batches: seq<set<Key>>, attrLen: nat, maxPrefixLen: nat)
    requires 0 < maxPrefixLen && AtMost(batches, Budget(attrLen) / maxPrefixLen)
    ensures WithinBudget(batches, attrLen, maxPrefixLen)
  {
    forall b | b in batches
      ensures |b| * maxPrefixLen <= Budget(attrLen)
    {
      LimitWithin(Budget(attrLen), maxPrefixLen, |b|);
    }
  }

  /** Pack until nothing is left. */
  method DrainWith(prefixes: set<Key>, attrLen: nat, maxPrefixLen: nat, ghost limit: nat) returns (batches: seq<set<Key>>)
    requires 0 < maxPrefixLen && limit == PrefixLimit(attrLen, maxPrefixLen) && limit > 0
    ensures Partition(batches, prefixes) && AtMost(batches, limit)
  {
    batches := [];
    var rest := prefixes;
    ghost var sent: set<Key> := {};
    while rest != {}
      invariant forall k :: k in prefixes <==> k in sent || k in rest
      invariant forall k :: !(k in sent && k in rest)
      invariant Partition(batches, sent)
      invariant AtMost(batches, limit)
      decreases |rest|
    {
      var batch, left := PackPrefixesWithLimit(rest, attrLen, maxPrefixLen);
      forall k ensures k in rest <==> k in batch || k in left { }
      PartitionMore(batches, sent, batch);
      batches, sent, rest := batches + [batch], sent + batch, left;
    }
    assert sent == prefixes;
  }

  /**
    When the attributes leave room for at least one prefix, repeated packing ends, sends every
    prefix exactly once, and keeps the worst case of every batch within the budget.
   */
  method DrainInBatches(prefixes: set<Key>, attrLen: nat, maxPrefixLen: nat) returns (batches: seq<set<Key>>)
    requires 0 < maxPrefixLen <= Budget(attrLen)
    ensures Partition(batches, prefixes) && WithinBudget(batches, attrLen, maxPrefixLen)
  {
    RoomForOne(attrLen, maxPrefixLen);
    batches := DrainWith(prefixes, attrLen, maxPrefixLen, PrefixLimit(attrLen, maxPrefixLen));
    AtMostFits(batches, attrLen, maxPrefixLen);
  }

  lemma RoomForOne(attrLen: nat, maxPrefixLen: nat)
    requires 0 < maxPrefixLen <= Budget(attrLen)
    ensures attrLen <= REMAINING_BYTES && PrefixLimit(attrLen, maxPrefixLen) == Budget(attrLen) / maxPrefixLen >= 1
  {
    NoWrap(attrLen);
  }

  /** Without room for one prefix packing takes nothing, so draining would not end. */
  lemma NoProgressIff(attrLen: nat, maxPrefixLen: nat)
    requires maxPrefixLen > 0 && attrLen <= REMAINING_BYTES
    ensures PrefixLimit(attrLen, maxPrefixLen) == 0 <==> Budget(attrLen) < maxPrefixLen
  {
    NoWrap(attrLen);
  }
}
