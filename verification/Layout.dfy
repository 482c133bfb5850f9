/** How many bursts a channel's list region may be given, and when every chunk fits it. */
module Layout {
  import opened Words
  import opened Bursts
  import opened LinkedList

  /** The per-channel burst limit: whole 24-byte slots of the region but one, in 32-bit arithmetic. */
  function LlMax(regionBytes: u64): u32 {
    Wrap32(Wrap32(regionBytes / 24) - 1)
  }

  /** Bytes written for a chunk of n bursts: 24 a burst and 16 for the link entry. */
  function BytesNeeded(n: nat): nat {
    24 * n + 16
  }

  /** Every chunk cut from a list of fewer than 2^32 bursts stays within its region. */
  ghost predicate AlwaysFits(regionBytes: u64) {
    forall bs: seq<Burst>, k: nat ::
      |bs| < 0x1_0000_0000 && k < |Split(bs, LlMax(regionBytes))| ==> ChunkFits(regionBytes, bs, k)
  }

  predicate ChunkFits(regionBytes: u64, bs: seq<Burst>, k: nat)
    requires k < |Split(bs, LlMax(regionBytes))|
  {
    BytesNeeded(|Split(bs, LlMax(regionBytes))[k]|) <= regionBytes
  }

  lemma {:induction false} ChunkNoLonger(bs: seq<Burst>, ll: nat, k: nat)
    requires k < |Split(bs, ll)|
    ensures |Split(bs, ll)[k]| <= |bs|
    ensures 1 <= ll ==> |Split(bs, ll)[k]| <= ll
  {
    if 1 <= ll {
      SplitShape(bs, ll);
      SplitToSlice(bs, |bs|, ll, k);
    } else {
      SplitToNoRoom(bs, |bs|);
    }
  }

  /**
   Chunks never overrun their region exactly when the region has at least 48 bytes. Below that the
   limit is 0 (and does not limit) or wraps to 2^32 - 1.
   */
  lemma FitsIff(regionBytes: u64)
    ensures AlwaysFits(regionBytes) <==> 48 <= regionBytes
  {
    var ll := LlMax(regionBytes);
    if 48 <= regionBytes {
      forall bs: seq<Burst>, k: nat | |bs| < 0x1_0000_0000 && k < |Split(bs, ll)|
        ensures ChunkFits(regionBytes, bs, k)
      {
        ChunkNoLonger(bs, ll, k);
      }
    } else {
      var b := Burst(0, 0, 1);
      var bs := [b, b];
      if regionBytes < 24 {
        assert ll == 0xFFFF_FFFF;
        SplitToShort(bs, 2, ll);
        assert !ChunkFits(regionBytes, bs, 0);
      } else {
        assert ll == 0;
        SplitToNoRoom(bs, 2);
        assert !ChunkFits(regionBytes, bs, 1);
      }
    }
  }

  /** In words: a chunk that fits its region in bytes fits the region's words. */
  lemma FitsInWords(regionBytes: u64, n: nat)
    requires regionBytes % 4 == 0 && BytesNeeded(n) <= regionBytes
    ensures WordsNeeded(n) <= regionBytes / 4
  {
  }
}
