/** The size classes that SizeMap's Init chooses are such as the central free lists rely on. */
module CentralSizes {
  import Arith
  import C = CentralModel
  import opened Powers
  import opened SizeMap
  import opened SizeClasses

  /** Class 0 has no objects; the number of objects moved at a time is no batch size for it. */
  function Batch(limit: int, size: nat): nat {
    if NumMoveSize(limit, size) < 0 then 0 else NumMoveSize(limit, size)
  }

  function Bytes(mc: Machine, pages: nat): nat { pages * mc.PageSize() }

  function ConfigOf(mc: Machine, limit: int, threads: nat, sizes: seq<nat>, pages: seq<nat>): C.Config
    requires |sizes| == |pages|
  {
    C.Config(threads, sizes,
             seq(|sizes|, c requires 0 <= c < |sizes| => Bytes(mc, pages[c])),
             seq(|sizes|, c requires 0 <= c < |sizes| => Batch(limit, sizes[c])))
  }

  /** Every class has a span with at least one object and, exactly if the limit on transfers is at
      least one, a batch of at least one. */
  lemma ConfigGood(mc: Machine, limit: int, threads: nat, sizes: seq<nat>, pages: seq<nat>)
    requires mc.Good() && TablesOk(mc, limit, sizes, pages) && |sizes| >= 2
    ensures ConfigOf(mc, limit, threads, sizes, pages).Good() <==> limit >= 1
  {
    var config := ConfigOf(mc, limit, threads, sizes, pages);
    forall c | 1 <= c < |sizes|
      ensures 1 <= config.size[c] <= config.bytes[c] && (1 <= config.batch[c] <==> limit >= 1)
    {
      assert ClassOk(mc, limit, sizes[c], pages[c]);
      hide Pow2, NumMoveSize, Quarter;
      var bytes := pages[c] * mc.PageSize();
      Arith.Order(mc.PageSize(), 0, pages[c]);
      HoldsOne(bytes, sizes[c], Blocks(limit, sizes[c]));
    }
    assert 1 <= 1 < |sizes|;
    assert config.batch[1] >= 1 <==> limit >= 1;
  }

}
