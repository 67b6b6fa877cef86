/** The arithmetic of the paged listing: page count, offset and the
    Skip/Take slice. */
module Paging {
  import opened Annotations

  const TwoTo32: int := 0x1_0000_0000

  function Min(a: int, b: int): int { if a <= b then a else b }
  function Max(a: int, b: int): int { if a >= b then a else b }

  /** Unchecked C# `int` arithmetic: the exact value wrapped into 32 bits. */
  function Wrap32(x: int): (r: Int32)
    ensures (r - x) % TwoTo32 == 0
    ensures IntMinValue <= x <= IntMaxValue ==> r == x
  {
    (x - IntMinValue) % TwoTo32 + IntMinValue
  }

  /** `(int)Math.Ceiling(n / (double)d)`. For operands below 2^31 the double
      quotient never rounds onto an integer it does not equal, so the ceiling
      is the exact one: the least q with q * d >= n. */
  function CeilDiv(n: nat, d: int): (q: nat)
    requires d > 0
    ensures q * d >= n
    ensures (q - 1) * d < n
  {
    var r := (n + d - 1) / d;
    assert n + d - 1 == d * r + (n + d - 1) % d;
    r
  }

  /** `source.Skip(skip).Take(take)`: a non-positive count skips, or takes, nothing. */
  function SkipTake<T>(s: seq<T>, skip: int, take: int): (r: seq<T>)
    ensures |r| == Min(Max(take, 0), Max(0, |s| - Max(skip, 0)))
    ensures forall i :: 0 <= i < |r| ==> r[i] == s[Max(skip, 0) + i]
  {
    var from := if skip <= 0 then 0 else if skip <= |s| then skip else |s|;
    var to := if take <= 0 then from else if take <= |s| - from then from + take else |s|;
    s[from..to]
  }

  /** The offset of a page, computed exactly: the products on the pages before it. */
  function SkipCount(pageNumber: int, pageSize: int): (offset: int)
    ensures pageNumber >= 1 && pageSize >= 0 ==> offset >= 0
  {
    (pageNumber - 1) * pageSize
  }

  /** The offset of a page as the controller computes it: in unchecked `int`. */
  function SkipCountAsWritten(pageNumber: Int32, pageSize: Int32): Int32 {
    Wrap32((pageNumber - 1) * pageSize)
  }

  /** The items of page `pageNumber` (from 1) of size `pageSize`. */
  function PageOf<T>(all: seq<T>, pageNumber: int, pageSize: int): (items: seq<T>)
    requires pageNumber >= 1 && pageSize >= 1
    ensures |items| == Min(pageSize, Max(0, |all| - SkipCount(pageNumber, pageSize)))
    ensures forall i :: 0 <= i < |items| ==> items[i] == all[SkipCount(pageNumber, pageSize) + i]
    ensures |all| <= SkipCount(pageNumber, pageSize) ==> items == []
  {
    var offset := SkipCount(pageNumber, pageSize);
    assert Max(offset, 0) == offset;
    SkipTake(all, offset, pageSize)
  }

  /** The page the controller fetches, offset computed in unchecked `int`. */
  function PageOfAsWritten<T>(all: seq<T>, pageNumber: Int32, pageSize: Int32): seq<T>
    requires pageNumber >= 1 && pageSize >= 1
  {
    SkipTake(all, SkipCountAsWritten(pageNumber, pageSize), pageSize)
  }

  /** While the offset fits in an `int`, the two computations agree. */
  lemma AsWrittenAgreesWithoutOverflow<T>(all: seq<T>, pageNumber: Int32, pageSize: Int32)
    requires pageNumber >= 1 && pageSize >= 1
    requires (pageNumber - 1) * pageSize <= IntMaxValue
    ensures PageOfAsWritten(all, pageNumber, pageSize) == PageOf(all, pageNumber, pageSize)
  {
    var offset := (pageNumber - 1) * pageSize;
    assert SkipCount(pageNumber, pageSize) == offset;
    assert Wrap32(offset) == offset;
    assert SkipCountAsWritten(pageNumber, pageSize) == SkipCount(pageNumber, pageSize);
  }

  /** Page 65537 of size 65536 starts at 2^32, past any store an `int` count
      describes, so it is empty; the wrapped offset is 0 and the controller
      serves the first page instead. */
  lemma OverflowServesFirstPage<T>(all: seq<T>)
    requires 0 < |all| <= IntMaxValue
    ensures PageOf(all, 65537, 65536) == []
    ensures PageOfAsWritten(all, 65537, 65536) == all[..Min(|all|, 65536)]
    ensures PageOfAsWritten(all, 65537, 65536) != []
  {
    assert SkipCountAsWritten(65537, 65536) == 0;
    var w := PageOfAsWritten(all, 65537, 65536);
    assert |w| == Min(|all|, 65536);
    assert w == all[..Min(|all|, 65536)];
  }
}
