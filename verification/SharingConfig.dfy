/**
 * The byte layout of a Pump Fees sharing config: a parser that checks every bound, and the
 * printer whose output it reads back.
 */
module SharingConfig {
  import opened Types

  type byte = x: int | 0 <= x < 0x100
  type Bytes = seq<byte>

  const DISCRIMINATOR: Bytes := [216, 74, 9, 0, 56, 140, 93, 75]
  const KEY_LEN := 32
  const STATUS_OFFSET := 10
  const ACTIVE_STATUS: byte := 1
  const MINT_OFFSET := 11
  const ADMIN_OFFSET := 43
  const ADMIN_REVOKED_OFFSET := 75
  const SHAREHOLDERS_OFFSET := 76
  const SHARES_OFFSET := 80
  const SHARE_LEN := 34
  const U32_MAX := 0xFFFF_FFFF
  const TOTAL_BPS := 10_000

  /** One shareholder: a 32-byte address and a share in basis points. */
  datatype Share = Share(address: Bytes, bps: nat)

  // ---- Little-endian numbers ----

  function U16(n: nat): (b: Bytes)
    requires n < 0x1_0000
    ensures |b| == 2
  {
    [n % 0x100, n / 0x100]
  }

  function U32(n: nat): (b: Bytes)
    requires n <= U32_MAX
    ensures |b| == 4
  {
    [n % 0x100, n / 0x100 % 0x100, n / 0x1_0000 % 0x100, n / 0x100_0000]
  }

  function ReadU16(b: Bytes): nat
    requires |b| == 2
  {
    b[0] as int + 0x100 * (b[1] as int)
  }

  function ReadU32(b: Bytes): (n: nat)
    requires |b| == 4
    ensures n <= U32_MAX
  {
    b[0] as int + 0x100 * (b[1] as int) + 0x1_0000 * (b[2] as int) + 0x100_0000 * (b[3] as int)
  }

  lemma U16RoundTrip(n: nat)
    requires n < 0x1_0000
    ensures ReadU16(U16(n)) == n
  {
  }

  lemma ReadU16RoundTrip(b: Bytes)
    requires |b| == 2
    ensures ReadU16(b) < 0x1_0000 && U16(ReadU16(b)) == b
  {
  }

  lemma U32RoundTrip(n: nat)
    requires n <= U32_MAX
    ensures ReadU32(U32(n)) == n
  {
    assert n / 0x100 / 0x100 == n / 0x1_0000 && n / 0x1_0000 / 0x100 == n / 0x100_0000;
  }

  /** Base-256 digits are read back one by one. */
  lemma ReadU32RoundTrip(b: Bytes)
    requires |b| == 4
    ensures U32(ReadU32(b)) == b
  {
    var n := ReadU32(b);
    var b1: int, b2: int, b3: int := b[1], b[2], b[3];
    assert n / 0x100 == b1 + 0x100 * b2 + 0x1_0000 * b3;
    assert n / 0x1_0000 == b2 + 0x100 * b3;
    assert n / 0x100_0000 == b3;
  }

  // ---- The layout ----

  predicate ProperShare(s: Share) {
    |s.address| == KEY_LEN && s.bps < 0x1_0000
  }

  predicate ProperShares(shares: seq<Share>) {
    |shares| <= U32_MAX && forall i :: 0 <= i < |shares| ==> ProperShare(shares[i])
  }

  function EncodeShare(s: Share): (b: Bytes)
    requires ProperShare(s)
    ensures |b| == SHARE_LEN
  {
    s.address + U16(s.bps)
  }

  function EncodeShares(shares: seq<Share>): (b: Bytes)
    requires ProperShares(shares)
    ensures |b| == SHARE_LEN * |shares|
  {
    if shares == [] then []
    else
      var n := |shares| - 1;
      EncodeShares(shares[..n]) + EncodeShare(shares[n])
  }

  /** `gap` is the two bytes between discriminator and status, which the layout does not fix. */
  function Header(gap: Bytes, mint: Bytes, admin: Bytes, revoked: byte, count: nat): (b: Bytes)
    requires |gap| == 2 && |mint| == KEY_LEN && |admin| == KEY_LEN && count <= U32_MAX
    ensures |b| == SHARES_OFFSET
  {
    DISCRIMINATOR + gap + [ACTIVE_STATUS] + mint + admin + [revoked] + U32(count)
  }

  /** A whole account: header, shares, and whatever follows them. */
  function Encode(gap: Bytes, mint: Bytes, admin: Bytes, revoked: byte, shares: seq<Share>, rest: Bytes): Bytes
    requires |gap| == 2 && |mint| == KEY_LEN && |admin| == KEY_LEN && ProperShares(shares)
  {
    Header(gap, mint, admin, revoked, |shares|) + EncodeShares(shares) + rest
  }

  // ---- Reading by position ----

  function Count(data: Bytes): (n: nat)
    requires |data| >= SHARES_OFFSET
    ensures n <= U32_MAX
  {
    ReadU32(data[SHAREHOLDERS_OFFSET..SHARES_OFFSET])
  }

  function Slot(data: Bytes, i: nat): Bytes
    requires |data| >= SHARES_OFFSET + SHARE_LEN * (i + 1)
  {
    data[SHARES_OFFSET + SHARE_LEN * i..SHARES_OFFSET + SHARE_LEN * (i + 1)]
  }

  function DecodeShare(slot: Bytes): (s: Share)
    requires |slot| == SHARE_LEN
    ensures ProperShare(s)
  {
    Share(slot[..KEY_LEN], ReadU16(slot[KEY_LEN..]))
  }

  function ShareAt(data: Bytes, i: nat): (s: Share)
    requires |data| >= SHARES_OFFSET + SHARE_LEN * (i + 1)
    ensures ProperShare(s)
  {
    DecodeShare(Slot(data, i))
  }

  /** The account has the fixed parts right and room for all its shares. */
  predicate WellFormed(data: Bytes, mint: Bytes) {
    && |data| >= SHARES_OFFSET
    && data[..8] == DISCRIMINATOR
    && data[STATUS_OFFSET] == ACTIVE_STATUS
    && data[MINT_OFFSET..ADMIN_OFFSET] == mint
    && |data| >= SHARES_OFFSET + SHARE_LEN * Count(data)
  }

  function FirstShares(data: Bytes, n: nat): (shares: seq<Share>)
    requires |data| >= SHARES_OFFSET + SHARE_LEN * n && n <= U32_MAX
    ensures |shares| == n && ProperShares(shares)
    ensures forall i :: 0 <= i < n ==> shares[i] == ShareAt(data, i)
  {
    if n == 0 then [] else FirstShares(data, n - 1) + [ShareAt(data, n - 1)]
  }

  function SharesOf(data: Bytes, mint: Bytes): seq<Share>
    requires WellFormed(data, mint)
  {
    FirstShares(data, Count(data))
  }

  // ---- What the parser demands of the shares ----

  function TotalBps(shares: seq<Share>): nat {
    if shares == [] then 0 else TotalBps(shares[..|shares| - 1]) + shares[|shares| - 1].bps
  }

  ghost predicate HasShare(shares: seq<Share>, owner: Bytes) {
    exists i :: 0 <= i < |shares| && shares[i].address == owner
  }

  ghost predicate AllPositive(shares: seq<Share>) {
    forall i :: 0 <= i < |shares| ==> shares[i].bps > 0
  }

  /** Every share is positive, they add up to the whole, and the fee owner has one. */
  ghost predicate ValidShares(shares: seq<Share>, feeOwner: Bytes) {
    AllPositive(shares) && TotalBps(shares) == TOTAL_BPS && HasShare(shares, feeOwner)
  }

  function Addresses(shares: seq<Share>): (r: seq<Bytes>)
    ensures |r| == |shares|
    ensures forall i :: 0 <= i < |shares| ==> r[i] == shares[i].address
  {
    seq(|shares|, i requires 0 <= i < |shares| => shares[i].address)
  }

  lemma {:induction false} TotalOfPrefix(shares: seq<Share>, n: nat)
    requires n <= |shares|
    ensures TotalBps(shares[..n]) <= TotalBps(shares)
  {
    if n == |shares| {
      assert shares[..n] == shares;
    } else {
      assert shares[..|shares| - 1][..n] == shares[..n];
      TotalOfPrefix(shares[..|shares| - 1], n);
    }
  }

  // ---- The same, byte by byte ----

  /** The number of shares: four bytes, the least significant first. */
  function CountBytes(data: Bytes): nat
    requires |data| >= 80
  {
    data[76] as int + 256 * (data[77] as int) + 65_536 * (data[78] as int) + 16_777_216 * (data[79] as int)
  }

  /** The points of share `i`: two bytes, the least significant first. */
  function PointBytes(data: Bytes, i: nat): nat
    requires |data| >= 80 + 34 * (i + 1)
  {
    data[112 + 34 * i] as int + 256 * (data[113 + 34 * i] as int)
  }

  function PointSum(data: Bytes, n: nat): nat
    requires |data| >= 80 + 34 * n
  {
    if n == 0 then 0 else PointSum(data, n - 1) + PointBytes(data, n - 1)
  }

  /** The fixed parts, and room for the shares. */
  ghost predicate ShapeBytes(data: Bytes, mint: Bytes) {
    && |data| >= 80
    && data[..8] == [216, 74, 9, 0, 56, 140, 93, 75]
    && data[10] == 1
    && data[11..43] == mint
    && |data| >= 80 + 34 * CountBytes(data)
  }

  /** Every share is positive, they add up to the whole, and the fee owner has one. */
  ghost predicate ShareBytes(data: Bytes, n: nat, feeOwner: Bytes)
    requires |data| >= 80 + 34 * n
  {
    && (forall i :: 0 <= i < n ==> PointBytes(data, i) > 0)
    && PointSum(data, n) == 10_000
    && exists i :: 0 <= i < n && data[80 + 34 * i..112 + 34 * i] == feeOwner
  }

  /** What an account has to hold, byte by byte, to be accepted for a mint and a fee owner. */
  ghost predicate BytesAccepted(data: Bytes, mint: Bytes, feeOwner: Bytes) {
    ShapeBytes(data, mint) && ShareBytes(data, CountBytes(data), feeOwner)
  }

  lemma CountIsBytes(data: Bytes)
    requires |data| >= 80
    ensures Count(data) == CountBytes(data)
  {
  }

  lemma ShareIsBytes(data: Bytes, i: nat)
    requires |data| >= 80 + 34 * (i + 1)
    ensures ShareAt(data, i) == Share(data[80 + 34 * i..112 + 34 * i], PointBytes(data, i))
  {
    var slot := Slot(data, i);
    assert slot[..KEY_LEN] == data[80 + 34 * i..112 + 34 * i];
    assert slot[KEY_LEN..] == [data[112 + 34 * i], data[113 + 34 * i]];
  }

  lemma TotalOfAppend(shares: seq<Share>, s: Share)
    ensures TotalBps(shares + [s]) == TotalBps(shares) + s.bps
  {
    assert (shares + [s])[..|shares|] == shares;
  }

  lemma {:induction false} TotalIsBytes(data: Bytes, n: nat)
    requires |data| >= 80 + 34 * n && n <= U32_MAX
    ensures TotalBps(FirstShares(data, n)) == PointSum(data, n)
  {
    if n > 0 {
      TotalIsBytes(data, n - 1);
      ShareIsBytes(data, n - 1);
      TotalOfAppend(FirstShares(data, n - 1), ShareAt(data, n - 1));
      hide ShareAt, PointBytes, TotalBps;
    }
  }

  lemma SharesAreBytes(data: Bytes, n: nat)
    requires |data| >= 80 + 34 * n && n <= U32_MAX
    ensures forall i :: 0 <= i < n ==> FirstShares(data, n)[i] == Share(data[80 + 34 * i..112 + 34 * i], PointBytes(data, i))
  {
    forall i | 0 <= i < n
      ensures FirstShares(data, n)[i] == Share(data[80 + 34 * i..112 + 34 * i], PointBytes(data, i))
    {
      ShareIsBytes(data, i);
    }
  }

  lemma ShapeIsBytes(data: Bytes, mint: Bytes)
    ensures WellFormed(data, mint) <==> ShapeBytes(data, mint)
    ensures WellFormed(data, mint) ==> Count(data) == CountBytes(data)
  {
    if |data| >= 80 {
      CountIsBytes(data);
      hide Count, CountBytes;
    }
  }

  lemma FeeOwnerIsBytes(data: Bytes, n: nat, feeOwner: Bytes)
    requires |data| >= 80 + 34 * n && n <= U32_MAX
    ensures HasShare(FirstShares(data, n), feeOwner) <==> exists i :: 0 <= i < n && data[80 + 34 * i..112 + 34 * i] == feeOwner
  {
    SharesAreBytes(data, n);
    hide FirstShares, PointBytes;
    if HasShare(FirstShares(data, n), feeOwner) {
      var i :| 0 <= i < n && FirstShares(data, n)[i].address == feeOwner;
      assert data[80 + 34 * i..112 + 34 * i] == feeOwner;
    }
    if i :| 0 <= i < n && data[80 + 34 * i..112 + 34 * i] == feeOwner {
      assert FirstShares(data, n)[i].address == feeOwner;
    }
  }

  lemma PositiveIsBytes(data: Bytes, n: nat)
    requires |data| >= 80 + 34 * n && n <= U32_MAX
    ensures AllPositive(FirstShares(data, n)) <==> forall i :: 0 <= i < n ==> PointBytes(data, i) > 0
  {
    SharesAreBytes(data, n);
    hide FirstShares, PointBytes;
    if AllPositive(FirstShares(data, n)) {
      forall i | 0 <= i < n
        ensures PointBytes(data, i) > 0
      {
        assert FirstShares(data, n)[i].bps > 0;
      }
    }
  }

  lemma ValidIsBytes(data: Bytes, n: nat, feeOwner: Bytes)
    requires |data| >= 80 + 34 * n && n <= U32_MAX
    ensures ValidShares(FirstShares(data, n), feeOwner) <==> ShareBytes(data, n, feeOwner)
  {
    hide FirstShares, AllPositive, HasShare, TotalBps, PointSum, PointBytes;
    PositiveIsBytes(data, n);
    TotalIsBytes(data, n);
    FeeOwnerIsBytes(data, n, feeOwner);
  }

  /** The layout and the demands on the shares are these demands on bytes. */
  lemma BytesAcceptedExactly(data: Bytes, mint: Bytes, feeOwner: Bytes)
    ensures BytesAccepted(data, mint, feeOwner)
       <==> WellFormed(data, mint) && ValidShares(SharesOf(data, mint), feeOwner)
    ensures WellFormed(data, mint) ==>
              var addresses := Addresses(SharesOf(data, mint));
              && |addresses| == CountBytes(data)
              && forall i :: 0 <= i < |addresses| ==> addresses[i] == data[80 + 34 * i..112 + 34 * i]
  {
    hide WellFormed, ValidShares, FirstShares, Count, CountBytes, PointSum, PointBytes;
    ShapeIsBytes(data, mint);
    if WellFormed(data, mint) {
      ValidIsBytes(data, CountBytes(data), feeOwner);
      SharesAreBytes(data, CountBytes(data));
    }
  }

  /**
   * `require_pump_sharing_config`: it accepts exactly the accounts with the right address and
   * owner, the right fixed parts, room for their shares, and valid shares; and it returns the
   * shareholders' addresses in order. No index it reads is out of bounds.
   */
  method ParseSharingConfig(key: Bytes, expectedKey: Bytes, accountOwner: Bytes, feesProgram: Bytes,
                            data: Bytes, mint: Bytes, feeOwner: Bytes)
    returns (r: Result<seq<Bytes>>)
    ensures r.Ok? <==>
              && key == expectedKey && accountOwner == feesProgram
              && WellFormed(data, mint) && ValidShares(SharesOf(data, mint), feeOwner)
    ensures r.Ok? ==> r.value == Addresses(SharesOf(data, mint))
    ensures r.Ok? <==> key == expectedKey && accountOwner == feesProgram && BytesAccepted(data, mint, feeOwner)
    ensures r.Ok? ==>
              && |r.value| == CountBytes(data)
              && forall i :: 0 <= i < |r.value| ==> r.value[i] == data[80 + 34 * i..112 + 34 * i]
    ensures r.Err? ==> r.error == InvalidPumpAccount || r.error == MathOverflow
    ensures r.Err? && r.error == MathOverflow ==>
              ShapeBytes(data, mint) && exists n: nat :: n <= CountBytes(data) && PointSum(data, n) > 0xFFFF_FFFF
  {
    BytesAcceptedExactly(data, mint, feeOwner);
    hide HasShare, AllPositive, TotalBps, FirstShares, BytesAccepted;
    if key != expectedKey || accountOwner != feesProgram {
      return Err(InvalidPumpAccount);
    }
    if |data| < SHAREHOLDERS_OFFSET + 4 {
      return Err(InvalidPumpAccount);
    }
    if data[..8] != DISCRIMINATOR || data[STATUS_OFFSET] != ACTIVE_STATUS
       || data[MINT_OFFSET..MINT_OFFSET + KEY_LEN] != mint {
      return Err(InvalidPumpAccount);
    }
    var shareCount := ReadU32(data[SHAREHOLDERS_OFFSET..SHAREHOLDERS_OFFSET + 4]);
    var sharesOffset := SHAREHOLDERS_OFFSET + 4;
    var sharesLen := shareCount * SHARE_LEN;
    if |data| < sharesOffset + sharesLen {
      return Err(InvalidPumpAccount);
    }
    ghost var all := SharesOf(data, mint);
    var addresses: seq<Bytes> := [];
    var hasFeeOwnerShare := false;
    var totalShareBps := 0;
    StartScan(data, feeOwner);
    for index := 0 to shareCount
      invariant Scanned(FirstShares(data, index), feeOwner, addresses, hasFeeOwnerShare, totalShareBps)
    {
      var offset := sharesOffset + index * SHARE_LEN;
      var address := data[offset..offset + KEY_LEN];
      var shareBps := ReadU16(data[offset + KEY_LEN..offset + KEY_LEN + 2]);
      ScanNext(data, shareCount, index, feeOwner, addresses, hasFeeOwnerShare, totalShareBps, address, shareBps);
      if shareBps == 0 {
        return Err(InvalidPumpAccount);
      }
      if totalShareBps + shareBps > U32_MAX {
        TotalOverflows(data, mint, index, address, shareBps, totalShareBps);
        return Err(MathOverflow);
      }
      totalShareBps := totalShareBps + shareBps;
      if address == feeOwner && shareBps > 0 {
        hasFeeOwnerShare := true;
      }
      addresses := addresses + [address];
    }
    if !hasFeeOwnerShare {
      return Err(InvalidPumpAccount);
    }
    if totalShareBps != TOTAL_BPS {
      return Err(InvalidPumpAccount);
    }
    return Ok(addresses);
  }

  /** The running state of the scan after the given shares, all of them positive so far. */
  ghost predicate Scanned(shares: seq<Share>, feeOwner: Bytes, addresses: seq<Bytes>, has: bool, total: int) {
    && AllPositive(shares)
    && addresses == Addresses(shares)
    && (has <==> HasShare(shares, feeOwner))
    && total == TotalBps(shares) <= U32_MAX
  }

  lemma TotalOverflows(data: Bytes, mint: Bytes, index: nat, address: Bytes, bps: nat, total: int)
    requires WellFormed(data, mint) && index < Count(data) && total == TotalBps(FirstShares(data, index)) && total + bps > U32_MAX
    requires var offset := SHARES_OFFSET + index * SHARE_LEN;
      address == data[offset..offset + KEY_LEN] && bps == ReadU16(data[offset + KEY_LEN..offset + KEY_LEN + 2])
    ensures ShapeBytes(data, mint) && index + 1 <= CountBytes(data) && PointSum(data, index + 1) > U32_MAX
  {
    ShapeIsBytes(data, mint);
    NextShare(data, index, address, bps);
    TotalIsBytes(data, index + 1);
    hide WellFormed, ShapeBytes, Count, CountBytes, PointSum, ReadU16;
    var shares := FirstShares(data, index + 1);
    assert shares[..index] == FirstShares(data, index) && shares[index].bps == bps;
  }

  lemma StartScan(data: Bytes, feeOwner: Bytes)
    requires |data| >= SHARES_OFFSET
    ensures Scanned(FirstShares(data, 0), feeOwner, [], false, 0)
  {
  }

  lemma NextShare(data: Bytes, index: nat, address: Bytes, bps: nat)
    requires index < U32_MAX && |data| >= SHARES_OFFSET + SHARE_LEN * (index + 1)
    requires var offset := SHARES_OFFSET + index * SHARE_LEN;
      address == data[offset..offset + KEY_LEN] && bps == ReadU16(data[offset + KEY_LEN..offset + KEY_LEN + 2])
    ensures FirstShares(data, index + 1) == FirstShares(data, index) + [Share(address, bps)]
  {
    assert Slot(data, index)[..KEY_LEN] == address;
    assert Slot(data, index)[KEY_LEN..] == data[SHARES_OFFSET + index * SHARE_LEN + KEY_LEN..SHARES_OFFSET + index * SHARE_LEN + KEY_LEN + 2];
  }

  /** One more share in the scan. */
  lemma ScanStep(shares: seq<Share>, share: Share, feeOwner: Bytes, addresses: seq<Bytes>, has: bool, total: int)
    requires Scanned(shares, feeOwner, addresses, has, total) && share.bps > 0 && total + share.bps <= U32_MAX
    ensures Scanned(shares + [share], feeOwner, addresses + [share.address], has || share.address == feeOwner, total + share.bps)
  {
    var after := shares + [share];
    assert after[..|after| - 1] == shares && after[|shares|] == share;
    assert Addresses(after) == Addresses(shares) + [share.address];
    if HasShare(shares, feeOwner) {
      var i :| 0 <= i < |shares| && shares[i].address == feeOwner;
      assert after[i].address == feeOwner;
    }
  }

  /** A zero share, or a running total beyond 32 bits, can not be made good by later shares. */
  lemma ScanFails(all: seq<Share>, n: nat, feeOwner: Bytes)
    requires n < |all|
    requires all[n].bps == 0 || TotalBps(all[..n]) + all[n].bps > U32_MAX
    ensures !ValidShares(all, feeOwner)
  {
    assert all[..n + 1][..n] == all[..n];
    TotalOfPrefix(all, n + 1);
  }

  lemma FirstOfFirst(data: Bytes, n: nat, m: nat)
    requires n <= m <= U32_MAX && |data| >= SHARES_OFFSET + SHARE_LEN * m
    ensures FirstShares(data, m)[..n] == FirstShares(data, n)
  {
  }

  /** One more share: either the scan goes on, or the shares can not be valid. */
  lemma ScanNext(data: Bytes, count: nat, index: nat, feeOwner: Bytes, addresses: seq<Bytes>, has: bool, total: int,
                 address: Bytes, bps: nat)
    requires index < count <= U32_MAX && |data| >= SHARES_OFFSET + SHARE_LEN * count
    requires Scanned(FirstShares(data, index), feeOwner, addresses, has, total)
    requires var offset := SHARES_OFFSET + index * SHARE_LEN;
      address == data[offset..offset + KEY_LEN] && bps == ReadU16(data[offset + KEY_LEN..offset + KEY_LEN + 2])
    ensures bps > 0 && total + bps <= U32_MAX ==>
              Scanned(FirstShares(data, index + 1), feeOwner, addresses + [address], has || address == feeOwner, total + bps)
    ensures bps == 0 || total + bps > U32_MAX ==> !ValidShares(FirstShares(data, count), feeOwner)
  {
    NextShare(data, index, address, bps);
    FirstOfFirst(data, index, count);
    FirstOfFirst(data, index + 1, count);
    assert FirstShares(data, count)[index] == Share(address, bps) by {
      assert FirstShares(data, count)[..index + 1][index] == Share(address, bps);
    }
    hide FirstShares, ValidShares, HasShare, AllPositive, ReadU16;
    if bps > 0 && total + bps <= U32_MAX {
      ScanStep(FirstShares(data, index), Share(address, bps), feeOwner, addresses, has, total);
    } else {
      ScanFails(FirstShares(data, count), index, feeOwner);
    }
  }

  // ---- The parser reads back what the printer writes ----

  lemma ShareRoundTrip(s: Share)
    requires ProperShare(s)
    ensures DecodeShare(EncodeShare(s)) == s
  {
    U16RoundTrip(s.bps);
    assert EncodeShare(s)[..KEY_LEN] == s.address && EncodeShare(s)[KEY_LEN..] == U16(s.bps);
  }

  lemma SlotRoundTrip(slot: Bytes)
    requires |slot| == SHARE_LEN
    ensures EncodeShare(DecodeShare(slot)) == slot
  {
    ReadU16RoundTrip(slot[KEY_LEN..]);
  }

  lemma {:induction false} EncodedSlot(shares: seq<Share>, i: nat)
    requires ProperShares(shares) && i < |shares|
    ensures EncodeShares(shares)[SHARE_LEN * i..SHARE_LEN * (i + 1)] == EncodeShare(shares[i])
  {
    var n := |shares| - 1;
    if i < n {
      EncodedSlot(shares[..n], i);
      assert EncodeShares(shares)[..SHARE_LEN * n] == EncodeShares(shares[..n]);
      assert EncodeShares(shares)[SHARE_LEN * i..SHARE_LEN * (i + 1)]
          == EncodeShares(shares[..n])[SHARE_LEN * i..SHARE_LEN * (i + 1)];
    }
  }

  /** The header of an encoded account is where the parser looks for it. */
  lemma EncodedHeader(gap: Bytes, mint: Bytes, admin: Bytes, revoked: byte, count: nat, tail: Bytes)
    requires |gap| == 2 && |mint| == KEY_LEN && |admin| == KEY_LEN && count <= U32_MAX
    ensures var data := Header(gap, mint, admin, revoked, count) + tail;
      && data[..8] == DISCRIMINATOR && data[STATUS_OFFSET] == ACTIVE_STATUS
      && data[MINT_OFFSET..ADMIN_OFFSET] == mint && Count(data) == count && data[SHARES_OFFSET..] == tail
  {
    var data := Header(gap, mint, admin, revoked, count) + tail;
    U32RoundTrip(count);
    assert data[SHAREHOLDERS_OFFSET..SHARES_OFFSET] == U32(count);
  }

  lemma SlotInBlock(data: Bytes, n: nat, i: nat)
    requires i < n && |data| >= SHARES_OFFSET + SHARE_LEN * n
    ensures Slot(data, i) == data[SHARES_OFFSET..SHARES_OFFSET + SHARE_LEN * n][SHARE_LEN * i..SHARE_LEN * (i + 1)]
  {
    SliceOfSlice(data, SHARES_OFFSET, SHARES_OFFSET + SHARE_LEN * n, SHARE_LEN * i, SHARE_LEN * (i + 1));
  }

  lemma SliceOfSlice(data: Bytes, lo: nat, hi: nat, i: nat, j: nat)
    requires lo <= hi <= |data| && i <= j <= hi - lo
    ensures data[lo..hi][i..j] == data[lo + i..lo + j]
  {
    var part, slice := data[lo..hi][i..j], data[lo + i..lo + j];
    assert forall k :: 0 <= k < j - i ==> part[k] == slice[k];
  }

  lemma {:induction false} SharesRoundTrip(data: Bytes, shares: seq<Share>, n: nat)
    requires ProperShares(shares) && n <= |shares| && |data| >= SHARES_OFFSET + SHARE_LEN * |shares|
    requires data[SHARES_OFFSET..SHARES_OFFSET + SHARE_LEN * |shares|] == EncodeShares(shares)
    ensures FirstShares(data, n) == shares[..n]
  {
    if n > 0 {
      SharesRoundTrip(data, shares, n - 1);
      EncodedSlot(shares, n - 1);
      ShareRoundTrip(shares[n - 1]);
      SlotInBlock(data, |shares|, n - 1);
      assert shares[..n] == shares[..n - 1] + [shares[n - 1]];
    }
  }

  /**
   * Round trip: whatever the two unused bytes, the admin, its flag and the bytes after the shares
   * are, an encoded account is well formed and holds the shares it was made from, in order.
   */
  lemma DecodeEncode(gap: Bytes, mint: Bytes, admin: Bytes, revoked: byte, shares: seq<Share>, rest: Bytes)
    requires |gap| == 2 && |mint| == KEY_LEN && |admin| == KEY_LEN && ProperShares(shares)
    ensures WellFormed(Encode(gap, mint, admin, revoked, shares, rest), mint)
    ensures SharesOf(Encode(gap, mint, admin, revoked, shares, rest), mint) == shares
  {
    var data := Encode(gap, mint, admin, revoked, shares, rest);
    var tail := EncodeShares(shares) + rest;
    assert data == Header(gap, mint, admin, revoked, |shares|) + tail;
    EncodedHeader(gap, mint, admin, revoked, |shares|, tail);
    hide Header, Count, EncodeShares;
    SharesRoundTrip(data, shares, |shares|);
    assert shares[..|shares|] == shares;
  }

  lemma EncodeOneMore(shares: seq<Share>, share: Share)
    requires ProperShares(shares) && ProperShare(share) && |shares| < U32_MAX
    ensures ProperShares(shares + [share]) && EncodeShares(shares + [share]) == EncodeShares(shares) + EncodeShare(share)
  {
    assert (shares + [share])[..|shares|] == shares;
  }

  lemma Adjacent(data: Bytes, lo: nat, mid: nat, hi: nat)
    requires lo <= mid <= hi <= |data|
    ensures data[lo..hi] == data[lo..mid] + data[mid..hi]
  {
  }

  lemma {:induction false} SlotsRoundTrip(data: Bytes, n: nat)
    requires |data| >= SHARES_OFFSET + SHARE_LEN * n && n <= U32_MAX
    ensures EncodeShares(FirstShares(data, n)) == data[SHARES_OFFSET..SHARES_OFFSET + SHARE_LEN * n]
  {
    hide EncodeShares, EncodeShare, DecodeShare, ProperShare;
    if n == 0 {
      assert EncodeShares([]) == [];
    } else {
      SlotsRoundTrip(data, n - 1);
      SlotRoundTrip(Slot(data, n - 1));
      EncodeOneMore(FirstShares(data, n - 1), ShareAt(data, n - 1));
      Adjacent(data, SHARES_OFFSET, SHARES_OFFSET + SHARE_LEN * (n - 1), SHARES_OFFSET + SHARE_LEN * n);
    }
  }

  lemma HeaderRoundTrip(data: Bytes, mint: Bytes)
    requires WellFormed(data, mint)
    ensures Header(data[8..10], mint, data[ADMIN_OFFSET..ADMIN_REVOKED_OFFSET], data[ADMIN_REVOKED_OFFSET], Count(data))
         == data[..SHARES_OFFSET]
  {
    ReadU32RoundTrip(data[SHAREHOLDERS_OFFSET..SHARES_OFFSET]);
    assert data[..SHARES_OFFSET] == data[..8] + data[8..10] + [data[STATUS_OFFSET]] + data[MINT_OFFSET..ADMIN_OFFSET]
        + data[ADMIN_OFFSET..ADMIN_REVOKED_OFFSET] + [data[ADMIN_REVOKED_OFFSET]] + data[SHAREHOLDERS_OFFSET..SHARES_OFFSET];
  }

  /** Converse: a well-formed account is the encoding of the shares read from it. */
  lemma {:induction false} EncodeDecode(data: Bytes, mint: Bytes)
    requires WellFormed(data, mint)
    ensures data == Encode(data[8..10], mint, data[ADMIN_OFFSET..ADMIN_REVOKED_OFFSET], data[ADMIN_REVOKED_OFFSET],
                           SharesOf(data, mint), data[SHARES_OFFSET + SHARE_LEN * Count(data)..])
  {
    HeaderRoundTrip(data, mint);
    SlotsRoundTrip(data, Count(data));
    hide Header, Count, EncodeShares;
  }

  ghost predicate Encodes(data: Bytes, mint: Bytes, gap: Bytes, admin: Bytes, revoked: byte, shares: seq<Share>, rest: Bytes) {
    && |gap| == 2 && |mint| == KEY_LEN && |admin| == KEY_LEN && ProperShares(shares)
    && data == Encode(gap, mint, admin, revoked, shares, rest)
  }

  /** The accounts accepted for a mint are exactly the encodings of valid shares. */
  lemma {:induction false} AcceptedExactly(data: Bytes, mint: Bytes, feeOwner: Bytes)
    ensures WellFormed(data, mint) && ValidShares(SharesOf(data, mint), feeOwner)
       <==> exists gap, admin, revoked, shares, rest ::
              Encodes(data, mint, gap, admin, revoked, shares, rest) && ValidShares(shares, feeOwner)
  {
    hide Encode, FirstShares, Count, ValidShares;
    if WellFormed(data, mint) && ValidShares(SharesOf(data, mint), feeOwner) {
      EncodeDecode(data, mint);
      assert Encodes(data, mint, data[8..10], data[ADMIN_OFFSET..ADMIN_REVOKED_OFFSET], data[ADMIN_REVOKED_OFFSET],
                     SharesOf(data, mint), data[SHARES_OFFSET + SHARE_LEN * Count(data)..]);
    }
    if gap, admin, revoked, shares, rest :|
        Encodes(data, mint, gap, admin, revoked, shares, rest) && ValidShares(shares, feeOwner) {
      DecodeEncode(gap, mint, admin, revoked, shares, rest);
    }
  }

  // ---- The printer ----

  /** `before` with `bytes` written at `offset`. */
  function Splice(before: Bytes, offset: nat, bytes: Bytes): (after: Bytes)
    requires offset + |bytes| <= |before|
    ensures |after| == |before|
  {
    before[..offset] + bytes + before[offset + |bytes|..]
  }

  lemma SpliceNext(before: Bytes, offset: nat, bytes: Bytes, i: nat)
    requires offset + |bytes| <= |before| && i < |bytes|
    ensures Splice(before, offset, bytes[..i])[offset + i := bytes[i]] == Splice(before, offset, bytes[..i + 1])
  {
  }

  lemma SpliceNone(before: Bytes, offset: nat)
    requires offset <= |before|
    ensures Splice(before, offset, []) == before
  {
  }

  /** `copy_from_slice` into the bytes at `offset`. */
  method CopyInto(data: array<byte>, offset: nat, bytes: Bytes)
    requires offset + |bytes| <= data.Length
    modifies data
    ensures data[..] == Splice(old(data[..]), offset, bytes)
  {
    hide Splice;
    SpliceNone(data[..], offset);
    assert bytes[..0] == [];
    for i := 0 to |bytes|
      invariant data[..] == Splice(old(data[..]), offset, bytes[..i])
    {
      SpliceNext(old(data[..]), offset, bytes, i);
      SetByte(data, offset + i, bytes[i]);
    }
    assert bytes[..|bytes|] == bytes;
  }

  /** The first `n` shares stand after the header, and what follows is as before. */
  ghost predicate Written(data: Bytes, header: Bytes, shares: seq<Share>, n: nat, before: Bytes) {
    && |header| == SHARES_OFFSET && ProperShares(shares) && n <= |shares|
    && |before| >= SHARES_OFFSET + SHARE_LEN * |shares|
    && data == header + EncodeShares(shares[..n]) + before[SHARES_OFFSET + SHARE_LEN * n..]
  }

  /** Writing an address and the share after it writes one more share. */
  lemma WriteShare(data: Bytes, header: Bytes, shares: seq<Share>, n: nat, before: Bytes)
    requires Written(data, header, shares, n, before) && n < |shares|
    ensures var offset := SHARES_OFFSET + SHARE_LEN * n;
      Written(Splice(Splice(data, offset, shares[n].address), offset + KEY_LEN, U16(shares[n].bps)),
              header, shares, n + 1, before)
  {
    var offset := SHARES_OFFSET + SHARE_LEN * n;
    var once := Splice(data, offset, shares[n].address);
    var twice := Splice(once, offset + KEY_LEN, U16(shares[n].bps));
    assert shares[..n + 1][..n] == shares[..n];
    assert twice == data[..offset] + EncodeShare(shares[n]) + data[offset + SHARE_LEN..];
    assert EncodeShares(shares[..n + 1]) == EncodeShares(shares[..n]) + EncodeShare(shares[n]);
    assert data[..offset] == header + EncodeShares(shares[..n]);
    assert data[offset + SHARE_LEN..] == before[offset + SHARE_LEN..];
  }

  /** The six writes that make the header. */
  lemma WriteHeader(before: Bytes, mint: Bytes, admin: Bytes, revoked: byte, count: nat)
    requires |before| >= SHARES_OFFSET && |mint| == KEY_LEN && |admin| == KEY_LEN && count <= U32_MAX
    ensures var d1 := Splice(before, 0, DISCRIMINATOR);
      var d2 := d1[STATUS_OFFSET := ACTIVE_STATUS];
      var d3 := Splice(Splice(d2, MINT_OFFSET, mint), ADMIN_OFFSET, admin);
      var d4 := d3[ADMIN_REVOKED_OFFSET := revoked];
      Splice(d4, SHAREHOLDERS_OFFSET, U32(count))
        == Header(before[8..10], mint, admin, revoked, count) + before[SHARES_OFFSET..]
  {
    hide U32;
    var gap := before[8..10];
    var d1 := Splice(before, 0, DISCRIMINATOR);
    var h2 := DISCRIMINATOR + gap + [ACTIVE_STATUS];
    var d2 := d1[STATUS_OFFSET := ACTIVE_STATUS];
    assert d2 == h2 + before[MINT_OFFSET..];
    var d3 := Splice(Splice(d2, MINT_OFFSET, mint), ADMIN_OFFSET, admin);
    assert Splice(d2, MINT_OFFSET, mint) == h2 + mint + before[ADMIN_OFFSET..];
    assert d3 == h2 + mint + admin + before[ADMIN_REVOKED_OFFSET..];
    var d4 := d3[ADMIN_REVOKED_OFFSET := revoked];
    assert d4 == h2 + mint + admin + [revoked] + before[SHAREHOLDERS_OFFSET..];
  }

  /** What the printer leaves in the buffer, byte by byte. */
  ghost predicate BytesPrinted(data: Bytes, before: Bytes, mint: Bytes, admin: Bytes, adminRevoked: bool, shares: seq<Share>) {
    var n := |shares|;
    && |data| == |before| >= 80 + 34 * n
    && data[..8] == [216, 74, 9, 0, 56, 140, 93, 75]
    && data[8..10] == before[8..10]
    && data[10] == 1
    && data[11..43] == mint
    && data[43..75] == admin
    && data[75] == (if adminRevoked then 1 else 0)
    && CountBytes(data) == n
    && (forall i :: 0 <= i < n ==> data[80 + 34 * i..112 + 34 * i] == shares[i].address && PointBytes(data, i) == shares[i].bps)
    && data[80 + 34 * n..] == before[80 + 34 * n..]
  }

  lemma EncodedBytes(before: Bytes, mint: Bytes, admin: Bytes, adminRevoked: bool, shares: seq<Share>)
    requires |mint| == KEY_LEN && |admin| == KEY_LEN && ProperShares(shares) && |before| >= 80 + 34 * |shares|
    ensures BytesPrinted(Encode(before[8..10], mint, admin, if adminRevoked then 1 else 0, shares, before[80 + 34 * |shares|..]),
                         before, mint, admin, adminRevoked, shares)
  {
    var n, revoked: byte := |shares|, if adminRevoked then 1 else 0;
    var data := Encode(before[8..10], mint, admin, revoked, shares, before[80 + 34 * n..]);
    var tail := EncodeShares(shares) + before[80 + 34 * n..];
    assert data == Header(before[8..10], mint, admin, revoked, n) + tail;
    hide Header, Count, CountBytes, EncodeShares, Encode, FirstShares, PointBytes, ShareAt, ProperShare;
    EncodedHeader(before[8..10], mint, admin, revoked, n, tail);
    HeaderBytes(before[8..10], mint, admin, revoked, n, tail);
    DecodeEncode(before[8..10], mint, admin, revoked, shares, before[80 + 34 * n..]);
    CountIsBytes(data);
    SharesAreBytes(data, n);
    assert data[80 + 34 * n..] == tail[34 * n..];
  }

  lemma HeaderBytes(gap: Bytes, mint: Bytes, admin: Bytes, revoked: byte, count: nat, tail: Bytes)
    requires |gap| == 2 && |mint| == KEY_LEN && |admin| == KEY_LEN && count <= U32_MAX
    ensures var data := Header(gap, mint, admin, revoked, count) + tail;
      data[8..10] == gap && data[43..75] == admin && data[75] == revoked && data[80..] == tail
  {
    hide U32;
  }

  /**
   * The printer: it lays the header and the shares over the buffer and leaves the two unused
   * bytes and everything after the last share as they were.
   */
  method WriteSharingConfig(data: array<byte>, mint: Bytes, admin: Bytes, adminRevoked: bool, shareholders: seq<Share>)
    requires |mint| == KEY_LEN && |admin| == KEY_LEN && ProperShares(shareholders)
    requires data.Length >= SHARES_OFFSET + SHARE_LEN * |shareholders|
    modifies data
    ensures data[..] == Encode(old(data[8..10]), mint, admin, if adminRevoked then 1 else 0, shareholders,
                               old(data[SHARES_OFFSET + SHARE_LEN * |shareholders|..]))
    ensures BytesPrinted(data[..], old(data[..]), mint, admin, adminRevoked, shareholders)
  {
    hide Header, EncodeShares, Splice, Written, U16, U32;
    ghost var before := data[..];
    var revoked: byte := if adminRevoked then 1 else 0;
    WriteHeader(before, mint, admin, revoked, |shareholders|);
    CopyInto(data, 0, DISCRIMINATOR);
    SetByte(data, STATUS_OFFSET, ACTIVE_STATUS);
    CopyInto(data, MINT_OFFSET, mint);
    CopyInto(data, ADMIN_OFFSET, admin);
    SetByte(data, ADMIN_REVOKED_OFFSET, revoked);
    CopyInto(data, SHAREHOLDERS_OFFSET, U32(|shareholders|));
    ghost var header := Header(before[8..10], mint, admin, revoked, |shareholders|);
    NothingWritten(data[..], header, shareholders, before);

    var offset := SHARES_OFFSET;
    for i := 0 to |shareholders|
      invariant offset == SHARES_OFFSET + SHARE_LEN * i
      invariant Written(data[..], header, shareholders, i, before)
    {
      WriteShare(data[..], header, shareholders, i, before);
      CopyInto(data, offset, shareholders[i].address);
      offset := offset + KEY_LEN;
      CopyInto(data, offset, U16(shareholders[i].bps));
      offset := offset + 2;
    }
    AllWritten(data[..], header, shareholders, before);
    assert before[SHARES_OFFSET + SHARE_LEN * |shareholders|..] == old(data[SHARES_OFFSET + SHARE_LEN * |shareholders|..]);
    EncodedBytes(before, mint, admin, adminRevoked, shareholders);
  }

  method SetByte(data: array<byte>, offset: nat, value: byte)
    requires offset < data.Length
    modifies data
    ensures data[..] == old(data[..])[offset := value]
  {
    data[offset] := value;
  }

  lemma NothingWritten(data: Bytes, header: Bytes, shares: seq<Share>, before: Bytes)
    requires |header| == SHARES_OFFSET && ProperShares(shares) && |before| >= SHARES_OFFSET + SHARE_LEN * |shares|
    requires data == header + before[SHARES_OFFSET..]
    ensures Written(data, header, shares, 0, before)
  {
  }

  lemma {:induction false} AllWritten(data: Bytes, header: Bytes, shares: seq<Share>, before: Bytes)
    requires Written(data, header, shares, |shares|, before)
    ensures data == header + EncodeShares(shares) + before[SHARES_OFFSET + SHARE_LEN * |shares|..]
  {
    assert shares[..|shares|] == shares;
  }
}
