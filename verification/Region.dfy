// One Cortex-M MPU region (arch/cortex-m/src/mpu.rs), together with the meaning
// the hardware gives to its two register values (section 4.5 of ARM DUI 0553A).

module Region {
  import opened Wrappers
  import opened Powers

  datatype Permissions =
    | ReadWriteExecute
    | ReadWriteOnly
    | ReadExecuteOnly
    | ReadOnly
    | ExecuteOnly

  // The AP encodings the kernel uses.
  datatype Access = NoAccess | PrivilegedOnly | UnprivilegedReadOnly | ReadWrite

  // RBAR with VALID set: ADDR holds bits 31..5 of the base, REGION the slot the
  // write goes to.
  datatype BaseAddress = BaseAddress(addr: nat, region: nat)

  // The SRD field: bit j set disables subregion j.
  type DisableBits = s: seq<bool> | |s| == 8 witness ALL_ENABLED

  // RASR.
  datatype Attributes = Attributes(enable: bool, size: nat, srd: DisableBits, access: Access, executeNever: bool)

  datatype Location = Location(start: nat, size: nat)

  // The value pair kept for one region, and the logical location it stands for.
  datatype CortexMRegion = CortexMRegion(location: Option<Location>, base: BaseAddress, attributes: Attributes)

  const ALL_ENABLED: seq<bool> := [false, false, false, false, false, false, false, false]
  const ALL_DISABLED: seq<bool> := [true, true, true, true, true, true, true, true]

  // ------------------------------------------------ hardware interpretation

  function RegionSize(r: CortexMRegion): nat {
    Pow2(r.attributes.size + 1)
  }

  // The hardware ignores base address bits below the region size.
  function RegionBase(r: CortexMRegion): nat {
    AlignDown(r.base.addr * 32, RegionSize(r))
  }

  // Does the region's register pair match address a? Subregions exist only in
  // regions of at least 256 bytes.
  predicate Covers(r: CortexMRegion, a: int) {
    && r.attributes.enable
    && RegionBase(r) <= a < RegionBase(r) + RegionSize(r)
    && (RegionSize(r) >= 256 ==>
          var j := (a - RegionBase(r)) / (RegionSize(r) / 8);
          0 <= j < 8 && !r.attributes.srd[j])
  }

  predicate UserCanRead(r: CortexMRegion, a: int) {
    Covers(r, a) && (r.attributes.access == UnprivilegedReadOnly || r.attributes.access == ReadWrite)
  }

  predicate UserCanWrite(r: CortexMRegion, a: int) {
    Covers(r, a) && r.attributes.access == ReadWrite
  }

  // An instruction fetch needs read access and XN clear.
  predicate UserCanExecute(r: CortexMRegion, a: int) {
    UserCanRead(r, a) && !r.attributes.executeNever
  }

  predicate InLocation(l: Location, a: int) {
    l.start <= a < l.start + l.size
  }

  // ---------------------------------------------------------- construction

  // fold(u8::MAX, |res, i| res ^ (1 << i)) over the inclusive range lo..=hi.
  function ToggleRange(mask: DisableBits, lo: nat, hi: nat): (m: DisableBits)
    requires hi < 8
    ensures forall j :: 0 <= j < 8 ==> m[j] == (if lo <= j <= hi then !mask[j] else mask[j])
    decreases hi + 1 - lo
  {
    if lo > hi then mask else ToggleRange(mask[lo := !mask[lo]], lo + 1, hi)
  }

  function AccessOf(p: Permissions): Access {
    match p
    case ReadWriteExecute | ReadWriteOnly => ReadWrite
    case ReadExecuteOnly | ReadOnly => UnprivilegedReadOnly
    case ExecuteOnly => PrivilegedOnly
  }

  predicate ExecuteNeverOf(p: Permissions) {
    p == ReadWriteOnly || p == ReadOnly
  }

  // What the register encoding can express.
  ghost predicate Encodable(regionStart: nat, regionSize: nat, subregions: Option<(nat, nat)>) {
    && IsPow2(regionSize) && regionSize >= 32
    && regionStart % regionSize == 0
    && (subregions.Some? ==> regionSize >= 256 && subregions.value.0 <= subregions.value.1 < 8)
  }

  function NewRegion(location: Location, regionStart: nat, regionSize: nat, regionNum: nat,
                     subregions: Option<(nat, nat)>, permissions: Permissions): (r: CortexMRegion)
    requires regionSize >= 2
    requires subregions.Some? ==> subregions.value.1 < 8
    ensures r.location == Some(location) && r.base.region == regionNum && r.attributes.access == AccessOf(permissions)
    ensures r.attributes.executeNever == ExecuteNeverOf(permissions)
  {
    var base := BaseAddress(regionStart / 32, regionNum);
    var srd := match subregions
      case None => ALL_ENABLED
      case Some((lo, hi)) => ToggleRange(ALL_DISABLED, lo, hi);
    CortexMRegion(Some(location), base,
                  Attributes(true, Log2(regionSize) - 1, srd, AccessOf(permissions), ExecuteNeverOf(permissions)))
  }

  function Empty(regionNum: nat): CortexMRegion {
    CortexMRegion(None, BaseAddress(0, regionNum), Attributes(false, 0, ALL_ENABLED, NoAccess, false))
  }

  predicate Overlaps(r: CortexMRegion, otherStart: nat, otherSize: nat) {
    r.location.Some?
    && r.location.value.start < otherStart + otherSize
    && otherStart < r.location.value.start + r.location.value.size
  }

  // ------------------------------------------------------------ correctness

  lemma EncodingDecodes(regionStart: nat, regionSize: nat)
    requires IsPow2(regionSize) && regionSize >= 32 && regionStart % regionSize == 0
    ensures Log2(regionSize) >= 1 && Pow2(Log2(regionSize)) == regionSize
    ensures regionStart / 32 * 32 == regionStart
    ensures regionSize % 32 == 0 && (regionSize >= 256 ==> regionSize % 8 == 0)
  {
    Pow2Constants();
    var k := Pow2Exponent(regionSize, 5);
    Log2Pow2(k);
    Pow2Divides(5, k);
    Pow2Divides(3, k);
    ModTrans(regionStart, regionSize, 32);
  }

  // off / sub lands in lo..=hi exactly when off lands in the corresponding bytes.
  lemma SubregionIndex(off: nat, sub: nat, lo: nat, hi: nat)
    requires sub > 0
    ensures lo <= off / sub <= hi <==> lo * sub <= off < (hi + 1) * sub
  {
    var j := off / sub;
    assert off == j * sub + off % sub;
    if j < lo { MulLe(j + 1, lo, sub); }
    if lo <= j { MulLe(lo, j, sub); }
    if j <= hi { MulLe(j + 1, hi + 1, sub); }
    if hi < j { MulLe(hi + 1, j, sub); }
  }

  lemma MulLe(a: int, b: int, d: int)
    requires a <= b && d >= 0
    ensures a * d <= b * d
  {
  }

  // The address range an encodable region makes accessible.
  function EncodedStart(regionStart: nat, regionSize: nat, subregions: Option<(nat, nat)>): nat {
    if subregions.None? then regionStart else regionStart + subregions.value.0 * (regionSize / 8)
  }

  function EncodedEnd(regionStart: nat, regionSize: nat, subregions: Option<(nat, nat)>): nat {
    if subregions.None? then regionStart + regionSize else regionStart + (subregions.value.1 + 1) * (regionSize / 8)
  }

  // Reading an SRD field that enables exactly subregions lo..=hi.
  lemma SrdCovers(r: CortexMRegion, lo: nat, hi: nat, a: int)
    requires r.attributes.enable && RegionSize(r) >= 256 && RegionSize(r) % 8 == 0
    requires lo <= hi < 8
    requires forall j :: 0 <= j < 8 ==> r.attributes.srd[j] == !(lo <= j <= hi)
    ensures Covers(r, a)
       <==> RegionBase(r) + lo * (RegionSize(r) / 8) <= a < RegionBase(r) + (hi + 1) * (RegionSize(r) / 8)
  {
    var base, size, sub := RegionBase(r), RegionSize(r), RegionSize(r) / 8;
    MulLe(hi + 1, 8, sub);
    if base <= a < base + size {
      SubregionIndex(a - base, sub, lo, hi);
      SubregionIndex(a - base, sub, 0, 7);
    }
  }

  lemma NewRegionDecodes(location: Location, regionStart: nat, regionSize: nat, regionNum: nat,
                         subregions: Option<(nat, nat)>, permissions: Permissions)
    requires Encodable(regionStart, regionSize, subregions)
    ensures var r := NewRegion(location, regionStart, regionSize, regionNum, subregions, permissions);
            RegionSize(r) == regionSize && RegionBase(r) == regionStart
    ensures regionSize % 8 == 0
  {
    EncodingDecodes(regionStart, regionSize);
    AlreadyAligned(regionStart, regionSize);
  }

  lemma AlreadyAligned(x: nat, d: nat)
    requires d > 0 && x % d == 0
    ensures AlignDown(x, d) == x
  {
  }

  // Encoding into base, SIZE and SRD and decoding as the hardware does yields
  // exactly the requested bytes.
  lemma NewRegionCovers(location: Location, regionStart: nat, regionSize: nat, regionNum: nat,
                        subregions: Option<(nat, nat)>, permissions: Permissions, a: int)
    requires Encodable(regionStart, regionSize, subregions)
    ensures Covers(NewRegion(location, regionStart, regionSize, regionNum, subregions, permissions), a)
       <==> EncodedStart(regionStart, regionSize, subregions) <= a < EncodedEnd(regionStart, regionSize, subregions)
  {
    NewRegionDecodes(location, regionStart, regionSize, regionNum, subregions, permissions);
    var r := NewRegion(location, regionStart, regionSize, regionNum, subregions, permissions);
    if RegionSize(r) >= 256 {
      var (lo, hi) := if subregions.Some? then subregions.value else (0, 7);
      SrdCovers(r, lo, hi, a);
    }
  }

  // What user mode may do in those bytes is what the permissions say, except that
  // execute-only, for which the hardware has no encoding, lets it do nothing.
  lemma NewRegionUser(location: Location, regionStart: nat, regionSize: nat, regionNum: nat,
                      subregions: Option<(nat, nat)>, permissions: Permissions, a: int)
    requires Encodable(regionStart, regionSize, subregions)
    ensures var r := NewRegion(location, regionStart, regionSize, regionNum, subregions, permissions);
            var inside := EncodedStart(regionStart, regionSize, subregions) <= a
                          < EncodedEnd(regionStart, regionSize, subregions);
            && (UserCanRead(r, a) <==> inside && permissions != ExecuteOnly)
            && (UserCanWrite(r, a) <==> inside && permissions in {ReadWriteExecute, ReadWriteOnly})
            && (UserCanExecute(r, a) <==> inside && permissions in {ReadWriteExecute, ReadExecuteOnly})
  {
    NewRegionCovers(location, regionStart, regionSize, regionNum, subregions, permissions, a);
  }

  // A disabled region matches nothing and overlaps no range.
  lemma EmptyCoversNothing(regionNum: nat, a: int, start: nat, size: nat)
    ensures !Covers(Empty(regionNum), a) && !Overlaps(Empty(regionNum), start, size)
  {
  }

  // `overlaps` is exactly "shares an address", for non-empty ranges.
  lemma OverlapsMeansShared(r: CortexMRegion, otherStart: nat, otherSize: nat)
    requires r.location.Some? && r.location.value.size > 0 && otherSize > 0
    ensures Overlaps(r, otherStart, otherSize)
       <==> exists a :: InLocation(r.location.value, a) && InLocation(Location(otherStart, otherSize), a)
  {
    if Overlaps(r, otherStart, otherSize) {
      var a := Max(r.location.value.start, otherStart);
      assert InLocation(r.location.value, a) && InLocation(Location(otherStart, otherSize), a);
    }
  }
}
