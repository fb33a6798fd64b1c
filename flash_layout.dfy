/**
 * The flash devices and the logical partition table of the SCX1701 board
 * (board/SCX1701/mico_board.c, `platform_flash_peripherals` and
 * `mico_partitions`), the lookups higher layers use on them, and the
 * construction-time layout check.
 *
 * Partition start addresses are absolute: an embedded partition stores
 * 0x08008000, not the offset 0x8000 from its device's base.
 */
module Scx1701Flash {
  import opened Results

  /** Size of the 32-bit address space of the MCU. */
  const ADDRESS_SPACE: nat := 0x1_0000_0000

  /** MICO_FLASH_EMBEDDED and MICO_FLASH_SPI. */
  datatype FlashId = Embedded | Spi

  /** FLASH_TYPE_EMBEDDED and FLASH_TYPE_SPI. */
  datatype FlashType = EmbeddedFlash | SpiFlash

  datatype FlashDevice = FlashDevice(id: FlashId, flashType: FlashType, startAddr: nat, length: nat)

  /** `partition_owner`: a flash device, or MICO_FLASH_NONE for a partition this board lacks. */
  datatype Owner = OwnedBy(flash: FlashId) | NoFlash

  /** The partition ids this board's table declares. */
  datatype PartitionId =
    | Bootloader | Application | Ate | RfFirmware | OtaTemp | Parameter1 | Parameter2 | Filesys

  /** `partition_options`: the read and write enable bits, independent of each other. */
  datatype Options = Options(readEnabled: bool, writeEnabled: bool)

  const READ_EN_WRITE_DIS := Options(true, false)
  const READ_EN_WRITE_EN := Options(true, true)

  datatype Partition = Partition(
    id: PartitionId,
    owner: Owner,
    description: Option<string>,
    startAddr: nat,
    length: nat,
    options: Options)

  /** One past the last byte of a device's window. */
  function DeviceEnd(d: FlashDevice): nat { d.startAddr + d.length }

  /** One past the last byte of a partition. */
  function PartitionEnd(p: Partition): nat { p.startAddr + p.length }

  const FlashDevices: seq<FlashDevice> := [
    FlashDevice(Embedded, EmbeddedFlash, 0x0800_0000, 0x10_0000),  // 1 MB
    FlashDevice(Spi, SpiFlash, 0x00_0000, 0x20_0000)               // 2 MB
  ]

  /** The partition table in declaration order; ATE's unset fields are zero. */
  const Partitions: seq<Partition> := [
    Partition(Bootloader, OwnedBy(Embedded), Some("Bootloader"), 0x0800_0000, 0x8000, READ_EN_WRITE_DIS),
    Partition(Application, OwnedBy(Embedded), Some("Application"), 0x0800_8000, 0x8_0000, READ_EN_WRITE_DIS),
    Partition(Ate, NoFlash, None, 0, 0, Options(false, false)),
    Partition(RfFirmware, OwnedBy(Spi), Some("RF Firmware"), 0x2000, 0x3_E000, READ_EN_WRITE_DIS),
    Partition(OtaTemp, OwnedBy(Spi), Some("OTA Storage"), 0x4_0000, 0x8_0000, READ_EN_WRITE_EN),
    Partition(Parameter1, OwnedBy(Spi), Some("PARAMETER1"), 0x0, 0x1000, READ_EN_WRITE_EN),
    Partition(Parameter2, OwnedBy(Spi), Some("PARAMETER2"), 0x1000, 0x1000, READ_EN_WRITE_EN),
    Partition(Filesys, OwnedBy(Spi), Some("FILESYS"), 0x10_0000, 0x10_0000, READ_EN_WRITE_EN)
  ]

  // ---------------------------------------------------------------------------
  // Lookups

  /** The device a flash id names in a device table, if there is one. */
  function FindDevice(devs: seq<FlashDevice>, f: FlashId): (r: Option<FlashDevice>)
    ensures r.Some? ==> r.value in devs && r.value.id == f
    ensures r.None? <==> forall d :: d in devs ==> d.id != f
  {
    if devs == [] then None
    else if devs[0].id == f then Some(devs[0])
    else FindDevice(devs[1..], f)
  }

  /** Entry `i` carries `id`, and no entry before it does. */
  predicate FirstWithId(parts: seq<Partition>, id: PartitionId, i: int) {
    0 <= i < |parts| && parts[i].id == id && forall k :: 0 <= k < i ==> parts[k].id != id
  }

  /** At most one entry is the first with a given id. */
  lemma FirstWithIdUnique(parts: seq<Partition>, id: PartitionId, i: int, j: int)
    requires FirstWithId(parts, id, i) && FirstWithId(parts, id, j)
    ensures i == j
  {
  }

  /** Skipping a head entry with another id moves the first occurrence by one. */
  lemma FirstWithIdShift(parts: seq<Partition>, id: PartitionId, i: int)
    requires |parts| > 0 && parts[0].id != id && FirstWithId(parts[1..], id, i)
    ensures FirstWithId(parts, id, i + 1) && parts[i + 1] == parts[1..][i]
  {
    forall k | 0 <= k < i + 1 ensures parts[k].id != id {
      if k > 0 {
        assert parts[k] == parts[1..][k - 1];
      }
    }
  }

  /** The first table entry declared for a partition id, if there is one. */
  function FindPartition(parts: seq<Partition>, id: PartitionId): (r: Option<Partition>)
    ensures r.Some? ==> exists i :: FirstWithId(parts, id, i) && parts[i] == r.value
    ensures r.None? <==> forall p :: p in parts ==> p.id != id
  {
    if parts == [] then None
    else if parts[0].id == id then
      assert FirstWithId(parts, id, 0);
      Some(parts[0])
    else
      var r := FindPartition(parts[1..], id);
      if r.Some? then
        var i :| FirstWithId(parts[1..], id, i) && parts[1..][i] == r.value;
        FirstWithIdShift(parts, id, i);
        r
      else
        assert forall p :: p in parts ==> p == parts[0] || p in parts[1..];
        r
  }

  /**
   * The descriptor of a partition: UnknownPartition when the table has no
   * entry for the id, PartitionUnavailable when the first entry for the id
   * is owned by no device, otherwise that first entry.
   */
  function Resolve(parts: seq<Partition>, id: PartitionId): (r: Result<Partition>)
    ensures r == Err(UnknownPartition) <==> forall p :: p in parts ==> p.id != id
    ensures r == Err(PartitionUnavailable) <==>
      exists i :: FirstWithId(parts, id, i) && parts[i].owner == NoFlash
    ensures r.Ok? ==> exists i :: FirstWithId(parts, id, i) && parts[i] == r.value && r.value.owner.OwnedBy?
    ensures r.Err? ==> r.error in {UnknownPartition, PartitionUnavailable}
  {
    match FindPartition(parts, id)
    case None =>
      assert forall i :: FirstWithId(parts, id, i) ==> parts[i] in parts;
      Err(UnknownPartition)
    case Some(p) =>
      var j :| FirstWithId(parts, id, j) && parts[j] == p;
      assert forall i :: FirstWithId(parts, id, i) ==> i == j by {
        forall i | FirstWithId(parts, id, i) ensures i == j { FirstWithIdUnique(parts, id, i, j); }
      }
      if p.owner == NoFlash then Err(PartitionUnavailable) else Ok(p)
  }

  /**
   * The absolute address of a partition's first byte; it fails exactly when
   * Resolve fails, with the same error, and never yields an address for a
   * partition owned by no device.
   */
  function AddressOf(parts: seq<Partition>, id: PartitionId): (r: Result<nat>)
    ensures r.Err? <==> Resolve(parts, id).Err?
    ensures r.Err? ==> r.error == Resolve(parts, id).error
    ensures r.Ok? ==> exists i :: FirstWithId(parts, id, i) && parts[i].owner.OwnedBy? && parts[i].startAddr == r.value
  {
    match Resolve(parts, id)
    case Ok(p) => Ok(p.startAddr)
    case Err(e) => Err(e)
  }

  // ---------------------------------------------------------------------------
  // Layout rules

  /** The partition lies inside the device's address window [start, start + length). */
  predicate InWindow(d: FlashDevice, p: Partition) {
    d.startAddr <= p.startAddr && PartitionEnd(p) <= DeviceEnd(d)
  }

  /** An owned partition names a device of the table and lies inside its window; an unowned one is exempt. */
  predicate FitsOwner(devs: seq<FlashDevice>, p: Partition) {
    match p.owner
    case NoFlash => true
    case OwnedBy(f) =>
      match FindDevice(devs, f)
      case None => false
      case Some(d) => InWindow(d, p)
  }

  /** The half-open ranges [start, start + length) of two partitions share a byte (an empty range shares none). */
  predicate Overlap(p: Partition, q: Partition) {
    0 < p.length && 0 < q.length &&
    p.startAddr < PartitionEnd(q) && q.startAddr < PartitionEnd(p)
  }

  /** Two entries cannot both stand in one table: same id, or overlapping ranges on the same device. */
  predicate Clash(p: Partition, q: Partition) {
    p.id == q.id || (p.owner.OwnedBy? && p.owner == q.owner && Overlap(p, q))
  }

  /** Every owned partition fits its device, ids are distinct, and partitions of one device are pairwise disjoint. */
  predicate LayoutValid(devs: seq<FlashDevice>, parts: seq<Partition>) {
    && (forall i :: 0 <= i < |parts| ==> FitsOwner(devs, parts[i]))
    && (forall i, j :: 0 <= i < j < |parts| ==> !Clash(parts[i], parts[j]))
  }

  /** Device windows end inside the 32-bit address space, ids are distinct and windows are disjoint. */
  predicate DevicesValid(devs: seq<FlashDevice>) {
    && (forall i :: 0 <= i < |devs| ==> DeviceEnd(devs[i]) <= ADDRESS_SPACE)
    && (forall i, j :: 0 <= i < j < |devs| ==>
          devs[i].id != devs[j].id &&
          (DeviceEnd(devs[i]) <= devs[j].startAddr || DeviceEnd(devs[j]) <= devs[i].startAddr))
  }

  /** Whether `p` clashes with some entry of `rest`. */
  function ClashesWithAny(p: Partition, rest: seq<Partition>): (r: bool)
    ensures r <==> exists j :: 0 <= j < |rest| && Clash(p, rest[j])
  {
    if rest == [] then false
    else Clash(p, rest[0]) || ClashesWithAny(p, rest[1..])
  }

  /**
   * The construction-time check of a partition table: LayoutViolation
   * exactly when the layout rules are broken.
   */
  function CheckLayout(devs: seq<FlashDevice>, parts: seq<Partition>): (r: Outcome)
    ensures r == Pass <==> LayoutValid(devs, parts)
    ensures r != Pass ==> r == Fail(LayoutViolation)
  {
    if parts == [] then Pass
    else if !FitsOwner(devs, parts[0]) || ClashesWithAny(parts[0], parts[1..]) then Fail(LayoutViolation)
    else
      var r := CheckLayout(devs, parts[1..]);
      assert LayoutValid(devs, parts) <==> LayoutValid(devs, parts[1..]) by {
        forall i, j | 0 < i < j < |parts|
          ensures Clash(parts[i], parts[j]) == Clash(parts[1..][i - 1], parts[1..][j - 1]) { }
        forall j | 0 < j < |parts| ensures Clash(parts[0], parts[j]) == Clash(parts[0], parts[1..][j - 1]) { }
        forall i | 0 < i < |parts| ensures FitsOwner(devs, parts[i]) == FitsOwner(devs, parts[1..][i - 1]) { }
      }
      r
  }

  // ---------------------------------------------------------------------------
  // Properties of this board's tables

  /** Both device windows end inside 32 bits and do not overlap. */
  lemma DevicesAreValid()
    ensures DevicesValid(FlashDevices)
    ensures DeviceEnd(FlashDevices[0]) == 0x0810_0000 && DeviceEnd(FlashDevices[1]) == 0x20_0000
  {
  }

  /** The declared partition table passes the construction-time check. */
  lemma PartitionsAreValid()
    ensures CheckLayout(FlashDevices, Partitions) == Pass
    ensures LayoutValid(FlashDevices, Partitions)
  {
    assert FindDevice(FlashDevices, Embedded) == Some(FlashDevices[0]);
    assert FindDevice(FlashDevices, Spi) == Some(FlashDevices[1]);
    assert forall i :: 0 <= i < |Partitions| ==> FitsOwner(FlashDevices, Partitions[i]);
    forall i, j | 0 <= i < j < |Partitions| ensures !Clash(Partitions[i], Partitions[j]) {
      EntriesDoNotClash(i, j);
    }
  }

  /** One pair of entries of this board's table: distinct ids, and disjoint ranges when they share a device. */
  lemma EntriesDoNotClash(i: nat, j: nat)
    requires i < j < |Partitions|
    ensures !Clash(Partitions[i], Partitions[j])
  {
    var p, q := Partitions[i], Partitions[j];
    assert p.id != q.id;
    if p.owner.OwnedBy? && p.owner == q.owner {
      assert PartitionEnd(p) <= q.startAddr || PartitionEnd(q) <= p.startAddr;
    }
  }

  /** A table with two partitions of one device sharing a single byte is rejected before use. */
  lemma OneByteOverlapRejected()
    ensures CheckLayout(FlashDevices, [
      Partition(Parameter1, OwnedBy(Spi), Some("PARAMETER1"), 0x0, 0x1001, READ_EN_WRITE_EN),
      Partition(Parameter2, OwnedBy(Spi), Some("PARAMETER2"), 0x1000, 0x1000, READ_EN_WRITE_EN)
    ]) == Fail(LayoutViolation)
  {
  }

  /** In a valid layout, a resolved partition lies inside the window of the device that owns it. */
  lemma ResolvedPartitionInWindow(devs: seq<FlashDevice>, parts: seq<Partition>, id: PartitionId)
    requires LayoutValid(devs, parts)
    requires Resolve(parts, id).Ok?
    ensures var p := Resolve(parts, id).value;
      FindDevice(devs, p.owner.flash).Some? && InWindow(FindDevice(devs, p.owner.flash).value, p)
  {
    var p := Resolve(parts, id).value;
    var i :| 0 <= i < |parts| && parts[i] == p;
    assert FitsOwner(devs, parts[i]);
  }

  /**
   * In a valid layout over valid devices, the absolute ranges of any two
   * owned partitions are disjoint, whether or not they share a device.
   */
  lemma OwnedRangesDisjoint(devs: seq<FlashDevice>, parts: seq<Partition>, i: nat, j: nat)
    requires DevicesValid(devs) && LayoutValid(devs, parts)
    requires i < j < |parts|
    requires parts[i].owner.OwnedBy? && parts[j].owner.OwnedBy?
    ensures !Overlap(parts[i], parts[j])
  {
    var p, q := parts[i], parts[j];
    if p.owner != q.owner {
      assert FitsOwner(devs, p) && FitsOwner(devs, q);
      var d, e := FindDevice(devs, p.owner.flash).value, FindDevice(devs, q.owner.flash).value;
      var k :| 0 <= k < |devs| && devs[k] == d;
      var l :| 0 <= l < |devs| && devs[l] == e;
      assert k != l;
      if k < l {
        assert DeviceEnd(devs[k]) <= devs[l].startAddr || DeviceEnd(devs[l]) <= devs[k].startAddr;
      } else {
        assert DeviceEnd(devs[l]) <= devs[k].startAddr || DeviceEnd(devs[k]) <= devs[l].startAddr;
      }
    } else {
      assert !Clash(p, q);
    }
  }

  /** ATE is declared without a device: resolving it or asking its address is unavailable. */
  lemma AteIsUnavailable()
    ensures Resolve(Partitions, Ate) == Err(PartitionUnavailable)
    ensures AddressOf(Partitions, Ate) == Err(PartitionUnavailable)
  {
    ResolvesExactlyOwnedIds(Ate);
  }

  /** The position of each id in this board's table. */
  function TableIndex(id: PartitionId): (k: nat)
    ensures k < |Partitions| && Partitions[k].id == id
  {
    match id
    case Bootloader => 0
    case Application => 1
    case Ate => 2
    case RfFirmware => 3
    case OtaTemp => 4
    case Parameter1 => 5
    case Parameter2 => 6
    case Filesys => 7
  }

  /** The search finds an entry when no earlier entry carries the same id. */
  lemma {:induction false} FindPartitionAt(parts: seq<Partition>, k: nat)
    requires k < |parts|
    requires forall i :: 0 <= i < k ==> parts[i].id != parts[k].id
    ensures FindPartition(parts, parts[k].id) == Some(parts[k])
  {
    if k > 0 {
      assert parts[1..][k - 1] == parts[k];
      FindPartitionAt(parts[1..], k - 1);
    }
  }

  /** Every other declared id resolves; no id of this board is unknown. */
  lemma ResolvesExactlyOwnedIds(id: PartitionId)
    ensures Resolve(Partitions, id) == if id == Ate then Err(PartitionUnavailable) else Ok(Partitions[TableIndex(id)])
  {
    var k := TableIndex(id);
    forall i | 0 <= i < k ensures Partitions[i].id != Partitions[k].id {
      EntriesDoNotClash(i, k);
      assert !Clash(Partitions[i], Partitions[k]);
    }
    FindPartitionAt(Partitions, k);
  }

  /**
   * Application starts at absolute 0x08008000, right where the Bootloader
   * ends, and ends at 0x08088000, inside the embedded window.
   */
  lemma ApplicationAddress()
    ensures AddressOf(Partitions, Application) == Ok(0x0800_8000)
    ensures PartitionEnd(Resolve(Partitions, Bootloader).value) == 0x0800_8000
    ensures PartitionEnd(Resolve(Partitions, Application).value) == 0x0808_8000 <= DeviceEnd(FlashDevices[0])
  {
    ResolvesExactlyOwnedIds(Bootloader);
    ResolvesExactlyOwnedIds(Application);
  }

  /**
   * Access bits: every available partition is readable; only OTA storage,
   * the two parameter areas and the file system are writable.
   */
  lemma OptionBits(id: PartitionId)
    requires id != Ate
    ensures Resolve(Partitions, id).Ok?
    ensures Resolve(Partitions, id).value.options.readEnabled
    ensures Resolve(Partitions, id).value.options.writeEnabled <==>
      id in {OtaTemp, Parameter1, Parameter2, Filesys}
  {
    ResolvesExactlyOwnedIds(id);
  }
}
