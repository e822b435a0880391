/**
 * OVMF's emulated NVRAM layout (EmuNvramLib).
 *
 * The emulated NVRAM holds two regions that must survive an S3 suspend/resume
 * cycle: the LockBox and the S3 Resume Pool. Their sizes come from build-time
 * PCDs, collapse to zero when the host disabled S3 through fw-cfg, and are
 * rounded up to whole pages; the regions are placed back to back starting
 * 4 MiB above the end of the decompressed firmware volume (MEMFD).
 *
 * Every quantity is a UINT32 in the source, so every addition below wraps
 * modulo 2^32 exactly as C unsigned arithmetic does.
 */
module EmuNvramLib {

  const UINT32_LIMIT: int := 0x1_0000_0000
  type u32 = x: int | 0 <= x < 0x1_0000_0000

  const EFI_PAGE_SIZE: u32 := 0x1000
  const SIZE_4MB: u32 := 0x40_0000
  /** The largest page-aligned UINT32; ALIGN_VALUE of anything above it wraps. */
  const MAX_PAGE_ALIGNED: u32 := 0xFFFF_F000

  /**
   * What the library reads from outside: the answers of the fw-cfg queries
   * and the PCDs.
   */
  datatype Platform = Platform(
    fwCfgAvailable: bool,    // QemuFwCfgIsAvailable ()
    fwCfgS3Disabled: bool,   // QemuFwCfgS3Disabled (), consulted only when fw-cfg is available
    lockBoxSizePcd: u32,     // PcdEmuNvramLockBoxSize
    s3ResumePoolSizePcd: u32,// PcdEmuNvramS3ResumePoolSize
    memFvBase: u32,          // PcdOvmfMemFvBase
    memFvSize: u32)          // PcdOvmfMemFvSize

  /** UINT32 addition. */
  function Add32(a: u32, b: u32): (r: u32)
    ensures a + b < UINT32_LIMIT ==> r == a + b
    ensures a + b >= UINT32_LIMIT ==> r == a + b - UINT32_LIMIT
  {
    (a + b) % UINT32_LIMIT
  }

  /** UINT32 subtraction. */
  function Sub32(a: u32, b: u32): (r: u32)
    ensures a >= b ==> r == a - b
    ensures a < b ==> r == a - b + UINT32_LIMIT
  {
    (a - b) % UINT32_LIMIT
  }

  /**
   * ALIGN_VALUE (Value, EFI_PAGE_SIZE) on a UINT32, that is
   * Value + ((EFI_PAGE_SIZE - Value) & (EFI_PAGE_SIZE - 1)); for the power of
   * two EFI_PAGE_SIZE the mask `& (EFI_PAGE_SIZE - 1)` is `% EFI_PAGE_SIZE`.
   * The result is the least page multiple at or above v, unless that multiple
   * is 2^32 itself, in which case the UINT32 addition wraps to 0.
   */
  function AlignToPage(v: u32): (r: u32)
    ensures r % EFI_PAGE_SIZE == 0
    ensures v <= MAX_PAGE_ALIGNED ==> v <= r < v + EFI_PAGE_SIZE
    ensures v > MAX_PAGE_ALIGNED ==> r == 0
  {
    Add32(v, Sub32(EFI_PAGE_SIZE, v) % EFI_PAGE_SIZE)
  }

  /** S3 counts as disabled only when fw-cfg is there and says so. */
  function IsS3Disabled(p: Platform): (r: bool)
    ensures !p.fwCfgAvailable ==> !r
    ensures p.fwCfgAvailable ==> (r <==> p.fwCfgS3Disabled)
  {
    p.fwCfgAvailable && p.fwCfgS3Disabled
  }

  function EmuNvramLockBoxSize(p: Platform): (r: u32)
    ensures IsS3Disabled(p) ==> r == 0
    ensures !IsS3Disabled(p) ==> r == p.lockBoxSizePcd
  {
    if IsS3Disabled(p) then 0 else p.lockBoxSizePcd
  }

  function EmuNvramS3ResumePoolSize(p: Platform): (r: u32)
    ensures IsS3Disabled(p) ==> r == 0
    ensures !IsS3Disabled(p) ==> r == p.s3ResumePoolSizePcd
  {
    if IsS3Disabled(p) then 0 else p.s3ResumePoolSizePcd
  }

  /** The full size: both regions, each rounded up to whole pages. */
  function EmuNvramSize(p: Platform): (r: u32)
    ensures r % EFI_PAGE_SIZE == 0
    ensures IsS3Disabled(p) ==> r == 0
  {
    Add32(AlignToPage(EmuNvramLockBoxSize(p)), AlignToPage(EmuNvramS3ResumePoolSize(p)))
  }

  function EmuNvramBase(p: Platform): (r: u32)
    ensures r == (p.memFvBase + p.memFvSize + SIZE_4MB) % UINT32_LIMIT
  {
    Add32(Add32(p.memFvBase, p.memFvSize), SIZE_4MB)
  }

  function EmuNvramLockBoxBase(p: Platform): (r: u32)
    ensures r == EmuNvramBase(p)
  {
    EmuNvramBase(p)
  }

  function EmuNvramS3ResumePoolBase(p: Platform): (r: u32)
    ensures IsS3Disabled(p) ==> r == EmuNvramLockBoxBase(p)
  {
    Add32(EmuNvramLockBoxBase(p), AlignToPage(EmuNvramLockBoxSize(p)))
  }

  /**
   * The whole layout, from the start of MEMFD to the end of the Resume Pool,
   * fits below 4 GiB, and neither region size is so close to 4 GiB that its
   * page rounding wraps.
   */
  ghost predicate LayoutFits(p: Platform)
  {
    EmuNvramLockBoxSize(p) <= MAX_PAGE_ALIGNED &&
    EmuNvramS3ResumePoolSize(p) <= MAX_PAGE_ALIGNED &&
    p.memFvBase + p.memFvSize + SIZE_4MB
      + AlignToPage(EmuNvramLockBoxSize(p)) + AlignToPage(EmuNvramS3ResumePoolSize(p)) < UINT32_LIMIT
  }

  /** Rounding up to whole pages preserves order, as long as nothing wraps. */
  lemma AlignToPageMonotonic(v: u32, w: u32)
    requires v <= w <= MAX_PAGE_ALIGNED
    ensures AlignToPage(v) <= AlignToPage(w)
  {
  }

  /** When fw-cfg says that S3 is disabled, both regions are empty and share one base. */
  lemma S3DisabledCollapsesLayout(p: Platform)
    requires p.fwCfgAvailable && p.fwCfgS3Disabled
    ensures EmuNvramLockBoxSize(p) == 0 && EmuNvramS3ResumePoolSize(p) == 0
    ensures EmuNvramSize(p) == 0
    ensures EmuNvramS3ResumePoolBase(p) == EmuNvramLockBoxBase(p)
  {
  }

  /**
   * Fail-open: without fw-cfg the layout is that of a platform where fw-cfg
   * is present and leaves S3 enabled.
   */
  lemma FwCfgUnavailableMeansS3Enabled(p: Platform)
    requires !p.fwCfgAvailable
    ensures !IsS3Disabled(p)
    ensures EmuNvramLockBoxSize(p) == p.lockBoxSizePcd
    ensures EmuNvramS3ResumePoolSize(p) == p.s3ResumePoolSizePcd
    ensures var q := p.(fwCfgAvailable := true, fwCfgS3Disabled := false);
            EmuNvramSize(p) == EmuNvramSize(q) &&
            EmuNvramLockBoxBase(p) == EmuNvramLockBoxBase(q) &&
            EmuNvramS3ResumePoolBase(p) == EmuNvramS3ResumePoolBase(q)
  {
  }

  /**
   * Without wrap-around the planner lays out, in this order and without gaps:
   * MEMFD, 4 MiB, the page-rounded LockBox, the page-rounded Resume Pool; the
   * two regions do not overlap each other or MEMFD, and page alignment of the
   * NVRAM base carries over to the Resume Pool base.
   */
  lemma LayoutIsContiguous(p: Platform)
    requires LayoutFits(p)
    ensures EmuNvramBase(p) == p.memFvBase + p.memFvSize + SIZE_4MB
    ensures EmuNvramLockBoxBase(p) == EmuNvramBase(p)
    ensures EmuNvramSize(p)
            == AlignToPage(EmuNvramLockBoxSize(p)) + AlignToPage(EmuNvramS3ResumePoolSize(p))
    ensures EmuNvramSize(p) >= EmuNvramLockBoxSize(p) + EmuNvramS3ResumePoolSize(p)
    ensures EmuNvramLockBoxBase(p) + EmuNvramLockBoxSize(p) <= EmuNvramS3ResumePoolBase(p)
    ensures EmuNvramS3ResumePoolBase(p) == EmuNvramLockBoxBase(p) + AlignToPage(EmuNvramLockBoxSize(p))
    ensures EmuNvramS3ResumePoolBase(p) + EmuNvramS3ResumePoolSize(p)
            <= EmuNvramBase(p) + EmuNvramSize(p)
    ensures EmuNvramS3ResumePoolBase(p) + AlignToPage(EmuNvramS3ResumePoolSize(p))
            == EmuNvramBase(p) + EmuNvramSize(p)
    ensures EmuNvramBase(p) % EFI_PAGE_SIZE == 0 ==> EmuNvramS3ResumePoolBase(p) % EFI_PAGE_SIZE == 0
  {
  }

  /**
   * The total size grows with the configured region sizes, as long as the
   * larger layout does not wrap.
   */
  lemma EmuNvramSizeMonotonic(p: Platform, q: Platform)
    requires IsS3Disabled(p) == IsS3Disabled(q)
    requires p.lockBoxSizePcd <= q.lockBoxSizePcd
    requires p.s3ResumePoolSizePcd <= q.s3ResumePoolSizePcd
    requires LayoutFits(q)
    ensures EmuNvramSize(p) <= EmuNvramSize(q)
  {
    if !IsS3Disabled(p) {
      AlignToPageMonotonic(p.lockBoxSizePcd, q.lockBoxSizePcd);
      AlignToPageMonotonic(p.s3ResumePoolSizePcd, q.s3ResumePoolSizePcd);
    }
  }

  /**
   * UINT32 wrap-around: a MEMFD that ends within 4 MiB of 4 GiB puts the
   * NVRAM base right back at the bottom of the address space, below MEMFD.
   */
  lemma EmuNvramBaseWrapsBelowMemFv()
    ensures var p := Platform(true, false, 0x1000, 0x1000, 0xFFE0_0000, 0x10_0000);
            EmuNvramBase(p) == 0x30_0000 && EmuNvramBase(p) < p.memFvBase
  {
  }
}
