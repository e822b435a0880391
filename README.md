# OVMF reset, emulated-NVRAM layout and x86 operand patching, in Dafny

This project models three small pieces of EDK II firmware code and proves
what each of them promises.

- `emu_nvram.dfy`, module `EmuNvramLib`. This is OVMF's emulated-NVRAM layout
  planner, written as pure functions over UINT32 values.
  - S3 counts as disabled only when fw-cfg is present and says so.
  - The LockBox and S3 Resume Pool sizes are zero when S3 is disabled and
    the build-time PCD values otherwise.
  - Each size is rounded up to whole 4 KiB pages with `ALIGN_VALUE`.
  - The regions lie back to back, 4 MiB above the end of the MEMFD firmware
    volume.
  - Every addition wraps modulo 2^32, as the C code's UINT32 arithmetic does.
- `reset_system.dfy`, module `ResetSystemLib`. This is OVMF's ResetSystemLib,
  as a class `Platform`.
  - The class holds an I/O port map (the last value written to each port), an
    append-only trace of port writes and delays, and a halted flag.
  - Every operation ends with the CPU halted in `CpuDeadLoop`.
  - `AcpiPmControl` picks the ACPI PM base from the host-bridge device ID. It
    writes SLP_TYP (bits 10..13 of PM1_CNT at base + 4), then sets SLP_EN (bit
    13), each time by read-modify-write.
  - `ResetCold` writes the PIIX3 reset control register, waits 50 µs, then
    pulses the keyboard controller. `ResetWarm` pulses the keyboard controller
    only.
  - `ResetShutdown` is `AcpiPmControl(0)` (ACPI S5).
    `EnterS3WithImmediateWake` is `AcpiPmControl(1)`.
- `x86_patch_instruction.dfy`, module `X86PatchInstruction`. This is BaseLib's
  `PatchInstructionX86`, a method over a byte array whose index is the
  address.
  - It stores a 1, 2, 4 or 8 byte little-endian operand in the bytes that end
    at `instructionEnd`.
  - A function `Patched` specifies the new memory.
  - Little-endian encoding and decoding are proved inverse in both directions.

Conventions:

- UINT8, UINT16, UINT32 and UINT64 are integer subset types (`u8`, `u16`,
  `u32`, `u64`). UINT32 wrap-around is written out in `Add32` and `Sub32`.
- Port values and ACPI register contents are bit-vectors (`bv8`, `bv16`), so
  the bit-field operations read as in BaseLib.
- Memory bytes are `u8` rather than `bv8`. The patcher is arithmetic on
  bytes, not bitwise.

## Model

| member | source | states |
|---|---|---|
| EmuNvramLib.Add32 | OvmfPkg/Library/EmuNvramLib/EmuNvramLib.c:105 | UINT32 addition: the exact sum when it is below 2^32, otherwise the sum less 2^32 |
| EmuNvramLib.Sub32 | OvmfPkg/Library/EmuNvramLib/EmuNvramLib.c:92-93 | UINT32 subtraction, as used inside ALIGN_VALUE: the exact difference, or the difference plus 2^32 when it would be negative |
| EmuNvramLib.AlignToPage | OvmfPkg/Library/EmuNvramLib/EmuNvramLib.c:92-93 | ALIGN_VALUE (v, EFI_PAGE_SIZE) is a multiple of 4096. It lies in [v, v + 4096) when v is at most 0xFFFFF000, and wraps to 0 above that |
| EmuNvramLib.IsS3Disabled | OvmfPkg/Library/EmuNvramLib/EmuNvramLib.c:26-38 | S3 is disabled exactly when fw-cfg is available and reports S3 disabled. Without fw-cfg it is never disabled (fail-open) |
| EmuNvramLib.EmuNvramLockBoxSize | OvmfPkg/Library/EmuNvramLib/EmuNvramLib.c:48-58 | 0 when S3 is disabled, otherwise exactly PcdEmuNvramLockBoxSize |
| EmuNvramLib.EmuNvramS3ResumePoolSize | OvmfPkg/Library/EmuNvramLib/EmuNvramLib.c:67-77 | 0 when S3 is disabled, otherwise exactly PcdEmuNvramS3ResumePoolSize |
| EmuNvramLib.EmuNvramSize | OvmfPkg/Library/EmuNvramLib/EmuNvramLib.c:86-94 | the total size is a multiple of 4096 even when the UINT32 sum wraps, and it is 0 when S3 is disabled |
| EmuNvramLib.EmuNvramBase | OvmfPkg/Library/EmuNvramLib/EmuNvramLib.c:99-106 | the base is MemFvBase + MemFvSize + 4 MiB modulo 2^32 |
| EmuNvramLib.EmuNvramLockBoxBase | OvmfPkg/Library/EmuNvramLib/EmuNvramLib.c:111-118 | the LockBox starts at the NVRAM base |
| EmuNvramLib.EmuNvramS3ResumePoolBase | OvmfPkg/Library/EmuNvramLib/EmuNvramLib.c:124-132 | with S3 disabled the Resume Pool base coincides with the LockBox base |
| EmuNvramLib.AlignToPageMonotonic | OvmfPkg/Library/EmuNvramLib/EmuNvramLib.c:92-93 | page rounding preserves order when nothing wraps |
| EmuNvramLib.S3DisabledCollapsesLayout | OvmfPkg/Library/EmuNvramLib/EmuNvramLib.c:54-55 | when fw-cfg reports S3 disabled, both sizes and the total are 0 and the two bases coincide |
| EmuNvramLib.FwCfgUnavailableMeansS3Enabled | OvmfPkg/Library/EmuNvramLib/EmuNvramLib.c:37 | without fw-cfg, S3 is enabled, the sizes are the PCD values, and the whole layout equals that of a platform whose fw-cfg leaves S3 enabled |
| EmuNvramLib.LayoutIsContiguous | OvmfPkg/Library/EmuNvramLib/EmuNvramLib.c:92-131 | when nothing wraps: the base is the exact sum; the LockBox starts there; the Resume Pool starts right after the page-rounded LockBox; the regions do not overlap; the pool ends within the total size; the total is the sum of the rounded sizes and at least the sum of the raw ones; a page-aligned base keeps the pool base page-aligned |
| EmuNvramLib.EmuNvramSizeMonotonic | OvmfPkg/Library/EmuNvramLib/EmuNvramLib.c:92-93 | raising either PCD size never shrinks the total NVRAM size, as long as the larger layout does not wrap |
| EmuNvramLib.EmuNvramBaseWrapsBelowMemFv | OvmfPkg/Library/EmuNvramLib/EmuNvramLib.c:105 | for a MEMFD ending within 4 MiB of 4 GiB, the UINT32 sum puts the NVRAM base at 0x300000, below MEMFD itself |
| ResetSystemLib.AcpiPmBaseAddress | OvmfPkg/Library/ResetSystemLib/ResetSystemLib.c:35-46 | a PM base exists exactly for the i440FX and Q35 host-bridge IDs. i440FX selects the PIIX4 PCD and Q35 the ICH9 PCD |
| ResetSystemLib.SlpTypWriteFields | OvmfPkg/Library/ResetSystemLib/ResetSystemLib.c:48 | after the bit-field write of bits 10..13: the field reads back the suspend type, as does SLP_TYP (10..12); SLP_EN is clear; all other bits are unchanged |
| ResetSystemLib.SlpEnWriteFields | OvmfPkg/Library/ResetSystemLib/ResetSystemLib.c:48-49 | after both writes, SLP_TYP holds the suspend type, SLP_EN is set, and every bit outside 10..13 keeps the value first read |
| ResetSystemLib.Platform.constructor | OvmfPkg/Library/ResetSystemLib/ResetSystemLib.c:29-35 | a running platform with the given host-bridge ID, PM base PCDs and port contents, and an empty trace |
| ResetSystemLib.Platform.IoRead16 | OvmfPkg/Library/ResetSystemLib/ResetSystemLib.c:48-49 | a 16-bit port read returns the port's last value, or all ones for a port never written |
| ResetSystemLib.Platform.IoWrite8 | OvmfPkg/Library/ResetSystemLib/ResetSystemLib.c:68 | one 8-bit write: the port takes the value and the trace grows by exactly that write |
| ResetSystemLib.Platform.IoWrite16 | OvmfPkg/Library/ResetSystemLib/ResetSystemLib.c:48-49 | one 16-bit write: the port takes the value and the trace grows by exactly that write |
| ResetSystemLib.Platform.IoBitFieldWrite16 | OvmfPkg/Library/ResetSystemLib/ResetSystemLib.c:48 | read-modify-write: writes BitFieldWrite16 of the current port value, as one traced 16-bit write |
| ResetSystemLib.Platform.IoOr16 | OvmfPkg/Library/ResetSystemLib/ResetSystemLib.c:49 | read-modify-write: writes the current port value OR orData, as one traced 16-bit write |
| ResetSystemLib.Platform.MicroSecondDelay | OvmfPkg/Library/ResetSystemLib/ResetSystemLib.c:69 | the delay is one trace event and leaves the ports alone |
| ResetSystemLib.Platform.CpuDeadLoop | OvmfPkg/Library/ResetSystemLib/ResetSystemLib.c:50 | the CPU halts and nothing further is written |
| ResetSystemLib.Platform.WriteSleepControl | OvmfPkg/Library/ResetSystemLib/ResetSystemLib.c:48-49 | the two PM1_CNT writes in order: first SLP_TYP with SLP_EN clear, then the same with SLP_EN set. The register ends with the second value |
| ResetSystemLib.Platform.AcpiPmControl | OvmfPkg/Library/ResetSystemLib/ResetSystemLib.c:24-51 | always ends halted. An unsupported host bridge halts with ports and trace untouched. A supported one traces exactly the SLP_TYP and SLP_EN writes to PM base + 4, computed from the value read before them, and leaves the register holding the second |
| ResetSystemLib.Platform.ResetCold | OvmfPkg/Library/ResetSystemLib/ResetSystemLib.c:62-73 | traces exactly: write 0x06 to port 0xCF9, delay 50 µs, write 0xFE to port 0x64; then halts |
| ResetSystemLib.Platform.ResetWarm | OvmfPkg/Library/ResetSystemLib/ResetSystemLib.c:82-90 | traces exactly one write, 0xFE to port 0x64, with no delay; then halts |
| ResetSystemLib.Platform.ResetShutdown | OvmfPkg/Library/ResetSystemLib/ResetSystemLib.c:99-107 | the effect of AcpiPmControl(0); it ends halted, so the ASSERT after the call is unreachable |
| ResetSystemLib.Platform.EnterS3WithImmediateWake | OvmfPkg/Library/ResetSystemLib/ResetSystemLib.c:118-126 | the effect of AcpiPmControl(1); it ends halted, so the ASSERT after the call is unreachable |
| X86PatchInstruction.Pow256 | MdePkg/Library/BaseLib/X86PatchInstruction.c:43-47 | 256^n is positive; it bounds what n bytes can hold |
| X86PatchInstruction.LittleEndianBytes | MdePkg/Library/BaseLib/X86PatchInstruction.c:18-21 | the little-endian encoding of a value has exactly the requested number of bytes |
| X86PatchInstruction.LittleEndianValue | MdePkg/Library/BaseLib/X86PatchInstruction.c:18-21 | the little-endian value of n bytes is below 256^n |
| X86PatchInstruction.DecodeEncode | MdePkg/Library/BaseLib/X86PatchInstruction.c:18-21 | decoding the encoding of any value that fits in n bytes gives the value back |
| X86PatchInstruction.EncodeDecode | MdePkg/Library/BaseLib/X86PatchInstruction.c:18-21 | encoding the decoded value of a byte string gives the same bytes back |
| X86PatchInstruction.OperandFitsInSize | MdePkg/Library/BaseLib/X86PatchInstruction.c:68-83 | the PatchValue ASSERTs for sizes 1, 2 and 4, and the UINT64 type for size 8, make PatchValue fit in ValueSize bytes |
| X86PatchInstruction.Patched | MdePkg/Library/BaseLib/X86PatchInstruction.c:66-88 | the patched memory has the same length. The size bytes ending at instructionEnd decode to the value stored; every other byte is unchanged |
| X86PatchInstruction.PatchedReadsBack | MdePkg/Library/BaseLib/X86PatchInstruction.c:19-21 | within the ASSERTs, the truncating casts lose nothing and the patched operand decodes to PatchValue |
| X86PatchInstruction.StoreLittleEndian | MdePkg/Library/BaseLib/X86PatchInstruction.c:69-83 | one store of width bytes at address: little-endian bytes there, everything else as before |
| X86PatchInstruction.PatchInstructionX86 | MdePkg/Library/BaseLib/X86PatchInstruction.c:52-89 | for size 1, 2, 4 or 8 the memory becomes Patched with PatchValue cast to the operand width. For any other size the memory is unchanged |

## Left out

- The inputs are parameters:
  - The fw-cfg answers (`QemuFwCfgIsAvailable`, `QemuFwCfgS3Disabled`) and the PCDs are fields of `EmuNvramLib.Platform`.
  - The host-bridge ID (`PciRead16 (OVMF_HOSTBRIDGE_DID)`) and the PM base PCDs are constructor arguments of `ResetSystemLib.Platform`.
  - How firmware configuration, PCI configuration space and PCD storage are read is not part of this model.
- `ALIGN_VALUE`, `SIZE_4MB` and `EFI_PAGE_SIZE` come from Base.h and UefiBaseType.h, which are not part of this model. `AlignToPage` uses the usual definition `Value + ((Alignment - Value) & (Alignment - 1))`; with Alignment 4096 the mask is a remainder modulo 4096.
- The device IDs 0x1237 (i440FX) and 0x29C0 (Q35) are values of OvmfPlatforms.h, which is not part of this model.
- I/O ports are abstract. They are only a map from port number to the last value written; reads are not traced.
  - A port nobody wrote reads as 0xFFFF.
  - 8-bit and 16-bit accesses share one value per port.
  - What the chipset does on a write (reset, power-off, sleep) is not modelled; the trace records what the firmware asked for.
- `MicroSecondDelay` is a trace event; no time passes.
- CpuDeadLoop is a halted flag. Every operation requires a running CPU, since a halted one runs no further code.
- IoLib's and BaseLib's own internals (`IoBitFieldWrite16`, `IoOr16`, `BitFieldWrite16`) are not part of this model. They are modelled as read-modify-write on the port map, with the bit-field semantics written out on `bv16`.
- ResetSystemLib.Platform.AcpiPmControl: `SuspendType < 6` is a precondition, because the source ASSERTs it. A release build passing 6 or 7 is not modelled.
- ResetSystemLib.Platform.AcpiPmControl: its contract states the trace and the final register value through `SlpTypWrite` and `SlpEnWrite`. The bit-level reading of that value (SLP_TYP holds the type, SLP_EN is set, other bits are kept) is stated and proved in `SlpEnWriteFields` rather than repeated in the method.
- X86PatchInstruction.PatchInstructionX86: memory is an array indexed by address. So `InstructionEnd` must lie within the array, and the ASSERT `InstructionEnd > ValueSize` is a precondition. Wrap-around below address 0, unaligned-access and pointer-provenance details of `WriteUnaligned16/32/64` are not modelled.
- X86PatchInstruction.PatchInstructionX86: its contract goes through the specification function `Patched`. The frame condition and the little-endian read-back are stated in `Patched` and `PatchedReadsBack` rather than repeated in the method.
- `OvmfPkg/PlatformPei/Fv.c` (HOB creation from PCD constants) and `ArmPlatformPkg/ArmVirtualizationPkg/AcpiPlatformDxe/AcpiPlatform.c` (a protocol lookup and a foreign call) are thin wrappers around code outside this model.
