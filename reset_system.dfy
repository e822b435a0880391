/**
 * OVMF's ResetSystemLib: cold and warm reset, shutdown (ACPI S5) and S3 with
 * immediate wake.
 *
 * The platform is modelled as an I/O port space (a map from port to the last
 * value written there), an append-only trace of the writes and delays issued,
 * and a halted flag that CpuDeadLoop sets. Every operation ends halted: a
 * halted CPU runs no further code, so every operation also requires a CPU
 * that is still running.
 */
module ResetSystemLib {

  datatype Option<T> = None | Some(value: T)

  type u16 = x: int | 0 <= x < 0x1_0000

  /** Host-bridge PCI device IDs (OvmfPlatforms.h): i440FX (PIIX4) and Q35 (ICH9). */
  const INTEL_82441_DEVICE_ID: u16 := 0x1237
  const INTEL_Q35_MCH_DEVICE_ID: u16 := 0x29C0

  const BIT1: bv8 := 0x02
  const BIT2: bv8 := 0x04
  const BIT13: bv16 := 0x2000

  /** Bits 10..13 of PM1_CNT: SLP_TYP (10..12) and SLP_EN (13). */
  const SLP_FIELD_MASK: bv16 := 0x3C00

  /** One side effect, in the order issued. */
  datatype IoEvent =
    | Write8(port: nat, value8: bv8)
    | Write16(port: nat, value16: bv16)
    | Delay(microSeconds: nat)

  /** The bits startBit..endBit (inclusive) set, all others clear. */
  function BitFieldMask(startBit: bv16, endBit: bv16): bv16
    requires startBit <= endBit < 16
  {
    (0xFFFF >> (15 - (endBit - startBit))) << startBit
  }

  /**
   * BaseLib's BitFieldWrite16: replace bits startBit..endBit of operand by
   * the low bits of value and keep every other bit; the field must lie
   * within 16 bits.
   */
  function BitFieldWrite16(operand: bv16, startBit: bv16, endBit: bv16, value: bv16): bv16
    requires startBit <= endBit < 16
  {
    var mask := BitFieldMask(startBit, endBit);
    (operand & !mask) | ((value << startBit) & mask)
  }

  /** BaseLib's BitFieldRead16: bits startBit..endBit of operand, shifted down to bit 0. */
  function BitFieldRead16(operand: bv16, startBit: bv16, endBit: bv16): bv16
    requires startBit <= endBit < 16
  {
    (operand & BitFieldMask(startBit, endBit)) >> startBit
  }

  /**
   * The chipset dispatch of AcpiPmControl: the PM base port of the host
   * bridge found, or None for a host bridge that OVMF does not support.
   */
  function AcpiPmBaseAddress(hostBridgeDevId: u16, piix4PmBase: u16, ich9PmBase: u16): (r: Option<u16>)
    ensures r.Some? <==> hostBridgeDevId in {INTEL_82441_DEVICE_ID, INTEL_Q35_MCH_DEVICE_ID}
    ensures hostBridgeDevId == INTEL_82441_DEVICE_ID ==> r == Some(piix4PmBase)
    ensures hostBridgeDevId == INTEL_Q35_MCH_DEVICE_ID ==> r == Some(ich9PmBase)
  {
    if hostBridgeDevId == INTEL_82441_DEVICE_ID then Some(piix4PmBase)
    else if hostBridgeDevId == INTEL_Q35_MCH_DEVICE_ID then Some(ich9PmBase)
    else None
  }

  /** The PM1_CNT value of the first write: SLP_TYP and SLP_EN replaced by suspendType. */
  function SlpTypWrite(pm1Cnt: bv16, suspendType: bv16): bv16
    requires suspendType < 6
  {
    BitFieldWrite16(pm1Cnt, 10, 13, suspendType)
  }

  /** The PM1_CNT value of the second write: the first one with SLP_EN set. */
  function SlpEnWrite(pm1Cnt: bv16, suspendType: bv16): bv16
    requires suspendType < 6
  {
    SlpTypWrite(pm1Cnt, suspendType) | BIT13
  }

  /**
   * The first write puts the suspend type in bits 10..13, so SLP_TYP holds it
   * and SLP_EN is still clear; no other bit changes.
   */
  lemma SlpTypWriteFields(pm1Cnt: bv16, suspendType: bv16)
    requires suspendType < 6
    ensures BitFieldRead16(SlpTypWrite(pm1Cnt, suspendType), 10, 13) == suspendType
    ensures BitFieldRead16(SlpTypWrite(pm1Cnt, suspendType), 10, 12) == suspendType
    ensures SlpTypWrite(pm1Cnt, suspendType) & BIT13 == 0
    ensures SlpTypWrite(pm1Cnt, suspendType) & !SLP_FIELD_MASK == pm1Cnt & !SLP_FIELD_MASK
  {
  }

  /**
   * After the second write SLP_TYP still holds the suspend type and SLP_EN is
   * set; no bit outside 10..13 differs from the value first read.
   */
  lemma SlpEnWriteFields(pm1Cnt: bv16, suspendType: bv16)
    requires suspendType < 6
    ensures BitFieldRead16(SlpEnWrite(pm1Cnt, suspendType), 10, 12) == suspendType
    ensures SlpEnWrite(pm1Cnt, suspendType) & BIT13 == BIT13
    ensures SlpEnWrite(pm1Cnt, suspendType) & !SLP_FIELD_MASK == pm1Cnt & !SLP_FIELD_MASK
  {
  }

  /** What a 16-bit read of port returns; a port nobody drives reads as all ones. */
  function PortValue(ports: map<nat, bv16>, port: nat): bv16
  {
    if port in ports then ports[port] else 0xFFFF
  }

  class Platform {
    /** PciRead16 (OVMF_HOSTBRIDGE_DID). */
    const hostBridgeDevId: u16
    /** FixedPcdGet16 (PcdPiix4AcpiPmBaseAddress). */
    const piix4AcpiPmBase: u16
    /** FixedPcdGet16 (PcdIch9AcpiPmBaseAddress). */
    const ich9AcpiPmBase: u16

    var ports: map<nat, bv16>
    var trace: seq<IoEvent>
    var halted: bool

    constructor (hostBridgeDevId: u16, piix4AcpiPmBase: u16, ich9AcpiPmBase: u16, ports: map<nat, bv16>)
      ensures this.hostBridgeDevId == hostBridgeDevId
      ensures this.piix4AcpiPmBase == piix4AcpiPmBase && this.ich9AcpiPmBase == ich9AcpiPmBase
      ensures this.ports == ports && trace == [] && !halted
    {
      this.hostBridgeDevId := hostBridgeDevId;
      this.piix4AcpiPmBase := piix4AcpiPmBase;
      this.ich9AcpiPmBase := ich9AcpiPmBase;
      this.ports := ports;
      trace := [];
      halted := false;
    }

    /** The PM1_CNT port of the host bridge, when OVMF supports it. */
    function Pm1CntPort(): Option<nat>
    {
      match AcpiPmBaseAddress(hostBridgeDevId, piix4AcpiPmBase, ich9AcpiPmBase)
      case Some(base) => Some(base + 4)
      case None => None
    }

    method IoRead16(port: nat) returns (value: bv16)
      ensures value == PortValue(ports, port)
    {
      value := PortValue(ports, port);
    }

    method IoWrite8(port: nat, value: bv8)
      requires !halted
      modifies this
      ensures ports == old(ports)[port := value as bv16]
      ensures trace == old(trace) + [Write8(port, value)]
      ensures !halted
    {
      ports := ports[port := value as bv16];
      trace := trace + [Write8(port, value)];
    }

    method IoWrite16(port: nat, value: bv16)
      requires !halted
      modifies this
      ensures ports == old(ports)[port := value]
      ensures trace == old(trace) + [Write16(port, value)]
      ensures !halted
    {
      ports := ports[port := value];
      trace := trace + [Write16(port, value)];
    }

    /** IoLib's IoBitFieldWrite16: read, replace a bit field, write back; returns the value written. */
    method IoBitFieldWrite16(port: nat, startBit: bv16, endBit: bv16, value: bv16) returns (written: bv16)
      requires !halted
      requires startBit <= endBit < 16
        modifies this
      ensures written == BitFieldWrite16(PortValue(old(ports), port), startBit, endBit, value)
      ensures ports == old(ports)[port := written]
      ensures trace == old(trace) + [Write16(port, written)]
      ensures !halted
    {
      var current := IoRead16(port);
      written := BitFieldWrite16(current, startBit, endBit, value);
      IoWrite16(port, written);
    }

    /** IoLib's IoOr16: read, OR in orData, write back; returns the value written. */
    method IoOr16(port: nat, orData: bv16) returns (written: bv16)
      requires !halted
      modifies this
      ensures written == PortValue(old(ports), port) | orData
      ensures ports == old(ports)[port := written]
      ensures trace == old(trace) + [Write16(port, written)]
      ensures !halted
    {
      var current := IoRead16(port);
      written := current | orData;
      IoWrite16(port, written);
    }

    /** The delay is an event of the trace; no time passes in the model. */
    method MicroSecondDelay(microSeconds: nat)
      requires !halted
      modifies this
      ensures ports == old(ports)
      ensures trace == old(trace) + [Delay(microSeconds)]
      ensures !halted
    {
      trace := trace + [Delay(microSeconds)];
    }

    /** The terminal state: the CPU spins forever and issues nothing more. */
    method CpuDeadLoop()
      modifies this
      ensures halted
      ensures ports == old(ports) && trace == old(trace)
    {
      halted := true;
    }

    /**
     * The two writes of PM1_CNT: IoBitFieldWrite16 of bits 10..13 (SLP_TYP
     * takes the suspend type, SLP_EN is cleared), then IoOr16 of SLP_EN.
     */
    method WriteSleepControl(port: nat, suspendType: bv16)
      requires !halted
      requires suspendType < 6
      modifies this
      ensures !halted
      ensures trace == old(trace) + [Write16(port, SlpTypWrite(PortValue(old(ports), port), suspendType)),
                                     Write16(port, SlpEnWrite(PortValue(old(ports), port), suspendType))]
      ensures ports == old(ports)[port := SlpEnWrite(PortValue(old(ports), port), suspendType)]
    {
      ghost var pm1Cnt := PortValue(ports, port);
      var slpTyp := IoBitFieldWrite16(port, 10, 13, suspendType);
      assert slpTyp == SlpTypWrite(pm1Cnt, suspendType);
      assert PortValue(ports, port) == slpTyp;
      var slpEn := IoOr16(port, BIT13);
      assert slpEn == SlpEnWrite(pm1Cnt, suspendType);
    }

    /**
     * Request ACPI sleep state suspendType through PM1_CNT at the PM base + 4:
     * first SLP_TYP (bits 10..13 written, so SLP_EN clear), then SLP_EN by a
     * second read-modify-write; then halt. On an unsupported host bridge it
     * halts at once, before any port is written.
     */
    method AcpiPmControl(suspendType: bv64)
      requires !halted
      requires suspendType < 6
      modifies this
      ensures halted
      ensures Pm1CntPort().None? ==> ports == old(ports) && trace == old(trace)
      ensures Pm1CntPort().Some? ==>
                var port := Pm1CntPort().value;
                var slpTyp := SlpTypWrite(PortValue(old(ports), port), suspendType as bv16);
                var slpEn := SlpEnWrite(PortValue(old(ports), port), suspendType as bv16);
                trace == old(trace) + [Write16(port, slpTyp), Write16(port, slpEn)] &&
                ports == old(ports)[port := slpEn]
    {
      var acpiPmBaseAddress: u16 := 0;
      if hostBridgeDevId == INTEL_82441_DEVICE_ID {
        acpiPmBaseAddress := piix4AcpiPmBase;
      } else if hostBridgeDevId == INTEL_Q35_MCH_DEVICE_ID {
        acpiPmBaseAddress := ich9AcpiPmBase;
      } else {
        CpuDeadLoop();
        return;
      }
      var port := acpiPmBaseAddress + 4;
      assert Pm1CntPort() == Some(port);
      WriteSleepControl(port, suspendType as bv16);
      CpuDeadLoop();
    }

    /** Reset through the PIIX3 reset control register, then the keyboard controller; then halt. */
    method ResetCold()
      requires !halted
      modifies this
      ensures halted
      ensures trace == old(trace) + [Write8(0xCF9, BIT2 | BIT1), Delay(50), Write8(0x64, 0xFE)]
      ensures ports == old(ports)[0xCF9 := 0x06][0x64 := 0xFE]
    {
      IoWrite8(0xCF9, BIT2 | BIT1);   // RCPU | SRST
      MicroSecondDelay(50);
      IoWrite8(0x64, 0xFE);           // keyboard controller: pulse reset
      CpuDeadLoop();
    }

    /** Reset through the keyboard controller alone; then halt. */
    method ResetWarm()
      requires !halted
      modifies this
      ensures halted
      ensures trace == old(trace) + [Write8(0x64, 0xFE)]
      ensures ports == old(ports)[0x64 := 0xFE]
    {
      IoWrite8(0x64, 0xFE);
      CpuDeadLoop();
    }

    /** ACPI S5: AcpiPmControl (0). Control never comes back running. */
    method ResetShutdown()
      requires !halted
      modifies this
      ensures halted
      ensures Pm1CntPort().None? ==> ports == old(ports) && trace == old(trace)
      ensures Pm1CntPort().Some? ==>
                var port := Pm1CntPort().value;
                trace == old(trace) + [Write16(port, SlpTypWrite(PortValue(old(ports), port), 0)),
                                       Write16(port, SlpEnWrite(PortValue(old(ports), port), 0))] &&
                ports == old(ports)[port := SlpEnWrite(PortValue(old(ports), port), 0)]
    {
      AcpiPmControl(0);
      // The ASSERT (FALSE) that follows the call in the source is unreachable:
      // AcpiPmControl leaves the CPU halted.
      assert halted;
    }

    /** S3 with immediate wake: AcpiPmControl (1). Control never comes back running. */
    method EnterS3WithImmediateWake()
      requires !halted
      modifies this
      ensures halted
      ensures Pm1CntPort().None? ==> ports == old(ports) && trace == old(trace)
      ensures Pm1CntPort().Some? ==>
                var port := Pm1CntPort().value;
                trace == old(trace) + [Write16(port, SlpTypWrite(PortValue(old(ports), port), 1)),
                                       Write16(port, SlpEnWrite(PortValue(old(ports), port), 1))] &&
                ports == old(ports)[port := SlpEnWrite(PortValue(old(ports), port), 1)]
    {
      AcpiPmControl(1);
      assert halted;
    }
  }
}
