/** A model of the Marvell 88Q5152 PHY driver callbacks (probe, config_init,
    config_aneg, read_status).

    The MDIO bus is not modelled: a register read is an input value and a
    register write is appended to the device's write log. The kernel's
    SPEED_*, DUPLEX_* and AUTONEG_* numbers are replaced by the datatypes
    below. */
module Mv88q5152 {

  // ---------------------------------------------------------------------------
  // Values the driver works with
  // ---------------------------------------------------------------------------

  /** The interface mode the framework configured for the device. Only SGMII and
      5GBASE-R are handled; every other mode of the kernel's enumeration is
      `Other`, identified by its position in that enumeration. */
  datatype InterfaceMode = Sgmii | FiveGBaseR | Other(mode: nat)

  datatype Speed = S10 | S100 | S1000 | S5000 | SpeedUnknown

  datatype Duplex = Half | Full | DuplexUnknown

  datatype Autoneg = AutonegEnable | AutonegDisable

  /** A callback's return code: 0 or -EOPNOTSUPP. */
  datatype Ret = Ok | EOpNotSupp

  /** The link report that read_status leaves in the device. */
  datatype LinkStatus = LinkStatus(link: bool, duplex: Duplex, speed: Speed)

  /** One register write issued on the bus, together with the autonegotiation
      setting the device held at the moment the write was issued, so that the
      order of "change the flag" and "write the register" is observable. */
  datatype RegWrite = RegWrite(reg: nat, value: bv16, autoneg: Autoneg)

  // ---------------------------------------------------------------------------
  // Register and bit constants
  // ---------------------------------------------------------------------------

  /** The port status register, the only register the driver touches. */
  const PORT_STATUS: nat := 0

  /** Mode-select values written to PORT_STATUS by config_init. */
  const CMODE_SGMII: bv16 := 0x0A
  const CMODE_5GBASER: bv16 := 0x0C

  /** Masks of the status bits: BIT(11), BIT(10) and GENMASK(9, 8). */
  const PORT_LINK: bv16 := 1 << 11
  const PORT_DUPLEX: bv16 := 1 << 10
  const PORT_SPEED: bv16 := 0x0300

  /** The speed field is compared masked but not shifted. */
  const PORT_SPEED_MODE_0: bv16 := 0x000
  const PORT_SPEED_MODE_1: bv16 := 0x100
  const PORT_SPEED_MODE_2: bv16 := 0x200
  const PORT_SPEED_MODE_3: bv16 := 0x300

  /** The report read_status starts from before it looks at the register. */
  const LINK_DOWN := LinkStatus(false, DuplexUnknown, SpeedUnknown)

  // ---------------------------------------------------------------------------
  // Reading the register
  // ---------------------------------------------------------------------------

  /** The C assignment of phy_read's `int` result, given by its 32 bits in
      two's complement, to the driver's `u16` variable: the low 16 bits are
      kept. A negative errno is converted like any other integer. */
  function ToU16(raw: bv32): (v: bv16)
    ensures v as bv32 == raw % 0x1_0000
  {
    (raw & 0xFFFF) as bv16
  }

  /** Bit `n` of a register value, counted from the least significant bit. */
  predicate Bit(val: bv16, n: nat)
    requires n < 16
  {
    (val >> n) & 1 == 1
  }

  /** The two-bit speed code held in bits 9-8. */
  function SpeedCode(val: bv16): (code: nat)
    ensures code < 4
  {
    ((val >> 8) & 3) as nat
  }

  /** Speed of a linked port under a given interface mode. SGMII reads the
      speed code (code 3 is not assigned a speed); 5GBASE-R has one fixed
      rate; no other mode reports a speed. */
  function ModeSpeed(code: nat, iface: InterfaceMode): Speed
    requires code < 4
  {
    match iface
    case Sgmii =>
      if code == 0 then S10
      else if code == 1 then S100
      else if code == 2 then S1000
      else SpeedUnknown
    case FiveGBaseR => S5000
    case Other(_) => SpeedUnknown
  }

  /** The reports read_status can produce under an interface mode: link down
      with nothing known, or link up with a known duplex and a speed that the
      mode allows. */
  ghost predicate Reportable(s: LinkStatus, iface: InterfaceMode)
  {
    if !s.link then s == LINK_DOWN
    else
      s.duplex != DuplexUnknown &&
      match iface
      case Sgmii => s.speed != S5000
      case FiveGBaseR => s.speed == S5000
      case Other(_) => s.speed == SpeedUnknown
  }

  /** The masks the driver tests select the same bits Decode reads. */
  lemma MasksMatchBits(val: bv16)
    ensures val & PORT_LINK != 0 <==> Bit(val, 11)
    ensures val & PORT_DUPLEX != 0 <==> Bit(val, 10)
    ensures val & PORT_SPEED == PORT_SPEED_MODE_0 <==> SpeedCode(val) == 0
    ensures val & PORT_SPEED == PORT_SPEED_MODE_1 <==> SpeedCode(val) == 1
    ensures val & PORT_SPEED == PORT_SPEED_MODE_2 <==> SpeedCode(val) == 2
    ensures val & PORT_SPEED == PORT_SPEED_MODE_3 <==> SpeedCode(val) == 3
  {
  }

  /** The link report encoded in a port status value: bit 11 is the link,
      bit 10 the duplex, bits 9-8 the speed code. */
  function Decode(val: bv16, iface: InterfaceMode): (s: LinkStatus)
    ensures Reportable(s, iface)
    ensures s.link <==> Bit(val, 11)
  {
    if !Bit(val, 11) then LINK_DOWN
    else LinkStatus(true, if Bit(val, 10) then Full else Half, ModeSpeed(SpeedCode(val), iface))
  }

  // ---------------------------------------------------------------------------
  // Properties of the decoding
  // ---------------------------------------------------------------------------

  /** With bit 11 clear the report is "link down, duplex and speed unknown",
      whatever the other fifteen bits hold. */
  lemma LinkClearReportsDown(v1: bv16, v2: bv16, iface: InterfaceMode)
    requires v1 & PORT_LINK == 0
    ensures Decode(v1, iface) == LINK_DOWN
    ensures v2 & PORT_LINK == 0 ==> Decode(v2, iface) == Decode(v1, iface)
  {
  }

  /** With bit 11 set the link is up and the duplex follows bit 10. */
  lemma LinkSetDuplex(val: bv16, iface: InterfaceMode)
    requires val & PORT_LINK != 0
    ensures Decode(val, iface).link
    ensures Decode(val, iface).duplex == (if val & PORT_DUPLEX != 0 then Full else Half)
  {
    MasksMatchBits(val);
  }

  /** The SGMII speed table, stated on the masked but unshifted field. */
  lemma SgmiiSpeedTable(val: bv16)
    requires val & PORT_LINK != 0
    ensures val & PORT_SPEED == PORT_SPEED_MODE_0 ==> Decode(val, Sgmii).speed == S10
    ensures val & PORT_SPEED == PORT_SPEED_MODE_1 ==> Decode(val, Sgmii).speed == S100
    ensures val & PORT_SPEED == PORT_SPEED_MODE_2 ==> Decode(val, Sgmii).speed == S1000
    ensures val & PORT_SPEED == PORT_SPEED_MODE_3 ==> Decode(val, Sgmii).speed == SpeedUnknown
  {
  }

  /** Under 5GBASE-R a linked port is at 5000 whatever bits 9-8 hold; under
      any mode other than SGMII and 5GBASE-R the speed stays unknown. */
  lemma NonSgmiiSpeed(val: bv16, iface: InterfaceMode)
    requires val & PORT_LINK != 0
    ensures iface == FiveGBaseR ==> Decode(val, iface).speed == S5000
    ensures iface.Other? ==> Decode(val, iface).speed == SpeedUnknown
  {
  }

  /** Only bits 11-8 take part in the decoding. */
  lemma DecodeReadsOnlyStatusBits(val: bv16, iface: InterfaceMode)
    ensures Decode(val, iface) == Decode(val & 0x0F00, iface)
  {
    var m := val & 0x0F00;
    assert Bit(m, 11) == Bit(val, 11);
    assert Bit(m, 10) == Bit(val, 10);
    assert SpeedCode(m) == SpeedCode(val);
  }

  /** A register value that decodes to a given report: the inverse of Decode
      on the reports it can produce. */
  function Encode(s: LinkStatus, iface: InterfaceMode): (val: bv16)
    requires Reportable(s, iface)
  {
    if !s.link then 0
    else
      var code: bv16 :=
        match s.speed
        case S10 => 0
        case S100 => 1
        case S1000 => 2
        case S5000 => 0
        case SpeedUnknown => if iface == Sgmii then 3 else 0;
      PORT_LINK | (if s.duplex == Full then PORT_DUPLEX else 0) | (code << 8)
  }

  lemma DecodeEncode(s: LinkStatus, iface: InterfaceMode)
    requires Reportable(s, iface)
    ensures Decode(Encode(s, iface), iface) == s
  {
  }

  /** The reports read_status can produce are exactly the Reportable ones. */
  lemma DecodeImage(s: LinkStatus, iface: InterfaceMode)
    ensures Reportable(s, iface) <==> exists val: bv16 :: Decode(val, iface) == s
  {
    if Reportable(s, iface) {
      DecodeEncode(s, iface);
    }
  }

  /** A failed phy_read returns a negative errno, which the driver stores in
      its u16 without a check. Every errno from -1 to -2048 (32-bit patterns
      0xFFFF_F800 to 0xFFFF_FFFF) sets bit 11 and so is reported as link up. */
  lemma ReadErrorReportsLinkUp(raw: bv32, iface: InterfaceMode)
    requires raw >= 0xFFFF_F800
    ensures Decode(ToU16(raw), iface).link
  {
  }

  /** -EIO, the 32-bit pattern of -5. */
  const MINUS_EIO: bv32 := 0xFFFF_FFFB

  /** -EIO is stored as 0xFFFB: link up, full duplex, speed code 3. */
  lemma ReadEioValue()
    ensures ToU16(MINUS_EIO) == 0xFFFB
    ensures Decode(0xFFFB, Sgmii) == LinkStatus(true, Full, SpeedUnknown)
    ensures Decode(0xFFFB, FiveGBaseR) == LinkStatus(true, Full, S5000)
  {
  }

  /** Reference values of the port status register. */
  lemma WorkedValues()
    ensures Decode(0x0E00, Sgmii) == LinkStatus(true, Full, S1000)
    ensures Decode(0x0F00, Sgmii) == LinkStatus(true, Full, SpeedUnknown)
    ensures Decode(0x0B00, Sgmii) == LinkStatus(true, Half, SpeedUnknown)
    ensures Decode(0x0C00, Sgmii) == LinkStatus(true, Full, S10)
    ensures Decode(0x0C00, FiveGBaseR) == LinkStatus(true, Full, S5000)
    ensures Decode(0x07FF, Sgmii) == LINK_DOWN
  {
  }

  // ---------------------------------------------------------------------------
  // The device and its callbacks
  // ---------------------------------------------------------------------------

  /** Interface modes config_init accepts. */
  predicate Supported(iface: InterfaceMode)
  {
    iface == Sgmii || iface == FiveGBaseR
  }

  /** The part of the framework's phy_device the driver reads or writes. */
  class Phy {
    var addr: int
    var iface: InterfaceMode
    var autoneg: Autoneg
    var link: bool
    var speed: Speed
    var duplex: Duplex
    /** The register writes issued so far, oldest first. */
    var writes: seq<RegWrite>

    /** The framework creates the device; the driver never does. */
    constructor (addr: int, iface: InterfaceMode, autoneg: Autoneg)
      ensures this.addr == addr && this.iface == iface && this.autoneg == autoneg
      ensures Status() == LINK_DOWN && writes == []
    {
      this.addr := addr;
      this.iface := iface;
      this.autoneg := autoneg;
      link, speed, duplex := false, SpeedUnknown, DuplexUnknown;
      writes := [];
    }

    function Status(): LinkStatus
      reads this
    {
      LinkStatus(link, duplex, speed)
    }

    /** probe: only MDIO addresses 8 and 9 are supported. Being a function of
        the address alone, it changes nothing. */
    function Probe(): (r: Ret)
      reads this`addr
      ensures r == Ok <==> addr == 8 || addr == 9
      ensures r != Ok ==> r == EOpNotSupp
    {
      match addr
      case 8 => Ok
      case 9 => Ok
      case _ => EOpNotSupp
    }

    /** config_aneg: nothing to negotiate in software; reads and changes
        nothing and always succeeds. */
    function ConfigAneg(): (r: Ret)
      ensures r == Ok
    {
      Ok
    }

    /** phy_write: issue one register write. Its result is not modelled, since
        the driver ignores it. */
    method PhyWrite(reg: nat, value: bv16)
      modifies this`writes
      ensures writes == old(writes) + [RegWrite(reg, value, autoneg)]
    {
      writes := writes + [RegWrite(reg, value, autoneg)];
    }

    /** config_init: select the SerDes mode. SGMII writes 0x0A; 5GBASE-R turns
        autonegotiation off and then writes 0x0C; any other mode is refused
        before any register access. */
    method ConfigInit() returns (ret: Ret)
      modifies this
      ensures ret == Ok <==> Supported(iface)
      ensures addr == old(addr) && iface == old(iface) && Status() == old(Status())
      ensures iface == Sgmii ==>
        autoneg == old(autoneg) && writes == old(writes) + [RegWrite(PORT_STATUS, CMODE_SGMII, old(autoneg))]
      ensures iface == FiveGBaseR ==>
        autoneg == AutonegDisable && writes == old(writes) + [RegWrite(PORT_STATUS, CMODE_5GBASER, AutonegDisable)]
      ensures !Supported(iface) ==>
        ret == EOpNotSupp && autoneg == old(autoneg) && writes == old(writes)
    {
      match iface {
        case Sgmii =>
          PhyWrite(PORT_STATUS, CMODE_SGMII);
        case FiveGBaseR =>
          autoneg := AutonegDisable;
          PhyWrite(PORT_STATUS, CMODE_5GBASER);
        case Other(_) =>
          return EOpNotSupp;
      }
      return Ok;
    }

    /** read_status: reset the report, read PORT_STATUS once (`raw` is what
        phy_read returned, as a 32-bit int) and decode it. Never fails. */
    method ReadStatus(raw: bv32) returns (ret: Ret)
      modifies this`link, this`speed, this`duplex
      ensures ret == Ok
      ensures Status() == Decode(ToU16(raw), iface)
      ensures Reportable(Status(), iface)
    {
      link := false;
      speed := SpeedUnknown;
      duplex := DuplexUnknown;

      var val := ToU16(raw);

      if val & PORT_LINK != 0 {
        link := true;

        if val & PORT_DUPLEX != 0 {
          duplex := Full;
        } else {
          duplex := Half;
        }

        if iface == Sgmii {
          var field := val & PORT_SPEED;
          if field == PORT_SPEED_MODE_0 {
            speed := S10;
          } else if field == PORT_SPEED_MODE_1 {
            speed := S100;
          } else if field == PORT_SPEED_MODE_2 {
            speed := S1000;
          }
        } else if iface == FiveGBaseR {
          speed := S5000;
        }
      }

      MasksMatchBits(val);
      return Ok;
    }
  }

  // ---------------------------------------------------------------------------
  // Properties of calling the callbacks in sequence
  // ---------------------------------------------------------------------------

  /** Two status polls that read the same register value leave the same
      report, and neither touches the mode, the flag or the write log. */
  method ReadStatusTwice(p: Phy, raw: bv32) returns (first: LinkStatus, second: LinkStatus)
    modifies p
    ensures first == second == p.Status()
    ensures p.iface == old(p.iface) && p.autoneg == old(p.autoneg) && p.writes == old(p.writes)
  {
    var _ := p.ReadStatus(raw);
    first := p.Status();
    var _ := p.ReadStatus(raw);
    second := p.Status();
  }

  /** Running config_init twice gives the same result, and when it succeeds
      both writes put the same mode value in PORT_STATUS. */
  method ConfigInitTwice(p: Phy) returns (r1: Ret, r2: Ret)
    modifies p
    ensures r1 == r2
    ensures r1 == Ok ==>
              |p.writes| == |old(p.writes)| + 2 &&
              p.writes[|p.writes| - 1].value == p.writes[|p.writes| - 2].value
    ensures r1 != Ok ==> p.writes == old(p.writes)
  {
    r1 := p.ConfigInit();
    r2 := p.ConfigInit();
  }

  /** The order in which the framework drives a new device, here created with
      autonegotiation enabled: probe, then config_init, then config_aneg, then
      a status poll. */
  method Lifecycle(addr: int, iface: InterfaceMode, raw: bv32) returns (p: Phy, probed: Ret, configured: Ret, negotiated: Ret, polled: Ret)
    requires addr == 8 || addr == 9
    requires Supported(iface)
    ensures probed == Ok && configured == Ok && negotiated == Ok && polled == Ok
    ensures p.addr == addr && p.iface == iface
    ensures p.autoneg == (if iface == FiveGBaseR then AutonegDisable else AutonegEnable)
    ensures |p.writes| == 1 && p.writes[0].reg == PORT_STATUS
    ensures p.writes[0].value == (if iface == Sgmii then CMODE_SGMII else CMODE_5GBASER)
    ensures p.Status() == Decode(ToU16(raw), iface) && Reportable(p.Status(), iface)
  {
    p := new Phy(addr, iface, AutonegEnable);
    probed := p.Probe();
    configured := p.ConfigInit();
    negotiated := p.ConfigAneg();
    polled := p.ReadStatus(raw);
  }
}
