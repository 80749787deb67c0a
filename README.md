# Marvell 88Q5152 PHY driver — Dafny model

This project models the Linux PHY driver for the Marvell 88Q5152
(`drivers/net/phy/mv88q5152.c`). The driver has four callbacks that the PHY
framework calls on one `phy_device`:

- `probe` accepts the device only at MDIO addresses 8 and 9.
- `config_init` selects the SerDes mode by writing a mode constant to the port
  status register (register 0). For SGMII it writes 0x0A. For 5GBASE-R it
  first turns autonegotiation off and then writes 0x0C. Every other interface
  mode is refused with `-EOPNOTSUPP` before any register access.
- `config_aneg` does nothing and succeeds.
- `read_status` resets the report to "link down, speed and duplex unknown".
  It then reads register 0 once and decodes bit 11 (link), bit 10 (duplex) and
  bits 9-8 (speed code). The speed rule depends on the interface mode:
  - SGMII maps code 0, 1 and 2 to 10, 100 and 1000; code 3 leaves the speed unknown.
  - 5GBASE-R always reports 5000.
  - Any other mode leaves the speed unknown.

The model is one module, `Mv88q5152` (`mv88q5152.dfy`):

- The device context is the class `Phy`. Its fields are the address, the
  interface mode, the autonegotiation flag, the link/speed/duplex report and a
  log of the register writes issued.
- `config_init` and `read_status` are methods that update those fields.
- `probe` and `config_aneg` are functions, so they cannot change the device.
- The register decoding is the pure function `Decode`. It is written over bit
  positions. `ReadStatus` follows the driver's masks step by step and is proved
  equal to `Decode`.
- `Encode` is a right inverse of `Decode`: for every `Reportable` report `s`,
  `Decode(Encode(s)) == s`. It is not a left inverse, since `Decode` ignores
  bits 0-7 and 12-15 (and bits 9-8 outside SGMII). `Reportable` characterises
  exactly the reports that `Decode` can produce.

A register read is an input to `ReadStatus`: the 32-bit `int` that
`phy_read` returned, given by its two's-complement bits. The method stores it
in a `u16` as the driver does, keeping the low 16 bits (`ToU16`). A register write is appended to the
`writes` log.
Each log entry also records the autonegotiation setting at the moment of the
write. This makes "the flag is cleared before the write" part of the contract.

The kernel's `SPEED_*`, `DUPLEX_*`, `AUTONEG_*` and `PHY_INTERFACE_MODE_*`
numbers are not used. They are replaced by the datatypes `Speed`, `Duplex`,
`Autoneg` and `InterfaceMode`. `Other(n)` stands for every interface mode
other than SGMII and 5GBASE-R.

`WorkedValues` checks, among others, that under SGMII 0x0B00 decodes to link
up, half duplex (bit 10 clear) and speed unknown (code 3), and that 0x0C00
decodes to link up, full duplex and 10 (code 0).

## Model

| member | source | states |
|---|---|---|
| `Mv88q5152.Phy.Probe` | drivers/net/phy/mv88q5152.c:49-61 | success exactly when the MDIO address is 8 or 9, otherwise -EOPNOTSUPP; reads only the address and changes nothing |
| `Mv88q5152.Phy.ConfigAneg` | drivers/net/phy/mv88q5152.c:80-83 | always succeeds; reads and changes nothing |
| `Mv88q5152.Phy.PhyWrite` | drivers/net/phy/mv88q5152.c:67 | a register write appends exactly one entry (register, value, current autoneg) to the write log and changes nothing else |
| `Mv88q5152.Phy.ConfigInit` | drivers/net/phy/mv88q5152.c:63-78 | succeeds exactly for SGMII and 5GBASE-R. SGMII: one write of 0x0A to register 0, autoneg unchanged. 5GBASE-R: autoneg disabled, and the single write of 0x0C to register 0 is issued with autoneg already disabled. Other modes: -EOPNOTSUPP, no write, autoneg unchanged. Address, mode and link report are never changed |
| `Mv88q5152.Phy.ReadStatus` | drivers/net/phy/mv88q5152.c:85-125 | always returns 0. The link report afterwards is `Decode` of the value read under the device's mode, and it does not depend on the previous report. The report is a `Reportable` one. Address, mode, autoneg and write log are unchanged (frame) |
| `Mv88q5152.Decode` | drivers/net/phy/mv88q5152.c:98-122 | the report is always one that `Reportable` allows (link down means duplex and speed unknown; link up means a known duplex and a speed the mode allows); link is up exactly when bit 11 is set |
| `Mv88q5152.MasksMatchBits` | drivers/net/phy/mv88q5152.c:38-47 | the driver's masks BIT(11), BIT(10) and GENMASK(9,8), and the unshifted speed constants 0x000-0x300, select bit 11, bit 10 and speed codes 0-3 |
| `Mv88q5152.LinkClearReportsDown` | drivers/net/phy/mv88q5152.c:89-98 | with bit 11 clear the report is link down, duplex and speed unknown, whatever the other fifteen bits hold |
| `Mv88q5152.LinkSetDuplex` | drivers/net/phy/mv88q5152.c:98-104 | with bit 11 set the link is up, and the duplex is Full if bit 10 is set and Half otherwise |
| `Mv88q5152.SgmiiSpeedTable` | drivers/net/phy/mv88q5152.c:107-118 | under SGMII with link up, `val & 0x300` maps 0x000 to 10, 0x100 to 100, 0x200 to 1000, and 0x300 leaves the speed unknown |
| `Mv88q5152.NonSgmiiSpeed` | drivers/net/phy/mv88q5152.c:119-121 | with link up, 5GBASE-R reports 5000 whatever bits 9-8 hold; every other non-SGMII mode leaves the speed unknown |
| `Mv88q5152.DecodeReadsOnlyStatusBits` | drivers/net/phy/mv88q5152.c:38-40 | only bits 11-8 of the register affect the report |
| `Mv88q5152.DecodeEncode` | drivers/net/phy/mv88q5152.c:98-122 | for every report that `Reportable` allows, `Encode` gives a register value that decodes back to that report |
| `Mv88q5152.DecodeImage` | drivers/net/phy/mv88q5152.c:98-122 | a report is produced by some register value if and only if `Reportable` allows it |
| `Mv88q5152.ToU16` | drivers/net/phy/mv88q5152.c:87-93 | storing phy_read's 32-bit result in the u16 keeps its value modulo 2^16 |
| `Mv88q5152.ReadErrorReportsLinkUp` | drivers/net/phy/mv88q5152.c:93 | a failed read returning an errno from -1 to -2048 is stored in the u16 with bit 11 set, so it is reported as link up |
| `Mv88q5152.ReadEioValue` | drivers/net/phy/mv88q5152.c:93 | -EIO (-5) is stored as 0xFFFB and reads as link up, full duplex; speed unknown under SGMII, 5000 under 5GBASE-R |
| `Mv88q5152.WorkedValues` | drivers/net/phy/mv88q5152.c:98-121 | 0x0E00, 0x0F00, 0x0B00, 0x0C00 and 0x07FF decode as the code dictates (1000/full, unknown/full, unknown/half, 10/full, link down) |
| `Mv88q5152.ReadStatusTwice` | drivers/net/phy/mv88q5152.c:85-125 | two polls that read the same value leave the same report; mode, autoneg and write log are untouched |
| `Mv88q5152.Lifecycle` | drivers/net/phy/mv88q5152.c:49-125 | a device the framework creates at a supported address and mode passes probe, config_init (one write, autoneg disabled exactly under 5GBASE-R) and config_aneg, and every later poll leaves a `Reportable` report equal to `Decode` of the value read |
| `Mv88q5152.ConfigInitTwice` | drivers/net/phy/mv88q5152.c:63-78 | running config_init twice gives the same result twice; on success both writes carry the same mode value |

## Left out

- The `phy_driver` table, `module_phy_driver` and the MDIO device table (lines 127-146): registration with no logic.
- The MDIO bus transaction inside `phy_read` and `phy_write`: a read is the method's input and a write is a log entry.
- The return value of `phy_write`: the driver ignores it, so the model has no failure path for writes.
- `phy_read` failures: the driver stores the returned `int` in its `u16` without checking it. The model does the same (`ToU16`) and adds no error path.
- The true link state of the internal PHY: the driver reports only the SerDes status, and the model relates `link` to bit 11 and nothing else.
- The numeric values of `SPEED_*`, `DUPLEX_*`, `AUTONEG_*`, the interface-mode enumeration and `EOPNOTSUPP`, which come from kernel headers: they are abstract datatype constructors.
- The `phy_device` fields other than the ones the driver touches, and the framework's own handling of a failed `probe` or `config_init`.
- Locking and concurrency: the framework serialises the callbacks, and the driver has none.
