// Cartridge controller type, decoded from header byte 0x0147 (core/src/mbc.rs).
module Mbc {

  datatype MbcType = NoMbc | Mbc1 | Mbc3

  /** What the header says the cartridge carries. */
  datatype Cartridge = Cartridge(mbc: MbcType, hasRam: bool, hasBattery: bool)

  /** The cartridge type codes the emulator accepts; every other code panics. */
  predicate Supported(code: bv8)
  {
    code in {0x00, 0x01, 0x02, 0x03, 0x08, 0x09, 0x0F, 0x10, 0x11, 0x12, 0x13}
  }

  /** `MbcType::from_header`: the controller, RAM presence and battery presence. */
  function FromHeader(code: bv8): (r: Cartridge)
    requires Supported(code)
    ensures r.mbc == NoMbc <==> code in {0x00, 0x08, 0x09}
    ensures r.mbc == Mbc1 <==> 0x01 <= code <= 0x03
    ensures r.mbc == Mbc3 <==> 0x0F <= code <= 0x13
    ensures r.hasRam <==> code in {0x02, 0x03, 0x08, 0x09, 0x10, 0x12, 0x13}
    ensures r.hasBattery <==> code in {0x03, 0x09, 0x0F, 0x10, 0x13}
  {
    match code
    case 0x00 => Cartridge(NoMbc, false, false)
    case 0x01 => Cartridge(Mbc1, false, false)
    case 0x02 => Cartridge(Mbc1, true, false)
    case 0x03 => Cartridge(Mbc1, true, true)
    case 0x08 => Cartridge(NoMbc, true, false)
    case 0x09 => Cartridge(NoMbc, true, true)
    case 0x0F => Cartridge(Mbc3, false, true)
    case 0x10 => Cartridge(Mbc3, true, true)
    case 0x11 => Cartridge(Mbc3, false, false)
    case 0x12 => Cartridge(Mbc3, true, false)
    case 0x13 => Cartridge(Mbc3, true, true)
  }

  /** Every MBC1 cartridge with a battery also has RAM, and a battery-backed
      NoMbc cartridge does too; only MBC3 may carry a battery without RAM
      (the timer cartridge 0x0F). */
  lemma BatteryWithoutRamOnlyMbc3(code: bv8)
    requires Supported(code)
    ensures FromHeader(code).hasBattery && !FromHeader(code).hasRam
            <==> code == 0x0F
  {
  }
}
