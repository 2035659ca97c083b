/// The dispatch table of `process_opcode` in src/cpu/cpu.rs, as a value:
/// for each opcode byte, whether its arm calls an instruction handler, is
/// one of the unimplemented arms that only move the program counter and the
/// cycle counter, is the two-byte opcode prefix, or is missing, so that the
/// byte reaches the panicking default arm.
module DispatchTable {
  import opened Wrappers
  import opened Bits

  datatype Arm =
    | Handler                              // calls the handler named beside it
    | Unimplemented(length: u16, cost: u64)
    | TwoByteOpcodePrefix                  // 0xCB

  /// The eleven opcode bytes the Game Boy does not define; the table has no
  /// arm for them.
  const UNKNOWN_OPCODES: set<u8> := {0xD3, 0xDB, 0xDD, 0xE3, 0xE4, 0xEB, 0xEC, 0xED, 0xF4, 0xFC, 0xFD}

  /// The arm `process_opcode` takes for `opcode`; `None` for the default arm.
  function ArmOf(opcode: u8): Option<Arm> {
    match opcode / 0x10
    case 0x0 => Row0(opcode)
    case 0x1 => Row1(opcode)
    case 0x2 => Row2(opcode)
    case 0x3 => Row3(opcode)
    case 0x4 => Row4(opcode)
    case 0x5 => Row5(opcode)
    case 0x6 => Row6(opcode)
    case 0x7 => Row7(opcode)
    case 0x8 => Row8(opcode)
    case 0x9 => Row9(opcode)
    case 0xA => RowA(opcode)
    case 0xB => RowB(opcode)
    case 0xC => RowC(opcode)
    case 0xD => RowD(opcode)
    case 0xE => RowE(opcode)
    case _ => RowF(opcode)  // 0xF
  }

  /// The arms for opcodes 0x00 to 0x0F.
  function Row0(opcode: u8): Option<Arm>
    requires opcode / 0x10 == 0x0
  {
    match opcode
    case 0x00 => Some(Handler)  // nop
    case 0x01 => Some(Handler)  // ld_bc_d16
    case 0x02 => Some(Handler)  // ld_bc_a
    case 0x03 => Some(Handler)  // inc_bc
    case 0x04 => Some(Handler)  // inc_b
    case 0x05 => Some(Handler)  // dec_b
    case 0x06 => Some(Handler)  // ld_b_d8
    case 0x07 => Some(Handler)  // rlca
    case 0x08 => Some(Handler)  // ld_a16_sp
    case 0x09 => Some(Handler)  // add_hl_bc
    case 0x0A => Some(Handler)  // ld_a_bc
    case 0x0B => Some(Handler)  // dec_bc
    case 0x0C => Some(Handler)  // inc_c
    case 0x0D => Some(Handler)  // dec_c
    case 0x0E => Some(Handler)  // ld_c_d8
    case _ => Some(Handler)  // rrca (0x0F)
  }

  /// The arms for opcodes 0x10 to 0x1F.
  function Row1(opcode: u8): Option<Arm>
    requires opcode / 0x10 == 0x1
  {
    match opcode
    case 0x10 => Some(Handler)  // stop
    case 0x11 => Some(Handler)  // ld_de_d16
    case 0x12 => Some(Handler)  // ld_de_a
    case 0x13 => Some(Handler)  // inc_de
    case 0x14 => Some(Handler)  // inc_d
    case 0x15 => Some(Handler)  // dec_d
    case 0x16 => Some(Handler)  // ld_d_d8
    case 0x17 => Some(Handler)  // rla
    case 0x18 => Some(Handler)  // jr_s8
    case 0x19 => Some(Handler)  // add_hl_de
    case 0x1A => Some(Handler)  // ld_a_de
    case 0x1B => Some(Handler)  // dec_de
    case 0x1C => Some(Handler)  // inc_e
    case 0x1D => Some(Handler)  // dec_e
    case 0x1E => Some(Handler)  // ld_e_d8
    case _ => Some(Handler)  // rra (0x1F)
  }

  /// The arms for opcodes 0x20 to 0x2F.
  function Row2(opcode: u8): Option<Arm>
    requires opcode / 0x10 == 0x2
  {
    match opcode
    case 0x20 => Some(Handler)  // jr_nz_s8
    case 0x21 => Some(Handler)  // ld_hl_d16
    case 0x22 => Some(Handler)  // ld_hl_inc_a
    case 0x23 => Some(Handler)  // inc_hl
    case 0x24 => Some(Handler)  // inc_h
    case 0x25 => Some(Handler)  // dec_h
    case 0x26 => Some(Handler)  // ld_h_d8
    case 0x27 => Some(Unimplemented(1, 1))  // DAA
    case 0x28 => Some(Handler)  // jr_z_s8
    case 0x29 => Some(Handler)  // add_hl_hl
    case 0x2A => Some(Handler)  // ld_a_hl_inc
    case 0x2B => Some(Handler)  // dec_hl
    case 0x2C => Some(Handler)  // inc_l
    case 0x2D => Some(Handler)  // dec_l
    case 0x2E => Some(Handler)  // ld_l_d8
    case _ => Some(Handler)  // cpl (0x2F)
  }

  /// The arms for opcodes 0x30 to 0x3F.
  function Row3(opcode: u8): Option<Arm>
    requires opcode / 0x10 == 0x3
  {
    match opcode
    case 0x30 => Some(Handler)  // jr_nc_s8
    case 0x31 => Some(Handler)  // ld_sp_d16
    case 0x32 => Some(Handler)  // ld_hl_dec_a
    case 0x33 => Some(Handler)  // inc_sp
    case 0x34 => Some(Handler)  // inc_hl_address
    case 0x35 => Some(Handler)  // dec_hl_address
    case 0x36 => Some(Handler)  // ld_hl_d8
    case 0x37 => Some(Handler)  // scf
    case 0x38 => Some(Handler)  // jr_c_s8
    case 0x39 => Some(Handler)  // add_hl_sp
    case 0x3A => Some(Handler)  // ld_a_hl_dec
    case 0x3B => Some(Handler)  // dec_sp
    case 0x3C => Some(Handler)  // inc_a
    case 0x3D => Some(Handler)  // dec_a
    case 0x3E => Some(Handler)  // ld_a_d8
    case _ => Some(Handler)  // ccf (0x3F)
  }

  /// The arms for opcodes 0x40 to 0x4F.
  function Row4(opcode: u8): Option<Arm>
    requires opcode / 0x10 == 0x4
  {
    match opcode
    case 0x40 => Some(Handler)  // ld_b_b
    case 0x41 => Some(Handler)  // ld_b_c
    case 0x42 => Some(Handler)  // ld_b_d
    case 0x43 => Some(Handler)  // ld_b_e
    case 0x44 => Some(Handler)  // ld_b_h
    case 0x45 => Some(Handler)  // ld_b_l
    case 0x46 => Some(Handler)  // ld_b_hl
    case 0x47 => Some(Handler)  // ld_b_a
    case 0x48 => Some(Handler)  // ld_c_b
    case 0x49 => Some(Handler)  // ld_c_c
    case 0x4A => Some(Handler)  // ld_c_d
    case 0x4B => Some(Handler)  // ld_c_e
    case 0x4C => Some(Handler)  // ld_c_h
    case 0x4D => Some(Handler)  // ld_c_l
    case 0x4E => Some(Handler)  // ld_c_hl
    case _ => Some(Handler)  // ld_c_a (0x4F)
  }

  /// The arms for opcodes 0x50 to 0x5F.
  function Row5(opcode: u8): Option<Arm>
    requires opcode / 0x10 == 0x5
  {
    match opcode
    case 0x50 => Some(Handler)  // ld_d_b
    case 0x51 => Some(Handler)  // ld_d_c
    case 0x52 => Some(Handler)  // ld_d_d
    case 0x53 => Some(Handler)  // ld_d_e
    case 0x54 => Some(Handler)  // ld_d_h
    case 0x55 => Some(Handler)  // ld_d_l
    case 0x56 => Some(Handler)  // ld_d_hl
    case 0x57 => Some(Handler)  // ld_d_a
    case 0x58 => Some(Handler)  // ld_e_b
    case 0x59 => Some(Handler)  // ld_e_c
    case 0x5A => Some(Handler)  // ld_e_d
    case 0x5B => Some(Handler)  // ld_e_e
    case 0x5C => Some(Handler)  // ld_e_h
    case 0x5D => Some(Handler)  // ld_e_l
    case 0x5E => Some(Handler)  // ld_e_hl
    case _ => Some(Handler)  // ld_e_a (0x5F)
  }

  /// The arms for opcodes 0x60 to 0x6F.
  function Row6(opcode: u8): Option<Arm>
    requires opcode / 0x10 == 0x6
  {
    match opcode
    case 0x60 => Some(Handler)  // ld_h_b
    case 0x61 => Some(Handler)  // ld_h_c
    case 0x62 => Some(Handler)  // ld_h_d
    case 0x63 => Some(Handler)  // ld_h_e
    case 0x64 => Some(Handler)  // ld_h_h
    case 0x65 => Some(Handler)  // ld_h_l
    case 0x66 => Some(Handler)  // ld_h_hl
    case 0x67 => Some(Handler)  // ld_h_a
    case 0x68 => Some(Handler)  // ld_l_b
    case 0x69 => Some(Handler)  // ld_l_c
    case 0x6A => Some(Handler)  // ld_l_d
    case 0x6B => Some(Handler)  // ld_l_e
    case 0x6C => Some(Handler)  // ld_l_h
    case 0x6D => Some(Handler)  // ld_l_l
    case 0x6E => Some(Handler)  // ld_l_hl
    case _ => Some(Handler)  // ld_l_a (0x6F)
  }

  /// The arms for opcodes 0x70 to 0x7F.
  function Row7(opcode: u8): Option<Arm>
    requires opcode / 0x10 == 0x7
  {
    match opcode
    case 0x70 => Some(Handler)  // ld_hl_b
    case 0x71 => Some(Handler)  // ld_hl_c
    case 0x72 => Some(Handler)  // ld_hl_d
    case 0x73 => Some(Handler)  // ld_hl_e
    case 0x74 => Some(Handler)  // ld_hl_h
    case 0x75 => Some(Handler)  // ld_hl_l
    case 0x76 => Some(Handler)  // halt
    case 0x77 => Some(Handler)  // ld_hl_a
    case 0x78 => Some(Handler)  // ld_a_b
    case 0x79 => Some(Handler)  // ld_a_c
    case 0x7A => Some(Handler)  // ld_a_d
    case 0x7B => Some(Handler)  // ld_a_e
    case 0x7C => Some(Handler)  // ld_a_h
    case 0x7D => Some(Handler)  // ld_a_l
    case 0x7E => Some(Handler)  // ld_a_hl
    case _ => Some(Handler)  // ld_a_a (0x7F)
  }

  /// The arms for opcodes 0x80 to 0x8F.
  function Row8(opcode: u8): Option<Arm>
    requires opcode / 0x10 == 0x8
  {
    match opcode
    case 0x80 => Some(Handler)  // add_a_b
    case 0x81 => Some(Handler)  // add_a_c
    case 0x82 => Some(Handler)  // add_a_d
    case 0x83 => Some(Handler)  // add_a_e
    case 0x84 => Some(Handler)  // add_a_h
    case 0x85 => Some(Handler)  // add_a_l
    case 0x86 => Some(Handler)  // add_a_hl
    case 0x87 => Some(Handler)  // add_a_a
    case 0x88 => Some(Unimplemented(1, 1))  // ADC A, B
    case 0x89 => Some(Unimplemented(1, 1))  // ADC A, C
    case 0x8A => Some(Unimplemented(1, 1))  // ADC A, D
    case 0x8B => Some(Unimplemented(1, 1))  // ADC A, E
    case 0x8C => Some(Unimplemented(1, 1))  // ADC A, H
    case 0x8D => Some(Unimplemented(1, 1))  // ADC A, L
    case 0x8E => Some(Unimplemented(1, 1))  // ADC A, (HL)
    case _ => Some(Unimplemented(1, 1))  // ADC A, A (0x8F)
  }

  /// The arms for opcodes 0x90 to 0x9F.
  function Row9(opcode: u8): Option<Arm>
    requires opcode / 0x10 == 0x9
  {
    match opcode
    case 0x90 => Some(Handler)  // sub_b
    case 0x91 => Some(Handler)  // sub_c
    case 0x92 => Some(Handler)  // sub_d
    case 0x93 => Some(Handler)  // sub_e
    case 0x94 => Some(Handler)  // sub_h
    case 0x95 => Some(Handler)  // sub_l
    case 0x96 => Some(Handler)  // sub_hl
    case 0x97 => Some(Handler)  // sub_a
    case 0x98 => Some(Unimplemented(1, 1))  // SBC A, B
    case 0x99 => Some(Unimplemented(1, 1))  // SBC A, C
    case 0x9A => Some(Unimplemented(1, 1))  // SBC A, D
    case 0x9B => Some(Unimplemented(1, 1))  // SBC A, E
    case 0x9C => Some(Unimplemented(1, 1))  // SBC A, H
    case 0x9D => Some(Unimplemented(1, 1))  // SBC A, L
    case 0x9E => Some(Unimplemented(1, 1))  // SBC A, (HL)
    case _ => Some(Unimplemented(1, 1))  // SBC A, A (0x9F)
  }

  /// The arms for opcodes 0xA0 to 0xAF.
  function RowA(opcode: u8): Option<Arm>
    requires opcode / 0x10 == 0xA
  {
    match opcode
    case 0xA0 => Some(Handler)  // and_b
    case 0xA1 => Some(Handler)  // and_c
    case 0xA2 => Some(Handler)  // and_d
    case 0xA3 => Some(Handler)  // and_e
    case 0xA4 => Some(Handler)  // and_h
    case 0xA5 => Some(Handler)  // and_l
    case 0xA6 => Some(Handler)  // and_hl
    case 0xA7 => Some(Handler)  // and_a
    case 0xA8 => Some(Handler)  // xor_b
    case 0xA9 => Some(Handler)  // xor_c
    case 0xAA => Some(Handler)  // xor_d
    case 0xAB => Some(Handler)  // xor_e
    case 0xAC => Some(Handler)  // xor_h
    case 0xAD => Some(Handler)  // xor_l
    case 0xAE => Some(Handler)  // xor_hl
    case _ => Some(Handler)  // xor_a (0xAF)
  }

  /// The arms for opcodes 0xB0 to 0xBF.
  function RowB(opcode: u8): Option<Arm>
    requires opcode / 0x10 == 0xB
  {
    match opcode
    case 0xB0 => Some(Handler)  // or_b
    case 0xB1 => Some(Handler)  // or_c
    case 0xB2 => Some(Handler)  // or_d
    case 0xB3 => Some(Handler)  // or_e
    case 0xB4 => Some(Handler)  // or_h
    case 0xB5 => Some(Handler)  // or_l
    case 0xB6 => Some(Handler)  // or_hl
    case 0xB7 => Some(Handler)  // or_a
    case 0xB8 => Some(Handler)  // cp_b
    case 0xB9 => Some(Handler)  // cp_c
    case 0xBA => Some(Handler)  // cp_d
    case 0xBB => Some(Handler)  // cp_e
    case 0xBC => Some(Handler)  // cp_h
    case 0xBD => Some(Handler)  // cp_l
    case 0xBE => Some(Handler)  // cp_hl
    case _ => Some(Handler)  // cp_a (0xBF)
  }

  /// The arms for opcodes 0xC0 to 0xCF.
  function RowC(opcode: u8): Option<Arm>
    requires opcode / 0x10 == 0xC
  {
    match opcode
    case 0xC0 => Some(Handler)  // ret_nz
    case 0xC1 => Some(Handler)  // pop_bc
    case 0xC2 => Some(Handler)  // jp_nz_a16
    case 0xC3 => Some(Handler)  // jp_a16
    case 0xC4 => Some(Handler)  // call_nz_a16
    case 0xC5 => Some(Handler)  // push_bc
    case 0xC6 => Some(Handler)  // add_a_d8
    case 0xC7 => Some(Unimplemented(1, 4))  // RST 0
    case 0xC8 => Some(Handler)  // ret_z
    case 0xC9 => Some(Handler)  // ret
    case 0xCA => Some(Handler)  // jp_z_a16
    case 0xCB => Some(TwoByteOpcodePrefix)
    case 0xCC => Some(Handler)  // call_z_a16
    case 0xCD => Some(Handler)  // call_a16
    case 0xCE => Some(Unimplemented(2, 2))  // ADC A, d8
    case _ => Some(Unimplemented(1, 4))  // RST 1 (0xCF)
  }

  /// The arms for opcodes 0xD0 to 0xDF.
  function RowD(opcode: u8): Option<Arm>
    requires opcode / 0x10 == 0xD
  {
    match opcode
    case 0xD0 => Some(Handler)  // ret_nc
    case 0xD1 => Some(Handler)  // pop_de
    case 0xD2 => Some(Handler)  // jp_nc_a16
    case 0xD3 => None
    case 0xD4 => Some(Handler)  // call_nc_a16
    case 0xD5 => Some(Handler)  // push_de
    case 0xD6 => Some(Handler)  // sub_d8
    case 0xD7 => Some(Unimplemented(1, 4))  // RST 2
    case 0xD8 => Some(Handler)  // ret_c
    case 0xD9 => Some(Handler)  // reti
    case 0xDA => Some(Handler)  // jp_c_a16
    case 0xDB => None
    case 0xDC => Some(Handler)  // call_c_a16
    case 0xDD => None
    case 0xDE => Some(Unimplemented(2, 2))  // SBC A, d8, logged as ADC A, d8
    case _ => Some(Unimplemented(1, 4))  // RST 3 (0xDF)
  }

  /// The arms for opcodes 0xE0 to 0xEF.
  function RowE(opcode: u8): Option<Arm>
    requires opcode / 0x10 == 0xE
  {
    match opcode
    case 0xE0 => Some(Handler)  // ld_a8_a
    case 0xE1 => Some(Handler)  // pop_hl
    case 0xE2 => Some(Handler)  // ld_port_c_a
    case 0xE3 => None
    case 0xE4 => None
    case 0xE5 => Some(Handler)  // push_hl
    case 0xE6 => Some(Handler)  // and_d8
    case 0xE7 => Some(Unimplemented(1, 4))  // RST 4
    case 0xE8 => Some(Handler)  // add_sp_s8
    case 0xE9 => Some(Handler)  // jp_hl
    case 0xEA => Some(Handler)  // ld_a16_a
    case 0xEB => None
    case 0xEC => None
    case 0xED => None
    case 0xEE => Some(Handler)  // xor_d8
    case _ => Some(Unimplemented(1, 4))  // RST 5 (0xEF)
  }

  /// The arms for opcodes 0xF0 to 0xFF.
  function RowF(opcode: u8): Option<Arm>
    requires opcode / 0x10 == 0xF
  {
    match opcode
    case 0xF0 => Some(Handler)  // ld_a_a8
    case 0xF1 => Some(Handler)  // pop_af
    case 0xF2 => Some(Handler)  // ld_a_port_c
    case 0xF3 => Some(Handler)  // di
    case 0xF4 => None
    case 0xF5 => Some(Handler)  // push_af
    case 0xF6 => Some(Handler)  // or_d8
    case 0xF7 => Some(Unimplemented(1, 4))  // RST 6
    case 0xF8 => Some(Handler)  // ld_hl_sp_plus_s8
    case 0xF9 => Some(Handler)  // ld_sp_hl
    case 0xFA => Some(Handler)  // ld_a_a16
    case 0xFB => Some(Handler)  // ei
    case 0xFC => None
    case 0xFD => None
    case 0xFE => Some(Handler)  // cp_d8
    case _ => Some(Unimplemented(1, 4))  // RST 7 (0xFF)
  }

  /// The default arm, which panics, is taken exactly for the undefined opcodes.
  lemma PanicsExactlyOnUnknownOpcodes(opcode: u8)
    ensures ArmOf(opcode) == None <==> opcode in UNKNOWN_OPCODES
  {
  }

  /// Only 0xCB goes to the two-byte opcode table.
  lemma PrefixOnlyAtCb(opcode: u8)
    ensures ArmOf(opcode) == Some(TwoByteOpcodePrefix) <==> opcode == 0xCB
  {
  }

  /// The unimplemented arms: DAA and the register forms of ADC and SBC move
  /// one byte and one cycle, the eight RSTs one byte and four cycles, and the
  /// immediate ADC and SBC two bytes and two cycles.
  lemma UnimplementedArms(opcode: u8)
    ensures ArmOf(opcode) == Some(Unimplemented(1, 1))
        <==> opcode == 0x27 || 0x88 <= opcode <= 0x8F || 0x98 <= opcode <= 0x9F
    ensures ArmOf(opcode) == Some(Unimplemented(1, 4)) <==> opcode >= 0xC0 && opcode % 8 == 7
    ensures ArmOf(opcode) == Some(Unimplemented(2, 2)) <==> opcode == 0xCE || opcode == 0xDE
    ensures ArmOf(opcode).Some? && ArmOf(opcode).value.Unimplemented? ==>
      ArmOf(opcode).value in {Unimplemented(1, 1), Unimplemented(1, 4), Unimplemented(2, 2)}
  {
  }
}
