/** The opcodes of the virtual machine and their two external forms: the byte
    that encodes them in a program and the assembler mnemonic
    (src/instruction.rs). */
module Instructions {
  import opened Wrappers

  datatype Opcode =
    | HLT | LT | GT | LTE | GTE | NEQ | EQ | JEQ | JNE
    | JMP | JMPF | JMPB | IGL | LOAD | ADD | SUB | MUL | DIV | NOP | ALOC | LBL

  /** The opcode a program byte encodes. Codes 0 to 19 are assigned; every
      other byte is the illegal opcode. */
  function FromByte(v: byte): (op: Opcode)
    ensures op == IGL <==> v > 19
    ensures op != IGL ==> Code(op) == Some(v)
  {
    match v
    case 19 => LBL
    case 18 => ALOC
    case 17 => NOP
    case 16 => LT
    case 15 => GT
    case 14 => LTE
    case 13 => GTE
    case 12 => NEQ
    case 11 => JNE
    case 10 => JEQ
    case 9 => EQ
    case 8 => JMPB
    case 7 => JMPF
    case 6 => JMP
    case 5 => HLT
    case 4 => DIV
    case 3 => MUL
    case 2 => SUB
    case 1 => ADD
    case 0 => LOAD
    case _ => IGL
  }

  /** The byte encoding an opcode, as an independent table in the other
      direction. The illegal opcode has no code. */
  function Code(op: Opcode): Option<byte> {
    match op
    case LOAD => Some(0)
    case ADD => Some(1)
    case SUB => Some(2)
    case MUL => Some(3)
    case DIV => Some(4)
    case HLT => Some(5)
    case JMP => Some(6)
    case JMPF => Some(7)
    case JMPB => Some(8)
    case EQ => Some(9)
    case JEQ => Some(10)
    case JNE => Some(11)
    case NEQ => Some(12)
    case GTE => Some(13)
    case LTE => Some(14)
    case GT => Some(15)
    case LT => Some(16)
    case NOP => Some(17)
    case ALOC => Some(18)
    case LBL => Some(19)
    case IGL => None
  }

  /** Decoding inverts encoding: every opcode but the illegal one has a code,
      and that code decodes back to it. */
  lemma CodeRoundTrip(op: Opcode)
    ensures op != IGL <==> Code(op).Some?
    ensures Code(op).Some? ==> FromByte(Code(op).value) == op
  {
  }

  /** Two bytes that decode to the same legal opcode are equal. */
  lemma FromByteInjective(v: byte, w: byte)
    requires FromByte(v) == FromByte(w) && FromByte(v) != IGL
    ensures v == w
  {
  }

  /** ASCII upper-case letters to lower case; everything else is kept. */
  function ToLower(s: string): (r: string)
    ensures |r| == |s|
    ensures forall i :: 0 <= i < |s| ==> r[i] == LowerChar(s[i])
  {
    if |s| == 0 then "" else [LowerChar(s[0])] + ToLower(s[1..])
  }

  function LowerChar(c: char): char {
    if 'A' <= c <= 'Z' then (c as int + 32) as char else c
  }

  /** The keyword arms of the mnemonic table, on a lower-case name. */
  function LowerMnemonic(name: string): Opcode {
    match name
    case "aloc" => ALOC
    case "nop" => NOP
    case "lt" => LT
    case "gt" => GT
    case "lte" => LTE
    case "gte" => GTE
    case "neq" => NEQ
    case "jne" => JNE
    case "jeq" => JEQ
    case "eq" => EQ
    case "jmpb" => JMPB
    case "jmpf" => JMPF
    case "jmp" => JMP
    case "hlt" => HLT
    case "div" => DIV
    case "mul" => MUL
    case "sub" => SUB
    case "add" => ADD
    case "load" => LOAD
    case _ => IGL
  }

  /** The opcode an assembler mnemonic names, ignoring case; an unknown name
      is the illegal opcode. */
  function FromMnemonic(name: string): Opcode {
    LowerMnemonic(ToLower(name))
  }

  /** The lower-case mnemonic of an opcode, as an independent table. `LBL` and
      the illegal opcode have none. */
  function Mnemonic(op: Opcode): Option<string> {
    match op
    case LOAD => Some("load")
    case ADD => Some("add")
    case SUB => Some("sub")
    case MUL => Some("mul")
    case DIV => Some("div")
    case HLT => Some("hlt")
    case JMP => Some("jmp")
    case JMPF => Some("jmpf")
    case JMPB => Some("jmpb")
    case EQ => Some("eq")
    case JEQ => Some("jeq")
    case JNE => Some("jne")
    case NEQ => Some("neq")
    case GTE => Some("gte")
    case LTE => Some("lte")
    case GT => Some("gt")
    case LT => Some("lt")
    case NOP => Some("nop")
    case ALOC => Some("aloc")
    case LBL => None
    case IGL => None
  }

  /** Lower-casing is idempotent. */
  lemma {:induction false} ToLowerIdempotent(s: string)
    ensures ToLower(ToLower(s)) == ToLower(s)
  {
    if |s| > 0 {
      ToLowerIdempotent(s[1..]);
      assert ToLower(s)[1..] == ToLower(s[1..]);
    }
  }

  /** Every mnemonic is lower case and reads back as its opcode. */
  lemma MnemonicRoundTrip(op: Opcode)
    ensures Mnemonic(op).Some? ==>
      && ToLower(Mnemonic(op).value) == Mnemonic(op).value
      && FromMnemonic(Mnemonic(op).value) == op
  {
    if Mnemonic(op).Some? {
      LowerFixesMnemonic(op);
    }
  }

  lemma LowerFixesMnemonic(op: Opcode)
    requires Mnemonic(op).Some?
    ensures ToLower(Mnemonic(op).value) == Mnemonic(op).value
  {
    var m := Mnemonic(op).value;
    assert forall i :: 0 <= i < |m| ==> 'a' <= m[i] <= 'z';
    LowerIsFixed(m);
  }

  /** A name without upper-case letters is its own lower-case form. */
  lemma LowerIsFixed(s: string)
    requires forall i :: 0 <= i < |s| ==> 'a' <= s[i] <= 'z'
    ensures ToLower(s) == s
  {
  }

  /** The mnemonic table is case-insensitive. */
  lemma MnemonicIgnoresCase(name: string)
    ensures FromMnemonic(ToLower(name)) == FromMnemonic(name)
  {
    ToLowerIdempotent(name);
  }

  /** The mnemonic table holds exactly the names of `Mnemonic`: a name is
      recognised if and only if its lower-case form is some opcode's mnemonic,
      and it is then that opcode; every other name is the illegal opcode. */
  lemma MnemonicExact(name: string)
    ensures FromMnemonic(name) != IGL ==> Mnemonic(FromMnemonic(name)) == Some(ToLower(name))
    ensures (exists op :: Mnemonic(op) == Some(ToLower(name))) ==> FromMnemonic(name) != IGL
  {
    if op :| Mnemonic(op) == Some(ToLower(name)) {
      MnemonicRoundTrip(op);
      ToLowerIdempotent(name);
      assert FromMnemonic(name) == LowerMnemonic(ToLower(name)) == FromMnemonic(Mnemonic(op).value) == op;
    }
  }

  /** Instruction names as the tests write them: upper case is accepted, and
      `LBL`, which has a byte code, has no mnemonic. */
  lemma MnemonicExamples()
    ensures FromMnemonic("HLT") == HLT
    ensures FromMnemonic("Load") == LOAD
    ensures FromMnemonic("lbl") == IGL
  {
    assert ToLower("HLT") == "hlt";
    assert ToLower("Load") == "load";
    assert ToLower("lbl") == "lbl";
  }
}
