/** The bytes exchanged between the controller and the hub (common/include/op_codes.h). */
module OpCodes {
  type Byte = bv8

  const ERROR: Byte := 0
  const IDLE: Byte := 0x4F
  const PUSH_DOOR: Byte := 0x71
  const PULL_DOOR: Byte := 0x0A
  const BLAST_TOOLSETTER: Byte := 0x7A
  const BLAST_SPINDLE: Byte := 0x48
  const UNCLAMP_CHUCK: Byte := 0x86
  const RESERVED0: Byte := 0xC9
  const RESERVED1: Byte := 0xB0

  const ON_MASK: Byte := 0xA5
  const OFF_MASK: Byte := 0x5A

  datatype Reply = Off | On | Error

  /** opcodes_check_cmd_valid */
  function CheckValid(value: Byte): Byte {
    if value == IDLE || value == PUSH_DOOR || value == PULL_DOOR || value == BLAST_TOOLSETTER
       || value == BLAST_SPINDLE || value == UNCLAMP_CHUCK || value == RESERVED0 || value == RESERVED1
    then value else ERROR
  }

  function DecodeReply(cmd: Byte, read: Byte): Reply {
    if cmd ^ ON_MASK == read then On
    else if cmd ^ OFF_MASK == read then Off
    else Error
  }

  function EncodeReply(reply: Reply, received: Byte): Byte {
    match reply
    case Off => received ^ OFF_MASK
    case On => received ^ ON_MASK
    case Error => ERROR
  }

  /**
   A reply is read back as sent exactly when the hub answered the command the controller remembers.
   Otherwise it is an error, unless the two commands are complements, when it reads as the opposite.
   */
  lemma ReplyDecodes(sent: Byte, received: Byte, reply: Reply)
    requires reply != Error
    ensures DecodeReply(sent, EncodeReply(reply, received)) == reply <==> sent == received
    ensures DecodeReply(sent, EncodeReply(reply, received)) == Error <==> sent != received && sent ^ received != 0xFF
  {
  }

  /** On the wire the two replies to a command differ in every bit. */
  lemma ReplyBytes(received: Byte)
    ensures EncodeReply(On, received) == received ^ 0xA5 && EncodeReply(Off, received) == received ^ 0x5A
    ensures EncodeReply(On, received) ^ EncodeReply(Off, received) == 0xFF
  {
  }
}
