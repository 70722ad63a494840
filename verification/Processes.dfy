/** The values that travel through the whole system: instructions and process
    control blocks (shared/include/process_utils.h, shared/include/pcb_utils.h). */
module Processes {
  /** One octet of a packet, of the simulated memory or of a swap file. */
  type byte = x: int | 0 <= x < 256

  /** An instruction: its name, without the terminating NUL, and its parameters. */
  datatype Instruction = Instruction(id: seq<byte>, params: seq<nat>)

  datatype Pcb = Pcb(
    pid: nat,
    size: nat,
    clientSocket: nat,
    instructions: seq<Instruction>,
    programCounter: nat,
    pageTable: nat,
    framesIndex: nat,
    burstEstimation: nat,
    leftBurst: nat,
    blockedTime: nat,
    pendingIo: nat)

  /** What the kernel keeps in a PCB to ask memory for its process: page_table and process_frames_index. */
  datatype Handle = Handle(pt: nat, fi: nat)

  function HandleOf(pcb: Pcb): Handle { Handle(pcb.pageTable, pcb.framesIndex) }

  datatype Operation = NoOp | Io | Read | Copy | Write | Exit | Dead

  function Ascii(s: string): (bytes: seq<byte>)
    requires forall i :: 0 <= i < |s| ==> s[i] < 128 as char
  {
    seq(|s|, i requires 0 <= i < |s| => s[i] as int)
  }

  /** cpu/src/utils.c get_op: the operation an instruction name stands for. */
  function OperationOf(id: seq<byte>): Operation {
    if id == Ascii("NO_OP") then NoOp
    else if id == Ascii("I/O") then Io
    else if id == Ascii("READ") then Read
    else if id == Ascii("WRITE") then Write
    else if id == Ascii("COPY") then Copy
    else if id == Ascii("EXIT") then Exit
    else Dead
  }

  const WORD: nat := 0x1_0000_0000

  /** The value a uint32_t field holds after x is stored in it. */
  function ToU32(x: int): (r: nat)
    ensures r < WORD
  {
    x % WORD
  }

  /** The int a uint32_t value is read back as by a cast. */
  function ToSigned(x: nat): int {
    if x % WORD < 0x8000_0000 then x % WORD else x % WORD - WORD
  }

  lemma {:induction false} SubsetIsSmaller<T>(a: set<T>, b: set<T>)
    requires a <= b
    ensures |a| <= |b|
    decreases a
  {
    if x :| x in a { SubsetIsSmaller(a - {x}, b - {x}); }
  }
}
