/** The wire format of shared/src/serialization.c, process_utils.c and pcb_utils.c: words in host order, strings with
    their length and NUL, lists with their length, instructions, processes and PCBs. Printer and parser as functions. */
module Wire {
  import opened Processes

  /** What a take at some offset yields: a value and the offset after it, or not enough bytes. */
  datatype Parsed<+T> = Short | Parsed(value: T, next: nat)

  /** A process as the console sends it. */
  datatype Program = Program(size: nat, instructions: seq<Instruction>)

  // ---- Printing -----------------------------------------------------------------------

  /** The four bytes of a uint32_t, least significant first. */
  function Word(n: nat): (r: seq<byte>)
    ensures |r| == 4
  {
    [n % 256, n / 256 % 256, n / 65536 % 256, n / 16777216 % 256]
  }

  function EncodeString(id: seq<byte>): seq<byte> { Word(|id| + 1) + id + [0] }

  function EncodeWords(ns: seq<nat>): seq<byte> {
    if ns == [] then [] else EncodeWords(ns[..|ns| - 1]) + Word(ns[|ns| - 1])
  }

  function EncodeInstruction(i: Instruction): seq<byte> {
    EncodeString(i.id) + Word(|i.params|) + EncodeWords(i.params)
  }

  function EncodeInstructions(list: seq<Instruction>): seq<byte> {
    if list == [] then [] else EncodeInstructions(list[..|list| - 1]) + EncodeInstruction(list[|list| - 1])
  }

  function EncodeProgram(p: Program): seq<byte> {
    Word(p.size) + Word(|p.instructions|) + EncodeInstructions(p.instructions)
  }

  function EncodePcb(p: Pcb): seq<byte> {
    Word(p.pid) + Word(p.size) + Word(p.clientSocket) + Word(|p.instructions|) + EncodeInstructions(p.instructions)
    + Word(p.programCounter) + Word(p.pageTable) + Word(p.framesIndex) + Word(p.burstEstimation) + Word(p.leftBurst)
    + Word(p.blockedTime) + Word(p.pendingIo)
  }

  // ---- Parsing ------------------------------------------------------------------------

  function WordOf(b: seq<byte>): (n: nat)
    requires |b| == 4
    ensures n < WORD
  {
    b[0] as int + 256 * b[1] as int + 65536 * b[2] as int + 16777216 * b[3] as int
  }

  function ParseWord(b: seq<byte>, at: nat): Parsed<nat> {
    if at + 4 <= |b| then Parsed(WordOf(b[at..at + 4]), at + 4) else Short
  }

  /** The length of the string that starts at lo, up to its NUL, or hi if there is none before. */
  function StringEnd(b: seq<byte>, lo: nat, hi: nat): (r: nat)
    requires lo <= hi <= |b|
    ensures lo <= r <= hi && (r < hi ==> b[r] == 0) && forall i :: lo <= i < r ==> b[i] != 0
    decreases hi - lo
  {
    if lo == hi || b[lo] == 0 then lo else StringEnd(b, lo + 1, hi)
  }

  /** The bytes of the given length are skipped; the string is what comes before the first NUL in them. */
  function ParseString(b: seq<byte>, at: nat): Parsed<seq<byte>> {
    match ParseWord(b, at)
    case Short => Short
    case Parsed(size, from) =>
      if from + size <= |b| && StringEnd(b, from, from + size) < from + size
      then Parsed(b[from..StringEnd(b, from, from + size)], from + size) else Short
  }

  function ParseWords(b: seq<byte>, at: nat, n: nat): (r: Parsed<seq<nat>>)
    ensures r.Parsed? ==> |r.value| == n && r.next == at + 4 * n
  {
    if n == 0 then Parsed([], at)
    else match ParseWords(b, at, n - 1)
         case Short => Short
         case Parsed(ns, next) =>
           match ParseWord(b, next)
           case Short => Short
           case Parsed(w, after) => Parsed(ns + [w], after)
  }

  function ParseInstruction(b: seq<byte>, at: nat): Parsed<Instruction> {
    match ParseString(b, at)
    case Short => Short
    case Parsed(id, next) =>
      match ParseWord(b, next)
      case Short => Short
      case Parsed(n, from) =>
        match ParseWords(b, from, n)
        case Short => Short
        case Parsed(params, after) => Parsed(Instruction(id, params), after)
  }

  function ParseInstructions(b: seq<byte>, at: nat, n: nat): Parsed<seq<Instruction>> {
    if n == 0 then Parsed([], at)
    else match ParseInstructions(b, at, n - 1)
         case Short => Short
         case Parsed(list, next) =>
           match ParseInstruction(b, next)
           case Short => Short
           case Parsed(i, after) => Parsed(list + [i], after)
  }

  function ParseProgram(b: seq<byte>, at: nat): Parsed<Program> {
    match ParseWords(b, at, 2)
    case Short => Short
    case Parsed(head, next) =>
      match ParseInstructions(b, next, head[1])
      case Short => Short
      case Parsed(list, after) => Parsed(Program(head[0], list), after)
  }

  function ParsePcb(b: seq<byte>, at: nat): Parsed<Pcb> {
    match ParseWords(b, at, 4)
    case Short => Short
    case Parsed(head, next) =>
      match ParseInstructions(b, next, head[3])
      case Short => Short
      case Parsed(list, from) =>
        match ParseWords(b, from, 7)
        case Short => Short
        case Parsed(tail, after) =>
          var p := Pcb(head[0], head[1], head[2], list, tail[0], tail[1], tail[2], tail[3], tail[4], tail[5], tail[6]);
          Parsed(p, after)
  }

  // ---- Parsing what was printed -------------------------------------------------------

  predicate InstructionFits(i: Instruction) {
    && |i.id| + 1 < WORD && (forall k :: 0 <= k < |i.id| ==> i.id[k] != 0)
    && |i.params| < WORD && (forall k :: 0 <= k < |i.params| ==> i.params[k] < WORD)
  }

  predicate InstructionsFit(list: seq<Instruction>) {
    |list| < WORD && forall k :: 0 <= k < |list| ==> InstructionFits(list[k])
  }

  /** A program of instructions with NUL-free names, and fields and lengths that fit a uint32_t. */
  predicate ProgramFits(p: Program) { p.size < WORD && InstructionsFit(p.instructions) }

  predicate PcbFits(p: Pcb) {
    && p.pid < WORD && p.size < WORD && p.clientSocket < WORD && InstructionsFit(p.instructions)
    && p.programCounter < WORD && p.pageTable < WORD && p.framesIndex < WORD && p.burstEstimation < WORD
    && p.leftBurst < WORD && p.blockedTime < WORD && p.pendingIo < WORD
  }

  /** The bytes have part at an offset, whatever is around it. */
  predicate Holds(b: seq<byte>, at: nat, part: seq<byte>) { at + |part| <= |b| && b[at..at + |part|] == part }

  lemma HoldsBoth(b: seq<byte>, at: nat, x: seq<byte>, y: seq<byte>)
    ensures Holds(b, at, x + y) <==> Holds(b, at, x) && Holds(b, at + |x|, y)
  {
    if Holds(b, at, x) && Holds(b, at + |x|, y) {
      assert b[at..at + |x + y|] == b[at..at + |x|] + b[at + |x|..at + |x| + |y|];
    }
    if Holds(b, at, x + y) {
      assert x == (x + y)[..|x|] && y == (x + y)[|x|..];
    }
  }

  lemma By256(n: int, q: int, r: int)
    requires n == 256 * q + r && 0 <= r < 256
    ensures n / 256 == q && n % 256 == r
  {
  }

  lemma By65536(n: int, q: int, r: int)
    requires n == 65536 * q + r && 0 <= r < 65536
    ensures n / 65536 == q
  {
  }

  lemma By16777216(n: int, q: int, r: int)
    requires n == 16777216 * q + r && 0 <= r < 16777216
    ensures n / 16777216 == q
  {
  }

  lemma BytesOfWord(x: int, y: int, z: int, u: int)
    requires 0 <= x < 256 && 0 <= y < 256 && 0 <= z < 256 && 0 <= u < 256
    ensures var n := x + 256 * y + 65536 * z + 16777216 * u;
            n % 256 == x && n / 256 % 256 == y && n / 65536 % 256 == z && n / 16777216 % 256 == u
  {
    var n := x + 256 * y + 65536 * z + 16777216 * u;
    By256(n, y + 256 * z + 65536 * u, x);
    By256(y + 256 * z + 65536 * u, z + 256 * u, y);
    By65536(n, z + 256 * u, x + 256 * y);
    By256(z + 256 * u, u, z);
    By16777216(n, u, x + 256 * y + 65536 * z);
  }

  lemma WordRoundTrip(n: nat)
    requires n < WORD
    ensures WordOf(Word(n)) == n
  {
    var a := n / 256;
    var b := a / 256;
    BytesOfWord(n % 256, a % 256, b % 256, b / 256);
  }

  lemma ParsesWord(b: seq<byte>, at: nat, n: nat)
    requires n < WORD && Holds(b, at, Word(n))
    ensures ParseWord(b, at) == Parsed(n, at + 4)
  {
    WordRoundTrip(n);
  }

  lemma ParsesString(b: seq<byte>, at: nat, id: seq<byte>)
    requires |id| + 1 < WORD && (forall k :: 0 <= k < |id| ==> id[k] != 0) && Holds(b, at, EncodeString(id))
    ensures ParseString(b, at) == Parsed(id, at + |EncodeString(id)|)
  {
    hide Word;
    HoldsBoth(b, at, Word(|id| + 1), id + [0]);
    assert EncodeString(id) == Word(|id| + 1) + (id + [0]);
    ParsesWord(b, at, |id| + 1);
    StringEndsAtNul(b, at + 4, id);
  }

  lemma StringEndsAtNul(b: seq<byte>, from: nat, id: seq<byte>)
    requires (forall k :: 0 <= k < |id| ==> id[k] != 0) && Holds(b, from, id + [0])
    ensures StringEnd(b, from, from + |id| + 1) == from + |id| && b[from..from + |id|] == id
  {
    var part, end := b[from..from + |id| + 1], StringEnd(b, from, from + |id| + 1);
    assert forall k :: 0 <= k <= |id| ==> b[from + k] == part[k];
    assert part[|id|] == 0;
    assert forall i :: from <= i < from + |id| ==> b[i] == part[i - from] == id[i - from] != 0;
    assert part[..|id|] == id;
  }

  lemma {:induction false} ParsesWords(b: seq<byte>, at: nat, ns: seq<nat>)
    requires (forall k :: 0 <= k < |ns| ==> ns[k] < WORD) && Holds(b, at, EncodeWords(ns))
    ensures |EncodeWords(ns)| == 4 * |ns| && ParseWords(b, at, |ns|) == Parsed(ns, at + 4 * |ns|)
  {
    if ns != [] {
      var init, last := ns[..|ns| - 1], ns[|ns| - 1];
      HoldsBoth(b, at, EncodeWords(init), Word(last));
      ParsesWords(b, at, init);
      ParsesWord(b, at + 4 * |init|, last);
      assert init + [last] == ns;
    }
  }

  lemma ParsesInstruction(b: seq<byte>, at: nat, i: Instruction)
    requires InstructionFits(i) && Holds(b, at, EncodeInstruction(i))
    ensures ParseInstruction(b, at) == Parsed(i, at + |EncodeInstruction(i)|)
  {
    hide Word, EncodeString, EncodeWords, ParseString, ParseWord, ParseWords, Holds;
    HoldsBoth(b, at, EncodeString(i.id) + Word(|i.params|), EncodeWords(i.params));
    HoldsBoth(b, at, EncodeString(i.id), Word(|i.params|));
    ParsesString(b, at, i.id);
    ParsesWord(b, at + |EncodeString(i.id)|, |i.params|);
    ParsesWords(b, at + |EncodeString(i.id)| + 4, i.params);
  }

  lemma {:induction false} ParsesInstructions(b: seq<byte>, at: nat, list: seq<Instruction>)
    requires (forall k :: 0 <= k < |list| ==> InstructionFits(list[k])) && Holds(b, at, EncodeInstructions(list))
    ensures ParseInstructions(b, at, |list|) == Parsed(list, at + |EncodeInstructions(list)|)
  {
    hide EncodeInstruction, ParseInstruction, Holds, InstructionFits;
    if list != [] {
      var init, last := list[..|list| - 1], list[|list| - 1];
      HoldsBoth(b, at, EncodeInstructions(init), EncodeInstruction(last));
      ParsesInstructions(b, at, init);
      ParsesInstruction(b, at + |EncodeInstructions(init)|, last);
      assert init + [last] == list;
    }
  }

  lemma WordsAppend(ns: seq<nat>, n: nat)
    ensures EncodeWords(ns + [n]) == EncodeWords(ns) + Word(n)
  {
    assert (ns + [n])[..|ns|] == ns;
  }

  lemma InstructionsAppend(list: seq<Instruction>, k: nat)
    requires k < |list|
    ensures EncodeInstructions(list[..k + 1]) == EncodeInstructions(list[..k]) + EncodeInstruction(list[k])
  {
    assert list[..k + 1][..k] == list[..k];
  }

  lemma TwoWords(x: nat, y: nat)
    ensures Word(x) + Word(y) == EncodeWords([x, y])
  {
    hide Word;
    WordsAppend([], x);
    WordsAppend([x], y);
    assert [] + [x] == [x] && [x] + [y] == [x, y];
    assert EncodeWords([]) + Word(x) == Word(x);
  }

  lemma FourWords(x: nat, y: nat, z: nat, u: nat)
    ensures Word(x) + Word(y) + Word(z) + Word(u) == EncodeWords([x, y, z, u])
  {
    hide Word;
    TwoWords(x, y);
    WordsAppend([x, y], z);
    WordsAppend([x, y, z], u);
    assert [x, y] + [z] == [x, y, z] && [x, y, z] + [u] == [x, y, z, u];
  }

  /** The head of a PCB, its instructions and its tail. */
  lemma PcbInParts(p: Pcb)
    ensures EncodePcb(p)
         == EncodeWords([p.pid, p.size, p.clientSocket, |p.instructions|])
            + EncodeInstructions(p.instructions)
            + EncodeWords([p.programCounter, p.pageTable, p.framesIndex, p.burstEstimation, p.leftBurst, p.blockedTime,
                p.pendingIo])
  {
    hide Word, EncodeInstructions;
    FourWords(p.pid, p.size, p.clientSocket, |p.instructions|);
    var t := [p.programCounter, p.pageTable, p.framesIndex, p.burstEstimation];
    FourWords(p.programCounter, p.pageTable, p.framesIndex, p.burstEstimation);
    WordsAppend(t, p.leftBurst);
    WordsAppend(t + [p.leftBurst], p.blockedTime);
    WordsAppend(t + [p.leftBurst] + [p.blockedTime], p.pendingIo);
    assert t + [p.leftBurst] + [p.blockedTime] + [p.pendingIo]
        == [p.programCounter, p.pageTable, p.framesIndex, p.burstEstimation, p.leftBurst, p.blockedTime, p.pendingIo];
  }

  /** PCB round trip: whatever bytes are around it, an encoded PCB is read back as it was, and exactly its bytes are
      consumed. */
  lemma PcbRoundTrip(b: seq<byte>, at: nat, p: Pcb)
    requires PcbFits(p) && Holds(b, at, EncodePcb(p))
    ensures ParsePcb(b, at) == Parsed(p, at + |EncodePcb(p)|)
  {
    hide Word, EncodeWords, EncodeInstructions, ParseWords, ParseInstructions, Holds, EncodePcb, InstructionFits;
    PcbInParts(p);
    var head := [p.pid, p.size, p.clientSocket, |p.instructions|];
    var tail := [p.programCounter, p.pageTable, p.framesIndex, p.burstEstimation, p.leftBurst, p.blockedTime,
        p.pendingIo];
    HoldsBoth(b, at, EncodeWords(head) + EncodeInstructions(p.instructions), EncodeWords(tail));
    HoldsBoth(b, at, EncodeWords(head), EncodeInstructions(p.instructions));
    ParsesWords(b, at, head);
    ParsesInstructions(b, at + 16, p.instructions);
    ParsesWords(b, at + 16 + |EncodeInstructions(p.instructions)|, tail);
  }

  lemma ProgramRoundTrip(b: seq<byte>, at: nat, p: Program)
    requires ProgramFits(p) && Holds(b, at, EncodeProgram(p))
    ensures ParseProgram(b, at) == Parsed(p, at + |EncodeProgram(p)|)
  {
    hide Word, EncodeWords, EncodeInstructions, ParseWords, ParseInstructions, Holds, InstructionFits;
    TwoWords(p.size, |p.instructions|);
    var head := [p.size, |p.instructions|];
    HoldsBoth(b, at, EncodeWords(head), EncodeInstructions(p.instructions));
    ParsesWords(b, at, head);
    ParsesInstructions(b, at + 8, p.instructions);
  }

  /** No encoding of a PCB is the beginning of another: what follows it cannot change how it is read. */
  lemma PcbsAreUniquelyDecodable(p: Pcb, q: Pcb, r: seq<byte>, s: seq<byte>)
    requires PcbFits(p) && PcbFits(q) && EncodePcb(p) + r == EncodePcb(q) + s
    ensures p == q && r == s
  {
    hide EncodePcb, ParsePcb, PcbFits;
    var b := EncodePcb(p) + r;
    assert Holds(b, 0, EncodePcb(p));
    assert Holds(b, 0, EncodePcb(q)) by { assert b[..|EncodePcb(q)|] == EncodePcb(q); }
    PcbRoundTrip(b, 0, p);
    PcbRoundTrip(b, 0, q);
    assert r == b[|EncodePcb(p)|..] && s == b[|EncodePcb(q)|..];
  }

  // ---- Where the bytes are ------------------------------------------------------------

  /** The number four bytes of a packet stand for, least significant first. */
  predicate WordAt(b: seq<byte>, at: nat, n: nat) {
    at + 4 <= |b| && n == b[at] as int + 256 * b[at + 1] as int + 65536 * b[at + 2] as int + 16777216 * b[at + 3] as int
  }

  lemma WordIsThere(b: seq<byte>, at: nat, n: nat)
    requires n < WORD && Holds(b, at, Word(n))
    ensures WordAt(b, at, n)
  {
    hide Word;
    WordRoundTrip(n);
    assert b[at..at + 4] == Word(n);
  }

  lemma {:induction false} WordsAreThere(b: seq<byte>, at: nat, ns: seq<nat>, i: nat)
    requires Holds(b, at, EncodeWords(ns)) && i < |ns| && ns[i] < WORD
    ensures |EncodeWords(ns)| == 4 * |ns| && WordAt(b, at + 4 * i, ns[i])
    decreases |ns|
  {
    hide Holds, Word, WordAt;
    var init, last := ns[..|ns| - 1], ns[|ns| - 1];
    HoldsBoth(b, at, EncodeWords(init), Word(last));
    WordsAreLong(init);
    if i < |init| { WordsAreThere(b, at, init, i); } else { WordIsThere(b, at + 4 * |init|, last); }
  }

  lemma {:induction false} WordsAreLong(ns: seq<nat>)
    ensures |EncodeWords(ns)| == 4 * |ns|
  {
    if ns != [] { WordsAreLong(ns[..|ns| - 1]); }
  }

  lemma FourWordsAreThere(b: seq<byte>, at: nat, x: nat, y: nat, z: nat, u: nat)
    requires Holds(b, at, EncodeWords([x, y, z, u])) && x < WORD && y < WORD && z < WORD && u < WORD
    ensures WordAt(b, at, x) && WordAt(b, at + 4, y) && WordAt(b, at + 8, z) && WordAt(b, at + 12, u)
  {
    hide Holds, Word, WordAt, EncodeWords;
    var ns := [x, y, z, u];
    WordsAreThere(b, at, ns, 0);
    WordsAreThere(b, at, ns, 1);
    WordsAreThere(b, at, ns, 2);
    WordsAreThere(b, at, ns, 3);
  }

  function Head(p: Pcb): seq<nat> { [p.pid, p.size, p.clientSocket, |p.instructions|] }

  function Middle(p: Pcb): seq<nat> { [p.programCounter, p.pageTable, p.framesIndex, p.burstEstimation] }

  function Tail(p: Pcb): seq<nat> { [p.leftBurst, p.blockedTime, p.pendingIo] }

  lemma PcbParts(p: Pcb)
    ensures EncodePcb(p) == EncodeWords(Head(p)) + EncodeInstructions(p.instructions)
                            + EncodeWords(Middle(p)) + EncodeWords(Tail(p))
    ensures |EncodeWords(Head(p))| == |EncodeWords(Middle(p))| == 16 && |EncodeWords(Tail(p))| == 12
  {
    hide Word, EncodeInstructions;
    FourWords(p.pid, p.size, p.clientSocket, |p.instructions|);
    FourWords(p.programCounter, p.pageTable, p.framesIndex, p.burstEstimation);
    TwoWords(p.leftBurst, p.blockedTime);
    WordsAppend([p.leftBurst, p.blockedTime], p.pendingIo);
    assert [p.leftBurst, p.blockedTime] + [p.pendingIo] == Tail(p);
  }

  /** The layout of a PCB: four words, the instructions, seven words. */
  lemma PcbLayout(p: Pcb)
    requires PcbFits(p)
    ensures var b := EncodePcb(p);
            var tail := |b| - 28;
            && tail >= 16
            && WordAt(b, 0, p.pid) && WordAt(b, 4, p.size) && WordAt(b, 8, p.clientSocket)
            && WordAt(b, 12, |p.instructions|) && b[16..tail] == EncodeInstructions(p.instructions)
            && WordAt(b, tail, p.programCounter) && WordAt(b, tail + 4, p.pageTable)
            && WordAt(b, tail + 8, p.framesIndex) && WordAt(b, tail + 12, p.burstEstimation)
            && WordAt(b, tail + 16, p.leftBurst) && WordAt(b, tail + 20, p.blockedTime)
            && WordAt(b, tail + 24, p.pendingIo)
  {
    hide EncodePcb, EncodeWords, EncodeInstructions, Word, WordAt, Holds;
    var b, n := EncodePcb(p), |EncodeInstructions(p.instructions)|;
    PcbParts(p);
    FourParts(b, EncodeWords(Head(p)), EncodeInstructions(p.instructions), EncodeWords(Middle(p)),
        EncodeWords(Tail(p)));
    FourWordsAreThere(b, 0, p.pid, p.size, p.clientSocket, |p.instructions|);
    FourWordsAreThere(b, 16 + n, p.programCounter, p.pageTable, p.framesIndex, p.burstEstimation);
    WordsAreThere(b, 32 + n, Tail(p), 0);
    WordsAreThere(b, 32 + n, Tail(p), 1);
    WordsAreThere(b, 32 + n, Tail(p), 2);
  }

  lemma FourParts(b: seq<byte>, x: seq<byte>, y: seq<byte>, z: seq<byte>, u: seq<byte>)
    requires b == x + y + z + u
    ensures |b| == |x| + |y| + |z| + |u| && b[|x|..|x| + |y|] == y
    ensures Holds(b, 0, x) && Holds(b, |x| + |y|, z) && Holds(b, |x| + |y| + |z|, u)
  {
  }

  /** The layout of a process as the console sends it: its size, how many instructions, and these. */
  lemma ProgramLayout(p: Program)
    requires ProgramFits(p)
    ensures var b := EncodeProgram(p);
            |b| >= 8 && WordAt(b, 0, p.size) && WordAt(b, 4, |p.instructions|)
            && b[8..] == EncodeInstructions(p.instructions)
  {
    hide Word, WordAt, EncodeInstructions;
    var b := EncodeProgram(p);
    assert Holds(b, 0, Word(p.size)) && Holds(b, 4, Word(|p.instructions|));
    WordIsThere(b, 0, p.size);
    WordIsThere(b, 4, |p.instructions|);
  }

  /** The layout of an instruction: the length of its name with the NUL, the name, the NUL, how many parameters, and
      these. */
  lemma InstructionLayout(i: Instruction)
    requires InstructionFits(i)
    ensures var b, n := EncodeInstruction(i), |i.id|;
            && |b| == 9 + n + 4 * |i.params| && WordAt(b, 0, n + 1) && b[4..4 + n] == i.id && b[4 + n] == 0
            && WordAt(b, 5 + n, |i.params|)
            && forall k :: 0 <= k < |i.params| ==> WordAt(b, 9 + n + 4 * k, i.params[k])
  {
    hide Word, WordAt;
    var b, n := EncodeInstruction(i), |i.id|;
    assert b == Word(n + 1) + i.id + [0] + Word(|i.params|) + EncodeWords(i.params);
    WordsAreLong(i.params);
    WordIsThere(b, 0, n + 1);
    WordIsThere(b, 5 + n, |i.params|);
    assert Holds(b, 9 + n, EncodeWords(i.params));
    forall k | 0 <= k < |i.params| ensures WordAt(b, 9 + n + 4 * k, i.params[k]) {
      WordsAreThere(b, 9 + n, i.params, k);
    }
  }
}
