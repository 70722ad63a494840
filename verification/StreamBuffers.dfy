/** The growing buffer of shared/src/serialization.c and the writers and readers on it, each proved to print and to
    parse what Wire says. */
module StreamBuffers {
  import opened Processes
  import opened Wire

  const INITIAL_STREAM_SIZE: nat := 64

  class StreamBuffer {
    var offset: nat
    var mallocSize: nat
    var stream: array<byte>

    predicate Valid()
      reads this
    {
      stream.Length == mallocSize && offset <= mallocSize
    }

    /** What has been added, or taken, so far. */
    ghost function Done(): seq<byte>
      requires Valid()
      reads this, stream
    {
      stream[..offset]
    }

    constructor (size: nat)
      ensures Valid() && fresh(stream) && offset == 0 && mallocSize == size
    {
      offset, mallocSize := 0, size;
      stream := new byte[size](i => 0);
    }

    // ---- Adding -----------------------------------------------------------------------

    /** stream_add: the buffer grows by steps of INITIAL_STREAM_SIZE until the bytes fit, and keeps its contents. */
    method Add(source: seq<byte>)
      requires Valid()
      modifies this, stream
      ensures Valid() && (stream == old(stream) || fresh(stream))
      ensures Done() == old(Done()) + source
      ensures old(mallocSize) <= mallocSize
      ensures old(mallocSize) < mallocSize ==> mallocSize < offset + INITIAL_STREAM_SIZE
    {
      while mallocSize < offset + |source|
        invariant Valid() && offset == old(offset) && old(mallocSize) <= mallocSize
        invariant stream == old(stream) || fresh(stream)
        invariant stream[..offset] == old(stream[..offset])
        invariant old(mallocSize) < mallocSize ==> mallocSize < offset + |source| + INITIAL_STREAM_SIZE
        decreases offset + |source| - mallocSize
      {
        var larger := new byte[mallocSize + INITIAL_STREAM_SIZE](i => 0);
        forall i | 0 <= i < mallocSize { larger[i] := stream[i]; }
        mallocSize := mallocSize + INITIAL_STREAM_SIZE;
        stream := larger;
      }
      forall i | 0 <= i < |source| { stream[offset + i] := source[i]; }
      offset := offset + |source|;
      assert stream[..offset] == old(Done()) + source;
    }

    method AddWord(n: nat)
      requires Valid()
      modifies this, stream
      ensures Valid() && (stream == old(stream) || fresh(stream)) && Done() == old(Done()) + Word(n)
    {
      Add(Word(n));
    }

    method AddString(id: seq<byte>)
      requires Valid()
      modifies this, stream
      ensures Valid() && (stream == old(stream) || fresh(stream)) && Done() == old(Done()) + EncodeString(id)
    {
      AddWord(|id| + 1);
      Add(id + [0]);
      assert old(Done()) + Word(|id| + 1) + (id + [0]) == old(Done()) + EncodeString(id);
    }

    /** stream_add_LIST of words: the elements, after their number. */
    method AddWords(ns: seq<nat>)
      requires Valid()
      modifies this, stream
      ensures Valid() && (stream == old(stream) || fresh(stream))
      ensures Done() == old(Done()) + (Word(|ns|) + EncodeWords(ns))
    {
      AddWord(|ns|);
      for i := 0 to |ns|
        invariant Valid() && (stream == old(stream) || fresh(stream))
        invariant Done() == old(Done()) + (Word(|ns|) + EncodeWords(ns[..i]))
      {
        AddWord(ns[i]);
        assert ns[..i + 1][..i] == ns[..i];
      }
      assert ns[..|ns|] == ns;
    }

    method AddInstruction(i: Instruction)
      requires Valid()
      modifies this, stream
      ensures Valid() && (stream == old(stream) || fresh(stream)) && Done() == old(Done()) + EncodeInstruction(i)
    {
      AddString(i.id);
      AddWords(i.params);
      assert EncodeInstruction(i) == EncodeString(i.id) + (Word(|i.params|) + EncodeWords(i.params));
    }

    method AddInstructions(list: seq<Instruction>)
      requires Valid()
      modifies this, stream
      ensures Valid() && (stream == old(stream) || fresh(stream))
      ensures Done() == old(Done()) + (Word(|list|) + EncodeInstructions(list))
    {
      hide Word, EncodeInstruction, EncodeInstructions, Done;
      ghost var start := Done();
      AddWord(|list|);
      NoInstructions(start + Word(|list|));
      for i := 0 to |list|
        invariant Valid() && (stream == old(stream) || fresh(stream))
        invariant Done() == start + Word(|list|) + EncodeInstructions(list[..i])
      {
        AddInstruction(list[i]);
        InstructionsAppend(list, i);
        Associates(start + Word(|list|), EncodeInstructions(list[..i]), EncodeInstruction(list[i]));
      }
      assert list[..|list|] == list;
      Associates(start, Word(|list|), EncodeInstructions(list));
    }

    /** stream_add_process. */
    method AddProgram(p: Program)
      requires Valid()
      modifies this, stream
      ensures Valid() && (stream == old(stream) || fresh(stream)) && Done() == old(Done()) + EncodeProgram(p)
    {
      AddWord(p.size);
      AddInstructions(p.instructions);
      assert EncodeProgram(p) == Word(p.size) + (Word(|p.instructions|) + EncodeInstructions(p.instructions));
    }

    /** stream_add_pcb. */
    method AddPcb(p: Pcb)
      requires Valid()
      modifies this, stream
      ensures Valid() && (stream == old(stream) || fresh(stream)) && Done() == old(Done()) + EncodePcb(p)
    {
      hide Word, EncodeInstructions, Done;
      ghost var start, e := Done(), Word(p.pid);
      AddWord(p.pid);
      AddWord(p.size);
      Associates(start, e, Word(p.size));
      e := e + Word(p.size);
      AddWord(p.clientSocket);
      Associates(start, e, Word(p.clientSocket));
      e := e + Word(p.clientSocket);
      AddInstructions(p.instructions);
      Associates(start, e, Word(|p.instructions|) + EncodeInstructions(p.instructions));
      Associates(e, Word(|p.instructions|), EncodeInstructions(p.instructions));
      e := e + Word(|p.instructions|) + EncodeInstructions(p.instructions);
      AddWord(p.programCounter);
      Associates(start, e, Word(p.programCounter));
      e := e + Word(p.programCounter);
      AddWord(p.pageTable);
      Associates(start, e, Word(p.pageTable));
      e := e + Word(p.pageTable);
      AddWord(p.framesIndex);
      Associates(start, e, Word(p.framesIndex));
      e := e + Word(p.framesIndex);
      AddWord(p.burstEstimation);
      Associates(start, e, Word(p.burstEstimation));
      e := e + Word(p.burstEstimation);
      AddWord(p.leftBurst);
      Associates(start, e, Word(p.leftBurst));
      e := e + Word(p.leftBurst);
      AddWord(p.blockedTime);
      Associates(start, e, Word(p.blockedTime));
      e := e + Word(p.blockedTime);
      AddWord(p.pendingIo);
      Associates(start, e, Word(p.pendingIo));
      e := e + Word(p.pendingIo);
    }

    lemma Associates(a: seq<byte>, b: seq<byte>, c: seq<byte>)
      ensures a + b + c == a + (b + c)
    {
    }

    lemma NoInstructions(a: seq<byte>)
      ensures a + EncodeInstructions([]) == a
    {
    }

    // ---- Taking -----------------------------------------------------------------------

    /** stream_take. The source takes whatever is behind the offset; here the bytes must be there. */
    method Take(size: nat) returns (dest: seq<byte>)
      requires Valid() && offset + size <= mallocSize
      modifies this`offset
      ensures Valid() && offset == old(offset) + size && dest == stream[old(offset)..offset]
    {
      dest := stream[offset..offset + size];
      offset := offset + size;
    }

    method TakeWord() returns (n: nat)
      requires Valid() && ParseWord(stream[..], offset).Parsed?
      modifies this`offset
      ensures Valid() && Parsed(n, offset) == ParseWord(stream[..], old(offset))
    {
      var bytes := Take(4);
      assert bytes == stream[..][old(offset)..offset];
      n := WordOf(bytes);
    }

    /** stream_take_STRING, and string_length of what it yields. */
    method TakeString() returns (id: seq<byte>)
      requires Valid() && ParseString(stream[..], offset).Parsed?
      modifies this`offset
      ensures Valid() && Parsed(id, offset) == ParseString(stream[..], old(offset))
    {
      var size := TakeWord();
      ghost var from := offset;
      var bytes := Take(size);
      assert bytes == stream[..][from..from + size];
      id := UpToNul(bytes, stream[..], from);
    }

    /** string_length, of bytes that hold a NUL. */
    method UpToNul(bytes: seq<byte>, ghost b: seq<byte>, ghost from: nat) returns (id: seq<byte>)
      requires from + |bytes| <= |b| && bytes == b[from..from + |bytes|]
      requires StringEnd(b, from, from + |bytes|) < from + |bytes|
      ensures id == b[from..StringEnd(b, from, from + |bytes|)]
    {
      ghost var end := StringEnd(b, from, from + |bytes|) - from;
      assert bytes[end] == b[from + end] == 0;
      assert forall i :: 0 <= i < end ==> bytes[i] == b[from + i] != 0;
      var length := 0;
      while bytes[length] != 0
        invariant length <= end
        decreases end - length
      {
        length := length + 1;
      }
      id := bytes[..length];
    }

    /** stream_take_LIST of words: as many as the number in front says. */
    method TakeWords(count: nat) returns (ns: seq<nat>)
      requires Valid() && ParseWords(stream[..], offset, count).Parsed?
      modifies this`offset
      ensures Valid() && Parsed(ns, offset) == ParseWords(stream[..], old(offset), count)
    {
      ns := [];
      for i := 0 to count
        invariant Valid() && Parsed(ns, offset) == ParseWords(stream[..], old(offset), i)
      {
        FirstWords(stream[..], old(offset), i + 1, count);
        var n := TakeWord();
        ns := ns + [n];
      }
    }

    lemma {:induction false} FirstWords(b: seq<byte>, at: nat, i: nat, count: nat)
      requires i <= count && ParseWords(b, at, count).Parsed?
      ensures ParseWords(b, at, i).Parsed?
      decreases count
    {
      if i < count { FirstWords(b, at, i, count - 1); }
    }

    method TakeInstruction() returns (i: Instruction)
      requires Valid() && ParseInstruction(stream[..], offset).Parsed?
      modifies this`offset
      ensures Valid() && Parsed(i, offset) == ParseInstruction(stream[..], old(offset))
    {
      hide ParseString, ParseWord, ParseWords;
      var id := TakeString();
      var n := TakeWord();
      var params := TakeWords(n);
      i := Instruction(id, params);
    }

    method TakeInstructions(count: nat) returns (list: seq<Instruction>)
      requires Valid() && ParseInstructions(stream[..], offset, count).Parsed?
      modifies this`offset
      ensures Valid() && Parsed(list, offset) == ParseInstructions(stream[..], old(offset), count)
    {
      hide ParseInstruction;
      list := [];
      for i := 0 to count
        invariant Valid() && Parsed(list, offset) == ParseInstructions(stream[..], old(offset), i)
      {
        FirstInstructions(stream[..], old(offset), i + 1, count);
        var element := TakeInstruction();
        list := list + [element];
      }
    }

    lemma {:induction false} FirstInstructions(b: seq<byte>, at: nat, i: nat, count: nat)
      requires i <= count && ParseInstructions(b, at, count).Parsed?
      ensures ParseInstructions(b, at, i).Parsed?
      decreases count
    {
      hide ParseInstruction;
      if i < count { FirstInstructions(b, at, i, count - 1); }
    }

    /** stream_take_process. */
    method TakeProgram() returns (p: Program)
      requires Valid() && ParseProgram(stream[..], offset).Parsed?
      modifies this`offset
      ensures Valid() && Parsed(p, offset) == ParseProgram(stream[..], old(offset))
    {
      hide ParseWords, ParseInstructions;
      var head := TakeWords(2);
      var list := TakeInstructions(head[1]);
      p := Program(head[0], list);
    }

    /** stream_take_pcb. */
    method TakePcb() returns (p: Pcb)
      requires Valid() && ParsePcb(stream[..], offset).Parsed?
      modifies this`offset
      ensures Valid() && Parsed(p, offset) == ParsePcb(stream[..], old(offset))
    {
      hide ParseWords, ParseInstructions;
      var head := TakeWords(4);
      var list := TakeInstructions(head[3]);
      var tail := TakeWords(7);
      p := Pcb(head[0], head[1], head[2], list, tail[0], tail[1], tail[2], tail[3], tail[4], tail[5], tail[6]);
    }
  }

  /** The payload the kernel sends with a PCB. */
  method PayloadOf(p: Pcb, size: nat) returns (payload: seq<byte>)
    requires PcbFits(p)
    ensures payload == EncodePcb(p)
  {
    var buffer := new StreamBuffer(size);
    buffer.AddPcb(p);
    payload := buffer.stream[..buffer.offset];
  }

  /** The PCB the CPU takes from a payload it knows only the bytes of is the PCB that was sent. */
  method TakenFrom(payload: seq<byte>, ghost p: Pcb) returns (q: Pcb)
    requires PcbFits(p) && payload == EncodePcb(p)
    ensures q == p
  {
    var received := new StreamBuffer(|payload|);
    forall i | 0 <= i < |payload| { received.stream[i] := payload[i]; }
    assert received.stream[..] == payload;
    assert Holds(received.stream[..], 0, EncodePcb(p));
    PcbRoundTrip(received.stream[..], 0, p);
    q := received.TakePcb();
  }
}
