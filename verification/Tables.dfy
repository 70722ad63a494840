/** The two-level page tables and the frame lists as memory/src/page_table.c keeps them, and how they spell out the
    processes of Paging. A frame entry's pointer to a page entry is the page's table and position. */
module Tables {
  import opened Processes
  import opened Paging

  /** t_page_entry. */
  datatype PageEntry = PageEntry(frame: int, present: bool, modified: bool, used: bool, page: nat)

  datatype PageRef = Null | Ref(table: nat, entry: nat)

  /** t_frame_entry and t_process_frame. */
  datatype FrameEntry = FrameEntry(frame: int, pageData: PageRef)
  datatype ProcessFrames = ProcessFrames(frames: seq<FrameEntry>, clockHand: nat)

  type Level2 = seq<seq<PageEntry>>

  function ToEntry(e: PageEntry): Entry { Entry(e.frame, e.present, e.modified, e.used) }

  // ---- Arithmetic of two levels -------------------------------------------------------

  /** Table i, entry j, of tables of size each. */
  function Number(i: nat, j: nat, size: nat): nat { i * size + j }

  lemma Splits(i: nat, j: nat, size: nat)
    requires j < size
    ensures Number(i, j, size) / size == i && Number(i, j, size) % size == j
  {
    var k := Number(i, j, size);
    assert k == k / size * size + k % size;
    if k / size < i {
      assert (k / size + 1) * size <= i * size by { Monotone(k / size + 1, i, size); }
    } else if k / size > i {
      assert (i + 1) * size <= k / size * size by { Monotone(i + 1, k / size, size); }
    }
  }

  lemma Monotone(a: nat, b: nat, size: nat)
    requires a <= b
    ensures a * size <= b * size
  {
  }

  lemma Joins(k: nat, size: nat)
    requires size > 0
    ensures Number(k / size, k % size, size) == k && k % size < size
  {
  }

  /** A number below n tables is in one of the n tables, and the other way round. */
  lemma InTables(i: nat, j: nat, n: nat, size: nat)
    requires j < size
    ensures Number(i, j, size) < n * size <==> i < n
  {
    if i < n { Monotone(i + 1, n, size); } else { Monotone(n, i, size); }
  }

  lemma NumberOfFirst(size: nat)
    ensures Number(0, 0, size) == 0
  {
  }

  lemma NextNumber(i: nat, j: nat, size: nat)
    ensures Number(i, j + 1, size) == Number(i, j, size) + 1
  {
  }

  lemma NextTable(i: nat, size: nat)
    ensures Number(i, size, size) == Number(i + 1, 0, size)
  {
  }

  // ---- A process, spelled out ---------------------------------------------------------

  /** The level-2 tables of one process exist, are different, and number its pages throughout the process. */
  ghost predicate Rooted(tables: seq<nat>, level2: Level2, size: nat) {
    && size > 0
    && (forall i :: 0 <= i < |tables| ==> tables[i] < |level2| && |level2[tables[i]]| == size)
    && (forall i, j :: 0 <= i < j < |tables| ==> tables[i] != tables[j])
    && (forall i, j :: 0 <= i < |tables| && 0 <= j < size ==> level2[tables[i]][j].page == Number(i, j, size))
  }

  function PageAt(tables: seq<nat>, level2: Level2, size: nat, k: nat): Entry
    requires Rooted(tables, level2, size) && k / size < |tables|
  {
    ToEntry(level2[tables[k / size]][k % size])
  }

  ghost function Pages(tables: seq<nat>, level2: Level2, size: nat): (r: seq<Entry>)
    requires Rooted(tables, level2, size)
    ensures |r| == |tables| * size
  {
    seq(|tables| * size, k requires 0 <= k < |tables| * size =>
      Joins(k, size); InTables(k / size, k % size, |tables|, size); PageAt(tables, level2, size, k))
  }

  lemma PageOfEntry(tables: seq<nat>, level2: Level2, size: nat, i: nat, j: nat)
    requires Rooted(tables, level2, size) && i < |tables| && j < size
    ensures Number(i, j, size) < |tables| * size
    ensures Pages(tables, level2, size)[Number(i, j, size)] == ToEntry(level2[tables[i]][j])
  {
    InTables(i, j, |tables|, size);
    Splits(i, j, size);
  }

  /** A pointer is null or points into a table of the process. */
  ghost predicate PointsInto(r: PageRef, tables: seq<nat>, size: nat) {
    r.Ref? ==> r.table in tables && r.entry < size
  }

  function NumberOf(r: PageRef, level2: Level2): int {
    if r.Ref? && r.table < |level2| && r.entry < |level2[r.table]| then level2[r.table][r.entry].page else -1
  }

  function Slots(frames: seq<FrameEntry>, level2: Level2): (r: seq<Slot>)
    ensures |r| == |frames|
  {
    seq(|frames|, i requires 0 <= i < |frames| => Slot(frames[i].frame, NumberOf(frames[i].pageData, level2)))
  }

  // ---- Changing one page entry --------------------------------------------------------

  function Set(level2: Level2, r: PageRef, e: PageEntry): Level2
    requires r.Ref? && r.table < |level2| && r.entry < |level2[r.table]|
  {
    level2[r.table := level2[r.table][r.entry := e]]
  }

  lemma SetKeepsRooted(tables: seq<nat>, level2: Level2, size: nat, r: PageRef, e: PageEntry)
    requires Rooted(tables, level2, size)
    requires r.Ref? && r.table < |level2| && r.entry < |level2[r.table]| && e.page == level2[r.table][r.entry].page
    ensures Rooted(tables, Set(level2, r, e), size)
  {
  }

  lemma SetKeepsSlots(frames: seq<FrameEntry>, level2: Level2, r: PageRef, e: PageEntry)
    requires r.Ref? && r.table < |level2| && r.entry < |level2[r.table]| && e.page == level2[r.table][r.entry].page
    ensures Slots(frames, Set(level2, r, e)) == Slots(frames, level2)
  {
    forall i | 0 <= i < |frames|
      ensures NumberOf(frames[i].pageData, Set(level2, r, e)) == NumberOf(frames[i].pageData, level2)
    {
    }
  }

  /** The process whose table it is sees that page change and no other. */
  lemma SetChangesThePage(tables: seq<nat>, level2: Level2, size: nat, i: nat, j: nat, e: PageEntry)
    requires Rooted(tables, level2, size) && i < |tables| && j < size && e.page == level2[tables[i]][j].page
    ensures e.page == Number(i, j, size) < |tables| * size
    ensures var level2' := Set(level2, Ref(tables[i], j), e);
            Rooted(tables, level2', size)
                && Pages(tables, level2', size) == Pages(tables, level2, size)[e.page := ToEntry(e)]
  {
    hide Number, ToEntry;
    var r := Ref(tables[i], j);
    SetKeepsRooted(tables, level2, size, r, e);
    PageOfEntry(tables, level2, size, i, j);
    hide Pages, Set;
    var before, after := Pages(tables, level2, size), Pages(tables, Set(level2, r, e), size);
    forall k: nat | k < |before| ensures after[k] == before[Number(i, j, size) := ToEntry(e)][k] {
      PageAfterSet(tables, level2, size, i, j, e, k);
    }
  }

  lemma PageAfterSet(tables: seq<nat>, level2: Level2, size: nat, i: nat, j: nat, e: PageEntry, k: nat)
    requires Rooted(tables, level2, size) && i < |tables| && j < size && e.page == level2[tables[i]][j].page
    requires k < |tables| * size
    ensures var level2' := Set(level2, Ref(tables[i], j), e);
            && Rooted(tables, level2', size)
            && Pages(tables, level2', size)[k] == if k == Number(i, j, size) then ToEntry(e)
                else Pages(tables, level2, size)[k]
  {
    hide Number, ToEntry, Pages;
    SetKeepsRooted(tables, level2, size, Ref(tables[i], j), e);
    EveryPage(tables, level2, size, k);
    EveryPage(tables, Set(level2, Ref(tables[i], j), e), size, k);
    Splits(i, j, size);
    if k != Number(i, j, size) { OtherEntry(tables, level2, size, i, j, e, k / size, k % size); }
  }

  lemma EveryPage(tables: seq<nat>, level2: Level2, size: nat, k: nat)
    requires Rooted(tables, level2, size) && k < |tables| * size
    ensures k / size < |tables| && k % size < size && k == Number(k / size, k % size, size)
    ensures Pages(tables, level2, size)[k] == ToEntry(level2[tables[k / size]][k % size])
  {
    Joins(k, size);
    InTables(k / size, k % size, |tables|, size);
  }

  lemma OtherEntry(tables: seq<nat>, level2: Level2, size: nat, i: nat, j: nat, e: PageEntry, l: nat, m: nat)
    requires Rooted(tables, level2, size) && i < |tables| && j < size && l < |tables| && m < size && (i, j) != (l, m)
    ensures Set(level2, Ref(tables[i], j), e)[tables[l]][m] == level2[tables[l]][m]
  {
    assert i < l || l < i || i == l;
  }

  // ---- Bytes in pages -----------------------------------------------------------------

  /** Where piece k of a byte string begins; the start of a frame in memory, of a page in swap. */
  function Start(k: nat, size: nat): nat { k * size }

  lemma PieceFits(k: nat, n: nat, size: nat)
    requires k < n
    ensures Start(k, size) + size <= n * size
  {
    Monotone(k + 1, n, size);
  }

  lemma PiecesApart(l: nat, k: nat, size: nat)
    requires l < k
    ensures Start(l, size) + size <= Start(k, size)
  {
    Monotone(l + 1, k, size);
  }

  function Chunk(bytes: seq<byte>, size: nat, k: nat): (r: Page)
    requires Start(k, size) + size <= |bytes|
    ensures |r| == size
  {
    bytes[Start(k, size)..Start(k, size) + size]
  }

  ghost function Chunks(bytes: seq<byte>, size: nat, n: nat): (r: seq<Page>)
    requires n * size <= |bytes|
    ensures |r| == n
  {
    seq(n, k requires 0 <= k < n => PieceFits(k, n, size); Chunk(bytes, size, k))
  }

  lemma SameSlice(a: seq<byte>, b: seq<byte>, lo: nat, hi: nat)
    requires lo <= hi <= |a| == |b| && forall i :: lo <= i < hi ==> a[i] == b[i]
    ensures a[lo..hi] == b[lo..hi]
  {
  }

  /** Writing a whole piece replaces that piece and no other. */
  lemma WriteChunk(bytes: seq<byte>, bytes': seq<byte>, size: nat, n: nat, k: nat, page: Page)
    requires n * size <= |bytes| == |bytes'| && k < n && |page| == size && Start(k, size) + size <= |bytes|
    requires bytes' == bytes[..Start(k, size)] + page + bytes[Start(k, size) + size..]
    ensures Chunks(bytes', size, n) == Chunks(bytes, size, n)[k := page]
  {
    hide Start;
    forall l: nat | l < n ensures Chunks(bytes', size, n)[l] == Chunks(bytes, size, n)[k := page][l] {
      PieceFits(l, n, size);
      if l < k { PiecesApart(l, k, size); }
      if k < l { PiecesApart(k, l, size); }
      if l != k { SameSlice(bytes', bytes, Start(l, size), Start(l, size) + size); }
    }
  }

  /** Writing a word inside a piece. */
  lemma WriteWord(bytes: seq<byte>, bytes': seq<byte>, size: nat, n: nat, k: nat, o: nat, word: seq<byte>)
    requires n * size <= |bytes| == |bytes'| && k < n && o + |word| <= size && Start(k, size) + size <= |bytes|
    requires bytes' == bytes[..Start(k, size) + o] + word + bytes[Start(k, size) + o + |word|..]
    ensures Chunks(bytes', size, n) == Chunks(bytes, size, n)[k := Overwrite(Chunks(bytes, size, n)[k], o, word)]
  {
    hide Start;
    var page := Overwrite(Chunks(bytes, size, n)[k], o, word);
    assert bytes' == bytes[..Start(k, size)] + page + bytes[Start(k, size) + size..];
    WriteChunk(bytes, bytes', size, n, k, page);
  }
}
