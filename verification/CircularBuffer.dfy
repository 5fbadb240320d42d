/** The circular buffer of the producer/consumer programs: the items put and not yet got are a window of the
    producer's sequence of items, laid out around an array. */
module CircularBuffer {
  import opened Division

  /** `puts` and `gets` count the calls of do_fill and do_get. */
  datatype Buffer = Buffer(max: nat, loops: nat, slots: seq<int>, fill: nat, use: nat, puts: nat, gets: nat)

  function Empty(max: nat, loops: nat): Buffer {
    Buffer(max, loops, seq(max, _ => 0), 0, 0, 0, 0)
  }

  /** The items in the order they are put: 0 to loops - 1 and then one -1 for each consumer. */
  function Item(loops: nat, i: nat): int {
    if i < loops then i else -1
  }

  function Slot(i: nat, max: nat): (r: nat)
    requires max > 0
    ensures r < max
  {
    DivMod(i, max);
    i % max
  }

  function DoFill(b: Buffer, value: int): Buffer
    requires b.fill < |b.slots| && b.max > 0
  {
    b.(slots := b.slots[b.fill := value], fill := (b.fill + 1) % b.max, puts := b.puts + 1)
  }

  function DoGet(b: Buffer): Buffer
    requires b.max > 0
  {
    b.(use := (b.use + 1) % b.max, gets := b.gets + 1)
  }

  ghost predicate Window(b: Buffer) {
    && b.max > 0 && |b.slots| == b.max
    && b.gets <= b.puts <= b.gets + b.max
    && b.fill == Slot(b.puts, b.max) && b.use == Slot(b.gets, b.max)
    && forall i: nat :: b.gets <= i < b.puts ==> b.slots[Slot(i, b.max)] == Item(b.loops, i)
  }

  lemma EmptyWindow(max: nat, loops: nat)
    requires max > 0
    ensures Window(Empty(max, loops))
  {
    RemainderIs(0, max, 0, 0);
  }

  lemma NextSlot(n: nat, max: nat)
    requires max > 0
    ensures (Slot(n, max) + 1) % max == Slot(n + 1, max)
    ensures Slot(n + 1, max) == if Slot(n, max) + 1 == max then 0 else Slot(n, max) + 1
  {
    DivMod(n, max);
    var r := n % max + 1;
    if r < max {
      RemainderIs(n + 1, max, n / max, r);
      RemainderIs(r, max, 0, r);
    } else {
      assert max * (n / max + 1) == max * (n / max) + max;
      RemainderIs(n + 1, max, n / max + 1, 0);
      RemainderIs(r, max, 1, 0);
    }
  }

  lemma SlotsDiffer(i: nat, j: nat, max: nat)
    requires i < j < i + max
    ensures Slot(i, max) != Slot(j, max)
  {
    RemainderWindow(i, j, max);
  }

  /** Putting the next item into a buffer that is not full extends the window. */
  lemma FillKeepsWindow(b: Buffer)
    requires Window(b) && b.puts < b.gets + b.max
    ensures b.fill < |b.slots| && Window(DoFill(b, Item(b.loops, b.puts)))
  {
    hide Slot;
    NextSlot(b.puts, b.max);
    forall i: nat | b.gets <= i < b.puts ensures Slot(i, b.max) != Slot(b.puts, b.max) {
      SlotsDiffer(i, b.puts, b.max);
    }
  }

  /** Getting from a buffer that is not empty gives the first item of the window. */
  lemma GetKeepsWindow(b: Buffer)
    requires Window(b) && b.gets < b.puts
    ensures b.use < |b.slots| && b.slots[b.use] == Item(b.loops, b.gets) && Window(DoGet(b))
  {
    hide Slot;
    NextSlot(b.gets, b.max);
  }
}
