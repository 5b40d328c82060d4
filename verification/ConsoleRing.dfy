/** The byte-capped ring of log entries behind the diagnostics console. */
module ConsoleRing {
  import opened Wrappers
  import opened Utf8
  import opened BoundedDeque

  const MAX_BYTES: nat := 10 * 1024 * 1024

  datatype ConsoleEntry = ConsoleEntry(timestamp: Text, level: Text, target: Text, message: Text) {
    function ByteSize(): nat {
      |timestamp| + |level| + |target| + |message|
    }
  }

  function Size(entry: ConsoleEntry): nat {
    entry.ByteSize()
  }

  const CAPS := Caps(None, MAX_BYTES)

  lemma PushFacts(history: seq<ConsoleEntry>, entry: ConsoleEntry)
    ensures var entries := Kept(history, Size, CAPS);
      && Kept(entries + [entry], Size, CAPS) == Kept(history + [entry], Size, CAPS)
      && Total(entries + [entry], Size) == Total(entries, Size) + entry.ByteSize()
    ensures var kept := Kept(history + [entry], Size, CAPS);
      entry.ByteSize() <= MAX_BYTES ==> |kept| > 0 && kept[|kept| - 1] == entry
  {
    KeptAfterKept(history, [entry], Size, CAPS);
    TotalOfConcat(Kept(history, Size, CAPS), [entry], Size);
    if entry.ByteSize() <= MAX_BYTES {
      assert (history + [entry])[|history|..] == [entry];
      KeptIsSuffix(history + [entry], Size, CAPS);
      KeptIsLongest(history + [entry], Size, CAPS, |history|);
    }
  }

  lemma EvictionFacts(entries: seq<ConsoleEntry>)
    requires Total(entries, Size) > MAX_BYTES
    ensures entries != []
    ensures Kept(entries, Size, CAPS) == Kept(entries[1..], Size, CAPS)
    ensures Total(entries, Size) == entries[0].ByteSize() + Total(entries[1..], Size)
  {}

  class ConsoleBuffer {
    var entries: seq<ConsoleEntry>
    var totalBytes: nat
    /** Everything ever pushed. */
    ghost var history: seq<ConsoleEntry>

    /** The ring is exactly the longest suffix of the history that fits, and the cached total is right. */
    ghost predicate Valid()
      reads this
    {
      entries == Kept(history, Size, CAPS) && totalBytes == Total(entries, Size)
    }

    constructor ()
      ensures Valid() && history == []
    {
      entries, totalBytes, history := [], 0, [];
    }

    method Push(entry: ConsoleEntry)
      requires Valid()
      modifies this
      ensures Valid() && history == old(history) + [entry]
      ensures entry.ByteSize() <= MAX_BYTES ==> |entries| > 0 && entries[|entries| - 1] == entry
    {
      PushFacts(history, entry);
      ghost var kept := Kept(history + [entry], Size, CAPS);
      history := history + [entry];
      entries := entries + [entry];
      totalBytes := totalBytes + entry.ByteSize();
      while totalBytes > MAX_BYTES
        invariant history == old(history) + [entry]
        invariant Kept(entries, Size, CAPS) == kept && totalBytes == Total(entries, Size)
        decreases |entries|
      {
        EvictionFacts(entries);
        if entries == [] {
          break;
        }
        totalBytes := SaturatingSub(totalBytes, entries[0].ByteSize());
        entries := entries[1..];
      }
    }
  }
}
