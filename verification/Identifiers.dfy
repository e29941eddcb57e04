/**
 Time-ordered identifiers (ids.py): UUID version 7 as section 5.7 of RFC 9562 lays it out, with its counter method
 (section 6.2).
*/
module Identifiers {
  const COUNTER_LIMIT := 0x1000
  const MILLISECONDS := 0x1_0000_0000_0000

  /** unix_ts_ms, version and counter, variant and 14 random bits, 48 random bits: the fields do not overlap. */
  function Pack(milliseconds: int, counter: nat, clockSeq: nat, node: nat): nat
    requires milliseconds >= 0 && counter < COUNTER_LIMIT && clockSeq < 0x1_0000 && node < MILLISECONDS
  {
    (milliseconds % MILLISECONDS) * 0x1_0000_0000_0000_0000_0000
    + (0x7000 + counter) * 0x1_0000_0000_0000_0000
    + (clockSeq % 0x4000 + 0x8000) * 0x1_0000_0000_0000
    + node
  }

  function Time(id: nat): nat { id / 0x1_0000_0000_0000_0000_0000 }

  function VersionOf(id: nat): nat { id / 0x1000_0000_0000_0000_0000 % 0x10 }

  function CounterOf(id: nat): nat { id / 0x1_0000_0000_0000_0000 % 0x1000 }

  function VariantOf(id: nat): nat { id / 0x4000_0000_0000_0000 % 4 }

  /** Whatever the random bits, the layout reads back. */
  lemma LayoutReadsBack(milliseconds: int, counter: nat, clockSeq: nat, node: nat)
    requires milliseconds >= 0 && counter < COUNTER_LIMIT && clockSeq < 0x1_0000 && node < MILLISECONDS
    ensures var id := Pack(milliseconds, counter, clockSeq, node);
            id < 0x1_0000_0000_0000_0000_0000_0000_0000_0000 && Time(id) == milliseconds % MILLISECONDS
            && VersionOf(id) == 7 && CounterOf(id) == counter && VariantOf(id) == 2
  {
    hide Time, VersionOf, CounterOf, VariantOf;
    var t, c := milliseconds % MILLISECONDS, clockSeq % 0x4000;
    assert Pack(milliseconds, counter, clockSeq, node) == Fields(t, counter, c, node);
    TimeReads(t, counter, c, node);
    VersionReads(t, counter, c, node);
    CounterReads(t, counter, c, node);
    VariantReads(t, counter, c, node);
  }

  /** The layout with its fields already masked. */
  function Fields(t: nat, counter: nat, c: nat, node: nat): nat {
    t * 0x1_0000_0000_0000_0000_0000 + (0x7000 + counter) * 0x1_0000_0000_0000_0000 + (c + 0x8000) * 0x1_0000_0000_0000 + node
  }

  lemma TimeReads(t: nat, counter: nat, c: nat, node: nat)
    requires counter < COUNTER_LIMIT && c < 0x4000 && node < MILLISECONDS
    ensures Time(Fields(t, counter, c, node)) == t
  {
  }

  lemma VersionReads(t: nat, counter: nat, c: nat, node: nat)
    requires counter < COUNTER_LIMIT && c < 0x4000 && node < MILLISECONDS
    ensures VersionOf(Fields(t, counter, c, node)) == 7
  {
    assert Fields(t, counter, c, node) / 0x1000_0000_0000_0000_0000 == t * 0x10 + 7;
  }

  lemma CounterReads(t: nat, counter: nat, c: nat, node: nat)
    requires counter < COUNTER_LIMIT && c < 0x4000 && node < MILLISECONDS
    ensures CounterOf(Fields(t, counter, c, node)) == counter
  {
    assert Fields(t, counter, c, node) / 0x1_0000_0000_0000_0000 == t * 0x1_0000 + 0x7000 + counter;
  }

  lemma VariantReads(t: nat, counter: nat, c: nat, node: nat)
    requires counter < COUNTER_LIMIT && c < 0x4000 && node < MILLISECONDS
    ensures VariantOf(Fields(t, counter, c, node)) == 2
  {
    assert Fields(t, counter, c, node) / 0x4000_0000_0000_0000 == (t * 0x1_0000 + 0x7000 + counter) * 4 + 2;
  }

  /**
   One generator's state. `newest` is its last id, `ahead` the largest clock reading, `issued` how many ids it gave.
  */
  class Generator {
    var lastMilliseconds: int
    var counter: nat
    ghost var newest: int
    ghost var latest: int
    ghost var issued: nat

    ghost predicate Valid()
      reads this
    {
      lastMilliseconds >= 0 && counter < COUNTER_LIMIT && latest >= 0
      && lastMilliseconds * COUNTER_LIMIT + counter <= latest * COUNTER_LIMIT + issued
      && (lastMilliseconds < MILLISECONDS ==>
        newest < (lastMilliseconds * 0x1_0000 + 0x7000 + counter + 1) * 0x1_0000_0000_0000_0000)
    }

    constructor ()
      ensures Valid() && issued == 0 && newest == -1 && latest == 0
    {
      lastMilliseconds, counter, newest, latest, issued := 0, 0, -1, 0, 0;
    }

    /** The next position: later than every one before, whatever the clock says. */
    method NextPosition(now: int) returns (milliseconds: int, count: nat)
      requires Valid()
      modifies this`lastMilliseconds, this`counter, this`latest, this`issued
      ensures milliseconds == lastMilliseconds && count == counter < COUNTER_LIMIT && milliseconds >= 0
      ensures milliseconds > old(lastMilliseconds) || (milliseconds == old(lastMilliseconds) && count > old(counter))
      ensures latest == (if now > old(latest) then now else old(latest)) && issued == old(issued) + 1
      ensures lastMilliseconds * COUNTER_LIMIT + counter <= latest * COUNTER_LIMIT + issued
      ensures milliseconds >= now
    {
      if now > lastMilliseconds {
        lastMilliseconds, counter := now, 0;
      } else if counter + 1 < COUNTER_LIMIT {
        counter := counter + 1;
      } else {
        lastMilliseconds := lastMilliseconds + 1;
        counter := 0;
      }
      latest := if now > latest then now else latest;
      issued := issued + 1;
      return lastMilliseconds, counter;
    }

    /** Ids of one generator rise strictly as 128-bit integers, under any clock, until the timestamp field is full. */
    method NewId(now: int, clockSeq: nat, node: nat) returns (id: nat)
      requires Valid() && clockSeq < 0x1_0000 && node < MILLISECONDS
      modifies this
      ensures Valid() && newest == id && issued == old(issued) + 1
      ensures lastMilliseconds < MILLISECONDS ==> id > old(newest) && Time(id) == lastMilliseconds
      ensures VersionOf(id) == 7 && VariantOf(id) == 2 && CounterOf(id) == counter
      ensures (lastMilliseconds - latest) * COUNTER_LIMIT <= issued
    {
      ghost var before, count := lastMilliseconds, counter;
      var milliseconds, position := NextPosition(now);
      id := Pack(milliseconds, position, clockSeq, node);
      LayoutReadsBack(milliseconds, position, clockSeq, node);
      if milliseconds < MILLISECONDS {
        assert milliseconds * 0x1_0000 + position >= before * 0x1_0000 + count + 1;
        Bounded(milliseconds, position, clockSeq, node);
      }
      newest := id;
    }
  }

  lemma Bounded(milliseconds: int, counter: nat, clockSeq: nat, node: nat)
    requires 0 <= milliseconds < MILLISECONDS && counter < COUNTER_LIMIT && clockSeq < 0x1_0000 && node < MILLISECONDS
    ensures var high := milliseconds * 0x1_0000 + 0x7000 + counter;
            high * 0x1_0000_0000_0000_0000 <= Pack(milliseconds, counter, clockSeq, node) < (high + 1) * 0x1_0000_0000_0000_0000
  {
    assert milliseconds % MILLISECONDS == milliseconds;
  }
}
