/** Phase tables: a transition's frame-threshold logic written as a list of phases,
    each starting at a frame and lasting until the next one starts. The transitions
    compute their phase with conditionals on the frame; each is proved equal, on every
    frame, to a lookup in its table. */
module Timeline {

  /** A phase: from frame `start` on, until the next phase starts, `value` applies. */
  datatype Phase<L> = Phase(start: nat, value: L)

  /** A usable table: a first phase from frame 0 and strictly increasing starts. */
  predicate WellFormed<L>(table: seq<Phase<L>>) {
    && |table| > 0
    && table[0].start == 0
    && forall i, j :: 0 <= i < j < |table| ==> table[i].start < table[j].start
  }

  /** The scan for the phase of `frame`, continuing from phase `i`: the last phase
      that has started by `frame`. */
  function IndexFrom<L>(table: seq<Phase<L>>, frame: nat, i: nat): (r: nat)
    requires i < |table| && table[i].start <= frame
    ensures i <= r < |table|
    ensures table[r].start <= frame
    ensures r + 1 < |table| ==> frame < table[r + 1].start
    decreases |table| - i
  {
    if i + 1 < |table| && table[i + 1].start <= frame then IndexFrom(table, frame, i + 1) else i
  }

  /** The index of the phase `frame` lies in. */
  function PhaseIndex<L>(table: seq<Phase<L>>, frame: nat): (r: nat)
    requires WellFormed(table)
    ensures r < |table| && table[r].start <= frame
    ensures r + 1 < |table| ==> frame < table[r + 1].start
  {
    IndexFrom(table, frame, 0)
  }

  /** The value in force at `frame`. */
  function PhaseAt<L>(table: seq<Phase<L>>, frame: nat): L
    requires WellFormed(table)
  {
    table[PhaseIndex(table, frame)].value
  }

  /** A frame lies in phase `k` exactly when phase `k` has started and the next one
      has not. */
  lemma PhaseIndexIs<L>(table: seq<Phase<L>>, frame: nat, k: nat)
    requires WellFormed(table) && k < |table|
    ensures PhaseIndex(table, frame) == k <==>
      table[k].start <= frame && (k + 1 == |table| || frame < table[k + 1].start)
  {
    var r := PhaseIndex(table, frame);
    if r + 1 < k {
      assert table[r + 1].start < table[k].start;
    }
    if k + 1 < r {
      assert table[k + 1].start < table[r].start;
    }
  }

  /** Time only moves forward through the table: a later frame is never in an earlier
      phase. */
  lemma PhaseMonotone<L>(table: seq<Phase<L>>, f: nat, g: nat)
    requires WellFormed(table) && f <= g
    ensures PhaseIndex(table, f) <= PhaseIndex(table, g)
  {
    var i, j := PhaseIndex(table, f), PhaseIndex(table, g);
    if j + 1 < |table| {
      StartsOrdered(table, i, j + 1);
    }
  }

  /** In a well-formed table, an earlier start belongs to an earlier phase. */
  lemma StartsOrdered<L>(table: seq<Phase<L>>, a: nat, b: nat)
    requires WellFormed(table) && a < |table| && b < |table|
    ensures table[a].start < table[b].start ==> a < b
  {
    if b < a {
      assert table[b].start < table[a].start;
    }
  }
}
