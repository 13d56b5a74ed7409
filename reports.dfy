/** The persistence side of a flush, on values: the report is an ordered
    sequence of rows, and a flush appends the buffered batch after them. */
module Reports {
  import opened Wrappers
  import opened Events

  /** The rows written by a flush: the existing rows (none when the report
      file does not exist yet) followed by the batch. */
  function Merge(existing: Option<seq<Event>>, batch: seq<Event>): (rows: seq<Event>)
    ensures |rows| == |existing.GetOr([])| + |batch|
    ensures rows[..|existing.GetOr([])|] == existing.GetOr([])
    ensures rows[|existing.GetOr([])|..] == batch
  {
    match existing
    case Some(rows) => rows + batch
    case None => batch
  }

  /** The report after one successful flush step. An empty batch is not
      written, so the report stays as it was, possibly still absent. */
  function Flushed(existing: Option<seq<Event>>, batch: seq<Event>): (r: Option<seq<Event>>)
    ensures r.GetOr([]) == existing.GetOr([]) + batch
    ensures r.None? <==> existing.None? && batch == []
  {
    if batch == [] then existing else Some(Merge(existing, batch))
  }

  /** All events of a series of batches, in arrival order. */
  function Flatten(batches: seq<seq<Event>>): seq<Event> {
    if batches == [] then [] else batches[0] + Flatten(batches[1..])
  }

  /** The report after successful flush steps of the batches, in order. */
  function FlushAll(existing: Option<seq<Event>>, batches: seq<seq<Event>>): (r: Option<seq<Event>>)
    ensures existing.Some? ==> r.Some?
    ensures existing.GetOr([]) <= r.GetOr([])
    decreases |batches|
  {
    if batches == [] then existing else FlushAll(Flushed(existing, batches[0]), batches[1..])
  }

  /** Two flushes into an absent report leave exactly the first batch
      followed by the second; the report stays absent only when both
      batches were empty. */
  lemma TwoFlushes(b1: seq<Event>, b2: seq<Event>)
    ensures Flushed(Flushed(None, b1), b2) == if b1 + b2 == [] then None else Some(b1 + b2)
  {
  }

  /** The report invariant: after any series of successful flushes the
      report holds its old rows followed by every flushed event in arrival
      order, with no event lost or repeated; it is still absent only when
      it was absent and nothing was flushed. */
  lemma {:induction false} FlushAllAppends(existing: Option<seq<Event>>, batches: seq<seq<Event>>)
    ensures FlushAll(existing, batches) ==
              if existing == None && Flatten(batches) == [] then None
              else Some(existing.GetOr([]) + Flatten(batches))
    decreases |batches|
  {
    if batches == [] {
      if existing.Some? {
        assert existing.GetOr([]) + Flatten(batches) == existing.value;
      }
    } else {
      var b, rest := batches[0], batches[1..];
      assert FlushAll(existing, batches) == FlushAll(Flushed(existing, b), rest);
      assert Flatten(batches) == b + Flatten(rest);
      FlushAllAppends(Flushed(existing, b), rest);
      if b != [] {
        var rows := existing.GetOr([]);
        assert Flushed(existing, b) == Some(rows + b) by {
          if existing.None? { assert [] + b == b; }
        }
        assert Flatten(batches) != [] by { assert |Flatten(batches)| >= |b| > 0; }
        assert rows + b + Flatten(rest) == rows + Flatten(batches);
      } else {
        assert Flatten(batches) == Flatten(rest);
      }
    }
  }
}
