// The shared chain-variable context: one Redis hash per run, or per data row of a run.
module RunContext {
  import opened Wrappers
  import opened Records

  type Hashes = map<string, Variables>

  function ContextKey(run: Uuid, row: Option<nat>): string {
    match row
    case None => "run:" + run + ":context"
    case Some(index) => "run:" + run + ":row:" + Decimal(index) + ":context"
  }

  function GetAll(hashes: Hashes, run: Uuid, row: Option<nat>): Variables {
    var key := ContextKey(run, row);
    if key in hashes then hashes[key] else map[]
  }

  function Merge(hashes: Hashes, run: Uuid, row: Option<nat>, variables: Variables): Hashes {
    if variables == map[] then hashes
    else hashes[ContextKey(run, row) := GetAll(hashes, run, row) + variables]
  }

  // Two contexts share a hash only if they are the context of the same row of the same run.
  lemma ContextKeyInjective(run: Uuid, row: Option<nat>, run': Uuid, row': Option<nat>)
    requires ContextKey(run, row) == ContextKey(run', row')
    ensures run == run' && row == row'
  {
    var (key, key') := (ContextKey(run, row), ContextKey(run', row'));
    assert key[4..40] == run && key'[4..40] == run';
    assert key[41] == if row.None? then 'c' else 'r';
    assert key'[41] == if row'.None? then 'c' else 'r';
    if row.Some? && row'.Some? {
      var (a, b) := (Decimal(row.value), Decimal(row'.value));
      assert |key| == 45 + |a| + 8 && |key'| == 45 + |b| + 8;
      assert key[45..45 + |a|] == a && key'[45..45 + |b|] == b;
      DecimalInjective(row.value, row'.value);
    }
  }

  // ---------------------------------------------------------------- the context as a fold of merges

  datatype MergeEvent = MergeEvent(run: Uuid, row: Option<nat>, variables: Variables)

  // The overlay, in merge order, of the variables of one (run, row) only.
  function Overlay(events: seq<MergeEvent>, run: Uuid, row: Option<nat>): Variables {
    if events == [] then map[]
    else
      var (front, last) := (events[..|events| - 1], events[|events| - 1]);
      if last.run == run && last.row == row then Overlay(front, run, row) + last.variables
      else Overlay(front, run, row)
  }

  ghost predicate Isolated(hashes: Hashes, events: seq<MergeEvent>) {
    forall run: Uuid, row: Option<nat> :: GetAll(hashes, run, row) == Overlay(events, run, row)
  }

  lemma MergeKeepsIsolated(hashes: Hashes, events: seq<MergeEvent>, run: Uuid, row: Option<nat>, variables: Variables)
    requires Isolated(hashes, events)
    ensures Isolated(Merge(hashes, run, row, variables), events + [MergeEvent(run, row, variables)])
  {
    var events' := events + [MergeEvent(run, row, variables)];
    assert events'[..|events'| - 1] == events;
    forall run': Uuid, row': Option<nat>
      ensures GetAll(Merge(hashes, run, row, variables), run', row') == Overlay(events', run', row')
    {
      assert GetAll(hashes, run', row') == Overlay(events, run', row');
      if ContextKey(run, row) == ContextKey(run', row') {
        ContextKeyInjective(run, row, run', row');
      }
    }
  }

  // ---------------------------------------------------------------- the store

  class ContextStore {
    var hashes: Hashes

    constructor ()
      ensures Isolated(hashes, [])
    {
      hashes := map[];
    }

    // HSET of every variable; merging nothing does not even create the hash. Only the context of
    // this row of this run changes.
    method MergeInto(run: Uuid, variables: Variables, row: Option<nat>)
      modifies this
      ensures hashes == Merge(old(hashes), run, row, variables)
      ensures GetAll(hashes, run, row) == old(GetAll(hashes, run, row)) + variables
      ensures var before := old(hashes);
              forall run': Uuid, row': Option<nat> | (run', row') != (run, row) ::
                GetAll(hashes, run', row') == GetAll(before, run', row')
    {
      forall run': Uuid, row': Option<nat> | ContextKey(run', row') == ContextKey(run, row)
        ensures run' == run && row' == row
      {
        ContextKeyInjective(run', row', run, row);
      }
      if variables == map[] {
        return;
      }
      var key := ContextKey(run, row);
      var hash := if key in hashes then hashes[key] else map[];
      hashes := hashes[key := hash + variables];
    }
  }
}
