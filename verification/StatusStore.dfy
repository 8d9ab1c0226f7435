/** The projection store as the program has it: four maps that ingesting and marking replace entries of. */
module StatusStore {
  import opened Basics
  import opened StatusModel
  import opened StatusIngest

  datatype Admission = APPLIED | REPLAYED

  class ProjectionStore {
    var projections: map<string, Snapshot>
    var cursors: map<SourceKey, CursorRecord>
    var events: map<string, Content>
    var unavailable: map<string, set<SourceId>>

    constructor ()
      ensures View() == EMPTY_STORE
    {
      projections, cursors, events, unavailable := map[], map[], map[], map[];
    }

    function View(): Store
      reads this
    {
      Store(projections, cursors, events, unavailable)
    }

    method TakeSummary(summary: SourceSummary, authorized: bool, now: int) returns (r: Result<Admission, Fault>)
      modifies this
      ensures match Ingest(old(View()), summary, authorized, now)
        case Applied(store) => View() == store && r == Ok(APPLIED)
        case Replayed => View() == old(View()) && r == Ok(REPLAYED)
        case Refused(e) => View() == old(View()) && r == Err(e)
    {
      var fault := SummaryFault(summary, authorized, now);
      if fault.Some? {
        return Err(fault.value);
      }
      if summary.eventId in events {
        if events[summary.eventId] != summary.content {
          return Err(EVENT_CONFLICT);
        }
        return Ok(REPLAYED);
      }
      var key := (summary.org, summary.source);
      var prior := if key in cursors then Some(cursors[key]) else None;
      var priorSequence := if prior.Some? then prior.value.sequence else 0;
      if summary.sequence != priorSequence + 1 || (prior.Some? && !Precedes(prior.value.cursor, summary.cursor)) {
        return Err(CURSOR_GAP);
      }
      if summary.org in projections {
        var binding := projections[summary.org].overview.binding;
        if binding.Some? && (binding.value.profile != summary.profile || binding.value.bundle != summary.bundle
          || binding.value.release != summary.release || binding.value.generation != summary.generation)
        {
          return Err(PROJECTION_BINDING_CONFLICT);
        }
      }
      projections := projections[summary.org := summary.snapshot];
      cursors := cursors[key :=
        CursorRecord(summary.sequence, summary.cursor, summary.eventId, summary.content, summary.observedAt)];
      events := events[summary.eventId := summary.content];
      if summary.org in unavailable {
        unavailable := unavailable[summary.org := unavailable[summary.org] - {summary.source}];
      }
      return Ok(APPLIED);
    }

    method MarkSourceUnavailable(org: string, source: SourceId) returns (r: Result<(), Fault>)
      modifies this
      ensures match MarkUnavailable(old(View()), org, source)
        case Ok(store) => View() == store && r == Ok(())
        case Err(e) => View() == old(View()) && r == Err(e)
    {
      if org !in projections {
        return Err(PROJECTION_NOT_FOUND);
      }
      var known := if org in unavailable then unavailable[org] else {};
      unavailable := unavailable[org := known + {source}];
      return Ok(());
    }
  }
}
