/** The projector and its read database. The two statements of one event are separate
    transactions: a fault between them is visible. */
module ProjectorService {
  import opened Domain
  import opened Projection

  /** What one delivery may leave behind. Success applies a new event once and ignores a
      known one. A failure may leave nothing, the mark alone, or both. */
  ghost predicate ProjectorLeaves(processed: set<EventId>, views: map<OrderId, OrderView>, processed': set<EventId>,
                                  views': map<OrderId, OrderView>, e: Event, r: Result<(), Failure>)
  {
    var applied := views[e.order := Upsert(ViewAt(views, e.order), e)];
    && (e.id in processed ==> processed' == processed && views' == views)
    && (e.id !in processed && r.Ok? ==> processed' == processed + {e.id} && views' == applied)
    && (e.id !in processed && r.Err? ==>
          && (processed' == processed || processed' == processed + {e.id})
          && (views' == views || (views' == applied && processed' == processed + {e.id})))
    && (r.Err? ==> r.error == Transient)
  }

  class OrderViewRepository {
    var processed: set<EventId>
    var views: map<OrderId, OrderView>

    constructor ()
      ensures processed == {} && views == map[]
    {
      processed, views := {}, map[];
    }

    /** Inserts the id, or reports that it was there. */
    method MarkProcessed(id: EventId) returns (r: Result<bool, Failure>)
      modifies this`processed
      ensures r.Ok? ==> processed == old(processed) + {id} && (r.value <==> id !in old(processed))
      ensures r.Err? ==> r.error == Transient && (processed == old(processed) || processed == old(processed) + {id})
    {
      var fault, lost: bool := *, *;
      var first := id !in processed;
      if !fault || lost {
        processed := processed + {id};
      }
      return if fault then Err(Transient) else Ok(first);
    }

    /** Upserts the order's row, column by column. */
    method ApplyEvent(e: Event) returns (r: Result<(), Failure>)
      modifies this`views
      ensures var applied := old(views)[e.order := Upsert(ViewAt(old(views), e.order), e)];
        && (r.Ok? ==> views == applied)
        && (r.Err? ==> r.error == Transient && (views == old(views) || views == applied))
    {
      var fault, lost: bool := *, *;
      if fault && !lost {
        return Err(Transient);
      }
      var notificationError := "notification_error" in e.metadata && e.metadata["notification_error"] == "true";
      var refundFailed := "payment_refund_failed" in e.metadata && e.metadata["payment_refund_failed"] == "true";
      if e.order !in views {
        views := views[e.order := OrderView(e.status, e.kind, e.tx, notificationError, refundFailed, [e])];
      } else {
        var row := views[e.order];
        if row.status != Completed && row.status != Failed {
          row := row.(status := e.status, lastType := e.kind);
        }
        if e.tx != "" {
          row := row.(tx := e.tx);
        }
        row := row.(notificationError := row.notificationError || notificationError);
        row := row.(refundFailed := row.refundFailed || refundFailed);
        row := row.(timeline := row.timeline + [e]);
        views := views[e.order := row];
      }
      return if fault then Err(Transient) else Ok(());
    }
  }

  class Projector {
    const views: OrderViewRepository

    constructor (views: OrderViewRepository)
      ensures this.views == views
    {
      this.views := views;
    }

    method HandleEvent(e: Event) returns (r: Result<(), Failure>)
      modifies views
      ensures ProjectorLeaves(old(views.processed), old(views.views), views.processed, views.views, e, r)
    {
      var first := views.MarkProcessed(e.id);
      if first.Err? {
        return Err(first.error);
      }
      if !first.value {
        return Ok(());
      }
      r := views.ApplyEvent(e);
    }
  }
}
