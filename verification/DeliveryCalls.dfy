/** The driver's own calls to the service, and everybody else's. */
module DeliveryCalls {
  import opened Prelude
  import opened Tables
  import opened ImportService
  import opened ImportRuns
  import opened Delivery
  import opened Evolution
  import opened Watching
  import opened DeliverySafety

  // ---- Everybody else ----

  /** Rows that appear are new to every open call. */
  ghost predicate FreshTail(before: seq<Import>, after: seq<Import>, supply: nat) {
    |before| <= |after| && forall i :: |before| <= i < |after| ==> after[i].id >= supply
  }

  lemma CreateTail(server: Server, request: Request, now: Time, ttl: nat)
    ensures FreshTail(server.rows, Create(server, request, now, ttl).0.rows, server.supply)
  {
  }

  lemma HeldBelow(c: Cloud, call: nat)
    requires Steady(c) && call in c.calls && c.calls[call].Holding?
    ensures c.calls[call].id < c.server.supply
  {
  }

  /** An event that leaves the driver's own call alone. */
  lemma MineApart(d: Driver, event: Event)
    requires MyCallOk(d)
    requires MY_CALL in Happen(d.cloud, event).calls ==>
      MY_CALL in d.cloud.calls && Happen(d.cloud, event).calls[MY_CALL] == d.cloud.calls[MY_CALL]
    ensures MyCallOk(d.Seen(event))
  {
  }

  lemma RowsKeepOut(me: UserId, source: SourceId, c: Cloud, after: seq<Import>)
    requires Steady(c) && OthersKeepOut(me, source, c.server.rows, c.calls)
    requires Evolves(me, source, c.server.rows, after) && FreshTail(c.server.rows, after, c.server.supply)
    ensures OthersKeepOut(me, source, after, c.calls)
  {
  }

  lemma CheckKeepsOut(me: UserId, source: SourceId, c: Cloud, call: nat, reachable: bool)
    requires Steady(c) && OthersKeepOut(me, source, c.server.rows, c.calls)
    ensures OthersKeepOut(me, source, c.server.rows, AfterCheck(c, call, reachable).calls)
  {
  }

  lemma CommitKeepsOut(me: UserId, source: SourceId, c: Cloud, call: nat, now: Time)
    requires Steady(c) && OthersKeepOut(me, source, c.server.rows, c.calls)
    requires Evolves(me, source, c.server.rows, AfterCommit(c, call, now).server.rows)
    ensures OthersKeepOut(me, source, AfterCommit(c, call, now).server.rows, AfterCommit(c, call, now).calls)
  {
    var after := AfterCommit(c, call, now);
    SameLength(c, call, now);
    RowsKeepOut(me, source, c, after.server.rows);
    FewerCalls(me, source, after.server.rows, c.calls, after.calls);
  }

  lemma SameLength(c: Cloud, call: nat, now: Time)
    ensures |AfterCommit(c, call, now).server.rows| == |c.server.rows|
    ensures forall other :: other in AfterCommit(c, call, now).calls ==>
      AfterCommit(c, call, now).calls[other].Dispatching?
      || (other in c.calls && AfterCommit(c, call, now).calls[other] == c.calls[other])
  {
  }

  /** Calls that only ended or went on to dispatch keep out as before. */
  lemma FewerCalls(me: UserId, source: SourceId, rows: seq<Import>, calls: map<nat, Call>, later: map<nat, Call>)
    requires OthersKeepOut(me, source, rows, calls)
    requires forall call :: call in later ==> later[call].Dispatching? || (call in calls && later[call] == calls[call])
    ensures OthersKeepOut(me, source, rows, later)
  {
  }

  lemma BeginKeepsOut(me: UserId, source: SourceId, c: Cloud, call: nat, user: UserId, asked: SourceId, id: ImportId)
    requires Steady(c) && OthersKeepOut(me, source, c.server.rows, c.calls)
    requires forall row :: row in c.server.rows && row.id == id ==> !Ours(me, source, row)
    ensures OthersKeepOut(me, source, c.server.rows, AfterBegin(c, call, user, asked, id).calls)
    ensures AfterBegin(c, call, user, asked, id).server.rows == c.server.rows
  {
  }

  lemma OthersKeep(me: UserId, source: SourceId, c: Cloud, event: Event, later: Cloud)
    requires later == Happen(c, event) && Steady(c) && OthersKeepOut(me, source, c.server.rows, c.calls)
    requires Evolves(me, source, c.server.rows, later.server.rows)
    requires event.CompleteBegun? ==> forall row :: row in c.server.rows && row.id == event.id ==> !Ours(me, source, row)
    ensures OthersKeepOut(me, source, later.server.rows, later.calls)
  {
    match event
    case CreateCalled(request, now) =>
      CreateTail(c.server, request, now, c.ttl);
      RowsKeepOut(me, source, c, later.server.rows);
    case CompleteBegun(call, user, asked, id) => BeginKeepsOut(me, source, c, call, user, asked, id);
    case ObjectChecked(call, reachable) => CheckKeepsOut(me, source, c, call, reachable);
    case CompleteCommitted(call, now) => CommitKeepsOut(me, source, c, call, now);
    case DispatchTried(_) => FewerCalls(me, source, c.server.rows, c.calls, later.calls);
    case CallLost(_) => FewerCalls(me, source, c.server.rows, c.calls, later.calls);
    case _ => RowsKeepOut(me, source, c, later.server.rows);
  }

  lemma ForeignKeepsOut(d: Driver, event: Event)
    requires Inv(d) && Foreign(d, event)
    requires Evolves(d.me, d.source, d.cloud.server.rows, Happen(d.cloud, event).server.rows)
    ensures OthersKeepOut(d.me, d.source, Happen(d.cloud, event).server.rows, Happen(d.cloud, event).calls)
  {
    OthersKeep(d.me, d.source, d.cloud, event, Happen(d.cloud, event));
  }

  lemma ForeignSparesMine(d: Driver, event: Event)
    requires Foreign(d, event) && MY_CALL in Happen(d.cloud, event).calls
    ensures MY_CALL in d.cloud.calls && Happen(d.cloud, event).calls[MY_CALL] == d.cloud.calls[MY_CALL]
  {
  }

  lemma ForeignOk(d: Driver, event: Event)
    requires Inv(d) && Foreign(d, event)
    ensures Keeps(d, d.Seen(event))
  {
    ForeignEvolves(d, event);
    ForeignKeepsOut(d, event);
    if MY_CALL in Happen(d.cloud, event).calls {
      ForeignSparesMine(d, event);
    }
    MineApart(d, event);
    ServiceMoved(d, event);
  }

  // ---- The driver's own calls ----

  lemma Then(d: Driver, between: Driver, later: Driver)
    requires Keeps(d, between) && Keeps(between, later) && between.trace == d.trace && between.local == d.local
    ensures Keeps(d, later)
  {
  }

  /** Whatever the driver is at, its rows and its call end as a view and a call table that fit. */
  lemma Arrived(d: Driver, cloud: Cloud, next: Pc)
    requires Inv(d) && Steady(cloud)
    requires Linked(Of(d).(rows := cloud.server.rows)) && Quieted(Of(d).(rows := cloud.server.rows))
    requires PcOk(Of(d).(rows := cloud.server.rows), next)
    requires OthersKeepOut(d.me, d.source, cloud.server.rows, cloud.calls) && MyCallOk(d.(cloud := cloud, pc := next))
    ensures Keeps(d, d.(cloud := cloud, pc := next))
  {
  }

  /** A crash, or a lost connection: the open call is gone and the driver starts over. */
  lemma CrashOk(d: Driver)
    requires Inv(d)
    ensures Keeps(d, d.Seen(CallLost(MY_CALL)).At(Idle))
  {
  }

  lemma RefreshOk(d: Driver, net: Net, now: Time)
    requires Inv(d)
    ensures Keeps(d, NextRefresh(d, net, now))
  {
    if d.pc.Refreshing? && d.Bulk(d.pc.bulk).Some? && d.Bulk(d.pc.bulk).value.importId.Some? {
      var event := RefreshCalled(d.me, d.source, d.Bulk(d.pc.bulk).value.importId.value, now);
      var after := d.Seen(event);
      ForeignOk(d, event);
      if net.Denied? {
        FailFromHere(d);
      } else if net.Lost? {
        Moved(d, Idle);
        Moved(after, Idle);
      } else {
        AfterRefresh(d, after, NextRefresh(d, net, now));
      }
    }
  }

  lemma AfterRefresh(d: Driver, after: Driver, later: Driver)
    requires Keeps(d, after) && after.trace == d.trace && after.local == d.local && after.pc.Refreshing?
    requires later == after.At(Uploading(after.pc.bulk)) || later == after.At(Reconciling(after.pc.bulk))
      || later == after.Fail(after.pc.bulk, FailedPermanent)
    ensures Keeps(d, later)
  {
    if later == after.Fail(after.pc.bulk, FailedPermanent) {
      FailFromHere(after);
    } else {
      SameFactFits(Of(after), after.pc, later.pc);
      Moved(after, later.pc);
    }
    Then(d, after, later);
  }

  lemma PutOk(d: Driver, net: Net, stored: StoredObject)
    requires Inv(d)
    ensures Keeps(d, NextPut(d, net, stored))
  {
    if d.pc.Uploading? && d.Bulk(d.pc.bulk).Some? && d.Bulk(d.pc.bulk).value.importId.Some? {
      var event := Uploaded(d.Bulk(d.pc.bulk).value.importId.value, stored);
      var after := d.Seen(event);
      ForeignOk(d, event);
      if net.Denied? {
        FailFromHere(d);
      } else if net.Lost? {
        Moved(d, Idle);
        Moved(after, Idle);
      } else {
        SameFactFits(Of(after), after.pc, Starting(after.pc.bulk));
        Moved(after, Starting(after.pc.bulk));
      }
    }
  }

  lemma CompleteOk(d: Driver, net: Net)
    requires Inv(d)
    ensures Keeps(d, NextComplete(d, net))
  {
    if d.pc.Starting? && d.Bulk(d.pc.bulk).Some? && d.Bulk(d.pc.bulk).value.importId.Some? {
      if net.Lost? {
        Moved(d, Idle);
      } else {
        var reply := BeginComplete(d.cloud.server, d.me, d.source, d.Bulk(d.pc.bulk).value.importId.value);
        if net.Denied? || reply.Refused? {
          FailFromHere(d);
        } else if reply.value.Already? {
          CompleteFits(Of(d), d.cloud.server.supply, d.pc, reply.value.row);
          Moved(d, CompleteRead(d.pc.bulk, reply.value.row.status, reply.value.row.processed));
        } else {
          BegunOk(d, d.Bulk(d.pc.bulk).value.importId.value, reply.value.row);
        }
      }
    }
  }

  lemma BegunCall(c: Cloud, user: UserId, source: SourceId, importId: ImportId, row: Import)
    requires MY_CALL !in c.calls && BeginComplete(c.server, user, source, importId) == Granted(Expecting(row))
    ensures Happen(c, CompleteBegun(MY_CALL, user, source, importId)) == c.(calls := c.calls[MY_CALL := Looking(user, source, row)])
    ensures row.id == importId
  {
  }

  lemma BegunOk(d: Driver, importId: ImportId, row: Import)
    requires Inv(d) && d.pc.Starting? && d.Bulk(d.pc.bulk).value.importId == Some(importId)
    requires BeginComplete(d.cloud.server, d.me, d.source, importId) == Granted(Expecting(row))
    ensures Keeps(d, d.Seen(CompleteBegun(MY_CALL, d.me, d.source, importId)).At(Completing(d.pc.bulk)))
  {
    var cloud := d.cloud.(calls := d.cloud.calls[MY_CALL := Looking(d.me, d.source, row)]);
    BegunCall(d.cloud, d.me, d.source, importId, row);
    HappenSteady(d.cloud, CompleteBegun(MY_CALL, d.me, d.source, importId));
    OnlyMine(d.me, d.source, d.cloud.server.rows, d.cloud.calls, cloud.calls);
    CompletingFits(d, cloud, importId, row);
  }

  lemma CompletingFits(d: Driver, cloud: Cloud, importId: ImportId, row: Import)
    requires Inv(d) && d.pc.Starting? && d.Bulk(d.pc.bulk).value.importId == Some(importId) && row.id == importId
    requires Steady(cloud) && cloud.server == d.cloud.server
    requires cloud.calls == d.cloud.calls[MY_CALL := Looking(d.me, d.source, row)]
    requires OthersKeepOut(d.me, d.source, cloud.server.rows, cloud.calls)
    ensures Keeps(d, d.(cloud := cloud, pc := Completing(d.pc.bulk)))
  {
    SameFactFits(Of(d), d.pc, Completing(d.pc.bulk));
    assert Of(d).(rows := cloud.server.rows) == Of(d);
    Arrived(d, cloud, Completing(d.pc.bulk));
  }

  lemma OnlyMine(me: UserId, source: SourceId, rows: seq<Import>, calls: map<nat, Call>, later: map<nat, Call>)
    requires OthersKeepOut(me, source, rows, calls)
    requires forall call :: call in later && call != MY_CALL ==> call in calls && later[call] == calls[call]
    ensures OthersKeepOut(me, source, rows, later)
  {
  }

  lemma LookedCall(c: Cloud, reachable: bool)
    requires MY_CALL in c.calls && c.calls[MY_CALL].Looking?
    ensures var open, after := c.calls[MY_CALL], Happen(c, ObjectChecked(MY_CALL, reachable));
      && after.server == c.server
      && (MY_CALL in after.calls ==>
            && after.calls[MY_CALL].Holding? && after.calls[MY_CALL].user == open.user
            && after.calls[MY_CALL].source == open.source && after.calls[MY_CALL].id == open.row.id)
      && (forall call :: call in after.calls && call != MY_CALL ==> call in c.calls && after.calls[call] == c.calls[call])
  {
  }

  lemma CheckedOk(d: Driver, cloud: Cloud)
    requires Inv(d) && d.pc.Completing? && MY_CALL in d.cloud.calls && d.cloud.calls[MY_CALL].Looking?
    requires Steady(cloud) && cloud.server == d.cloud.server && OthersKeepOut(d.me, d.source, cloud.server.rows, cloud.calls)
    requires MY_CALL in cloud.calls ==>
      cloud.calls[MY_CALL].Holding? && cloud.calls[MY_CALL].user == d.cloud.calls[MY_CALL].user
      && cloud.calls[MY_CALL].source == d.cloud.calls[MY_CALL].source && cloud.calls[MY_CALL].id == d.cloud.calls[MY_CALL].row.id
    ensures Keeps(d, d.(cloud := cloud))
  {
    assert Of(d).(rows := cloud.server.rows) == Of(d);
    Arrived(d, cloud, d.pc);
  }

  lemma LookOk(d: Driver, reachable: bool)
    requires Inv(d)
    ensures Keeps(d, NextLook(d, reachable))
  {
    if d.pc.Completing? && MY_CALL in d.cloud.calls && d.cloud.calls[MY_CALL].Looking? {
      var after := d.Seen(ObjectChecked(MY_CALL, reachable));
      HappenSteady(d.cloud, ObjectChecked(MY_CALL, reachable));
      LookedCall(d.cloud, reachable);
      OnlyMine(d.me, d.source, d.cloud.server.rows, d.cloud.calls, after.cloud.calls);
      CheckedOk(d, after.cloud);
      if MY_CALL !in after.cloud.calls {
        Looked(d, after, NextLook(d, reachable));
      }
    }
  }

  lemma Looked(d: Driver, after: Driver, later: Driver)
    requires Keeps(d, after) && after.trace == d.trace && after.local == d.local && after.pc.Completing? && MY_CALL !in after.cloud.calls
    requires later == after.At(Idle) || later == after.Fail(after.pc.bulk, FailedPermanent)
    ensures Keeps(d, later)
  {
    if later == after.At(Idle) {
      Moved(after, Idle);
    } else {
      FailFromHere(after);
    }
    Then(d, after, later);
  }

  // ---- The second transaction of complete ----

  /** The service after the driver's commit, its dispatch attempt and the end of the call. */
  ghost function Committed(c: Cloud, now: Time): Cloud {
    Happen(Happen(Happen(c, CompleteCommitted(MY_CALL, now)), DispatchTried(MY_CALL)), CallLost(MY_CALL))
  }

  ghost predicate CallsSubset(calls: map<nat, Call>, later: map<nat, Call>) {
    forall call :: call in later ==> call in calls && later[call] == calls[call]
  }

  lemma DispatchShape(c: Cloud)
    ensures var after := Happen(c, DispatchTried(MY_CALL)); after.server == c.server && CallsSubset(c.calls, after.calls)
  {
  }

  lemma DropShape(c: Cloud)
    ensures var after := Happen(c, CallLost(MY_CALL));
      after.server == c.server && CallsSubset(c.calls, after.calls) && MY_CALL !in after.calls
  {
  }

  lemma CommittedShape(c: Cloud, now: Time)
    requires MY_CALL in c.calls && c.calls[MY_CALL].Holding?
    ensures var open, after := c.calls[MY_CALL], Committed(c, now);
      && MY_CALL !in after.calls && CallsSubset(c.calls, after.calls)
      && after.server == CommitComplete(c.server, open.user, open.source, open.id, open.stored, now).0
  {
    var one := Happen(c, CompleteCommitted(MY_CALL, now));
    CommitShape(c, now);
    DispatchShape(one);
    DropShape(Happen(one, DispatchTried(MY_CALL)));
  }

  lemma CommittedSteady(c: Cloud, now: Time)
    requires Steady(c)
    ensures Steady(Committed(c, now))
  {
    var one := Happen(c, CompleteCommitted(MY_CALL, now));
    HappenSteady(c, CompleteCommitted(MY_CALL, now));
    HappenSteady(one, DispatchTried(MY_CALL));
    HappenSteady(Happen(one, DispatchTried(MY_CALL)), CallLost(MY_CALL));
  }

  lemma CommitShape(c: Cloud, now: Time)
    requires MY_CALL in c.calls && c.calls[MY_CALL].Holding?
    ensures var open, after := c.calls[MY_CALL], AfterCommit(c, MY_CALL, now);
      && after.server == CommitComplete(c.server, open.user, open.source, open.id, open.stored, now).0
      && (forall call :: call in after.calls && call != MY_CALL ==> call in c.calls && after.calls[call] == c.calls[call])
  {
  }

  /** What the second transaction does to the row it finds. */
  lemma CommitRow(server: Server, user: UserId, source: SourceId, id: ImportId, stored: StoredObject, now: Time)
    ensures var (after, reply) := CommitComplete(server, user, source, id, stored, now);
      && (reply.Refused? ==> after == server)
      && (reply.Granted? ==>
            var found := Lookup(server, user, source, id).value;
            && found in server.rows && found.id == id
            && (if found.status == AwaitingUpload
                then var row := found.(status := ImportQueued, queuedAt := Some(now), version := Some(stored.version));
                  after.rows == Put(server.rows, row) && reply.value.0 == row
                else after == server && reply.value.0 == found))
  {
  }

  lemma CommitArrives(d: Driver, cloud: Cloud, found: Import, row: Import)
    requires Inv(d) && d.pc.Completing? && d.Bulk(d.pc.bulk).value.importId == Some(found.id) && found in d.cloud.server.rows
    requires Steady(cloud) && MY_CALL !in cloud.calls && OthersKeepOut(d.me, d.source, cloud.server.rows, cloud.calls)
    requires found.status == AwaitingUpload && row == found.(status := ImportQueued, queuedAt := row.queuedAt, version := row.version)
    requires cloud.server.rows == Put(d.cloud.server.rows, row)
    ensures Keeps(d, d.(cloud := cloud, pc := Idle))
    ensures Keeps(d, d.(cloud := cloud, pc := CompleteRead(d.pc.bulk, row.status, row.processed)))
  {
    var k, supply := d.Bulk(d.pc.bulk).value, d.cloud.server.supply;
    MyRow(Of(d), supply, k, found);
    QueuedLinked(Of(d), supply, row, found);
    QueuedQuieted(Of(d), supply, k, row, found);
    QueuedFits(Of(d), supply, d.pc, row, found, Of(d).(rows := Put(Of(d).rows, row)));
    Arrived(d, cloud, Idle);
    Arrived(d, cloud, CompleteRead(d.pc.bulk, row.status, row.processed));
  }

  lemma AlreadyArrives(d: Driver, cloud: Cloud, found: Import)
    requires Inv(d) && d.pc.Completing? && d.Bulk(d.pc.bulk).value.importId == Some(found.id) && found in d.cloud.server.rows
    requires Steady(cloud) && MY_CALL !in cloud.calls && OthersKeepOut(d.me, d.source, cloud.server.rows, cloud.calls)
    requires cloud.server == d.cloud.server
    ensures Keeps(d, d.(cloud := cloud, pc := Idle))
    ensures Keeps(d, d.(cloud := cloud, pc := CompleteRead(d.pc.bulk, found.status, found.processed)))
  {
    CompleteFits(Of(d), d.cloud.server.supply, d.pc, found);
    assert Of(d).(rows := cloud.server.rows) == Of(d);
    Arrived(d, cloud, Idle);
    Arrived(d, cloud, CompleteRead(d.pc.bulk, found.status, found.processed));
  }

  lemma CommitKeepOut(d: Driver, cloud: Cloud)
    requires Inv(d) && Redeclared(d.cloud.server.rows, cloud.server.rows)
    requires forall call :: call in cloud.calls ==> call in d.cloud.calls && cloud.calls[call] == d.cloud.calls[call]
    ensures OthersKeepOut(d.me, d.source, cloud.server.rows, cloud.calls)
  {
    KeepOutEvolves(d.me, d.source, d.cloud.server.rows, cloud.server.rows, d.cloud.calls);
    OnlyMine(d.me, d.source, cloud.server.rows, d.cloud.calls, cloud.calls);
  }

  lemma RefusedArrives(d: Driver, cloud: Cloud, later: Driver)
    requires Inv(d) && d.pc.Completing? && Steady(cloud) && MY_CALL !in cloud.calls
    requires cloud.server == d.cloud.server && CallsSubset(d.cloud.calls, cloud.calls)
    requires later == d.(cloud := cloud).Fail(d.pc.bulk, FailedPermanent)
    ensures Keeps(d, later)
  {
    var after := d.(cloud := cloud);
    OnlyMine(d.me, d.source, cloud.server.rows, d.cloud.calls, cloud.calls);
    assert Of(d).(rows := cloud.server.rows) == Of(d);
    Arrived(d, cloud, d.pc);
    FailFromHere(after);
    Then(d, after, later);
  }

  lemma CommitOk(d: Driver, net: Net, now: Time)
    requires Inv(d)
    ensures Keeps(d, NextCommit(d, net, now))
  {
    if d.pc.Completing? && MY_CALL in d.cloud.calls && d.cloud.calls[MY_CALL].Holding? {
      var open, cloud := d.cloud.calls[MY_CALL], Committed(d.cloud, now);
      CommittedShape(d.cloud, now);
      CommittedSteady(d.cloud, now);
      CommitRow(d.cloud.server, open.user, open.source, open.id, open.stored, now);
      var reply := CommitComplete(d.cloud.server, open.user, open.source, open.id, open.stored, now).1;
      if reply.Refused? {
        RefusedArrives(d, cloud, NextCommit(d, net, now));
      } else {
        var found := Lookup(d.cloud.server, open.user, open.source, open.id).value;
        CommitGranted(d, net, cloud, found, reply.value.0, NextCommit(d, net, now));
      }
    }
  }

  lemma CommitGranted(d: Driver, net: Net, cloud: Cloud, found: Import, row: Import, later: Driver)
    requires Inv(d) && d.pc.Completing? && d.Bulk(d.pc.bulk).value.importId == Some(found.id) && found in d.cloud.server.rows
    requires Steady(cloud) && MY_CALL !in cloud.calls
    requires forall call :: call in cloud.calls ==> call in d.cloud.calls && cloud.calls[call] == d.cloud.calls[call]
    requires if found.status == AwaitingUpload
             then row == found.(status := ImportQueued, queuedAt := row.queuedAt, version := row.version)
                  && cloud.server.rows == Put(d.cloud.server.rows, row)
             else cloud.server == d.cloud.server && row == found
    requires later == if net == Replied then d.(cloud := cloud, pc := CompleteRead(d.pc.bulk, row.status, row.processed))
                      else d.(cloud := cloud, pc := Idle)
    ensures Keeps(d, later)
  {
    if found.status == AwaitingUpload {
      PutRedeclares(d.cloud.server.rows, row, found, d.cloud.server.supply);
      CommitKeepOut(d, cloud);
      CommitArrives(d, cloud, found, row);
    } else {
      CommitKeepOut(d, cloud);
      AlreadyArrives(d, cloud, found);
    }
  }
}
