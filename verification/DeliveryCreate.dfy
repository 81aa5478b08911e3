/** The driver's create call: replayed, or inserted with or without an expired predecessor. */
module DeliveryCreate {
  import opened Prelude
  import opened Tables
  import opened Store
  import opened Captures
  import opened ImportService
  import opened ImportRuns
  import opened Delivery
  import opened Evolution
  import opened Watching
  import opened DeliverySafety
  import opened DeliveryCalls

  /** A granted create call leaves rows that evolved, then perhaps one new row: the answer. */
  ghost predicate CreateShape(me: UserId, source: SourceId, server: Server, request: Request, after: Server, created: Import, mid: seq<Import>) {
    && Evolves(me, source, server.rows, mid) && |mid| == |server.rows|
    && created.user == request.user && created.key == request.key
    && ((after.rows == mid && created in mid)
        || (after.rows == mid + [created] && exists expires :: created == NewImport(request, server.supply, expires)))
  }

  lemma InsertShape(me: UserId, source: SourceId, server: Server, mid: seq<Import>, request: Request, expires: Time)
    requires Evolves(me, source, server.rows, mid) && |mid| == |server.rows|
    requires Insert(server.(rows := mid), request, expires).Granted?
    ensures var (after, created) := Insert(server.(rows := mid), request, expires).value;
      CreateShape(me, source, server, request, after, created, mid)
  {
  }

  lemma FirstShape(me: UserId, source: SourceId, server: Server, request: Request, now: Time, ttl: nat) returns (mid: seq<Import>)
    requires RowsOk(server.rows, server.supply) && FindKey(server.rows, request.user, request.key).None?
    requires Create(server, request, now, ttl).1.Granted?
    ensures var (after, reply) := Create(server, request, now, ttl);
      CreateShape(me, source, server, request, after, reply.value.0, mid)
  {
    var active := FindActive(server.rows, request.user, request.source);
    if active.None? {
      mid := server.rows;
      EvolvesRefl(me, source, server.rows);
      assert server.(rows := mid) == server;
    } else {
      mid := Put(server.rows, Expire(active.value));
      ExpireEvolves(me, source, server.rows, server.supply, active.value);
    }
    InsertShape(me, source, server, mid, request, now + ttl);
  }

  lemma ReplayShape(me: UserId, source: SourceId, server: Server, request: Request, now: Time, ttl: nat) returns (mid: seq<Import>)
    requires RowsOk(server.rows, server.supply) && FindKey(server.rows, request.user, request.key).Some?
    requires Create(server, request, now, ttl).1.Granted?
    ensures var (after, reply) := Create(server, request, now, ttl);
      CreateShape(me, source, server, request, after, reply.value.0, mid)
  {
    var existing := FindKey(server.rows, request.user, request.key).value;
    if existing.status == AwaitingUpload {
      var row := existing.(uploadExpires := now + ttl);
      mid := Put(server.rows, row);
      TouchEvolves(me, source, server.rows, server.supply, existing, now + ttl);
      var i :| 0 <= i < |server.rows| && server.rows[i] == existing;
      assert mid[i] == row;
    } else {
      mid := server.rows;
      EvolvesRefl(me, source, server.rows);
    }
  }

  lemma Shape(me: UserId, source: SourceId, server: Server, request: Request, now: Time, ttl: nat) returns (mid: seq<Import>)
    requires RowsOk(server.rows, server.supply) && Create(server, request, now, ttl).1.Granted?
    ensures var (after, reply) := Create(server, request, now, ttl);
      CreateShape(me, source, server, request, after, reply.value.0, mid)
  {
    if FindKey(server.rows, request.user, request.key).Some? {
      mid := ReplayShape(me, source, server, request, now, ttl);
    } else {
      mid := FirstShape(me, source, server, request, now, ttl);
    }
  }

  /** The view after the call, without the driver's new row. */
  lemma MidFits(v: View, mid: seq<Import>, pc: Pc)
    requires Linked(v) && Quieted(v) && PcOk(v, pc) && Evolves(v.me, v.source, v.rows, mid)
    ensures Linked(v.(rows := mid)) && Quieted(v.(rows := mid)) && PcOk(v.(rows := mid), pc)
  {
    LinkedRetained(v, mid);
    QuietedEvolves(v, mid);
    PcOkEvolves(v, mid, pc);
  }

  lemma NewFits(v: View, pc: Pc, created: Import)
    requires Linked(v) && Quieted(v) && PcOk(v, pc) && pc.Creating? && DistinctBulks(v.bulks)
    requires var k := FindBulk(v.bulks, pc.bulk).value;
      Mine(v, k.snapshot, created) && created.source == v.source && created.entryCount == k.entryCount
      && created.processed == 0 && created.status == AwaitingUpload
    ensures var later := v.(rows := v.rows + [created]); Linked(later) && Quieted(later) && PcOk(later, pc)
  {
    var k := FindBulk(v.bulks, pc.bulk).value;
    OwnLinked(v, k, created);
    OwnQuieted(v, k, created);
    OwnKnown(v, created, k.snapshot, k.snapshot, Anything);
  }

  lemma CreatedFits(v: View, server: Server, after: Server, k: Bulk, pc: Pc, created: Import, mid: seq<Import>)
    requires Linked(v) && Quieted(v) && PcOk(v, pc) && pc.Creating? && DistinctBulks(v.bulks)
    requires server.rows == v.rows && FindBulk(v.bulks, pc.bulk) == Some(k)
    requires CreateShape(v.me, v.source, server, RequestFor(v.me, k), after, created, mid)
    ensures var later := v.(rows := after.rows); Linked(later) && Quieted(later) && PcOk(later, pc)
    ensures created in after.rows && Mine(v, k.snapshot, created)
  {
    assert k.source == v.source;
    MidFits(v, mid, pc);
    if after.rows != mid {
      NewFits(v.(rows := mid), pc, created);
      assert v.(rows := mid).(rows := mid + [created]) == v.(rows := after.rows);
    }
  }

  lemma ShapeKeepsOut(d: Driver, after: Server, request: Request, created: Import, mid: seq<Import>)
    requires Inv(d) && CreateShape(d.me, d.source, d.cloud.server, request, after, created, mid)
    ensures OthersKeepOut(d.me, d.source, after.rows, d.cloud.calls)
  {
    forall call | call in d.cloud.calls && d.cloud.calls[call].Holding? ensures d.cloud.calls[call].id < d.cloud.server.supply {
      HeldBelow(d.cloud, call);
    }
    KeepOutEvolves(d.me, d.source, d.cloud.server.rows, after.rows, d.cloud.calls);
  }

  lemma CreateArrives(d: Driver, cloud: Cloud, k: Bulk, created: Import, mid: seq<Import>)
    requires Inv(d) && d.pc.Creating? && d.Bulk(d.pc.bulk) == Some(k) && Steady(cloud) && cloud.calls == d.cloud.calls
    requires CreateShape(d.me, d.source, d.cloud.server, RequestFor(d.me, k), cloud.server, created, mid)
    ensures Keeps(d, d.(cloud := cloud, pc := Idle))
    ensures Keeps(d, d.(cloud := cloud, pc := Binding(k.id, created.id, created.status, created.status == AwaitingUpload)))
  {
    ShapeKeepsOut(d, cloud.server, RequestFor(d.me, k), created, mid);
    CreatedFits(Of(d), d.cloud.server, cloud.server, k, d.pc, created, mid);
    BindFits(Of(d).(rows := cloud.server.rows), cloud.server.supply, d.pc, created, created.status == AwaitingUpload);
    Arrived(d, cloud, Idle);
    Arrived(d, cloud, Binding(k.id, created.id, created.status, created.status == AwaitingUpload));
  }

  lemma CreateCloud(c: Cloud, request: Request, now: Time)
    ensures var after, (server, reply) := Happen(c, CreateCalled(request, now)), Create(c.server, request, now, c.ttl);
      after.server == server && after.calls == c.calls && (reply.Refused? ==> after == c)
  {
  }

  lemma CreateOk(d: Driver, net: Net, now: Time)
    requires Inv(d)
    ensures Keeps(d, NextCreate(d, net, now))
  {
    if d.pc.Creating? && d.Bulk(d.pc.bulk).Some? {
      var k := d.Bulk(d.pc.bulk).value;
      if !CapturedPending(d.local, k) || net.Denied? {
        FailFromHere(d);
      } else {
        var request := RequestFor(d.me, k);
        CreateCloud(d.cloud, request, now);
        HappenSteady(d.cloud, CreateCalled(request, now));
        Sent(d, net, now, k, d.Seen(CreateCalled(request, now)).cloud, NextCreate(d, net, now));
      }
    }
  }

  lemma Sent(d: Driver, net: Net, now: Time, k: Bulk, cloud: Cloud, later: Driver)
    requires Inv(d) && d.pc.Creating? && d.Bulk(d.pc.bulk) == Some(k) && Steady(cloud) && cloud.calls == d.cloud.calls && !net.Denied?
    requires var (server, reply) := Create(d.cloud.server, RequestFor(d.me, k), now, d.cloud.ttl);
      && cloud.server == server && (reply.Refused? ==> cloud == d.cloud)
      && later == if net.Lost? then (if net.effect then d.(cloud := cloud) else d).(pc := Idle)
                  else if reply.Refused? then d.(cloud := cloud).Fail(k.id, FailedPermanent)
                  else d.(cloud := cloud, pc := Binding(k.id, reply.value.0.id, reply.value.0.status,
                                                        reply.value.0.status == AwaitingUpload))
    ensures Keeps(d, later)
  {
    var reply := Create(d.cloud.server, RequestFor(d.me, k), now, d.cloud.ttl).1;
    Moved(d, Idle);
    FailFromHere(d);
    if reply.Granted? {
      var mid := Shape(d.me, d.source, d.cloud.server, RequestFor(d.me, k), now, d.cloud.ttl);
      CreateArrives(d, cloud, k, reply.value.0, mid);
    }
  }
}
