/** What holds in every run of the driver in which status reads are honest. */
module DeliveryGuarantees {
  import opened Prelude
  import opened Tables
  import opened Store
  import opened Splitting
  import opened Transport
  import opened Runs
  import opened Captures
  import opened Safety
  import opened ActiveBulks
  import opened ImportService
  import opened ImportRuns
  import opened Delivery
  import opened Watching
  import opened DeliverySafety
  import opened DeliveryCalls
  import opened DeliveryCreate
  import opened DeliveryTrace

  // ---- One action ----

  lemma CallInv(d: Driver, action: Action)
    requires Inv(d) && action.Calls()
    ensures Inv(NextCall(d, action))
  {
    match action
    case Crash => CrashOk(d);
    case Elsewhere(event) => if Foreign(d, event) { ForeignOk(d, event); }
    case CallCreate(net, now) => CreateOk(d, net, now);
    case CallRefresh(net, now) => RefreshOk(d, net, now);
    case PutFile(net, stored) => PutOk(d, net, stored);
    case CallComplete(net) => CompleteOk(d, net);
    case LookAtObject(reachable) => LookOk(d, reachable);
    case CommitCall(net, now) => CommitOk(d, net, now);
    case HangUp => CrashOk(d);
  }

  lemma WatchInv(d: Driver, action: Action)
    requires Inv(d) && Honest(d, action) && action.Watches()
    ensures Inv(NextWatch(d, action))
  {
    match action
    case Begin(batchOnly, plan) => BeginOk(d, batchOnly, plan);
    case Read(net) => ReadOk(d, net);
    case Save => SaveOk(d);
    case Pause => if d.pc.Polling? { Moved(d, Idle); }
    case Conclude(clean) => ConcludeOk(d, clean);
  }

  lemma ApplyInv(d: Driver, action: Action)
    requires Inv(d) && action.Applies()
    ensures Inv(NextApply(d, action))
  {
    match action
    case Download(net, saved, sha256, fileMatches) => DownloadOk(d, net, saved, sha256, fileMatches);
    case ApplyNext(rows) => PageOk(d, rows);
    case Finish => FinishOk(d);
    case Break => if d.pc.Fetching? || d.pc.Applying? { FailFromHere(d); }
  }

  lemma BatchInv(d: Driver, action: Action)
    requires Inv(d) && action.Batches()
    ensures Inv(NextBatch(d, action))
  {
    match action
    case AtRest(step) => if d.pc.Idle? && Resting(step) { RestOk(d, step); }
    case SplitNow => SplitOk(d);
    case List => ListOk(d);
    case Submit(net, response) => SubmitOk(d, net, response);
  }

  lemma NextInv(d: Driver, action: Action)
    requires Inv(d) && Honest(d, action)
    ensures Inv(Next(d, action))
  {
    if action.Calls() {
      CallInv(d, action);
    } else if action.Watches() {
      WatchInv(d, action);
    } else if action.Applies() {
      ApplyInv(d, action);
    } else {
      BatchInv(d, action);
    }
  }

  lemma CallsTraced(d: Driver, action: Action)
    requires Inv(d) && action.Calls()
    ensures Traced(d, NextCall(d, action))
  {
    match action
    case Crash =>
    case Elsewhere(_) =>
    case CallCreate(net, now) => CreateTraced(d, net, now);
    case CallRefresh(net, now) => RefreshTraced(d, net, now);
    case PutFile(net, stored) => PutTraced(d, net, stored);
    case CallComplete(net) => CompleteTraced(d, net);
    case LookAtObject(reachable) => LookTraced(d, reachable);
    case CommitCall(net, now) => CommitTraced(d, net, now, NextCommit(d, net, now));
    case HangUp =>
  }

  lemma WatchTraced(d: Driver, action: Action)
    requires Inv(d) && action.Watches()
    ensures Traced(d, NextWatch(d, action))
  {
    match action
    case Begin(batchOnly, plan) => BeginTraced(d, batchOnly, plan);
    case Read(net) => ReadTraced(d, net);
    case Save => SaveTraced(d);
    case Pause =>
    case Conclude(_) =>
  }

  lemma ApplyTraced(d: Driver, action: Action)
    requires Inv(d) && action.Applies()
    ensures Traced(d, NextApply(d, action))
  {
    match action
    case Download(net, saved, sha256, fileMatches) => DownloadTraced(d, net, saved, sha256, fileMatches);
    case ApplyNext(rows) => PageTraced(d, rows);
    case Finish => FinishTraced(d);
    case Break =>
      if d.pc.Fetching? || d.pc.Applying? { FailTraced(d, d.Fail(d.pc.bulk, FailedPermanent), FailedPermanent); }
  }

  lemma BatchTraced(d: Driver, action: Action)
    requires Inv(d) && ListGood(d) && action.Batches() && !action.AtRest?
    ensures Traced(d, NextBatch(d, action))
  {
    match action
    case SplitNow => SplitTraced(d);
    case List =>
    case Submit(net, response) => SubmitTraced(d, net, response);
  }

  lemma SplitTraced(d: Driver)
    requires Inv(d)
    ensures Traced(d, NextSplit(d))
  {
  }

  // ---- The trace is a careful run ----

  /** The driver's database is what the run of its trace leaves. */
  ghost predicate Follows(d: Driver) {
    CarefulRun(d.trace) && Run(d.trace).store == d.local
  }

  lemma CarefulSnoc(trace: seq<Step>, step: Step)
    requires CarefulRun(trace) && Careful(Run(trace).store, step)
    ensures CarefulRun(trace + [step]) && Run(trace + [step]) == Do(Run(trace), step)
  {
    var longer := trace + [step];
    assert longer[..|trace|] == trace;
    forall i | 0 <= i < |longer| ensures Careful(Run(longer[..i]).store, longer[i]) {
      if i < |trace| {
        assert longer[..i] == trace[..i];
      }
    }
  }

  lemma TracedFollows(d: Driver, later: Driver)
    requires Follows(d) && Traced(d, later)
    ensures Follows(later)
  {
    if later.trace != d.trace || later.local != d.local {
      var step :| later.trace == d.trace + [step] && Careful(d.local, step) && Backed(d.local, step, later.local);
      CarefulSnoc(d.trace, step);
      BackedDo(Run(d.trace), step, later.local);
    }
  }

  lemma RestFollows(d: Driver, step: Step)
    requires Inv(d) && Follows(d) && d.pc.Idle? && Resting(step)
    ensures Follows(d.Wrote(Rested(d.local, step), step, Idle))
  {
    RestOk(d, step);
    CarefulSnoc(d.trace, step);
    LedgerWatches(Run(d.trace), step);
  }

  lemma NextTraced(d: Driver, action: Action)
    requires Inv(d) && ListGood(d) && !action.AtRest?
    ensures Traced(d, Next(d, action))
  {
    if action.Calls() {
      CallsTraced(d, action);
    } else if action.Watches() {
      WatchTraced(d, action);
    } else if action.Applies() {
      ApplyTraced(d, action);
    } else {
      BatchTraced(d, action);
    }
  }

  lemma NextFollows(d: Driver, action: Action)
    requires Inv(d) && ListGood(d) && Follows(d)
    ensures Follows(Next(d, action))
  {
    if action.AtRest? {
      if d.pc.Idle? && Resting(action.step) { RestFollows(d, action.step); }
    } else {
      NextTraced(d, action);
      TracedFollows(d, Next(d, action));
    }
  }

  // ---- The list of batches, and whose client it is ----

  ghost predicate Elsewise(d: Driver, later: Driver) {
    later.pc.Sending? ==> later.pc == d.pc && later.local == d.local
  }

  lemma CallsSendNothing(d: Driver, action: Action)
    requires action.Calls()
    ensures Elsewise(d, NextCall(d, action))
    ensures NextCall(d, action).me == d.me && NextCall(d, action).source == d.source
  {
  }

  lemma WatchSendsNothing(d: Driver, action: Action)
    requires action.Watches()
    ensures Elsewise(d, NextWatch(d, action))
    ensures NextWatch(d, action).me == d.me && NextWatch(d, action).source == d.source
  {
  }

  lemma ApplySendsNothing(d: Driver, action: Action)
    requires action.Applies()
    ensures Elsewise(d, NextApply(d, action))
    ensures NextApply(d, action).me == d.me && NextApply(d, action).source == d.source
  {
  }

  lemma BatchNames(d: Driver, action: Action)
    requires action.Batches()
    ensures NextBatch(d, action).me == d.me && NextBatch(d, action).source == d.source
  {
  }

  lemma NextNames(d: Driver, action: Action)
    ensures Next(d, action).me == d.me && Next(d, action).source == d.source
  {
    if action.Calls() {
      CallsSendNothing(d, action);
    } else if action.Watches() {
      WatchSendsNothing(d, action);
    } else if action.Applies() {
      ApplySendsNothing(d, action);
    } else {
      BatchNames(d, action);
    }
  }

  lemma BatchList(d: Driver, action: Action)
    requires Inv(d) && ListGood(d) && Follows(d) && action.Batches()
    ensures ListGood(NextBatch(d, action))
  {
    if action.List? {
      if d.pc.Listing? {
        RunSound(d.trace);
        ListedGood(d);
      }
    } else if action.Submit? {
      SubmitTraced(d, action.net, action.response);
    }
  }

  lemma NextListGood(d: Driver, action: Action)
    requires Inv(d) && ListGood(d) && Follows(d)
    ensures ListGood(Next(d, action))
  {
    if action.Calls() {
      CallsSendNothing(d, action);
    } else if action.Watches() {
      WatchSendsNothing(d, action);
    } else if action.Applies() {
      ApplySendsNothing(d, action);
    } else {
      BatchList(d, action);
    }
  }

  // ---- Every run ----

  ghost predicate Good(d: Driver) { Inv(d) && ListGood(d) && Follows(d) }

  lemma StartGood(me: UserId, source: SourceId, ttl: nat)
    ensures Good(Driver(me, source, BLANK, [], Fresh(ttl), Idle))
  {
    HistorySteady(ttl, []);
  }

  lemma StepGood(d: Driver, action: Action)
    requires Good(d) && Honest(d, action)
    ensures Good(Next(d, action))
  {
    NextInv(d, action);
    NextFollows(d, action);
    NextListGood(d, action);
  }

  lemma HonestPrefix(me: UserId, source: SourceId, ttl: nat, actions: seq<Action>, n: nat)
    requires HonestRun(me, source, ttl, actions) && n < |actions|
    ensures HonestRun(me, source, ttl, actions[..n]) && Honest(Drive(me, source, ttl, actions[..n]), actions[n])
  {
    forall i | 0 <= i < n ensures Honest(Drive(me, source, ttl, actions[..n][..i]), actions[..n][i]) {
      assert actions[..n][..i] == actions[..i];
    }
  }

  lemma {:induction false} DriveGood(me: UserId, source: SourceId, ttl: nat, actions: seq<Action>)
    requires HonestRun(me, source, ttl, actions)
    ensures var d := Drive(me, source, ttl, actions); Good(d) && d.me == me && d.source == source
  {
    if actions == [] {
      StartGood(me, source, ttl);
    } else {
      var n := |actions| - 1;
      HonestPrefix(me, source, ttl, actions, n);
      DriveGood(me, source, ttl, actions[..n]);
      StepGood(Drive(me, source, ttl, actions[..n]), actions[n]);
      NextNames(Drive(me, source, ttl, actions[..n]), actions[n]);
    }
  }

  // ---- The promises ----

  /** The driver is sending batches, or about to. */
  predicate SendsBatches(d: Driver) { d.pc.Flushing? || d.pc.Listing? || d.pc.Sending? }

  lemma NoneInFlight(d: Driver)
    requires Inv(d) && SendsBatches(d)
    ensures forall k :: k in d.local.bulks ==> k.state.Terminal()
    ensures forall row :: row in d.cloud.server.rows && Ours(d.me, d.source, row) ==> !row.status.InFlight()
  {
  }

  /** Batches are sent only while every import of the source is over for the client and
      none of them is queued, running or due for a retry on the service. */
  lemma TransportsNeverRace(me: UserId, source: SourceId, ttl: nat, actions: seq<Action>)
    requires HonestRun(me, source, ttl, actions) && SendsBatches(Drive(me, source, ttl, actions))
    ensures forall k :: k in Drive(me, source, ttl, actions).local.bulks ==> k.state.Terminal()
    ensures forall row :: row in Drive(me, source, ttl, actions).cloud.server.rows && Ours(me, source, row) ==>
      !row.status.InFlight()
  {
    DriveGood(me, source, ttl, actions);
    NoneInFlight(Drive(me, source, ttl, actions));
  }

  lemma SentIsFree(d: Driver, k: Bulk, row: Import)
    requires Good(d) && d.pc.Sending? && d.pc.batches != [] && k in d.local.bulks && d.pc.batches[0] in k.captured
    requires row in d.cloud.server.rows && row.user == d.me && row.key == ForSnapshot(d.source, k.snapshot)
    ensures HasState(d.local.outbox, d.pc.batches[0], Pending) && !row.status.InFlight()
  {
    NoneInFlight(d);
    assert d.pc.batches[0] in d.pc.batches;
  }

  /** Every batch about to be sent is pending, and no import that captured it is in flight. */
  lemma SentBatchesAreFree(me: UserId, source: SourceId, ttl: nat, actions: seq<Action>, k: Bulk, row: Import)
    requires HonestRun(me, source, ttl, actions)
    requires var d := Drive(me, source, ttl, actions);
      && d.pc.Sending? && d.pc.batches != [] && k in d.local.bulks && d.pc.batches[0] in k.captured
      && row in d.cloud.server.rows && row.user == me && row.key == ForSnapshot(source, k.snapshot)
    ensures var d := Drive(me, source, ttl, actions);
      HasState(d.local.outbox, d.pc.batches[0], Pending) && !row.status.InFlight()
  {
    DriveGood(me, source, ttl, actions);
    SentIsFree(Drive(me, source, ttl, actions), k, row);
  }

  /** What a client's record of an import says about the service's. */
  ghost predicate Agree(k: Bulk, row: Import) {
    && (k.state.Terminal() ==> !row.status.InFlight())
    && (k.importId.None? ==> NeverQueued(row.status))
    && (k.importId.Some? ==> k.importId.value == row.id)
    && row.entryCount == k.entryCount
  }

  lemma RecordsAgree(d: Driver, k: Bulk, row: Import)
    requires Inv(d) && k in d.local.bulks && row in d.cloud.server.rows
    requires row.user == d.me && row.key == ForSnapshot(d.source, k.snapshot)
    ensures Agree(k, row)
  {
  }

  /** At any time: closed for the client means not in flight on the service, and an
      import whose identifier was never saved was never queued. */
  lemma ClosedMeansQuiet(me: UserId, source: SourceId, ttl: nat, actions: seq<Action>, k: Bulk, row: Import)
    requires HonestRun(me, source, ttl, actions)
    requires k in Drive(me, source, ttl, actions).local.bulks && row in Drive(me, source, ttl, actions).cloud.server.rows
    requires row.user == me && row.key == ForSnapshot(source, k.snapshot)
    ensures Agree(k, row)
  {
    DriveGood(me, source, ttl, actions);
    RecordsAgree(Drive(me, source, ttl, actions), k, row);
  }

  lemma GoodIsCareful(d: Driver)
    requires Good(d)
    ensures CarefulRun(d.trace) && d.local == Run(d.trace).store && Sound(Run(d.trace)) && Exclusive(d.local.bulks, d.local.outbox)
  {
    RunSound(d.trace);
    RunExclusive(d.trace);
  }

  /** The driver is a careful client: its database is that of a careful run of local
      transactions, so no entry is lost and an active import holds its pending batches. */
  lemma DriverIsCareful(me: UserId, source: SourceId, ttl: nat, actions: seq<Action>)
    requires HonestRun(me, source, ttl, actions)
    ensures var d := Drive(me, source, ttl, actions);
      CarefulRun(d.trace) && d.local == Run(d.trace).store && Sound(Run(d.trace)) && Exclusive(d.local.bulks, d.local.outbox)
  {
    DriveGood(me, source, ttl, actions);
    GoodIsCareful(Drive(me, source, ttl, actions));
  }

  // ---- Closed for good ----

  ghost predicate ClosedIn(bulks: seq<Bulk>, snapshot: nat) {
    exists k :: k in bulks && k.snapshot == snapshot && k.state.Terminal()
  }

  lemma SetKeepsClosed(bulks: seq<Bulk>, row: Bulk, was: Bulk, snapshot: nat)
    requires DistinctBulks(bulks) && was in bulks && SameImport(row, was) && (was.state.Terminal() ==> row.state.Terminal())
    requires ClosedIn(bulks, snapshot)
    ensures ClosedIn(SetBulk(bulks, row), snapshot)
  {
  }

  /** The one row that such a step writes. */
  lemma WrittenRow(st: Store, step: Step, after: Store) returns (row: Bulk, was: Bulk)
    requires Backed(st, step, after)
    requires step.ImportBound? || step.StatusRead? || step.ResultSaved? || step.BulkCompleted? || step.BulkFailed?
    ensures after.bulks == SetBulk(st.bulks, row) && was in st.bulks && SameImport(row, was)
    ensures was.state.Terminal() ==> row.state.Terminal()
  {
    was := FindBulk(st.bulks, step.bulk).value;
    match step
    case ImportBound(_, importId, status) =>
      row := was.(importId := Some(importId), serverStatus := Some(status), state := Remote(status));
    case StatusRead(_, status, processed) => row := was.(state := Remote(status), serverStatus := Some(status), processed := processed);
    case ResultSaved(_, sha256, _) => row := was.(resultSha := Some(sha256), state := ResultReady);
    case BulkCompleted(_) => row := was.(state := Applied);
    case BulkFailed(_, state, serverStatus) =>
      row := was.(state := Remote(state), serverStatus := if serverStatus.Some? then serverStatus else Some(state));
  }

  lemma BackedKeepsClosed(st: Store, step: Step, after: Store, snapshot: nat)
    requires Backed(st, step, after) && DistinctBulks(st.bulks) && ClosedIn(st.bulks, snapshot)
    ensures ClosedIn(after.bulks, snapshot)
  {
    if step.PageApplied? {
      var was := FindBulk(st.bulks, step.bulk).value;
      CursorAdvances(st.inv, was, step.rows);
      SetKeepsClosed(st.bulks, Advanced(was, |step.rows|), was, snapshot);
    } else if step.BulkPrepared? {
      PreparedKeepsClosed(st, step, after, snapshot);
    } else if step.ImportBound? || step.StatusRead? || step.ResultSaved? || step.BulkCompleted? || step.BulkFailed? {
      var row, was := WrittenRow(st, step, after);
      SetKeepsClosed(st.bulks, row, was, snapshot);
    }
  }

  lemma PreparedKeepsClosed(st: Store, step: Step, after: Store, snapshot: nat)
    requires Backed(st, step, after) && step.BulkPrepared? && ClosedIn(st.bulks, snapshot)
    ensures ClosedIn(after.bulks, snapshot)
  {
  }

  lemma NextKeepsClosed(d: Driver, action: Action, snapshot: nat, later: Driver)
    requires Good(d) && ClosedIn(d.local.bulks, snapshot) && later == Next(d, action)
    ensures ClosedIn(later.local.bulks, snapshot)
  {
    if action.AtRest? {
      if d.pc.Idle? && Resting(action.step) { RestedBulks(d.local, action.step); }
    } else {
      NextTraced(d, action);
      TracedKeepsClosed(d, later, snapshot);
    }
  }

  lemma TracedKeepsClosed(d: Driver, later: Driver, snapshot: nat)
    requires Inv(d) && Traced(d, later) && ClosedIn(d.local.bulks, snapshot)
    ensures ClosedIn(later.local.bulks, snapshot)
  {
    if later.local != d.local {
      var step :| later.trace == d.trace + [step] && Careful(d.local, step) && Backed(d.local, step, later.local);
      BackedKeepsClosed(d.local, step, later.local, snapshot);
    }
  }

  lemma DriveStep(me: UserId, source: SourceId, ttl: nat, actions: seq<Action>, action: Action)
    ensures Drive(me, source, ttl, actions + [action]) == Next(Drive(me, source, ttl, actions), action)
  {
  }

  lemma HonestBefore(me: UserId, source: SourceId, ttl: nat, actions: seq<Action>, more: seq<Action>)
    requires HonestRun(me, source, ttl, actions + more)
    ensures HonestRun(me, source, ttl, actions)
  {
    if more != [] {
      HonestPrefix(me, source, ttl, actions + more, |actions|);
      assert (actions + more)[..|actions|] == actions;
    } else {
      assert actions + more == actions;
    }
  }

  lemma ClosedStaysOnce(me: UserId, source: SourceId, ttl: nat, actions: seq<Action>, action: Action, snapshot: nat)
    requires HonestRun(me, source, ttl, actions)
    requires ClosedIn(Drive(me, source, ttl, actions).local.bulks, snapshot)
    ensures ClosedIn(Drive(me, source, ttl, actions + [action]).local.bulks, snapshot)
  {
    DriveGood(me, source, ttl, actions);
    DriveStep(me, source, ttl, actions, action);
    NextKeepsClosed(Drive(me, source, ttl, actions), action, snapshot, Drive(me, source, ttl, actions + [action]));
  }

  ghost predicate ClosedAfter(me: UserId, source: SourceId, ttl: nat, actions: seq<Action>, snapshot: nat) {
    ClosedIn(Drive(me, source, ttl, actions).local.bulks, snapshot)
  }

  /** What holds now and survives each further action holds at the end. */
  lemma {:induction false} Onward<T(!new)>(holds: seq<T> -> bool, first: seq<T>, more: seq<T>)
    requires holds(first)
    requires forall i :: 0 <= i < |more| && holds(first + more[..i]) ==> holds(first + more[..i + 1])
    ensures holds(first + more)
  {
    if more == [] {
      assert first + more == first;
    } else {
      var n := |more| - 1;
      assert forall i :: 0 <= i <= n ==> more[..n][..i] == more[..i];
      Onward(holds, first, more[..n]);
      assert more[..n + 1] == more;
    }
  }

  lemma OneFurther<T>(first: seq<T>, more: seq<T>, i: nat)
    requires i < |more|
    ensures first + more[..i + 1] == (first + more[..i]) + [more[i]]
    ensures (first + more[..i]) + more[i..] == first + more
  {
    assert more[..i + 1] == more[..i] + [more[i]];
  }

  lemma ClosedStaysAt(me: UserId, source: SourceId, ttl: nat, actions: seq<Action>, more: seq<Action>, snapshot: nat, i: nat)
    requires HonestRun(me, source, ttl, actions + more) && i < |more|
    requires ClosedAfter(me, source, ttl, actions + more[..i], snapshot)
    ensures ClosedAfter(me, source, ttl, actions + more[..i + 1], snapshot)
  {
    OneFurther(actions, more, i);
    HonestBefore(me, source, ttl, actions + more[..i], more[i..]);
    ClosedStaysOnce(me, source, ttl, actions + more[..i], more[i], snapshot);
  }

  lemma ClosedStays(me: UserId, source: SourceId, ttl: nat, actions: seq<Action>, more: seq<Action>, snapshot: nat)
    requires HonestRun(me, source, ttl, actions + more) && ClosedAfter(me, source, ttl, actions, snapshot)
    ensures ClosedAfter(me, source, ttl, actions + more, snapshot)
  {
    ghost var holds := (s: seq<Action>) => ClosedAfter(me, source, ttl, s, snapshot);
    forall i | 0 <= i < |more| && holds(actions + more[..i]) ensures holds(actions + more[..i + 1]) {
      ClosedStaysAt(me, source, ttl, actions, more, snapshot, i);
    }
    Onward(holds, actions, more);
  }

  /** Once a bulk import is over for the client, the service's import is not in flight,
      then or at any later time of the run. */
  lemma QuietForever(me: UserId, source: SourceId, ttl: nat, actions: seq<Action>, more: seq<Action>, k: Bulk, row: Import)
    requires HonestRun(me, source, ttl, actions + more)
    requires k in Drive(me, source, ttl, actions).local.bulks && k.state.Terminal()
    requires row in Drive(me, source, ttl, actions + more).cloud.server.rows
    requires row.user == me && row.key == ForSnapshot(source, k.snapshot)
    ensures !row.status.InFlight()
  {
    ClosedStays(me, source, ttl, actions, more, k.snapshot);
    var later := Drive(me, source, ttl, actions + more).local.bulks;
    var now :| now in later && now.snapshot == k.snapshot && now.state.Terminal();
    ClosedMeansQuiet(me, source, ttl, actions + more, now, row);
  }

  // ---- Why honest status reads are needed ----

  /** A status read that is denied closes the import all the same: batches follow, and
      the transports stay apart exactly if the import was not in flight. */
  lemma DeniedReadRaces(d: Driver)
    requires Inv(d) && Reads(d.pc)
    ensures var later, snapshot := NextRead(d, Denied), d.Bulk(d.pc.bulk).value.snapshot;
      && SendsBatches(later) && AllClosed(later.local.bulks)
      && (Known(Of(later), snapshot, Quiet) <==> Known(Of(d), snapshot, Quiet))
  {
    var k := d.Bulk(d.pc.bulk).value;
    var state := if d.pc.Escaping? then Cancelled else FailedPermanent;
    var row := k.(state := Remote(state), serverStatus := if k.serverStatus.Some? then k.serverStatus else Some(state));
    SetClosed(d.local.bulks, row, k);
    assert NextRead(d, Denied).local.bulks == SetBulk(d.local.bulks, row);
  }

  lemma SplitSpares(st: Store, source: SourceId, b: Batch)
    requires DistinctIds(st.outbox) && Below(st.outbox, st.supply) && b in st.outbox && |b.Entries()| <= MANIFEST_BATCH_SIZE
    ensures Split(st, source, MANIFEST_BATCH_SIZE).Ok? && b in Split(st, source, MANIFEST_BATCH_SIZE).value.0.outbox
  {
    if Oversized(st.outbox, source, MANIFEST_BATCH_SIZE) != [] {
      SplitEffect(st, source, MANIFEST_BATCH_SIZE);
      var i :| 0 <= i < |st.outbox| && st.outbox[i] == b;
      assert AfterSplit(st.outbox[i], source, MANIFEST_BATCH_SIZE, st.supply) == b;
    }
  }

  lemma DenialCloses(d: Driver)
    requires Inv(d) && Reads(d.pc)
    ensures var closed := NextRead(d, Denied);
      && closed.pc.Flushing? && closed.cloud == d.cloud && closed.source == d.source
      && closed.local.outbox == d.local.outbox && closed.local.supply == d.local.supply
  {
  }

  lemma FlushLists(d: Driver, b: Batch)
    requires d.pc.Flushing? && DistinctIds(d.local.outbox) && Below(d.local.outbox, d.local.supply)
    requires b in d.local.outbox && b.source == d.source && b.state == Pending && |b.Entries()| <= MANIFEST_BATCH_SIZE
    ensures var later := NextList(NextSplit(d));
      later.pc.Sending? && b.id in later.pc.batches && b in later.local.outbox && later.cloud == d.cloud
  {
    SplitSpares(d.local, d.source, b);
    var pending := PendingOf(NextSplit(d).local.outbox, d.source);
    assert b in pending;
    var i :| 0 <= i < |pending| && pending[i] == b;
    assert IdSeq(pending)[i] == b.id;
  }

  /** So it comes to a race: three actions after the denied read, a batch that the running
      import captured is on the list of those to send. */
  lemma DenialRaces(d: Driver, b: Batch, row: Import)
    requires Inv(d) && Reads(d.pc) && DistinctIds(d.local.outbox) && Below(d.local.outbox, d.local.supply)
    requires b in d.local.outbox && b.source == d.source && b.state == Pending && |b.Entries()| <= MANIFEST_BATCH_SIZE
    requires row in d.cloud.server.rows && row.status.InFlight() && d.Bulk(d.pc.bulk).value.importId == Some(row.id)
    requires b.id in d.Bulk(d.pc.bulk).value.captured
    ensures var later := NextList(NextSplit(NextRead(d, Denied)));
      && later.pc.Sending? && b.id in later.pc.batches && b in later.local.outbox
      && row in later.cloud.server.rows && row.status.InFlight()
  {
    DenialCloses(d);
    FlushLists(NextRead(d, Denied), b);
  }
}
