/** Every interleaving of the remote worker's handler threads, one lock region at a time. */
module RemoteProtocol {
  import opened Values
  import opened Remote

  /** Where a handler thread stands. */
  datatype Pc =
    | Arriving
    | Owning(event: nat)                  // in flight, not started
    | Executing(event: nat)               // worker.execute is running
    | Sending(event: nat, result: Value)  // published, response being sent
    | Failing(event: nat)                 // an exception after the start, tombstone to be written
    | Leaving(event: nat)                 // only the in-flight entry is left to remove
    | Waiting(event: nat)
    | Replaying(result: Value)
    | Done

  datatype Handler = Handler(id: string, mark: string, pc: Pc)

  /** `started` logs the executions in order, `replies` the successful responses; `outcome` is
      the last result published for an id, and `lost` are the ids whose tombstone was dropped
      by overflow. */
  datatype Server = Server(
    t: Tables, handlers: map<nat, Handler>, events: nat, signalled: set<nat>,
    started: seq<string>, replies: seq<(string, Value)>, outcome: map<string, Value>, lost: set<string>)

  datatype Step =
    | NewRequest(h: nat, id: string, mark: string)
    | Arrive(h: nat)
    | Abandon(h: nat)                  // lease cancelled or expired before the start
    | Execute(h: nat)
    | Publish(h: nat, result: Value)
    | Raise(h: nat)                    // execution, validation or expiry failed
    | Send(h: nat, sent: bool)
    | Bury(h: nat)
    | Leave(h: nat)
    | Wake(h: nat)                     // the event was set: read the cache
    | TimeOut(h: nat)

  function At(s: Server, h: nat, pc: Pc): Server
    requires h in s.handlers
  {
    s.(handlers := s.handlers[h := s.handlers[h].(pc := pc)])
  }

  /** Tombstones that a step dropped, of those it started from and those it wrote. */
  function Dropped(before: Tables, after: Tables, id: string): set<string> {
    (before.graves.values.Keys + before.cache.values.Keys + {id}) - (after.graves.values.Keys + after.cache.values.Keys)
  }

  function ArriveStep(s: Server, h: nat): Server
    requires h in s.handlers && TablesOk(s.t)
  {
    var r := s.handlers[h];
    var next := s.(t := Admitted(s.t, r.id, r.mark, s.events), events := s.events + 1);
    match Admit(s.t, r.id, r.mark, s.events)
    case Own(e) => At(next, h, Owning(e))
    case Wait(e) => At(next, h, Waiting(e))
    case Replay(result) => At(next, h, Replaying(result))
    case _ => At(next, h, Done)
  }

  function PublishStep(s: Server, h: nat, result: Value): Server
    requires h in s.handlers && s.handlers[h].pc.Executing? && TablesOk(s.t)
  {
    var r := s.handlers[h];
    var t := Published(s.t, r.id, r.mark, result);
    At(s, h, Sending(r.pc.event, result)).(t := t, outcome := s.outcome[r.id := result],
                                           lost := s.lost + Dropped(s.t, t, r.id))
  }

  function SendStep(s: Server, h: nat, sent: bool): Server
    requires h in s.handlers && (s.handlers[h].pc.Sending? || s.handlers[h].pc.Replaying?)
  {
    var r := s.handlers[h];
    var next := At(s, h, if r.pc.Replaying? then Done else if sent then Leaving(r.pc.event) else Failing(r.pc.event));
    if sent then next.(replies := s.replies + [(r.id, r.pc.result)]) else next
  }

  function BuryStep(s: Server, h: nat): Server
    requires h in s.handlers && s.handlers[h].pc.Failing? && TablesOk(s.t)
  {
    var r := s.handlers[h];
    var t := Buried(s.t, r.id, r.mark);
    At(s, h, Leaving(r.pc.event)).(t := t, lost := s.lost + Dropped(s.t, t, r.id))
  }

  /** One step of one thread; a step that is not possible changes nothing. */
  function Next(s: Server, step: Step): Server
    requires TablesOk(s.t)
  {
    if step.NewRequest? then
      if step.h in s.handlers then s else s.(handlers := s.handlers[step.h := Handler(step.id, step.mark, Arriving)])
    else if step.h !in s.handlers then s
    else
      var h, r := step.h, s.handlers[step.h];
      match step
      case NewRequest(_, _, _) => s
      case Arrive(_) => if r.pc.Arriving? then ArriveStep(s, h) else s
      case Abandon(_) => if r.pc.Owning? then At(s, h, Done).(t := Cleared(s.t, r.id)) else s
      case Execute(_) => if r.pc.Owning? then At(s, h, Executing(r.pc.event)).(started := s.started + [r.id]) else s
      case Publish(_, result) => if r.pc.Executing? then PublishStep(s, h, result) else s
      case Raise(_) => if r.pc.Executing? then At(s, h, Failing(r.pc.event)) else s
      case Send(_, sent) => if r.pc.Sending? || r.pc.Replaying? then SendStep(s, h, sent) else s
      case Bury(_) => if r.pc.Failing? then BuryStep(s, h) else s
      case Leave(_) =>
        if r.pc.Leaving? then At(s, h, Done).(t := Cleared(s.t, r.id), signalled := s.signalled + {r.pc.event}) else s
      case Wake(_) =>
        if r.pc.Waiting? && r.pc.event in s.signalled then
          if r.id in s.t.cache.values then At(s, h, Replaying(s.t.cache.values[r.id])) else At(s, h, Done)
        else s
      case TimeOut(_) => if r.pc.Waiting? then At(s, h, Done) else s
  }

  // -- the invariant -------------------------------------------------------------------

  predicate Owner(r: Handler) {
    r.pc.Owning? || r.pc.Executing? || r.pc.Sending? || r.pc.Failing? || r.pc.Leaving?
  }

  /** A handler whose execution has begun and is not over. */
  predicate Busy(r: Handler) { r.pc.Executing? || r.pc.Sending? || r.pc.Failing? || r.pc.Leaving? }

  /** The request of an owner is in flight under its own event; what it is about to start is
      not remembered, and what it published is, unless its tombstone was dropped. */
  predicate HandlerOk(t: Tables, outcome: map<string, Value>, lost: set<string>, r: Handler) {
    && (Owner(r) ==> r.id in t.inflight && t.inflight[r.id] == r.pc.event)
    && (r.pc.Owning? || r.pc.Executing? ==> !Remembered(t, r.id))
    && (r.pc.Sending? || r.pc.Leaving? ==> r.id in lost || Remembered(t, r.id))
    && (r.pc.Sending? || r.pc.Replaying? ==> r.id in lost || (r.id in outcome && outcome[r.id] == r.pc.result))
  }

  ghost predicate HandlersOk(t: Tables, outcome: map<string, Value>, lost: set<string>, handlers: map<nat, Handler>) {
    forall h | h in handlers :: HandlerOk(t, outcome, lost, handlers[h])
  }

  predicate Owns(handlers: map<nat, Handler>, h: nat, id: string) {
    h in handlers && handlers[h].id == id && Owner(handlers[h])
  }

  /** Every request in flight has one owner. */
  ghost predicate OwnersOk(inflight: map<string, nat>, handlers: map<nat, Handler>) {
    && (forall g, h, id | Owns(handlers, g, id) && Owns(handlers, h, id) :: g == h)
    && (forall id | id in inflight :: exists h :: Owns(handlers, h, id))
  }

  predicate BusyWith(handlers: map<nat, Handler>, h: nat, id: string) {
    h in handlers && handlers[h].id == id && Busy(handlers[h])
  }

  ghost predicate BusyOn(handlers: map<nat, Handler>, id: string) { exists h :: BusyWith(handlers, h, id) }

  /** What was published stays remembered with that result until its tombstone is dropped. */
  ghost predicate OutcomesOk(t: Tables, outcome: map<string, Value>, lost: set<string>) {
    && (forall id | id in outcome && id !in lost :: Remembered(t, id))
    && (forall id | id in t.cache.values :: id in outcome && (id in lost || outcome[id] == t.cache.values[id]))
  }

  ghost predicate RepliesOk(outcome: map<string, Value>, lost: set<string>, replies: seq<(string, Value)>) {
    forall k | 0 <= k < |replies| :: replies[k].0 in lost || (replies[k].0 in outcome && outcome[replies[k].0] == replies[k].1)
  }

  /** What was started is running, remembered or lost, and nothing was started twice unless
      its tombstone was dropped in between. */
  ghost predicate StartsOk(t: Tables, handlers: map<nat, Handler>, lost: set<string>, started: seq<string>) {
    && (forall id | id in started && id !in lost :: Remembered(t, id) || BusyOn(handlers, id))
    && (forall j, k | 0 <= j < k < |started| && started[j] == started[k] :: started[j] in lost)
  }

  ghost predicate Inv(s: Server) {
    && TablesOk(s.t) && HandlersOk(s.t, s.outcome, s.lost, s.handlers) && OwnersOk(s.t.inflight, s.handlers)
    && OutcomesOk(s.t, s.outcome, s.lost) && RepliesOk(s.outcome, s.lost, s.replies)
    && StartsOk(s.t, s.handlers, s.lost, s.started)
  }

  // -- one handler moves -------------------------------------------------------------------

  lemma BusyMoves(handlers: map<nat, Handler>, h: nat, r: Handler, id: string)
    requires BusyOn(handlers, id) && h in handlers && r.id == handlers[h].id
    requires Busy(handlers[h]) && id == r.id ==> Busy(r)
    ensures BusyOn(handlers[h := r], id)
  {
    var g :| BusyWith(handlers, g, id);
    assert BusyWith(handlers[h := r], g, id);
  }

  lemma OwnersMove(inflight: map<string, nat>, handlers: map<nat, Handler>, h: nat, r: Handler)
    requires OwnersOk(inflight, handlers) && h in handlers && r.id == handlers[h].id && (Owner(r) <==> Owner(handlers[h]))
    ensures OwnersOk(inflight, handlers[h := r])
  {
    var next := handlers[h := r];
    assert forall g, id :: Owns(next, g, id) <==> Owns(handlers, g, id);
    forall id | id in inflight ensures exists g :: Owns(next, g, id) {
      var g :| Owns(handlers, g, id);
      assert Owns(next, g, id);
    }
  }

  lemma StartsMove(t: Tables, handlers: map<nat, Handler>, lost: set<string>, started: seq<string>, h: nat, r: Handler)
    requires StartsOk(t, handlers, lost, started) && h in handlers && r.id == handlers[h].id
    requires Busy(handlers[h]) ==> Busy(r) || Remembered(t, r.id) || r.id in lost
    ensures StartsOk(t, handlers[h := r], lost, started)
  {
    forall id | id in started && id !in lost ensures Remembered(t, id) || BusyOn(handlers[h := r], id) {
      if BusyOn(handlers, id) && !Remembered(t, id) { BusyMoves(handlers, h, r, id); }
    }
  }

  /** A handler moves on without touching the tables. */
  lemma MoveKeeps(s: Server, h: nat, pc: Pc)
    requires Inv(s) && h in s.handlers
    requires var r := s.handlers[h].(pc := pc);
             && HandlerOk(s.t, s.outcome, s.lost, r) && (Owner(r) <==> Owner(s.handlers[h])) && (Busy(s.handlers[h]) ==> Busy(r))
    ensures Inv(At(s, h, pc))
  {
    var r := s.handlers[h].(pc := pc);
    OwnersMove(s.t.inflight, s.handlers, h, r);
    StartsMove(s.t, s.handlers, s.lost, s.started, h, r);
  }

  lemma OwnersAdd(inflight: map<string, nat>, handlers: map<nat, Handler>, h: nat, r: Handler)
    requires OwnersOk(inflight, handlers) && h !in handlers && !Owner(r)
    ensures OwnersOk(inflight, handlers[h := r])
  {
    var next := handlers[h := r];
    forall id | id in inflight ensures exists g :: Owns(next, g, id) {
      var g :| Owns(handlers, g, id);
      assert Owns(next, g, id);
    }
    assert forall g, id :: Owns(next, g, id) ==> Owns(handlers, g, id);
  }

  lemma StartsAdd(t: Tables, handlers: map<nat, Handler>, lost: set<string>, started: seq<string>, h: nat, r: Handler)
    requires StartsOk(t, handlers, lost, started) && h !in handlers
    ensures StartsOk(t, handlers[h := r], lost, started)
  {
    forall id | id in started && id !in lost ensures Remembered(t, id) || BusyOn(handlers[h := r], id) {
      if BusyOn(handlers, id) {
        var g :| BusyWith(handlers, g, id);
        assert BusyWith(handlers[h := r], g, id);
      }
    }
  }

  lemma RequestKeeps(s: Server, h: nat, id: string, mark: string)
    requires Inv(s) && h !in s.handlers
    ensures Inv(Next(s, NewRequest(h, id, mark)))
  {
    OwnersAdd(s.t.inflight, s.handlers, h, Handler(id, mark, Arriving));
    StartsAdd(s.t, s.handlers, s.lost, s.started, h, Handler(id, mark, Arriving));
  }

  // -- arriving and leaving -------------------------------------------------------------------

  lemma OwnersEnter(inflight: map<string, nat>, handlers: map<nat, Handler>, h: nat, r: Handler)
    requires OwnersOk(inflight, handlers) && h in handlers && r.id == handlers[h].id && Owner(r) && r.id !in inflight
    requires forall g, id | Owns(handlers, g, id) :: id in inflight
    ensures OwnersOk(inflight[r.id := r.pc.event], handlers[h := r])
  {
    var next := handlers[h := r];
    var more := inflight[r.id := r.pc.event];
    forall id | id in more ensures exists g :: Owns(next, g, id) {
      if id == r.id { assert Owns(next, h, id); }
      else {
        var g :| Owns(handlers, g, id);
        assert Owns(next, g, id);
      }
    }
    assert forall g, id :: Owns(next, g, id) ==> Owns(handlers, g, id) || (g == h && id == r.id);
  }

  lemma OwnKeeps(s: Server, h: nat, event: nat)
    requires Inv(s) && h in s.handlers && s.handlers[h].pc.Arriving?
    requires !Remembered(s.t, s.handlers[h].id) && s.handlers[h].id !in s.t.inflight
    ensures var r := s.handlers[h];
            Inv(At(s, h, Owning(event)).(t := s.t.(inflight := s.t.inflight[r.id := event], flightMarks := s.t.flightMarks[r.id := r.mark])))
  {
    var r := s.handlers[h].(pc := Owning(event));
    forall g, id | Owns(s.handlers, g, id) ensures id in s.t.inflight { assert HandlerOk(s.t, s.outcome, s.lost, s.handlers[g]); }
    OwnersEnter(s.t.inflight, s.handlers, h, r);
    StartsMove(s.t, s.handlers, s.lost, s.started, h, r);
  }

  lemma ArriveKeeps(s: Server, h: nat)
    requires Inv(s) && h in s.handlers && s.handlers[h].pc.Arriving?
    ensures Inv(ArriveStep(s, h))
  {
    var r := s.handlers[h];
    match Admit(s.t, r.id, r.mark, s.events)
    case Own(e) => OwnKeeps(s, h, e);
    case Wait(e) => MoveKeeps(s, h, Waiting(e));
    case Replay(result) => MoveKeeps(s, h, Replaying(result));
    case Refuse => MoveKeeps(s, h, Done);
    case Gone => MoveKeeps(s, h, Done);
  }

  lemma OwnersLeave(inflight: map<string, nat>, handlers: map<nat, Handler>, h: nat)
    requires OwnersOk(inflight, handlers) && h in handlers && Owner(handlers[h])
    ensures OwnersOk(inflight - {handlers[h].id}, handlers[h := handlers[h].(pc := Done)])
  {
    var id := handlers[h].id;
    var next := handlers[h := handlers[h].(pc := Done)];
    assert Owns(handlers, h, id);
    forall i | i in inflight - {id} ensures exists g :: Owns(next, g, i) {
      var g :| Owns(handlers, g, i);
      assert Owns(next, g, i);
    }
    assert forall g, i :: Owns(next, g, i) ==> Owns(handlers, g, i);
  }

  lemma OthersKeepEntry(s: Server, h: nat)
    requires Inv(s) && h in s.handlers && Owner(s.handlers[h])
    ensures HandlersOk(Cleared(s.t, s.handlers[h].id), s.outcome, s.lost, s.handlers[h := s.handlers[h].(pc := Done)])
  {
    var id := s.handlers[h].id;
    assert Owns(s.handlers, h, id);
    forall g | g in s.handlers && g != h ensures HandlerOk(Cleared(s.t, id), s.outcome, s.lost, s.handlers[g]) {
      assert HandlerOk(s.t, s.outcome, s.lost, s.handlers[g]);
      if Owner(s.handlers[g]) { assert Owns(s.handlers, g, s.handlers[g].id); }
    }
  }

  /** The in-flight entry of an owner goes, and nothing it started depends on it. */
  lemma ClearKeeps(s: Server, h: nat, signalled: set<nat>)
    requires Inv(s) && h in s.handlers && Owner(s.handlers[h])
    requires Busy(s.handlers[h]) ==> s.handlers[h].id in s.lost || Remembered(s.t, s.handlers[h].id)
    ensures Inv(At(s, h, Done).(t := Cleared(s.t, s.handlers[h].id), signalled := signalled))
  {
    OwnersLeave(s.t.inflight, s.handlers, h);
    OthersKeepEntry(s, h);
    StartsMove(s.t, s.handlers, s.lost, s.started, h, s.handlers[h].(pc := Done));
  }

  // -- starting ---------------------------------------------------------------------------------

  lemma NeverStartedTwice(s: Server, h: nat)
    requires Inv(s) && h in s.handlers && s.handlers[h].pc.Owning? && s.handlers[h].id in s.started
    ensures s.handlers[h].id in s.lost
  {
    var id := s.handlers[h].id;
    assert HandlerOk(s.t, s.outcome, s.lost, s.handlers[h]);
    if id !in s.lost {
      var g :| BusyWith(s.handlers, g, id);
      assert Owns(s.handlers, g, id) && Owns(s.handlers, h, id);
    }
  }

  lemma StartsLog(t: Tables, handlers: map<nat, Handler>, lost: set<string>, started: seq<string>, id: string)
    requires StartsOk(t, handlers, lost, started) && BusyOn(handlers, id) && (id in started ==> id in lost)
    ensures StartsOk(t, handlers, lost, started + [id])
  {
    forall i | i in started + [id] && i !in lost ensures Remembered(t, i) || BusyOn(handlers, i) {
      assert i in started || i == id;
    }
  }

  lemma ExecuteKeeps(s: Server, h: nat)
    requires Inv(s) && h in s.handlers && s.handlers[h].pc.Owning?
    ensures Inv(Next(s, Execute(h)))
  {
    var r := s.handlers[h];
    assert HandlerOk(s.t, s.outcome, s.lost, r);
    if r.id in s.started { NeverStartedTwice(s, h); }
    MoveKeeps(s, h, Executing(r.pc.event));
    var moved := At(s, h, Executing(r.pc.event));
    assert BusyWith(moved.handlers, h, r.id);
    StartsLog(moved.t, moved.handlers, moved.lost, moved.started, r.id);
  }

  // -- steps that change what is remembered ---------------------------------------------------

  ghost predicate TablesGrow(before: Tables, after: Tables, id: string) {
    && TablesOk(after) && after.inflight == before.inflight && after.flightMarks == before.flightMarks
    && (forall x | Remembered(after, x) :: Remembered(before, x) || x == id)
    && (forall x | x in after.cache.values :: x == id || (x in before.cache.values && after.cache.values[x] == before.cache.values[x]))
  }

  lemma BuriedGrows(t: Tables, id: string, mark: string)
    requires TablesOk(t)
    ensures TablesGrow(t, Buried(t, id, mark), id) && Buried(t, id, mark).cache == t.cache
  {
    PutOk(t.graves, id, mark);
  }

  lemma PublishedGrows(t: Tables, id: string, mark: string, result: Value)
    requires TablesOk(t)
    ensures TablesGrow(t, Published(t, id, mark, result), id)
    ensures id in Published(t, id, mark, result).cache.values && Published(t, id, mark, result).cache.values[id] == result
  {
    PublishedOk(t, id, mark, result);
    if |t.cache.keys| >= MAX_CACHE {
      EvictedOk(t);
      assert t.cache.keys[0] in t.cache.values;
    }
  }

  /** Whatever a step drops is lost, so the rest of what was remembered still is. */
  lemma StillRemembered(before: Tables, after: Tables, id: string, lost: set<string>, x: string)
    requires Remembered(before, x) || x == id
    ensures x in lost + Dropped(before, after, id) || Remembered(after, x)
  {}

  lemma OthersGrow(before: Tables, after: Tables, outcome: map<string, Value>, next: map<string, Value>, lost: set<string>, id: string, g: Handler)
    requires HandlerOk(before, outcome, lost, g) && TablesGrow(before, after, id)
    requires next == outcome || (id in next && next == outcome[id := next[id]] && (id in outcome ==> id in lost))
    requires Owner(g) ==> g.id != id
    ensures HandlerOk(after, next, lost + Dropped(before, after, id), g)
  {
    if Remembered(before, g.id) { StillRemembered(before, after, id, lost, g.id); }
  }

  lemma HandlersGrow(s: Server, h: nat, r: Handler, t: Tables, next: map<string, Value>)
    requires Inv(s) && h in s.handlers && Owner(s.handlers[h]) && r.id == s.handlers[h].id && TablesGrow(s.t, t, r.id)
    requires next == s.outcome || (r.id in next && next == s.outcome[r.id := next[r.id]] && !Remembered(s.t, r.id))
    requires HandlerOk(t, next, s.lost + Dropped(s.t, t, r.id), r)
    ensures HandlersOk(t, next, s.lost + Dropped(s.t, t, r.id), s.handlers[h := r])
  {
    var lost := s.lost + Dropped(s.t, t, r.id);
    assert Owns(s.handlers, h, r.id);
    forall g | g in s.handlers && g != h ensures HandlerOk(t, next, lost, s.handlers[g]) {
      assert HandlerOk(s.t, s.outcome, s.lost, s.handlers[g]);
      if Owner(s.handlers[g]) { assert Owns(s.handlers, g, s.handlers[g].id); }
      OthersGrow(s.t, t, s.outcome, next, s.lost, r.id, s.handlers[g]);
    }
  }

  lemma StartsGrow(before: Tables, after: Tables, handlers: map<nat, Handler>, lost: set<string>, started: seq<string>, h: nat, r: Handler)
    requires StartsOk(before, handlers, lost, started) && h in handlers && r.id == handlers[h].id && Busy(r)
    ensures StartsOk(after, handlers[h := r], lost + Dropped(before, after, r.id), started)
  {
    forall id | id in started && id !in lost + Dropped(before, after, r.id)
      ensures Remembered(after, id) || BusyOn(handlers[h := r], id)
    {
      if Remembered(before, id) { StillRemembered(before, after, r.id, lost, id); }
      else { BusyMoves(handlers, h, r, id); }
    }
  }

  lemma BuryKeeps(s: Server, h: nat)
    requires Inv(s) && h in s.handlers && s.handlers[h].pc.Failing?
    ensures Inv(BuryStep(s, h))
  {
    var r := s.handlers[h].(pc := Leaving(s.handlers[h].pc.event));
    var t := Buried(s.t, r.id, r.mark);
    BuriedGrows(s.t, r.id, r.mark);
    assert HandlerOk(s.t, s.outcome, s.lost, s.handlers[h]);
    StillRemembered(s.t, t, r.id, s.lost, r.id);
    HandlersGrow(s, h, r, t, s.outcome);
    OwnersMove(s.t.inflight, s.handlers, h, r);
    StartsGrow(s.t, t, s.handlers, s.lost, s.started, h, r);
    OutcomesBuried(s.t, t, s.outcome, s.lost, r.id);
  }

  lemma OutcomesBuried(before: Tables, after: Tables, outcome: map<string, Value>, lost: set<string>, id: string)
    requires OutcomesOk(before, outcome, lost) && TablesGrow(before, after, id) && after.cache == before.cache
    ensures OutcomesOk(after, outcome, lost + Dropped(before, after, id))
  {
    forall x | x in outcome && x !in lost + Dropped(before, after, id) ensures Remembered(after, x) {
      StillRemembered(before, after, id, lost, x);
    }
  }

  lemma OutcomesPublished(before: Tables, after: Tables, outcome: map<string, Value>, lost: set<string>, id: string, result: Value)
    requires OutcomesOk(before, outcome, lost) && TablesGrow(before, after, id)
    requires id in after.cache.values && after.cache.values[id] == result
    ensures OutcomesOk(after, outcome[id := result], lost + Dropped(before, after, id))
  {
    forall x | x in outcome[id := result] && x !in lost + Dropped(before, after, id) ensures Remembered(after, x) {
      StillRemembered(before, after, id, lost, x);
    }
  }

  lemma PublishKeeps(s: Server, h: nat, result: Value)
    requires Inv(s) && h in s.handlers && s.handlers[h].pc.Executing?
    ensures Inv(PublishStep(s, h, result))
  {
    var r := s.handlers[h].(pc := Sending(s.handlers[h].pc.event, result));
    var t := Published(s.t, r.id, r.mark, result);
    PublishedGrows(s.t, r.id, r.mark, result);
    assert HandlerOk(s.t, s.outcome, s.lost, s.handlers[h]);
    HandlersGrow(s, h, r, t, s.outcome[r.id := result]);
    OwnersMove(s.t.inflight, s.handlers, h, r);
    StartsGrow(s.t, t, s.handlers, s.lost, s.started, h, r);
    OutcomesPublished(s.t, t, s.outcome, s.lost, r.id, result);
  }

  // -- replies ------------------------------------------------------------------------------------

  lemma ReplyKeeps(s: Server, id: string, result: Value)
    requires Inv(s) && (id in s.lost || (id in s.outcome && s.outcome[id] == result))
    ensures Inv(s.(replies := s.replies + [(id, result)]))
  {}

  lemma SendKeeps(s: Server, h: nat, sent: bool)
    requires Inv(s) && h in s.handlers && (s.handlers[h].pc.Sending? || s.handlers[h].pc.Replaying?)
    ensures Inv(SendStep(s, h, sent))
  {
    var r := s.handlers[h];
    assert HandlerOk(s.t, s.outcome, s.lost, r);
    var pc := if r.pc.Replaying? then Done else if sent then Leaving(r.pc.event) else Failing(r.pc.event);
    MoveKeeps(s, h, pc);
    if sent { ReplyKeeps(At(s, h, pc), r.id, r.pc.result); }
  }

  lemma WakeKeeps(s: Server, h: nat)
    requires Inv(s) && h in s.handlers && s.handlers[h].pc.Waiting?
    ensures Inv(Next(s, Wake(h)))
  {
    var r := s.handlers[h];
    if r.pc.event in s.signalled {
      if r.id in s.t.cache.values { MoveKeeps(s, h, Replaying(s.t.cache.values[r.id])); } else { MoveKeeps(s, h, Done); }
    }
  }

  /** Every step of every thread keeps the invariant. */
  lemma NextKeeps(s: Server, step: Step)
    requires Inv(s)
    ensures Inv(Next(s, step))
  {
    if step.NewRequest? {
      if step.h !in s.handlers { RequestKeeps(s, step.h, step.id, step.mark); }
    } else if step.h in s.handlers {
      var h, r := step.h, s.handlers[step.h];
      assert HandlerOk(s.t, s.outcome, s.lost, r);
      match step
      case Arrive(_) => if r.pc.Arriving? { ArriveKeeps(s, h); }
      case Abandon(_) => if r.pc.Owning? { ClearKeeps(s, h, s.signalled); }
      case Execute(_) => if r.pc.Owning? { ExecuteKeeps(s, h); }
      case Publish(_, result) => if r.pc.Executing? { PublishKeeps(s, h, result); }
      case Raise(_) => if r.pc.Executing? { MoveKeeps(s, h, Failing(r.pc.event)); }
      case Send(_, sent) => if r.pc.Sending? || r.pc.Replaying? { SendKeeps(s, h, sent); }
      case Bury(_) => if r.pc.Failing? { BuryKeeps(s, h); }
      case Leave(_) => if r.pc.Leaving? { ClearKeeps(s, h, s.signalled + {r.pc.event}); }
      case Wake(_) => if r.pc.Waiting? { WakeKeeps(s, h); }
      case TimeOut(_) => if r.pc.Waiting? { MoveKeeps(s, h, Done); }
    }
  }

  // -- every interleaving ---------------------------------------------------------------------------

  const BOOT := Server(Tables(Ordered([], map[]), map[], Ordered([], map[]), map[], map[]), map[], 0, {}, [], [], map[], {})

  lemma BootOk()
    ensures Inv(BOOT)
  {}

  /** The server after a schedule of its threads; a schedule keeps the invariant. */
  ghost function Serve(steps: seq<Step>): (s: Server)
    ensures Inv(s)
  {
    if steps == [] then BootOk(); BOOT
    else
      var before := Serve(steps[..|steps| - 1]);
      NextKeeps(before, steps[|steps| - 1]);
      Next(before, steps[|steps| - 1])
  }

  /** At most once under concurrency: when `worker.execute` starts for a request id, that id is
      neither cached nor tombstoned, it is in flight for this thread alone, and if it was ever
      started before, its tombstone has been dropped by overflow since. */
  lemma StartIsFresh(steps: seq<Step>, h: nat)
    requires h in Serve(steps).handlers && Serve(steps).handlers[h].pc.Owning?
    ensures var s := Serve(steps);
            var id := s.handlers[h].id;
            && !Remembered(s.t, id) && id in s.t.inflight && s.t.inflight[id] == s.handlers[h].pc.event
            && (forall g | Owns(s.handlers, g, id) :: g == h)
            && (id in s.started ==> id in s.lost)
  {
    var s := Serve(steps);
    assert HandlerOk(s.t, s.outcome, s.lost, s.handlers[h]) && Owns(s.handlers, h, s.handlers[h].id);
    if s.handlers[h].id in s.started { NeverStartedTwice(s, h); }
  }

  /** An executed id stays in flight, cached or tombstoned unless its tombstone was dropped. */
  lemma ExecutedIsRemembered(steps: seq<Step>, id: string)
    requires id in Serve(steps).started
    ensures var s := Serve(steps); Remembered(s.t, id) || id in s.t.inflight || id in s.lost
  {
    var s := Serve(steps);
    if id !in s.lost && !Remembered(s.t, id) {
      var h :| BusyWith(s.handlers, h, id);
      assert HandlerOk(s.t, s.outcome, s.lost, s.handlers[h]);
    }
  }

  /** All successful replies for an id that was never dropped carry the same result. */
  lemma RepliesAgree(steps: seq<Step>, j: nat, k: nat)
    requires j < |Serve(steps).replies| && k < |Serve(steps).replies|
    requires Serve(steps).replies[j].0 == Serve(steps).replies[k].0 && Serve(steps).replies[j].0 !in Serve(steps).lost
    ensures Serve(steps).replies[j].1 == Serve(steps).replies[k].1
  {
    assert RepliesOk(Serve(steps).outcome, Serve(steps).lost, Serve(steps).replies);
  }

  /** Cache and tombstones stay within their bounds. */
  lemma TablesAreBounded(steps: seq<Step>)
    ensures |Serve(steps).t.cache.values| <= MAX_CACHE && |Serve(steps).t.graves.values| <= MAX_GRAVES
  {
    OrderedSize(Serve(steps).t.cache);
    OrderedSize(Serve(steps).t.graves);
  }

  lemma {:induction false} DistinctSize(keys: seq<string>, all: set<string>)
    requires (forall k :: k in keys <==> k in all) && (forall i, j | 0 <= i < j < |keys| :: keys[i] != keys[j])
    ensures |all| == |keys|
    decreases |keys|
  {
    if keys == [] {
      assert all == {};
    } else {
      var last := |keys| - 1;
      forall k ensures k in keys[..last] <==> k in all - {keys[last]} {
        if k in all && k != keys[last] { assert k in keys; }
        if k in keys[..last] { assert k in keys; }
      }
      DistinctSize(keys[..last], all - {keys[last]});
    }
  }

  lemma OrderedSize<V>(d: Ordered<V>)
    requires OrderedOk(d)
    ensures |d.values| == |d.keys|
  {
    DistinctSize(d.keys, d.values.Keys);
    MapSize(d.values);
  }

  lemma {:induction false} MapSize<V>(m: map<string, V>)
    ensures |m| == |m.Keys|
    decreases |m.Keys|
  {
    if m.Keys != {} {
      var k :| k in m.Keys;
      var rest := m - {k};
      assert rest.Keys == m.Keys - {k};
      MapSize(rest);
      assert m == rest[k := m[k]];
    } else {
      assert m == map[];
    }
  }

  /** Nothing while the tombstones have room, and never more than one. */
  ghost predicate FewDropped(t: Tables, dropped: set<string>) {
    && (forall x, y | x in dropped && y in dropped :: x == y)
    && (|t.graves.keys| < MAX_GRAVES ==> dropped == {})
  }

  /** Writing one tombstone drops the oldest one, if any. */
  lemma TrimDrops(d: Ordered<string>, k: string, v: string, x: string)
    requires OrderedOk(d) && |d.keys| <= MAX_GRAVES && (x in d.values || x == k)
    ensures var more := Put(d, k, v);
            x in Trim(more).values || (|more.keys| > MAX_GRAVES && more.keys != [] && x == more.keys[0])
    ensures |d.keys| < MAX_GRAVES ==> |Put(d, k, v).keys| <= MAX_GRAVES
  {
    PutOk(d, k, v);
    var more := Put(d, k, v);
    if |more.keys| > MAX_GRAVES {
      PopOldestOk(more);
      assert Trim(more) == PopOldest(more);
    }
  }

  lemma BuryDrops(t: Tables, id: string, mark: string)
    requires TablesOk(t)
    ensures FewDropped(t, Dropped(t, Buried(t, id, mark), id))
  {
    forall x | x in Dropped(t, Buried(t, id, mark), id)
      ensures |Put(t.graves, id, mark).keys| > MAX_GRAVES && x == Put(t.graves, id, mark).keys[0] && |t.graves.keys| >= MAX_GRAVES
    {
      TrimDrops(t.graves, id, mark, x);
    }
  }

  lemma EvictDrops(t: Tables, x: string)
    requires TablesOk(t) && t.cache.keys != [] && Remembered(t, x) && !Remembered(Evicted(t), x)
    ensures t.cache.keys[0] in t.cache.values && t.cache.keys[0] in t.marks && |t.graves.keys| >= MAX_GRAVES
    ensures var more := Put(t.graves, t.cache.keys[0], t.marks[t.cache.keys[0]]); |more.keys| > MAX_GRAVES && x == more.keys[0]
  {
    EvictedOk(t);
    var oldest := t.cache.keys[0];
    assert oldest in t.cache.values;
    TrimDrops(t.graves, oldest, t.marks[oldest], x);
  }

  lemma PublishDrops(t: Tables, id: string, mark: string, result: Value)
    requires TablesOk(t)
    ensures FewDropped(t, Dropped(t, Published(t, id, mark, result), id))
  {
    var after := Published(t, id, mark, result);
    if |t.cache.keys| >= MAX_CACHE {
      forall x | x in Dropped(t, after, id) ensures Remembered(t, x) && !Remembered(Evicted(t), x) {}
      forall x, y | x in Dropped(t, after, id) && y in Dropped(t, after, id) ensures x == y {
        EvictDrops(t, x);
        EvictDrops(t, y);
      }
      if x :| x in Dropped(t, after, id) { EvictDrops(t, x); }
    } else {
      assert Dropped(t, after, id) == {};
    }
  }

  lemma StepDrops(s: Server, step: Step)
    requires Inv(s)
    ensures s.lost <= Next(s, step).lost && FewDropped(s.t, Next(s, step).lost - s.lost)
  {
    if step.Publish? && step.h in s.handlers && s.handlers[step.h].pc.Executing? {
      PublishDrops(s.t, s.handlers[step.h].id, s.handlers[step.h].mark, step.result);
    } else if step.Bury? && step.h in s.handlers && s.handlers[step.h].pc.Failing? {
      BuryDrops(s.t, s.handlers[step.h].id, s.handlers[step.h].mark);
    } else {
      assert Next(s, step).lost == s.lost;
    }
  }

  /** Overflow is the only way to be dropped: while the tombstones have room, no step loses an
      id, and one step never loses more than one. */
  lemma LostOnlyByOverflow(steps: seq<Step>, step: Step)
    ensures Serve(steps).lost <= Serve(steps + [step]).lost
    ensures FewDropped(Serve(steps).t, Serve(steps + [step]).lost - Serve(steps).lost)
  {
    assert (steps + [step])[..|steps|] == steps;
    StepDrops(Serve(steps), step);
  }

  // -- who wakes the waiters ---------------------------------------------------------------

  /** Events are numbered once, so the owner of a request is the only one with its event. */
  ghost predicate EventsOk(s: Server) {
    && (forall e | e in s.signalled :: e < s.events)
    && (forall h | h in s.handlers && Owner(s.handlers[h]) :: s.handlers[h].pc.event < s.events && s.handlers[h].pc.event !in s.signalled)
    && (forall g, h | g in s.handlers && h in s.handlers && Owner(s.handlers[g]) && Owner(s.handlers[h])
                      && s.handlers[g].pc.event == s.handlers[h].pc.event :: g == h)
  }

  /** A step moves one thread; an owner keeps its event, a new owner gets a new one, and only
      an owner that leaves sets its own. */
  ghost predicate EventShape(s: Server, next: Server, h: nat) {
    && s.events <= next.events
    && (next.handlers == s.handlers || (h in next.handlers && next.handlers == s.handlers[h := next.handlers[h]]))
    && (h in next.handlers && Owner(next.handlers[h]) ==>
          || (h in s.handlers && Owner(s.handlers[h]) && next.handlers[h].pc.event == s.handlers[h].pc.event && next.signalled == s.signalled)
          || (next.handlers[h].pc.event == s.events && next.events > s.events && next.signalled == s.signalled))
    && (next.signalled == s.signalled ||
        (h in s.handlers && Owner(s.handlers[h]) && h in next.handlers && !Owner(next.handlers[h])
         && next.signalled == s.signalled + {s.handlers[h].pc.event}))
  }

  lemma ArriveShape(s: Server, h: nat)
    requires TablesOk(s.t) && h in s.handlers && s.handlers[h].pc.Arriving?
    ensures EventShape(s, ArriveStep(s, h), h)
  {}

  /** Steps of a thread that keep the events and set none. */
  lemma QuietShape(s: Server, next: Server, h: nat)
    requires h in s.handlers && h in next.handlers && next.handlers == s.handlers[h := next.handlers[h]]
    requires next.events == s.events && next.signalled == s.signalled
    requires Owner(next.handlers[h]) ==> Owner(s.handlers[h]) && next.handlers[h].pc.event == s.handlers[h].pc.event
    ensures EventShape(s, next, h)
  {}

  lemma StepShape(s: Server, step: Step)
    requires TablesOk(s.t)
    ensures EventShape(s, Next(s, step), step.h)
  {
    var h, next := step.h, Next(s, step);
    if h in s.handlers && next != s {
      match step
      case Arrive(_) => ArriveShape(s, h);
      case Publish(_, result) => QuietShape(s, PublishStep(s, h, result), h);
      case Bury(_) => QuietShape(s, BuryStep(s, h), h);
      case Send(_, sent) => QuietShape(s, SendStep(s, h, sent), h);
      case Leave(_) =>
      case _ => QuietShape(s, next, h);
    }
  }

  lemma ShapeKeeps(s: Server, next: Server, h: nat)
    requires EventsOk(s) && EventShape(s, next, h)
    ensures EventsOk(next)
  {}

  lemma {:induction false} EventsServed(steps: seq<Step>)
    ensures EventsOk(Serve(steps))
  {
    if steps != [] {
      var n := |steps| - 1;
      EventsServed(steps[..n]);
      StepShape(Serve(steps[..n]), steps[n]);
      ShapeKeeps(Serve(steps[..n]), Serve(steps), steps[n].h);
    }
  }

  /** The step with which an owner gives up before it has started. */
  predicate GivesUp(s: Server, step: Step, h: nat) {
    step == Abandon(h) && h in s.handlers && s.handlers[h].pc.Owning?
  }

  /** The server after more steps. */
  ghost function Continue(s: Server, steps: seq<Step>): (next: Server)
    requires Inv(s)
    ensures Inv(next)
  {
    if steps == [] then s
    else
      var mid := Continue(s, steps[..|steps| - 1]);
      NextKeeps(mid, steps[|steps| - 1]);
      Next(mid, steps[|steps| - 1])
  }

  lemma {:induction false} ServeContinues(before: seq<Step>, after: seq<Step>)
    ensures Serve(before + after) == Continue(Serve(before), after)
    decreases |after|
  {
    if after == [] {
      assert before + after == before;
    } else {
      var n := |after| - 1;
      assert (before + after)[..|before + after| - 1] == before + after[..n];
      ServeContinues(before, after[..n]);
    }
  }

  /** Somewhere in these steps the owner `h` gave up. */
  ghost predicate GaveUp(s: Server, steps: seq<Step>, h: nat)
    requires Inv(s)
  {
    steps != [] &&
    var n := |steps| - 1;
    GaveUp(s, steps[..n], h) || GivesUp(Continue(s, steps[..n]), steps[n], h)
  }

  /** The event of the owner `h`, from its arrival on: its own while it is an owner, then set
      or, once it gave up, nobody's. */
  ghost predicate Fate(s: Server, h: nat, event: nat, gaveUp: bool) {
    && h in s.handlers && event < s.events
    && if Owner(s.handlers[h]) then s.handlers[h].pc.event == event && !gaveUp
       else s.handlers[h].pc.Done? && (event in s.signalled <==> !gaveUp) && Unowned(s, event)
  }

  ghost predicate Unowned(s: Server, event: nat) {
    forall g | g in s.handlers && Owner(s.handlers[g]) :: s.handlers[g].pc.event != event
  }

  lemma UnownedStays(s: Server, next: Server, h: nat, event: nat)
    requires EventShape(s, next, h) && Unowned(s, event) && event < s.events
    ensures Unowned(next, event) && (event in next.signalled <==> event in s.signalled)
  {}

  /** An owner that leaves sets its event unless it gives up. */
  lemma OwnerLeaves(s: Server, step: Step, h: nat)
    requires TablesOk(s.t) && h in s.handlers && Owner(s.handlers[h]) && step.h == h
    ensures var next := Next(s, step);
      h in next.handlers &&
      if Owner(next.handlers[h]) then next.handlers[h].pc.event == s.handlers[h].pc.event && !GivesUp(s, step, h)
      else next.handlers[h].pc.Done?
           && next.signalled == if GivesUp(s, step, h) then s.signalled else s.signalled + {s.handlers[h].pc.event}
  {}

  lemma OthersStay(s: Server, step: Step, h: nat)
    requires TablesOk(s.t) && h in s.handlers && step.h != h
    ensures h in Next(s, step).handlers && Next(s, step).handlers[h] == s.handlers[h]
  {
    StepShape(s, step);
  }

  lemma DoneStays(s: Server, step: Step, h: nat)
    requires TablesOk(s.t) && h in s.handlers && s.handlers[h].pc.Done?
    ensures h in Next(s, step).handlers && Next(s, step).handlers[h] == s.handlers[h]
  {
    if step.h != h { OthersStay(s, step, h); }
  }

  lemma OwnerGone(s: Server, next: Server, h: nat, event: nat)
    requires EventsOk(s) && EventShape(s, next, h) && h in s.handlers && Owner(s.handlers[h]) && s.handlers[h].pc.event == event
    requires h in next.handlers && !Owner(next.handlers[h])
    ensures Unowned(next, event)
  {}

  lemma FateStep(s: Server, step: Step, h: nat, event: nat, gaveUp: bool)
    requires TablesOk(s.t) && EventsOk(s) && Fate(s, h, event, gaveUp)
    ensures Fate(Next(s, step), h, event, gaveUp || GivesUp(s, step, h))
  {
    StepShape(s, step);
    if !Owner(s.handlers[h]) {
      DoneStays(s, step, h);
      UnownedStays(s, Next(s, step), step.h, event);
    } else if step.h != h {
      OthersStay(s, step, h);
    } else {
      OwnerLeaves(s, step, h);
      if !Owner(Next(s, step).handlers[h]) { OwnerGone(s, Next(s, step), h, event); }
    }
  }

  lemma {:induction false} EventsContinue(s: Server, steps: seq<Step>)
    requires Inv(s) && EventsOk(s)
    ensures EventsOk(Continue(s, steps))
  {
    if steps != [] {
      var n := |steps| - 1;
      EventsContinue(s, steps[..n]);
      StepShape(Continue(s, steps[..n]), steps[n]);
      ShapeKeeps(Continue(s, steps[..n]), Continue(s, steps), steps[n].h);
    }
  }

  lemma {:induction false} FateContinues(s: Server, steps: seq<Step>, h: nat)
    requires Inv(s) && EventsOk(s) && h in s.handlers && Owner(s.handlers[h])
    ensures Fate(Continue(s, steps), h, s.handlers[h].pc.event, GaveUp(s, steps, h))
  {
    if steps != [] {
      var n := |steps| - 1;
      FateContinues(s, steps[..n], h);
      EventsContinue(s, steps[..n]);
      FateStep(Continue(s, steps[..n]), steps[n], h, s.handlers[h].pc.event, GaveUp(s, steps[..n], h));
    }
  }

  predicate Waits(s: Server, g: nat, event: nat) { g in s.handlers && s.handlers[g].pc == Waiting(event) }

  predicate CanWake(s: Server, g: nat)
    requires TablesOk(s.t)
  {
    Next(s, Wake(g)).handlers != s.handlers
  }

  lemma WakesOnSignal(s: Server, g: nat, event: nat)
    requires TablesOk(s.t) && Waits(s, g, event)
    ensures CanWake(s, g) <==> event in s.signalled
  {
    if event in s.signalled { assert !Next(s, Wake(g)).handlers[g].pc.Waiting?; }
  }

  /** Once the owner of an event has left, whoever waits on that event can wake up if and only
      if the owner did not give up before its start: the early exits (lease cancelled or
      expired) remove the in-flight entry without setting the event. */
  lemma WaitersWakeExactly(before: seq<Step>, after: seq<Step>, h: nat, g: nat, event: nat)
    requires h in Serve(before).handlers && Owner(Serve(before).handlers[h]) && Serve(before).handlers[h].pc.event == event
    requires h in Serve(before + after).handlers && !Owner(Serve(before + after).handlers[h])
    requires Waits(Serve(before + after), g, event)
    ensures CanWake(Serve(before + after), g) <==> !GaveUp(Serve(before), after, h)
  {
    EventsServed(before);
    ServeContinues(before, after);
    FateContinues(Serve(before), after, h);
    WakesOnSignal(Serve(before + after), g, event);
  }

  lemma WaiterMoves(s: Server, step: Step, g: nat, event: nat)
    requires TablesOk(s.t) && event !in s.signalled && g in s.handlers && s.handlers[g].pc in {Waiting(event), Done}
    ensures g in Next(s, step).handlers && Next(s, step).handlers[g].pc in {Waiting(event), Done}
  {
    if step.h != g { OthersStay(s, step, g); }
  }

  lemma {:induction false} StaysGivenUp(s: Server, event: nat, g: nat, more: seq<Step>)
    requires Inv(s) && EventsOk(s) && event < s.events && event !in s.signalled && Unowned(s, event) && Waits(s, g, event)
    ensures var next := Continue(s, more);
      && event < next.events && event !in next.signalled && Unowned(next, event)
      && g in next.handlers && next.handlers[g].pc in {Waiting(event), Done}
  {
    if more != [] {
      var n := |more| - 1;
      StaysGivenUp(s, event, g, more[..n]);
      var mid := Continue(s, more[..n]);
      StepShape(mid, more[n]);
      UnownedStays(mid, Continue(s, more), more[n].h, event);
      WaiterMoves(mid, more[n], g, event);
    }
  }

  /** After the owner gave up, a waiter stays where it is until it times out, whatever else
      happens. */
  lemma AbandonedWaitersOnlyTimeOut(before: seq<Step>, after: seq<Step>, more: seq<Step>, h: nat, g: nat, event: nat)
    requires h in Serve(before).handlers && Owner(Serve(before).handlers[h]) && Serve(before).handlers[h].pc.event == event
    requires GaveUp(Serve(before), after, h) && Waits(Serve(before + after), g, event)
    ensures g in Serve(before + after + more).handlers
    ensures Serve(before + after + more).handlers[g].pc in {Waiting(event), Done}
  {
    EventsServed(before);
    EventsServed(before + after);
    ServeContinues(before, after);
    FateContinues(Serve(before), after, h);
    StaysGivenUp(Serve(before + after), event, g, more);
    ServeContinues(before + after, more);
  }

  lemma ServeSnoc(steps: seq<Step>, step: Step)
    ensures Serve(steps + [step]) == Next(Serve(steps), step)
  {
    assert (steps + [step])[..|steps|] == steps;
  }

  const ARRIVED := Server(
    Tables(Ordered([], map[]), map[], Ordered([], map[]), map["r" := 0], map["r" := "m"]),
    map[0 := Handler("r", "m", Owning(0))], 1, {}, [], [], map[], {})

  const FIRST_ARRIVAL := [] + [NewRequest(0, "r", "m")] + [Arrive(0)]
  const SECOND_ARRIVAL := FIRST_ARRIVAL + [NewRequest(1, "r", "m")] + [Arrive(1)]

  lemma FirstOwns(s: Server)
    requires s == BOOT
    ensures Next(Next(s, NewRequest(0, "r", "m")), Arrive(0)) == ARRIVED
  {
    var next := Next(s, NewRequest(0, "r", "m"));
    assert next == s.(handlers := map[0 := Handler("r", "m", Arriving)]);
    assert Admit(next.t, "r", "m", 0) == Own(0);
    assert map[0 := Handler("r", "m", Arriving)][0 := Handler("r", "m", Owning(0))] == ARRIVED.handlers;
  }

  lemma FirstArrives()
    ensures Serve(FIRST_ARRIVAL) == ARRIVED
  {
    ServeSnoc([], NewRequest(0, "r", "m"));
    ServeSnoc([] + [NewRequest(0, "r", "m")], Arrive(0));
    FirstOwns(Serve([]));
  }

  lemma SecondArrives(s: Server)
    requires s == ARRIVED
    ensures Next(Next(s, NewRequest(1, "r", "m")), Arrive(1)) ==
      s.(handlers := s.handlers[1 := Handler("r", "m", Waiting(0))], events := 2)
  {
    var next := Next(s, NewRequest(1, "r", "m"));
    assert next == s.(handlers := s.handlers[1 := Handler("r", "m", Arriving)]);
    assert next.handlers[1 := Handler("r", "m", Waiting(0))] == s.handlers[1 := Handler("r", "m", Waiting(0))];
  }

  lemma SecondWaits()
    ensures Serve(SECOND_ARRIVAL) == ARRIVED.(handlers := ARRIVED.handlers[1 := Handler("r", "m", Waiting(0))], events := 2)
  {
    FirstArrives();
    ServeSnoc(FIRST_ARRIVAL, NewRequest(1, "r", "m"));
    ServeSnoc(FIRST_ARRIVAL + [NewRequest(1, "r", "m")], Arrive(1));
    SecondArrives(Serve(FIRST_ARRIVAL));
  }

  /** Two requests with one id: the first gives up, the second waits in vain. */
  lemma AbandonedWaiter()
    ensures var s := Serve(SECOND_ARRIVAL + [Abandon(0)]);
      0 in s.handlers && s.handlers[0].pc == Done && Waits(s, 1, 0) && !CanWake(s, 1)
  {
    SecondWaits();
    ServeSnoc(SECOND_ARRIVAL, Abandon(0));
    WakesOnSignal(Serve(SECOND_ARRIVAL + [Abandon(0)]), 1, 0);
  }
}
