/** Erasure requests: cooling-off, cancellation, and the transaction that claims and scrubs. */
module Privacy {
  import opened Options

  datatype Status = Grace | Cancelled | Anonymized

  datatype Request = Request(user: nat, status: Status, executeAfter: int)

  const GRACE_MS := 30 * 24 * 3600 * 1000

  type Requests = map<nat, Request>

  predicate InGrace(requests: Requests, id: nat, user: nat)
  {
    id in requests && requests[id].user == user && requests[id].status.Grace?
  }

  function GraceOf(requests: Requests, user: nat): set<nat>
  {
    set id | id in requests && InGrace(requests, id, user)
  }

  /** The claim: every in-grace request of the user, due or not. */
  function Claim(requests: Requests, ids: set<nat>): Requests
  {
    map id | id in requests :: if id in ids then requests[id].(status := Anonymized) else requests[id]
  }

  datatype Reason = Scrubbed | UserNotFound | DryRun | NoActiveRequest

  /** The user's data: identity, sessions and newsletter, which an erasure removes together. */
  datatype Person = Person(identity: bool, sessions: bool, subscribed: bool)

  function Erased(): Person { Person(false, false, false) }

  class PrivacyService {
    var requests: Requests
    var people: map<nat, Person>

    constructor ()
      ensures requests == map[] && people == map[]
    {
      requests, people := map[], map[];
    }

    /** Returns an active request rather than adding another; the clock starts at once. */
    method RequestDeletion(user: nat, id: nat, now: int) returns (r: nat)
      requires id !in requests
      modifies this`requests
      ensures InGrace(requests, r, user)
      ensures (forall i | i in old(requests) :: old(requests)[i].user != user || old(requests)[i].status != Grace) ==>
                r == id && requests == old(requests)[id := Request(user, Grace, now + 30 * 86_400_000)]
      ensures requests == if GraceOf(old(requests), user) != {} then old(requests)
                          else old(requests)[id := Request(user, Grace, now + GRACE_MS)]
      ensures GraceOf(requests, user) == if GraceOf(old(requests), user) != {} then GraceOf(old(requests), user)
                                          else {id}
    {
      var active := GraceOf(requests, user);
      if active != {} {
        r :| r in active;
        return r;
      }
      requests := requests[id := Request(user, Grace, now + GRACE_MS)];
      r := id;
    }

    /** The conditional cancel of a request read earlier; only a request still in grace yields.
        It takes that one request out of grace and leaves the user any other. */
    method CancelDeletion(active: nat) returns (cancelled: bool)
      requires active in requests
      modifies this`requests
      ensures cancelled <==> InGrace(old(requests), active, old(requests)[active].user)
      ensures !cancelled ==> requests == old(requests)
      ensures cancelled ==> requests == old(requests)[active := old(requests)[active].(status := Cancelled)]
      ensures forall user :: GraceOf(requests, user) == GraceOf(old(requests), user) - {active}
    {
      cancelled := requests[active].status.Grace?;
      if cancelled {
        requests := requests[active := requests[active].(status := Cancelled)];
      }
    }

    /** One transaction: claim, then scrub. A failure in any part restores everything. */
    method AnonymizeUser(user: nat, dryRun: bool, failsAt: Option<nat>) returns (reason: Reason, threw: bool)
      modifies this
      ensures threw <==> user in old(people) && !dryRun && GraceOf(old(requests), user) != {}
                         && failsAt.Some? && failsAt.value < 3
      ensures reason.Scrubbed? <==> !threw && user in old(people) && !dryRun && GraceOf(old(requests), user) != {}
      ensures requests == if reason.Scrubbed? then Claim(old(requests), GraceOf(old(requests), user)) else old(requests)
      ensures people == if reason.Scrubbed? then old(people)[user := Erased()] else old(people)
      ensures reason.Scrubbed? ==>
                && people[user] == Person(false, false, false)
                && requests.Keys == old(requests).Keys
                && forall id | id in requests ::
                     var was := old(requests)[id];
                     requests[id] == if was.user == user && was.status == Grace then was.(status := Anonymized) else was
    {
      threw := false;
      if user !in people { return UserNotFound, false; }
      if dryRun { return DryRun, false; }
      var savedRequests, savedPeople := requests, people;
      var claimed := GraceOf(requests, user);
      requests := Claim(requests, claimed);
      if |claimed| == 0 {
        assert requests == savedRequests;
        return NoActiveRequest, false;
      }
      var step := 0;
      while step < 3
        invariant 0 <= step <= 3
        invariant requests == Claim(savedRequests, claimed)
        invariant people == savedPeople[user := Person(savedPeople[user].identity && step < 2,
                                                       savedPeople[user].sessions && step < 3,
                                                       savedPeople[user].subscribed && step < 1)]
        invariant failsAt.Some? ==> failsAt.value >= step
      {
        if failsAt == Some(step) {
          requests, people := savedRequests, savedPeople;
          return NoActiveRequest, true;
        }
        var person := people[user];
        person := if step == 0 then person.(subscribed := false)
                  else if step == 1 then person.(identity := false)
                  else person.(sessions := false);
        people := people[user := person];
        step := step + 1;
      }
      reason := Scrubbed;
    }
  }

  // ---- interleavings ------------------------------------------------------------

  /** An operation between its read and its write. */
  datatype Op = Asking(user: nat) | Cancelling(id: nat)

  /** An open erasure transaction: it holds the rows it claimed, and its writes are not visible
      until it commits. */
  datatype Tx = Tx(user: nat, claimed: set<nat>, done: nat)

  /** A due list entry names a request that a cron has read as due and not yet acted on. The
      last two are history: requests reported cancelled, and requests executed. */
  datatype State = State(now: int, requests: Requests, erased: set<nat>, ops: map<nat, Op>, listed: map<nat, nat>,
                         txs: map<nat, Tx>, reported: set<nat>, executed: set<nat>)

  datatype Step =
    | Tick(ms: nat)
    | AskRead(op: nat, user: nat)
    | AskWrite(op: nat, id: nat)
    | CancelRead(op: nat, user: nat, id: nat)
    | CancelWrite(op: nat)
    | ListDue(entry: nat, id: nat)
    | Begin(tx: nat, entry: nat)
    | Scrub(tx: nat)
    | Commit(tx: nat)
    | Rollback(tx: nat)

  predicate Locked(s: State, id: nat)
  {
    exists tx | tx in s.txs :: id in s.txs[tx].claimed
  }

  predicate IsDue(s: State, id: nat)
  {
    id in s.requests && s.requests[id].executeAfter <= s.now
  }

  predicate CanStep(s: State, step: Step)
  {
    match step
    case Tick(_) => true
    case AskRead(op, user) => op !in s.ops && GraceOf(s.requests, user) == {}
    case AskWrite(op, id) => op in s.ops && s.ops[op].Asking? && id !in s.requests
    case CancelRead(op, user, id) =>
      && op !in s.ops && id in GraceOf(s.requests, user)
      && forall other | other in GraceOf(s.requests, user) :: other <= id
    case CancelWrite(op) =>
      op in s.ops && s.ops[op].Cancelling? && s.ops[op].id in s.requests && !Locked(s, s.ops[op].id)
    case ListDue(entry, id) => entry !in s.listed && IsDue(s, id) && s.requests[id].status.Grace?
    case Begin(tx, entry) =>
      && tx !in s.txs && entry in s.listed && s.listed[entry] in s.requests
      && forall id | id in GraceOf(s.requests, s.requests[s.listed[entry]].user) :: !Locked(s, id)
    case Scrub(tx) => tx in s.txs && s.txs[tx].claimed != {} && s.txs[tx].done < 3
    case Commit(tx) => tx in s.txs && (s.txs[tx].claimed == {} || s.txs[tx].done == 3)
    case Rollback(tx) => tx in s.txs
  }

  function Take(s: State, step: Step): State
    requires CanStep(s, step)
  {
    match step
    case Tick(ms) => s.(now := s.now + ms)
    case AskRead(op, user) => s.(ops := s.ops[op := Asking(user)])
    case AskWrite(op, id) =>
      s.(ops := s.ops - {op}, requests := s.requests[id := Request(s.ops[op].user, Grace, s.now + GRACE_MS)])
    case CancelRead(op, user, id) => s.(ops := s.ops[op := Cancelling(id)])
    case CancelWrite(op) =>
      var id := s.ops[op].id;
      var done := s.(ops := s.ops - {op});
      if !s.requests[id].status.Grace? then done
      else done.(requests := s.requests[id := s.requests[id].(status := Cancelled)], reported := s.reported + {id})
    case ListDue(entry, id) => s.(listed := s.listed[entry := id])
    case Begin(tx, entry) =>
      var user := s.requests[s.listed[entry]].user;
      s.(listed := s.listed - {entry}, txs := s.txs[tx := Tx(user, GraceOf(s.requests, user), 0)])
    case Scrub(tx) => s.(txs := s.txs[tx := s.txs[tx].(done := s.txs[tx].done + 1)])
    case Commit(tx) =>
      var t := s.txs[tx];
      s.(txs := s.txs - {tx}, requests := Claim(s.requests, t.claimed),
         erased := if t.claimed == {} then s.erased else s.erased + {t.user}, executed := s.executed + t.claimed)
    case Rollback(tx) => s.(txs := s.txs - {tx})
  }

  function Initial(now: int): State { State(now, map[], {}, map[], map[], map[], {}, {}) }

  predicate CanRun(s: State, steps: seq<Step>)
    decreases |steps|, 0
  {
    steps == [] || (CanRun(s, steps[..|steps| - 1]) && CanStep(After(s, steps[..|steps| - 1]), steps[|steps| - 1]))
  }

  function After(s: State, steps: seq<Step>): State
    requires CanRun(s, steps)
    decreases |steps|, 1
  {
    if steps == [] then s else Take(After(s, steps[..|steps| - 1]), steps[|steps| - 1])
  }

  ghost predicate GoodTx(s: State, t: Tx)
  {
    forall id | id in t.claimed :: InGrace(s.requests, id, t.user)
  }

  /** Whoever is erased was erased by a request that is ANONYMIZED, and conversely; a request
      reported cancelled is CANCELLED, and only those are. */
  ghost predicate Sound(s: State)
  {
    && (forall tx | tx in s.txs :: GoodTx(s, s.txs[tx]))
    && (forall a, b | a in s.txs && b in s.txs && a != b :: s.txs[a].claimed !! s.txs[b].claimed)
    && (forall id :: id in s.executed <==> id in s.requests && s.requests[id].status.Anonymized?)
    && (forall id :: id in s.reported <==> id in s.requests && s.requests[id].status.Cancelled?)
    && (forall id | id in s.executed :: s.requests[id].user in s.erased)
    && (forall u | u in s.erased :: exists id | id in s.executed :: s.requests[id].user == u)
  }

  /** A final request keeps its status, and every request its user and date. */
  ghost predicate Settled(was: Requests, now: Requests)
  {
    forall id | id in was ::
      && id in now && now[id].user == was[id].user && now[id].executeAfter == was[id].executeAfter
      && (!was[id].status.Grace? ==> now[id] == was[id])
  }

  lemma {:induction false} CommitSound(s: State, tx: nat)
    requires Sound(s) && CanStep(s, Commit(tx))
    ensures Sound(Take(s, Commit(tx))) && Settled(s.requests, Take(s, Commit(tx)).requests)
  {
    var claim, t := s.txs[tx], Take(s, Commit(tx));
    assert GoodTx(s, claim);
    forall other | other in t.txs ensures GoodTx(t, t.txs[other]) {
      assert GoodTx(s, s.txs[other]) && s.txs[other].claimed !! claim.claimed;
    }
    forall u | u in t.erased ensures exists id | id in t.executed :: t.requests[id].user == u {
      if u in s.erased {
        var id :| id in s.executed && s.requests[id].user == u;
        assert id in t.executed;
      } else {
        var id :| id in claim.claimed;
        assert id in t.executed;
      }
    }
  }

  lemma {:induction false} CancelSound(s: State, op: nat)
    requires Sound(s) && CanStep(s, CancelWrite(op))
    ensures Sound(Take(s, CancelWrite(op))) && Settled(s.requests, Take(s, CancelWrite(op)).requests)
  {
    var t := Take(s, CancelWrite(op));
    forall tx | tx in t.txs ensures GoodTx(t, t.txs[tx]) {
      assert GoodTx(s, s.txs[tx]) && s.ops[op].id !in s.txs[tx].claimed;
    }
    WitnessesStay(s, t);
  }

  lemma {:induction false} WitnessesStay(s: State, t: State)
    requires Sound(s) && t.erased == s.erased && s.executed <= t.executed
    requires forall id | id in s.executed :: id in t.requests && t.requests[id].user == s.requests[id].user
    ensures forall u | u in t.erased :: exists id | id in t.executed :: id in t.requests && t.requests[id].user == u
  {
    forall u | u in t.erased ensures exists id | id in t.executed :: id in t.requests && t.requests[id].user == u {
      var id :| id in s.executed && s.requests[id].user == u;
      assert id in t.executed;
    }
  }

  lemma {:induction false} AskSound(s: State, op: nat, id: nat)
    requires Sound(s) && CanStep(s, AskWrite(op, id))
    ensures Sound(Take(s, AskWrite(op, id))) && Settled(s.requests, Take(s, AskWrite(op, id)).requests)
  {
    var t := Take(s, AskWrite(op, id));
    forall tx | tx in t.txs ensures GoodTx(t, t.txs[tx]) { assert GoodTx(s, s.txs[tx]); }
    WitnessesStay(s, t);
  }

  lemma {:induction false} BeginSound(s: State, tx: nat, entry: nat)
    requires Sound(s) && CanStep(s, Begin(tx, entry))
    ensures Sound(Take(s, Begin(tx, entry)))
  {
    var t := Take(s, Begin(tx, entry));
    forall other | other in t.txs ensures GoodTx(t, t.txs[other]) {
      assert other != tx ==> GoodTx(s, s.txs[other]);
    }
    forall other | other in s.txs ensures s.txs[other].claimed !! t.txs[tx].claimed {
      forall id | id in t.txs[tx].claimed ensures id !in s.txs[other].claimed { assert !Locked(s, id); }
    }
  }

  lemma {:induction false} SoundStep(s: State, step: Step)
    requires Sound(s) && CanStep(s, step)
    ensures Sound(Take(s, step)) && Settled(s.requests, Take(s, step).requests)
  {
    match step {
      case Commit(tx) => CommitSound(s, tx);
      case CancelWrite(op) => CancelSound(s, op);
      case AskWrite(op, id) => AskSound(s, op, id);
      case Begin(tx, entry) => BeginSound(s, tx, entry);
      case _ =>
        var t := Take(s, step);
        forall tx | tx in t.txs ensures GoodTx(t, t.txs[tx]) { assert GoodTx(s, s.txs[tx]); }
    }
  }

  // ---- nobody is erased before something of theirs was due ----------------------

  /** Some request of the user has come due. */
  ghost predicate HasDue(s: State, user: nat)
  {
    exists id | id in s.requests && s.requests[id].executeAfter <= s.now :: s.requests[id].user == user
  }

  ghost predicate OnlyListed(s: State)
  {
    && (forall entry | entry in s.listed :: IsDue(s, s.listed[entry]))
    && (forall tx | tx in s.txs :: HasDue(s, s.txs[tx].user))
    && (forall user | user in s.erased :: HasDue(s, user))
  }

  lemma {:induction false} DueStays(s: State, t: State, user: nat)
    requires HasDue(s, user) && Settled(s.requests, t.requests) && s.now <= t.now
    ensures HasDue(t, user)
  {
    var id :| id in s.requests && s.requests[id].executeAfter <= s.now && s.requests[id].user == user;
    assert id in t.requests && t.requests[id].executeAfter <= t.now;
  }

  lemma {:induction false} OnlyListedStep(s: State, step: Step)
    requires Sound(s) && OnlyListed(s) && CanStep(s, step)
    ensures OnlyListed(Take(s, step))
  {
    var t := Take(s, step);
    SoundStep(s, step);
    assert s.now <= t.now;
    forall user | HasDue(s, user) ensures HasDue(t, user) { DueStays(s, t, user); }
    if step.Begin? {
      assert IsDue(s, s.listed[step.entry]);
      assert HasDue(s, t.txs[step.tx].user);
    }
  }

  lemma {:induction false} RunSound(s: State, steps: seq<Step>)
    requires Sound(s) && OnlyListed(s) && CanRun(s, steps)
    ensures Sound(After(s, steps)) && OnlyListed(After(s, steps)) && Settled(s.requests, After(s, steps).requests)
  {
    if steps != [] {
      var before := After(s, steps[..|steps| - 1]);
      RunSound(s, steps[..|steps| - 1]);
      SoundStep(before, steps[|steps| - 1]);
      OnlyListedStep(before, steps[|steps| - 1]);
      SettledTrans(s.requests, before.requests, After(s, steps).requests);
    }
  }

  lemma {:induction false} SettledTrans(a: Requests, b: Requests, c: Requests)
    requires Settled(a, b) && Settled(b, c)
    ensures Settled(a, c)
  {
  }

  /** Every interleaving: CANCELLED and ANONYMIZED are final, a request reported cancelled is
      never executed, a person is erased exactly if one of their requests was executed, and then
      only after one of their requests had come due. */
  lemma {:induction false} EveryRunSound(now: int, steps: seq<Step>, more: seq<Step>, id: nat)
    requires CanRun(Initial(now), steps) && CanRun(After(Initial(now), steps), more)
    ensures var s := After(Initial(now), steps);
            var t := After(s, more);
            && Sound(s) && Sound(t) && Settled(s.requests, t.requests)
            && (id in s.reported ==> id !in t.executed)
            && (forall u :: u in t.erased <==> exists r | r in t.executed :: t.requests[r].user == u)
            && forall u | u in t.erased :: HasDue(t, u)
  {
    RunSound(Initial(now), steps);
    RunSound(After(Initial(now), steps), more);
  }

  // ---- when a claim is early ------------------------------------------------------

  ghost predicate IsEarly(s: State, claimed: set<nat>)
  {
    exists id | id in claimed :: !IsDue(s, id)
  }

  /** The claim is by user and does not look at dates. When it takes a request that is not due, the
      listed request has left grace since it was read, or the user has two in grace; the request
      it takes early is then never the listed one. */
  lemma {:induction false} EarlyClaim(now: int, steps: seq<Step>, tx: nat, entry: nat)
    requires CanRun(Initial(now), steps) && CanStep(After(Initial(now), steps), Begin(tx, entry))
    ensures var s := After(Initial(now), steps);
            var listed := s.listed[entry];
            var user := s.requests[listed].user;
            var claimed := Take(s, Begin(tx, entry)).txs[tx].claimed;
            && (IsEarly(s, claimed) ==> !s.requests[listed].status.Grace? || |GraceOf(s.requests, user)| > 1)
            && (IsEarly(s, claimed) <==> exists id | InGrace(s.requests, id, user) && id != listed :: !IsDue(s, id))
            && (claimed == {listed} ==> !IsEarly(s, claimed))
  {
    var s := After(Initial(now), steps);
    RunSound(Initial(now), steps);
    var listed := s.listed[entry];
    var user := s.requests[listed].user;
    var claimed := GraceOf(s.requests, user);
    assert IsDue(s, listed);
    if IsEarly(s, claimed) {
      var id :| id in claimed && !IsDue(s, id);
      assert InGrace(s.requests, id, user) && id != listed;
      if s.requests[listed].status.Grace? { TwoIn(claimed, listed, id); }
    }
    if id :| InGrace(s.requests, id, user) && id != listed && !IsDue(s, id) {
      assert id in claimed;
    }
  }

  lemma {:induction false} TwoIn(ids: set<nat>, a: nat, b: nat)
    requires a in ids && b in ids && a != b
    ensures |ids| > 1
  {
    assert {a, b} <= ids;
    var rest := ids - {a};
    assert b in rest && |rest| == |ids| - 1;
  }

  /** Steps that open no request beside one in grace: a write of an ask finds the user without
      any, as its read did. */
  ghost predicate AskedAlone(s: State, step: Step)
    requires CanStep(s, step)
  {
    step.AskWrite? ==> GraceOf(s.requests, s.ops[step.op].user) == {}
  }

  ghost predicate AtMostOne(requests: Requests)
  {
    forall user, a, b | InGrace(requests, a, user) && InGrace(requests, b, user) :: a == b
  }

  /** A step gives a user a second request in grace exactly when it writes an ask that another
      one has overtaken. */
  lemma {:induction false} SecondInGrace(s: State, step: Step)
    requires Sound(s) && CanStep(s, step) && AtMostOne(s.requests)
    ensures AtMostOne(Take(s, step).requests) <==> AskedAlone(s, step)
  {
    var t := Take(s, step);
    match step {
      case AskWrite(op, id) =>
        var user := s.ops[op].user;
        assert InGrace(t.requests, id, user);
        forall a, u | InGrace(t.requests, a, u) ensures a == id || InGrace(s.requests, a, u) {
        }
        if GraceOf(s.requests, user) != {} {
          var a :| a in GraceOf(s.requests, user);
          assert InGrace(t.requests, a, user) && a != id;
        } else {
          forall a | InGrace(t.requests, a, user) ensures a == id {
            assert a != id ==> a in GraceOf(s.requests, user);
          }
        }
      case _ =>
        forall a, u | InGrace(t.requests, a, u) ensures InGrace(s.requests, a, u) {
        }
    }
  }

  ghost predicate AllAskedAlone(s: State, steps: seq<Step>)
    requires CanRun(s, steps)
  {
    steps == [] || (AllAskedAlone(s, steps[..|steps| - 1])
                    && AskedAlone(After(s, steps[..|steps| - 1]), steps[|steps| - 1]))
  }

  /** In a run whose asks never overtake each other nobody has two requests in grace. */
  lemma {:induction false} AloneMeansOne(now: int, steps: seq<Step>)
    requires CanRun(Initial(now), steps) && AllAskedAlone(Initial(now), steps)
    ensures AtMostOne(After(Initial(now), steps).requests)
  {
    if steps != [] {
      AloneMeansOne(now, steps[..|steps| - 1]);
      RunSound(Initial(now), steps[..|steps| - 1]);
      SecondInGrace(After(Initial(now), steps[..|steps| - 1]), steps[|steps| - 1]);
    }
  }

  /** So there a claim is early only if the listed request left grace after it was read. */
  lemma {:induction false} AloneClaim(now: int, steps: seq<Step>, tx: nat, entry: nat)
    requires CanRun(Initial(now), steps) && CanStep(After(Initial(now), steps), Begin(tx, entry))
    requires AllAskedAlone(Initial(now), steps)
    ensures var s := After(Initial(now), steps);
            var claimed := Take(s, Begin(tx, entry)).txs[tx].claimed;
            && (s.requests[s.listed[entry]].status.Grace? ==> claimed == {s.listed[entry]})
            && (IsEarly(s, claimed) ==> !s.requests[s.listed[entry]].status.Grace?)
  {
    var s := After(Initial(now), steps);
    var listed := s.listed[entry];
    EarlyClaim(now, steps, tx, entry);
    AloneMeansOne(now, steps);
    if s.requests[listed].status.Grace? {
      forall id | id in GraceOf(s.requests, s.requests[listed].user) ensures id == listed {
        assert InGrace(s.requests, listed, s.requests[listed].user);
      }
    }
  }

  // ---- when a cancel leaves another request -----------------------------------------

  /** A cancel that is reported takes exactly its request out of grace, so it leaves the user
      another one exactly when there were two at that moment; without overtaking asks there
      never are. */
  lemma {:induction false} CancelLeavesAnother(now: int, steps: seq<Step>, op: nat)
    requires CanRun(Initial(now), steps) && CanStep(After(Initial(now), steps), CancelWrite(op))
    requires After(Initial(now), steps).requests[After(Initial(now), steps).ops[op].id].status.Grace?
    ensures var s := After(Initial(now), steps);
            var t := Take(s, CancelWrite(op));
            var id := s.ops[op].id;
            var user := s.requests[id].user;
            && id in t.reported && GraceOf(t.requests, user) == GraceOf(s.requests, user) - {id}
            && (GraceOf(t.requests, user) != {} <==> |GraceOf(s.requests, user)| > 1)
            && (AllAskedAlone(Initial(now), steps) ==> GraceOf(t.requests, user) == {})
  {
    var s := After(Initial(now), steps);
    var t := Take(s, CancelWrite(op));
    var id := s.ops[op].id;
    var user := s.requests[id].user;
    var before := GraceOf(s.requests, user);
    assert id in before && GraceOf(t.requests, user) == before - {id};
    assert |before - {id}| == |before| - 1;
    if AllAskedAlone(Initial(now), steps) {
      AloneMeansOne(now, steps);
      forall other | other in before ensures other == id {
        assert InGrace(s.requests, other, user) && InGrace(s.requests, id, user);
      }
    }
  }

  // ---- runs in which it happens -----------------------------------------------------

  /** Two racing asks; cancelling the later one leaves the earlier in grace, though its owner was
      told of a cancellation. */
  lemma {:induction false} RacingAsksOutliveCancel(now: int, user: nat) returns (steps: seq<Step>)
    ensures CanRun(Initial(now), steps)
    ensures After(Initial(now), steps).reported == {1}
    ensures GraceOf(After(Initial(now), steps).requests, user) == {0}
  {
    var r := Request(user, Grace, now + GRACE_MS);
    var cancel := Cancelling(1);
    steps := TwoAsks(now, user);
    assert GraceOf(map[0 := r, 1 := r], user) == {0, 1};
    steps := Reach(now, steps, CancelRead(0, user, 1), Plain(now, map[0 := r, 1 := r], map[0 := cancel]));
    var left := map[0 := r, 1 := r.(status := Cancelled)];
    steps := Reach(now, steps, CancelWrite(0), Plain(now, left, map[]).(reported := {1}));
    assert GraceOf(left, user) == {0};
  }

  lemma {:induction false} TwoAsks(now: int, user: nat) returns (steps: seq<Step>)
    ensures CanRun(Initial(now), steps)
    ensures var r := Request(user, Grace, now + GRACE_MS);
            After(Initial(now), steps) == Plain(now, map[0 := r, 1 := r], map[])
  {
    var r := Request(user, Grace, now + GRACE_MS);
    var ask := Asking(user);
    steps := [];
    steps := Reach(now, steps, AskRead(0, user), Plain(now, map[], map[0 := ask]));
    steps := Reach(now, steps, AskRead(1, user), Plain(now, map[], map[0 := ask, 1 := ask]));
    steps := Reach(now, steps, AskWrite(0, 0), Plain(now, map[0 := r], map[1 := ask]));
    steps := Reach(now, steps, AskWrite(1, 1), Plain(now, map[0 := r, 1 := r], map[]));
  }

  /** A state without open transactions or lists. */
  function Plain(now: int, requests: Requests, ops: map<nat, Op>): State
  {
    State(now, requests, {}, ops, map[], map[], {}, {})
  }

  lemma {:induction false} DueAndListed(now: int, user: nat) returns (steps: seq<Step>)
    ensures CanRun(Initial(now), steps)
    ensures var r := Request(user, Grace, now + GRACE_MS);
            After(Initial(now), steps) == Plain(now + GRACE_MS, map[0 := r], map[]).(listed := map[0 := 0])
  {
    var r := Request(user, Grace, now + GRACE_MS);
    steps := [];
    steps := Reach(now, steps, AskRead(0, user), Plain(now, map[], map[0 := Asking(user)]));
    steps := Reach(now, steps, AskWrite(0, 0), Plain(now, map[0 := r], map[]));
    steps := Reach(now, steps, Tick(GRACE_MS), Plain(now + GRACE_MS, map[0 := r], map[]));
    steps := Reach(now, steps, ListDue(0, 0), Plain(now + GRACE_MS, map[0 := r], map[]).(listed := map[0 := 0]));
  }

  lemma {:induction false} ListedAndCancelled(now: int, user: nat) returns (steps: seq<Step>)
    ensures CanRun(Initial(now), steps)
    ensures After(Initial(now), steps)
            == Plain(now + GRACE_MS, map[0 := Request(user, Cancelled, now + GRACE_MS)], map[])
               .(listed := map[0 := 0], reported := {0})
  {
    steps := DueAndListed(now, user);
    var later, list := now + GRACE_MS, map[0 := 0];
    var r := Request(user, Grace, later);
    steps := Reach(now, steps, CancelRead(0, user, 0),
                   Plain(later, map[0 := r], map[0 := Cancelling(0)]).(listed := list));
    var left := Plain(later, map[0 := Request(user, Cancelled, later)], map[]).(listed := list, reported := {0});
    steps := Reach(now, steps, CancelWrite(0), left);
  }

  /** A user listed as due who cancels and asks again before the cron reaches them: the claim
      finds the new request, whose cooling-off has only begun. */
  lemma {:induction false} AskAgainIsErasedEarly(now: int, user: nat) returns (steps: seq<Step>)
    ensures CanRun(Initial(now), steps) && 1 in After(Initial(now), steps).requests
    ensures var s := After(Initial(now), steps);
            && CanStep(s, Begin(0, 0)) && Take(s, Begin(0, 0)).txs[0].claimed == {1}
            && s.requests[1].executeAfter == s.now + GRACE_MS && IsEarly(s, {1})
  {
    steps := ListedAndCancelled(now, user);
    var later := now + GRACE_MS;
    var gone, again := Request(user, Cancelled, later), Request(user, Grace, later + GRACE_MS);
    var left := Plain(later, map[0 := gone], map[]).(listed := map[0 := 0], reported := {0});
    steps := Reach(now, steps, AskRead(0, user), left.(ops := map[0 := Asking(user)]));
    var asked := left.(requests := map[0 := gone, 1 := again]);
    steps := Reach(now, steps, AskWrite(0, 1), asked);
    assert GraceOf(asked.requests, user) == {1};
  }

  lemma {:induction false} Reach(now: int, steps: seq<Step>, step: Step, t: State) returns (more: seq<Step>)
    requires CanRun(Initial(now), steps) && CanStep(After(Initial(now), steps), step)
    requires Take(After(Initial(now), steps), step) == t
    ensures more == steps + [step] && CanRun(Initial(now), more) && After(Initial(now), more) == t
  {
    more := steps + [step];
    assert more[..|steps|] == steps;
  }
}
