/** Campaign fan-out: the consent gate, cursor paging over subscribers, and a ledger of
    recipients with one delivery event per kept recipient. */
module Newsletter {
  import opened Options

  const BATCH_SIZE := 200

  /** An ACTIVE subscription; the database lists them in the order of their ids. */
  datatype Subscriber = Subscriber(id: nat, email: string)

  datatype Consent = Consent(userId: nat, granted: bool)

  /** Registered users by normalised email, and the append-only consent log. */
  datatype Directory = Directory(normalize: string -> string, users: map<string, nat>, consents: seq<Consent>)

  /** The latest decision counts; no decision is a refusal. */
  predicate CanMarket(consents: seq<Consent>, userId: nat)
  {
    if consents == [] then false
    else if consents[|consents| - 1].userId == userId then consents[|consents| - 1].granted
    else CanMarket(consents[..|consents| - 1], userId)
  }

  ghost predicate IsLatest(consents: seq<Consent>, userId: nat, i: nat)
  {
    && i < |consents| && consents[i].userId == userId
    && forall j | i < j < |consents| :: consents[j].userId != userId
  }

  /** A user consents exactly if the latest of their decisions grants it. */
  lemma {:induction false} LatestDecisionCounts(consents: seq<Consent>, userId: nat)
    ensures CanMarket(consents, userId) <==> exists i: nat :: IsLatest(consents, userId, i) && consents[i].granted
  {
    if consents != [] {
      var n := |consents| - 1;
      var init := consents[..n];
      LatestDecisionCounts(init, userId);
      if consents[n].userId == userId {
        assert IsLatest(consents, userId, n);
        assert forall i: nat | IsLatest(consents, userId, i) :: i == n;
      } else {
        forall i: nat ensures IsLatest(consents, userId, i) <==> IsLatest(init, userId, i) {
          OtherDecision(consents, userId, i);
        }
      }
    }
  }

  lemma {:induction false} OtherDecision(consents: seq<Consent>, userId: nat, i: nat)
    requires consents != [] && consents[|consents| - 1].userId != userId
    ensures IsLatest(consents, userId, i) <==> IsLatest(consents[..|consents| - 1], userId, i)
  {
  }

  predicate Marketable(d: Directory, email: string)
  {
    var normalized := d.normalize(email);
    normalized !in d.users || CanMarket(d.consents, d.users[normalized])
  }

  /** An address may be mailed if it has no account, or if the latest decision of its account's
      user is a consent. */
  lemma {:induction false} MarketableMeans(d: Directory, email: string)
    ensures Marketable(d, email) <==>
              var account := d.normalize(email);
              account in d.users ==> exists i: nat :: IsLatest(d.consents, d.users[account], i) && d.consents[i].granted
  {
    if d.normalize(email) in d.users { LatestDecisionCounts(d.consents, d.users[d.normalize(email)]); }
  }

  function Keep(d: Directory): Subscriber -> bool
  {
    (s: Subscriber) => Marketable(d, s.email)
  }

  datatype RecipientStatus = Queued | Sent | Skipped

  /** Recipient rows by subscription, and the subscriptions that have a delivery event: both
      keys are unique in the database. */
  datatype Ledger = Ledger(recipients: map<nat, RecipientStatus>, events: set<nat>)

  /** createMany with skipDuplicates for the row, and for the event of a kept subscriber. */
  function Write(l: Ledger, s: Subscriber, keep: bool): Ledger
  {
    Ledger(if s.id in l.recipients then l.recipients else l.recipients[s.id := if keep then Queued else Skipped],
           if keep then l.events + {s.id} else l.events)
  }

  function WriteAll(l: Ledger, subs: seq<Subscriber>, keep: Subscriber -> bool): Ledger
  {
    if subs == [] then l else Write(WriteAll(l, subs[..|subs| - 1], keep), subs[|subs| - 1], keep(subs[|subs| - 1]))
  }

  // ---- paging ---------------------------------------------------------------

  /** The rows from a cursor on. */
  function From(active: seq<Subscriber>, cursor: nat): seq<Subscriber>
  {
    if active == [] || active[0].id >= cursor then active else From(active[1..], cursor)
  }

  function Min(a: nat, b: nat): nat { if a < b then a else b }

  /** One page: with a cursor, the rows from it on, less the first. */
  function Page(active: seq<Subscriber>, cursor: Option<nat>): seq<Subscriber>
  {
    var rows := if cursor.None? then active else From(active, cursor.value);
    var rest := if cursor.None? || rows == [] then rows else rows[1..];
    rest[..Min(BATCH_SIZE, |rest|)]
  }

  ghost predicate Ordered(active: seq<Subscriber>)
  {
    forall i, j | 0 <= i < j < |active| :: active[i].id < active[j].id
  }

  lemma {:induction false} FromIndex(active: seq<Subscriber>, k: nat)
    requires Ordered(active) && k < |active|
    ensures From(active, active[k].id) == active[k..]
  {
    if k > 0 {
      FromIndex(active[1..], k - 1);
      assert active[1..][k - 1..] == active[k..];
    }
  }

  /** The cursor after k subscribers. */
  function CursorAt(active: seq<Subscriber>, k: nat): Option<nat>
    requires k <= |active|
  {
    if k == 0 then None else Some(active[k - 1].id)
  }

  /** After a cursor that is still active, the page is the next stretch of the list. */
  lemma {:induction false} PageAfter(active: seq<Subscriber>, k: nat)
    requires Ordered(active) && k <= |active|
    ensures var page := Page(active, CursorAt(active, k));
            k + |page| == Min(k + BATCH_SIZE, |active|) && page == active[k..k + |page|]
  {
    if k > 0 {
      FromIndex(active, k - 1);
      var rest := active[k - 1..][1..];
      assert rest == active[k..];
    }
  }

  lemma {:induction false} CursorMoves(active: seq<Subscriber>, k: nat, page: seq<Subscriber>)
    requires k + |page| <= |active| && page == active[k..k + |page|] && page != []
    ensures CursorAt(active, k + |page|) == Some(page[|page| - 1].id)
  {
  }

  lemma {:induction false} FromGap(active: seq<Subscriber>, k: nat, cursor: nat)
    requires Ordered(active) && k <= |active|
    requires (k > 0 ==> active[k - 1].id < cursor) && (k < |active| ==> cursor < active[k].id)
    ensures From(active, cursor) == active[k..]
  {
    if k > 0 {
      FromGap(active[1..], k - 1, cursor);
      assert active[1..][k - 1..] == active[k..];
    }
  }

  /** If the cursor's subscriber stopped being active between two pages, the next active
      subscriber after it is passed over. */
  lemma {:induction false} LostCursorSkipsOne(active: seq<Subscriber>, k: nat, cursor: nat)
    requires Ordered(active) && k < |active|
    requires (k > 0 ==> active[k - 1].id < cursor) && cursor < active[k].id
    ensures Page(active, Some(cursor)) == active[k + 1..Min(k + 1 + BATCH_SIZE, |active|)]
  {
    FromGap(active, k, cursor);
    assert active[k..][1..] == active[k + 1..];
  }

  // ---- campaigns ------------------------------------------------------------

  datatype CampaignStatus = Draft | Sending | Finished

  datatype Counts = Counts(recipients: nat, sent: nat, skipped: nat)

  datatype Campaign = Campaign(status: CampaignStatus, owed: nat, counts: Option<Counts>, ledger: Ledger)

  function CountRecipients(l: Ledger): Counts
  {
    Counts(|l.recipients|,
           |set id | id in l.recipients && !l.recipients[id].Skipped?|,
           |set id | id in l.recipients && l.recipients[id].Skipped?|)
  }

  function Finalize(c: Campaign): Campaign
  {
    if c.status.Sending? then c.(status := Finished, counts := Some(CountRecipients(c.ledger))) else c
  }

  /** The first k subscribers have their rows and events. */
  function Reached(c: Campaign, active: seq<Subscriber>, keep: Subscriber -> bool, k: nat): Campaign
    requires k <= |active|
  {
    c.(ledger := WriteAll(c.ledger, active[..k], keep))
  }

  /** BATCH_SIZE rows for each batch. */
  function RowsIn(batches: nat): nat { 200 * batches }

  /** How many subscribers the batches before a crash cover. */
  function Stretch(active: seq<Subscriber>, crashAfter: Option<nat>): (k: nat)
    ensures k <= |active|
  {
    if crashAfter.None? then |active| else Min(RowsIn(crashAfter.value), |active|)
  }

  /** A handler run that crashes after some batches, or completes. */
  function Dispatched(c: Campaign, active: seq<Subscriber>, keep: Subscriber -> bool, crashAfter: Option<nat>): Campaign
  {
    if c.status.Finished? then c
    else
      var written := Reached(c, active, keep, Stretch(active, crashAfter));
      if crashAfter.None? then Finalize(written) else written
  }

  function Drafted(): Campaign { Campaign(Draft, 0, None, Ledger(map[], {})) }

  function SentOff(c: Campaign): Campaign
  {
    if c.status.Draft? then c.(status := Sending, owed := c.owed + 1) else c
  }

  class CampaignService {
    var campaign: Campaign

    constructor ()
      ensures campaign == Drafted()
    {
      campaign := Drafted();
    }

    /** Only the caller that flips DRAFT to SENDING owes a fan-out. */
    method SendCampaign()
      modifies this
      ensures campaign == SentOff(old(campaign))
    {
      if !campaign.status.Draft? { return; }
      campaign := campaign.(status := Sending, owed := campaign.owed + 1);
    }

    method FilterMarketableRecipients(d: Directory, emails: seq<string>) returns (out: seq<string>)
      ensures forall e :: e in out <==> e in emails && Marketable(d, e)
    {
      out := [];
      for i := 0 to |emails|
        invariant forall e :: e in out <==> e in emails[..i] && Marketable(d, e)
      {
        assert emails[..i + 1] == emails[..i] + [emails[i]];
        var normalized := d.normalize(emails[i]);
        if normalized !in d.users {
          out := out + [emails[i]];
        } else if CanMarket(d.consents, d.users[normalized]) {
          out := out + [emails[i]];
        }
      }
      assert emails[..|emails|] == emails;
    }

    method WriteBatch(d: Directory, batch: seq<Subscriber>)
      modifies this
      ensures campaign == old(campaign).(ledger := WriteAll(old(campaign).ledger, batch, Keep(d)))
    {
      var emails := seq(|batch|, i requires 0 <= i < |batch| => batch[i].email);
      var marketable := FilterMarketableRecipients(d, emails);
      for i := 0 to |batch|
        invariant campaign == old(campaign).(ledger := WriteAll(old(campaign).ledger, batch[..i], Keep(d)))
      {
        var sub := batch[i];
        assert batch[..i + 1][..i] == batch[..i] && emails[i] in emails;
        var keep := sub.email in marketable;
        var rows, events := campaign.ledger.recipients, campaign.ledger.events;
        if sub.id !in rows { rows := rows[sub.id := if keep then Queued else Skipped]; }
        if keep { events := events + {sub.id}; }
        campaign := campaign.(ledger := Ledger(rows, events));
      }
      assert batch[..|batch|] == batch;
    }

    method DispatchCampaign(d: Directory, active: seq<Subscriber>, crashAfter: Option<nat>)
      requires Ordered(active)
      modifies this
      ensures campaign == Dispatched(old(campaign), active, Keep(d), crashAfter)
    {
      if campaign.status.Finished? { return; }
      FanOut(d, active, crashAfter);
      assert active[..|active|] == active;
      if crashAfter.Some? { return; }
      campaign := Finalize(campaign);
    }

    /** Reads the page after k subscribers and writes its batch. */
    method NextBatchWritten(d: Directory, active: seq<Subscriber>, cursor: Option<nat>, ghost c: Campaign, ghost k: nat)
      returns (written: nat, next: Option<nat>)
      requires Ordered(active) && k <= |active| && cursor == CursorAt(active, k)
      requires campaign == Reached(c, active, Keep(d), k)
      modifies this
      ensures k + written == Min(k + BATCH_SIZE, |active|)
      ensures campaign == Reached(c, active, Keep(d), k + written)
      ensures next == CursorAt(active, k + written)
    {
      var batch := Page(active, cursor);
      PageAfter(active, k);
      if |batch| == 0 { return 0, cursor; }
      written, next := |batch|, Some(batch[|batch| - 1].id);
      CursorMoves(active, k, batch);
      NextBatch(c, active, k, |batch|, Keep(d));
      WriteBatch(d, batch);
    }

    /** The paging loop visits every active subscriber once, and ends. */
    method FanOut(d: Directory, active: seq<Subscriber>, crashAfter: Option<nat>)
      requires Ordered(active)
      modifies this
      ensures campaign == Reached(old(campaign), active, Keep(d), Stretch(active, crashAfter))
    {
      var cursor: Option<nat> := None;
      ghost var k := 0;
      var batches := 0;
      while true
        invariant k == Min(RowsIn(batches), |active|)
        invariant crashAfter.Some? ==> batches <= crashAfter.value
        invariant k <= |active| && cursor == CursorAt(active, k)
        invariant campaign == Reached(old(campaign), active, Keep(d), k)
        decreases |active| - k
      {
        if crashAfter == Some(batches) { return; }
        var written, next := NextBatchWritten(d, active, cursor, old(campaign), k);
        if written == 0 { return; }
        cursor := next;
        k := k + written;
        batches := batches + 1;
      }
    }

    /** The delivery handler, called for an enqueued event. It stamps the row unless nothing
        was sent or the row is already SENT. */
    method DeliverCampaignEmail(id: nat, stillActive: bool, marketable: bool, sends: bool)
      modifies this
      ensures id in old(campaign).ledger.recipients ==>
                campaign.ledger.recipients == old(campaign).ledger.recipients
                  [id := if !stillActive || !marketable then Skipped
                         else if sends then Sent else old(campaign).ledger.recipients[id]]
      ensures campaign
              == old(campaign).(ledger := Delivered(old(campaign).ledger, id, stillActive && marketable, sends))
    {
      if !stillActive || !marketable {
        MarkRecipient(id, Skipped);
        return;
      }
      if id in campaign.ledger.recipients && campaign.ledger.recipients[id].Sent? { return; }
      if sends { MarkRecipient(id, Sent); }
    }

    method MarkRecipient(id: nat, status: RecipientStatus)
      modifies this
      ensures campaign == old(campaign).(ledger := Marked(old(campaign).ledger, id, status))
    {
      if id in campaign.ledger.recipients {
        campaign := campaign.(ledger := campaign.ledger.(recipients := campaign.ledger.recipients[id := status]));
      }
    }
  }

  function Marked(l: Ledger, id: nat, status: RecipientStatus): Ledger
  {
    if id in l.recipients then l.(recipients := l.recipients[id := status]) else l
  }

  function Delivered(l: Ledger, id: nat, wanted: bool, sends: bool): Ledger
  {
    if !wanted then Marked(l, id, Skipped)
    else if sends && !(id in l.recipients && l.recipients[id].Sent?) then Marked(l, id, Sent)
    else l
  }

  lemma {:induction false} WriteAllJoins(l: Ledger, xs: seq<Subscriber>, ys: seq<Subscriber>, keep: Subscriber -> bool)
    ensures WriteAll(l, xs + ys, keep) == WriteAll(WriteAll(l, xs, keep), ys, keep)
  {
    if ys == [] {
      assert xs + ys == xs;
    } else {
      assert (xs + ys)[..|xs + ys| - 1] == xs + ys[..|ys| - 1];
      WriteAllJoins(l, xs, ys[..|ys| - 1], keep);
    }
  }

  lemma {:induction false} NextBatch(c: Campaign, active: seq<Subscriber>, k: nat, n: nat, keep: Subscriber -> bool)
    requires k + n <= |active|
    ensures var there := Reached(c, active, keep, k);
            there.(ledger := WriteAll(there.ledger, active[k..k + n], keep)) == Reached(c, active, keep, k + n)
  {
    assert active[..k] + active[k..k + n] == active[..k + n];
    WriteAllJoins(c.ledger, active[..k], active[k..k + n], keep);
  }

  // ---- crashes and redeliveries -----------------------------------------------

  /** The campaign, and the fan-out handlers under way with the number of subscribers each has
      covered. Several may run at once: the queue redelivers. */
  datatype State = State(campaign: Campaign, handlers: map<nat, nat>)

  datatype Step =
    | Send
    | Begin(handler: nat)
    | Batch(handler: nat)
    | Finish(handler: nat)
    | Crash(handler: nat)
    | Deliver(id: nat, sends: bool)

  /** A handler runs only for an owed fan-out, and stops at once for a finished campaign; only
      enqueued events are delivered. */
  predicate CanStep(s: State, active: seq<Subscriber>, step: Step)
  {
    match step
    case Send => true
    case Begin(h) => h !in s.handlers && s.campaign.owed > 0 && !s.campaign.status.Finished?
    case Batch(h) => h in s.handlers && s.handlers[h] < |active|
    case Finish(h) => h in s.handlers && s.handlers[h] == |active|
    case Crash(h) => h in s.handlers
    case Deliver(id, _) => id in s.campaign.ledger.events
  }

  /** With the active subscribers and their consent fixed. */
  function Take(s: State, active: seq<Subscriber>, keep: Subscriber -> bool, step: Step): State
    requires CanStep(s, active, step)
  {
    var c := s.campaign;
    match step
    case Send => s.(campaign := SentOff(c))
    case Begin(h) => s.(handlers := s.handlers[h := 0])
    case Batch(h) =>
      var upTo := Min(s.handlers[h] + BATCH_SIZE, |active|);
      State(c.(ledger := WriteAll(c.ledger, active[s.handlers[h]..upTo], keep)), s.handlers[h := upTo])
    case Finish(h) => State(Finalize(c), s.handlers - {h})
    case Crash(h) => s.(handlers := s.handlers - {h})
    case Deliver(id, sends) => s.(campaign := c.(ledger := Delivered(c.ledger, id, true, sends)))
  }

  predicate CanRun(s: State, active: seq<Subscriber>, keep: Subscriber -> bool, steps: seq<Step>)
    decreases |steps|, 0
  {
    steps == [] || (CanRun(s, active, keep, steps[..|steps| - 1])
                    && CanStep(After(s, active, keep, steps[..|steps| - 1]), active, steps[|steps| - 1]))
  }

  function After(s: State, active: seq<Subscriber>, keep: Subscriber -> bool, steps: seq<Step>): State
    requires CanRun(s, active, keep, steps)
    decreases |steps|, 1
  {
    if steps == [] then s else Take(After(s, active, keep, steps[..|steps| - 1]), active, keep, steps[|steps| - 1])
  }

  ghost function Ids(subs: seq<Subscriber>): set<nat> { set s | s in subs :: s.id }

  ghost function KeptIds(subs: seq<Subscriber>, keep: Subscriber -> bool): set<nat>
  {
    set s | s in subs && keep(s) :: s.id
  }

  ghost function ExactCounts(active: seq<Subscriber>, keep: Subscriber -> bool): Counts
  {
    Counts(|active|, |KeptIds(active, keep)|, |KeptIds(active, Not(keep))|)
  }

  function Not(keep: Subscriber -> bool): Subscriber -> bool
  {
    (s: Subscriber) => !keep(s)
  }

  /** Rows only for active subscribers; an event and an unskipped row exactly for those kept. */
  ghost predicate InOrder(l: Ledger, active: seq<Subscriber>, keep: Subscriber -> bool)
  {
    && l.recipients.Keys <= Ids(active)
    && (forall s | s in active && s.id in l.recipients ::
          (s.id in l.events <==> keep(s)) && (l.recipients[s.id].Skipped? <==> !keep(s)))
    && l.events <= l.recipients.Keys
  }

  ghost predicate Complete(c: Campaign, active: seq<Subscriber>, keep: Subscriber -> bool)
  {
    && c.ledger.recipients.Keys == Ids(active) && c.ledger.events == KeptIds(active, keep)
    && c.counts == Some(ExactCounts(active, keep))
    && c.counts.value.recipients == c.counts.value.sent + c.counts.value.skipped
  }

  lemma {:induction false} WriteInOrder(l: Ledger, active: seq<Subscriber>, keep: Subscriber -> bool, s: Subscriber)
    requires Ordered(active) && InOrder(l, active, keep) && s in active
    ensures InOrder(Write(l, s, keep(s)), active, keep)
  {
    var i :| 0 <= i < |active| && active[i] == s;
    assert forall t | t in active && t.id == s.id :: t == s;
  }

  lemma {:induction false} WriteAllInOrder(l: Ledger, active: seq<Subscriber>, keep: Subscriber -> bool,
                                           subs: seq<Subscriber>)
    requires Ordered(active) && InOrder(l, active, keep) && forall s | s in subs :: s in active
    ensures InOrder(WriteAll(l, subs, keep), active, keep)
    ensures WriteAll(l, subs, keep).recipients.Keys == l.recipients.Keys + Ids(subs)
  {
    if subs != [] {
      var init, s := subs[..|subs| - 1], subs[|subs| - 1];
      assert subs == init + [s];
      WriteAllInOrder(l, active, keep, init);
      WriteInOrder(WriteAll(l, init, keep), active, keep, s);
    }
  }

  lemma {:induction false} IdsCount(subs: seq<Subscriber>)
    requires Ordered(subs)
    ensures |Ids(subs)| == |subs|
  {
    if subs != [] {
      var init, s := subs[..|subs| - 1], subs[|subs| - 1];
      IdsCount(init);
      assert subs == init + [s];
      assert Ids(subs) == Ids(init) + {s.id} && s.id !in Ids(init);
    }
  }

  ghost function WithSkip(l: Ledger, skipped: bool): set<nat>
  {
    set id | id in l.recipients && l.recipients[id].Skipped? == skipped
  }

  lemma {:induction false} SkippedAreDropped(l: Ledger, active: seq<Subscriber>, keep: Subscriber -> bool)
    requires InOrder(l, active, keep) && l.recipients.Keys == Ids(active)
    ensures WithSkip(l, false) == KeptIds(active, keep) == l.events
    ensures WithSkip(l, true) == KeptIds(active, Not(keep))
  {
  }

  /** In a full and orderly ledger the events are the kept subscribers, and the counts follow. */
  lemma {:induction false} FullLedger(l: Ledger, active: seq<Subscriber>, keep: Subscriber -> bool)
    requires Ordered(active) && InOrder(l, active, keep) && l.recipients.Keys == Ids(active)
    ensures l.events == KeptIds(active, keep)
    ensures CountRecipients(l) == ExactCounts(active, keep)
    ensures CountRecipients(l).recipients == CountRecipients(l).sent + CountRecipients(l).skipped
  {
    IdsCount(active);
    SkippedAreDropped(l, active, keep);
    assert (set id | id in l.recipients && !l.recipients[id].Skipped?) == WithSkip(l, false);
    assert (set id | id in l.recipients && l.recipients[id].Skipped?) == WithSkip(l, true);
    assert WithSkip(l, false) + WithSkip(l, true) == l.recipients.Keys;
  }

  /** A delivery stamps the row of a kept subscriber and leaves rows, events and counts in order. */
  lemma {:induction false} FanningDelivery(l: Ledger, active: seq<Subscriber>, keep: Subscriber -> bool, id: nat,
                                           sends: bool)
    requires InOrder(l, active, keep) && id in l.events
    ensures var after := Delivered(l, id, true, sends);
            InOrder(after, active, keep) && after.recipients.Keys == l.recipients.Keys && after.events == l.events
            && !after.recipients[id].Skipped?
  {
    assert forall s | s in active && s.id == id :: keep(s);
  }

  /** What holds between any two steps, however handlers and deliveries interleave: a fan-out
      is owed once, every handler's stretch is written, and a finished campaign is complete. */
  ghost predicate Orderly(s: State, active: seq<Subscriber>, keep: Subscriber -> bool)
  {
    var c := s.campaign;
    && c.owed == (if c.status.Draft? then 0 else 1)
    && (c.status.Draft? ==> s.handlers == map[])
    && InOrder(c.ledger, active, keep)
    && (forall h | h in s.handlers ::
          s.handlers[h] <= |active| && Ids(active[..s.handlers[h]]) <= c.ledger.recipients.Keys)
    && (c.status.Finished? ==> Complete(c, active, keep))
  }

  lemma {:induction false} IdsJoin(active: seq<Subscriber>, k: nat, upTo: nat)
    requires k <= upTo <= |active|
    ensures Ids(active[..upTo]) == Ids(active[..k]) + Ids(active[k..upTo])
  {
    assert active[..upTo] == active[..k] + active[k..upTo];
  }

  lemma {:induction false} StretchWritten(l: Ledger, active: seq<Subscriber>, keep: Subscriber -> bool, k: nat,
                                          upTo: nat)
    requires Ordered(active) && InOrder(l, active, keep) && k <= upTo <= |active|
    ensures var after := WriteAll(l, active[k..upTo], keep);
            InOrder(after, active, keep) && l.recipients.Keys <= after.recipients.Keys
            && (Ids(active[..k]) <= l.recipients.Keys ==> Ids(active[..upTo]) <= after.recipients.Keys)
  {
    IdsJoin(active, k, upTo);
    WriteAllInOrder(l, active, keep, active[k..upTo]);
  }

  lemma {:induction false} OrderlyBatch(s: State, active: seq<Subscriber>, keep: Subscriber -> bool, h: nat)
    requires Ordered(active) && Orderly(s, active, keep) && CanStep(s, active, Batch(h))
    ensures Orderly(Take(s, active, keep, Batch(h)), active, keep)
  {
    var k, upTo := s.handlers[h], Min(s.handlers[h] + BATCH_SIZE, |active|);
    var after := WriteAll(s.campaign.ledger, active[k..upTo], keep);
    StretchWritten(s.campaign.ledger, active, keep, k, upTo);
    if s.campaign.status.Finished? { FullLedger(after, active, keep); }
  }

  lemma {:induction false} OrderlyStep(s: State, active: seq<Subscriber>, keep: Subscriber -> bool, step: Step)
    requires Ordered(active) && Orderly(s, active, keep) && CanStep(s, active, step)
    ensures Orderly(Take(s, active, keep, step), active, keep)
    ensures step.Finish? || s.campaign.status.Finished? ==> Take(s, active, keep, step).campaign.status.Finished?
  {
    match step {
      case Batch(h) => OrderlyBatch(s, active, keep, h);
      case Deliver(id, sends) => FanningDelivery(s.campaign.ledger, active, keep, id, sends);
      case Finish(h) =>
        assert active[..|active|] == active;
        FullLedger(s.campaign.ledger, active, keep);
      case _ =>
    }
  }

  /** A row that a batch adds is not yet SENT, and it changes none that is there. */
  lemma {:induction false} WritesNothingSent(l: Ledger, subs: seq<Subscriber>, keep: Subscriber -> bool, id: nat)
    ensures id in l.recipients ==>
              id in WriteAll(l, subs, keep).recipients && WriteAll(l, subs, keep).recipients[id] == l.recipients[id]
    ensures id !in l.recipients && id in WriteAll(l, subs, keep).recipients ==>
              !WriteAll(l, subs, keep).recipients[id].Sent?
  {
    if subs != [] { WritesNothingSent(l, subs[..|subs| - 1], keep, id); }
  }

  /** Over every run a row says SENT exactly if a delivery of it was sent. */
  lemma {:induction false} SentExactlyWhenSent(active: seq<Subscriber>, keep: Subscriber -> bool, steps: seq<Step>,
                                               id: nat)
    requires Ordered(active) && CanRun(State(Drafted(), map[]), active, keep, steps)
    ensures var l := After(State(Drafted(), map[]), active, keep, steps).campaign.ledger;
            Deliver(id, true) in steps <==> id in l.recipients && l.recipients[id].Sent?
  {
    if steps != [] {
      var init, last := steps[..|steps| - 1], steps[|steps| - 1];
      assert steps == init + [last];
      SentExactlyWhenSent(active, keep, init, id);
      FanoutCompletes(active, keep, init);
      SentStep(After(State(Drafted(), map[]), active, keep, init), active, keep, last, id);
    }
  }

  lemma {:induction false} SentStep(s: State, active: seq<Subscriber>, keep: Subscriber -> bool, step: Step, id: nat)
    requires CanStep(s, active, step) && s.campaign.ledger.events <= s.campaign.ledger.recipients.Keys
    ensures var l, next := s.campaign.ledger, Take(s, active, keep, step).campaign.ledger;
            id in next.recipients && next.recipients[id].Sent? <==>
              step == Deliver(id, true) || (id in l.recipients && l.recipients[id].Sent?)
  {
    if step.Batch? {
      var k := s.handlers[step.handler];
      WritesNothingSent(s.campaign.ledger, active[k..Min(k + BATCH_SIZE, |active|)], keep, id);
    }
  }

  /** Any number of sends, fan-out handlers side by side, crashes between batches, redeliveries and
      deliveries in between: at most one fan-out is owed, and once a handler has finished there is
      exactly one row per subscriber, one event per consenting one and none for the others, and
      the counts add up. */
  lemma {:induction false} FanoutCompletes(active: seq<Subscriber>, keep: Subscriber -> bool, steps: seq<Step>)
    requires Ordered(active) && CanRun(State(Drafted(), map[]), active, keep, steps)
    ensures var s := After(State(Drafted(), map[]), active, keep, steps);
            && Orderly(s, active, keep) && s.campaign.owed <= 1
            && ((exists step | step in steps :: step.Finish?) ==>
                  s.campaign.status.Finished? && Complete(s.campaign, active, keep))
  {
    if steps != [] {
      var init, last := steps[..|steps| - 1], steps[|steps| - 1];
      assert steps == init + [last];
      FanoutCompletes(active, keep, init);
      OrderlyStep(After(State(Drafted(), map[]), active, keep, init), active, keep, last);
    }
  }

  /** The steps have let handler h cover k subscribers. */
  ghost predicate Covers(s: State, active: seq<Subscriber>, keep: Subscriber -> bool, h: nat, steps: seq<Step>, k: nat)
  {
    && k <= |active| && CanRun(s, active, keep, steps)
    && After(s, active, keep, steps) == State(Reached(s.campaign, active, keep, k), s.handlers[h := k])
  }

  lemma {:induction false} CoverStart(s: State, active: seq<Subscriber>, keep: Subscriber -> bool, h: nat)
    requires CanStep(s, active, Begin(h))
    ensures Covers(s, active, keep, h, [Begin(h)], 0)
  {
    Extend(s, active, keep, [], Begin(h));
    assert [] + [Begin(h)] == [Begin(h)];
  }

  lemma {:induction false} CoverMore(s: State, active: seq<Subscriber>, keep: Subscriber -> bool, h: nat,
                                     steps: seq<Step>, k: nat)
    requires Covers(s, active, keep, h, steps, k) && k < |active|
    ensures Covers(s, active, keep, h, steps + [Batch(h)], Min(k + BATCH_SIZE, |active|))
  {
    var upTo := Min(k + BATCH_SIZE, |active|);
    NextBatch(s.campaign, active, k, upTo - k, keep);
    Extend(s, active, keep, steps, Batch(h));
    assert s.handlers[h := k][h := upTo] == s.handlers[h := upTo];
  }

  lemma {:induction false} CoverEnd(s: State, active: seq<Subscriber>, keep: Subscriber -> bool, h: nat,
                                    steps: seq<Step>, k: nat, last: Step)
    requires Covers(s, active, keep, h, steps, k) && h !in s.handlers
    requires last == Crash(h) || (last == Finish(h) && k == |active|)
    ensures var written := Reached(s.campaign, active, keep, k);
            && CanRun(s, active, keep, steps + [last])
            && After(s, active, keep, steps + [last])
               == State(if last.Finish? then Finalize(written) else written, s.handlers)
  {
    Extend(s, active, keep, steps, last);
    assert s.handlers[h := k] - {h} == s.handlers;
  }

  /** A call of DispatchCampaign is a run of one handler, crashing or finishing, and leaves the
      campaign as the method does. */
  lemma {:induction false} DispatchIsARun(s: State, active: seq<Subscriber>, keep: Subscriber -> bool, h: nat,
                                          crashAfter: Option<nat>)
    returns (steps: seq<Step>)
    requires CanStep(s, active, Begin(h))
    ensures CanRun(s, active, keep, steps)
    ensures After(s, active, keep, steps) == State(Dispatched(s.campaign, active, keep, crashAfter), s.handlers)
  {
    CoverStart(s, active, keep, h);
    steps := [Begin(h)];
    var k, batches := 0, 0;
    while k < |active| && crashAfter != Some(batches)
      invariant k == Min(RowsIn(batches), |active|) && (crashAfter.Some? ==> batches <= crashAfter.value)
      invariant Covers(s, active, keep, h, steps, k)
      decreases |active| - k
    {
      CoverMore(s, active, keep, h, steps, k);
      steps, k, batches := steps + [Batch(h)], Min(k + BATCH_SIZE, |active|), batches + 1;
    }
    var last := if crashAfter.None? then Finish(h) else Crash(h);
    CoverEnd(s, active, keep, h, steps, k, last);
    steps := steps + [last];
  }

  /** So from any point of a campaign that has been sent, a handler can run to its end. */
  lemma {:induction false} CanStillComplete(s: State, active: seq<Subscriber>, keep: Subscriber -> bool, h: nat)
    returns (steps: seq<Step>)
    requires Ordered(active) && Orderly(s, active, keep) && s.campaign.status.Sending? && h !in s.handlers
    ensures CanRun(s, active, keep, steps) && Complete(After(s, active, keep, steps).campaign, active, keep)
  {
    steps := DispatchIsARun(s, active, keep, h, None);
    assert active[..|active|] == active;
    WriteAllInOrder(s.campaign.ledger, active, keep, active);
    FullLedger(WriteAll(s.campaign.ledger, active, keep), active, keep);
  }

  lemma {:induction false} Extend(s: State, active: seq<Subscriber>, keep: Subscriber -> bool, steps: seq<Step>,
                                  step: Step)
    requires CanRun(s, active, keep, steps) && CanStep(After(s, active, keep, steps), active, step)
    ensures CanRun(s, active, keep, steps + [step])
    ensures After(s, active, keep, steps + [step]) == Take(After(s, active, keep, steps), active, keep, step)
  {
    assert (steps + [step])[..|steps|] == steps;
  }
}
