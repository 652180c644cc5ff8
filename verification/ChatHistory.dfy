/**
 * What became of each accepted draft of one session: waiting in the queue, written,
 * given back to the composer, or taken out by the person.
 */
module ChatHistory {
  import opened JsText
  import opened Lists
  import opened ChatQueue

  /** What became of a prompt handed to the channel. */
  datatype Fate =
    | OnWire     // nobody has answered yet
    | Refuted    // answered: nothing was written, nor will be
    | Confirmed  // answered: written
    | Doubtful   // answered without saying which
    | Orphaned   // the app died before the answer

  /** One call of `send`: its text, and the drafts joined in it. */
  datatype Send = Send(text: Str, target: Target, ids: seq<nat>, fate: Fate, written: bool)

  /** Accepted drafts, numbered in the order they were submitted, and where each went. */
  datatype Past = Past(
    drafts: seq<Str>,
    queue: seq<nat>,          // joined in the queued prompt, in order
    head: nat,                // how many of those the delivery that is out carries
    sent: seq<nat>,           // settled as written
    given: map<nat, Reason>,  // given back to the composer
    removed: set<nat>,        // taken out by Edit or Cancel
    sends: seq<Send>,
    log: seq<nat>)            // what reached the agent, in the order it was typed

  const NOTHING: Past := Past([], [], 0, [], map[], {}, [], [])

  /** Where the queue is: at rest, marked as leaving, on the wire, or cut off by the app's death. */
  datatype Phase = Resting | Leaving | Flying | Cut

  // ── What the events do to it ───────────────────────────────────────────────

  function Accept(p: Past, draft: Str): Past {
    p.(drafts := p.drafts + [draft], queue := p.queue + [|p.drafts|])
  }

  function TakeOut(p: Past): Past {
    p.(removed := p.removed + (set i | i in p.queue), queue := [])
  }

  function Depart(p: Past): Past {
    p.(head := |p.queue|)
  }

  function HandOver(p: Past, text: Str, target: Target): Past {
    p.(sends := p.sends + [Send(text, target, p.queue, OnWire, false)])
  }

  function TypeOut(p: Past, k: nat): Past
    requires k < |p.sends|
  {
    p.(sends := p.sends[k := p.sends[k].(written := true)], log := p.log + p.sends[k].ids)
  }

  function FateOf(result: DeliveryResult): Fate {
    if ProvesWritten(result) then Confirmed else if ProvesNotWritten(result) then Refuted else Doubtful
  }

  function MarkLast(p: Past, fate: Fate): Past
    requires p.sends != []
  {
    p.(sends := p.sends[|p.sends| - 1 := p.sends[|p.sends| - 1].(fate := fate)], head := 0)
  }

  function GiveAll(p: Past, reason: Reason): Past {
    p.(given := p.given + (map i | i in p.queue :: reason), queue := [])
  }

  /** The answer to the last send is in, with what `SettleDelivery` made of it. */
  function Conclude(p: Past, result: DeliveryResult, delivery: Delivery): Past
    requires p.sends != [] && p.head <= |p.queue|
  {
    var q := MarkLast(p, FateOf(result));
    match delivery
    case Kept(_) => q
    case Sent(_) => q.(sent := p.sent + p.queue[..p.head], queue := p.queue[p.head..])
    case Returned(_, reason) => GiveAll(q, reason)
  }

  // ── What every event keeps ─────────────────────────────────────────────────

  predicate Within(ids: seq<nat>, n: nat) {
    forall i :: 0 <= i < |ids| ==> ids[i] < n
  }

  predicate Before(xs: seq<nat>, ys: seq<nat>) {
    forall i, j :: 0 <= i < |xs| && 0 <= j < |ys| ==> xs[i] < ys[j]
  }

  /** Reasons that do not rule a write out: a warning to check first, or a refusal nobody could name. */
  predicate Unsure(reason: Reason) {
    reason == Uncertain || reason == Refused(UnknownRefusal)
  }

  predicate GivenUnsure(p: Past, ids: seq<nat>) {
    forall i :: 0 <= i < |ids| ==> ids[i] in p.given && Unsure(p.given[ids[i]])
  }

  /** Given back with the warning. */
  predicate GivenWarned(p: Past, ids: seq<nat>) {
    forall i :: 0 <= i < |ids| ==> ids[i] in p.given && p.given[ids[i]] == Uncertain
  }

  predicate AllIn(ids: seq<nat>, xs: seq<nat>) {
    forall i :: 0 <= i < |ids| ==> ids[i] in xs
  }

  predicate QueueOrdered(p: Past, phase: Phase) {
    && Within(p.queue, |p.drafts|)
    && Ascending(p.queue)
    && p.head <= |p.queue|
    && (phase.Resting? || phase.Cut? ==> p.head == 0)
    && (phase.Leaving? || phase.Flying? ==> p.head > 0)
    && (phase.Leaving? ==> p.head == |p.queue|)
    && (phase.Cut? ==> p.queue != [])
  }

  /** May still be written, or has been. */
  predicate Lasting(s: Send) { !s.fate.Refuted? }

  /** The last send, still holding drafts of the queue: on the wire, or cut off with it. */
  predicate Holding(p: Past, phase: Phase, k: nat) {
    && k == |p.sends| - 1 && k < |p.sends| && p.head <= |p.queue|
    && match p.sends[k].fate
       case OnWire => phase.Flying? && p.sends[k].ids == p.queue[..p.head]
       case Orphaned => phase.Cut? && p.sends[k].ids <= p.queue
       case _ => false
  }

  predicate SendOk(p: Past, phase: Phase, k: nat)
    requires k < |p.sends|
  {
    var s := p.sends[k];
    && s.ids != [] && Ascending(s.ids) && Within(s.ids, |p.drafts|)
    && (Holding(p, phase, k) ||
        match s.fate
        case OnWire => false
        case Refuted => !s.written
        case Confirmed => s.written && AllIn(s.ids, p.sent) && Before(s.ids, p.queue)
        case Doubtful => GivenUnsure(p, s.ids) && Before(s.ids, p.queue)
        case Orphaned => GivenWarned(p, s.ids) && Before(s.ids, p.queue))
  }

  predicate SendsOk(p: Past, phase: Phase) {
    && (forall k :: 0 <= k < |p.sends| ==> SendOk(p, phase, k))
    && (forall k, l :: 0 <= k < l < |p.sends| && Lasting(p.sends[k]) && Lasting(p.sends[l]) ==>
          Before(p.sends[k].ids, p.sends[l].ids))
    && (phase.Flying? ==> p.sends != [] && p.sends[|p.sends| - 1].fate.OnWire?)
  }

  /** Every accepted draft is in exactly one place. */
  predicate Placed(p: Past) {
    && (forall i :: 0 <= i < |p.drafts| ==> i in p.queue || i in p.sent || i in p.given || i in p.removed)
    && (forall i :: i in p.queue ==> i !in p.sent && i !in p.given && i !in p.removed)
    && (forall i :: i in p.sent ==> i < |p.drafts| && i !in p.given && i !in p.removed)
    && (forall i :: i in p.given ==> i < |p.drafts| && i !in p.removed)
    && (forall i :: i in p.removed ==> i < |p.drafts|)
    && Ascending(p.sent)
    && Before(p.sent, p.queue)
  }

  /** Some send that carries this draft has been typed. */
  predicate TypedIn(sends: seq<Send>, id: nat) {
    exists k :: 0 <= k < |sends| && sends[k].written && id in sends[k].ids
  }

  /** The log holds each draft at most once, and out of submit order only after an unsure give-back. */
  ghost predicate LogOk(p: Past) {
    && Distinct(p.log)
    && (forall id :: id in p.log <==> TypedIn(p.sends, id))
    && (forall i :: 0 <= i < |p.sent| ==> p.sent[i] in p.log)
    && (forall i, j :: 0 <= i < j < |p.log| && p.log[i] > p.log[j] ==>
          p.log[j] in p.given && Unsure(p.given[p.log[j]]))
  }

  ghost predicate PastInv(p: Past, phase: Phase) {
    QueueOrdered(p, phase) && SendsOk(p, phase) && Placed(p) && LogOk(p)
  }

  // ── One lemma per event ────────────────────────────────────────────────────

  /** Nothing already settled is taken back, and only newer drafts join the queue. */
  predicate Extends(p: Past, q: Past) {
    && |q.drafts| >= |p.drafts|
    && (forall i :: i in p.given ==> i in q.given && q.given[i] == p.given[i])
    && AllIn(p.sent, q.sent)
    && (forall j :: 0 <= j < |q.queue| ==> q.queue[j] in p.queue || q.queue[j] >= |p.drafts|)
  }

  /** A send that no longer holds the queue stays accounted for. */
  lemma SendStays(p: Past, q: Past, phase: Phase, phase': Phase, k: nat)
    requires k < |p.sends| && k < |q.sends| && SendOk(p, phase, k) && !Holding(p, phase, k)
    requires q.sends[k] == p.sends[k] && Extends(p, q)
    ensures SendOk(q, phase', k)
  {
    var s := p.sends[k];
    assert AllIn(s.ids, p.sent) ==> AllIn(s.ids, q.sent);
    assert GivenUnsure(p, s.ids) ==> GivenUnsure(q, s.ids);
    assert GivenWarned(p, s.ids) ==> GivenWarned(q, s.ids);
    if Before(s.ids, p.queue) {
      forall i, j | 0 <= i < |s.ids| && 0 <= j < |q.queue| ensures s.ids[i] < q.queue[j] {
        if q.queue[j] in p.queue {
          var l :| 0 <= l < |p.queue| && p.queue[l] == q.queue[j];
        }
      }
    }
  }

  /** With the queue at rest or leaving, no send holds it, so every send stays. */
  lemma SendsStay(p: Past, q: Past, phase: Phase, phase': Phase)
    requires SendsOk(p, phase) && (phase.Resting? || phase.Leaving?) && !phase'.Flying?
    requires q.sends == p.sends && Extends(p, q)
    ensures SendsOk(q, phase')
  {
    forall k | 0 <= k < |q.sends| ensures SendOk(q, phase', k) {
      SendStays(p, q, phase, phase', k);
    }
  }

  lemma AcceptSends(p: Past, q: Past, phase: Phase)
    requires SendsOk(p, phase) && QueueOrdered(p, phase) && (phase.Resting? || phase.Flying?)
    requires q.sends == p.sends && q.head == p.head && p.queue <= q.queue && Extends(p, q)
    ensures SendsOk(q, phase)
  {
    assert q.queue[..p.head] == p.queue[..p.head];
    forall k | 0 <= k < |q.sends| ensures SendOk(q, phase, k) {
      assert SendOk(p, phase, k);
      if !Holding(p, phase, k) { SendStays(p, q, phase, phase, k); }
    }
  }

  lemma AcceptPlaced(p: Past, draft: Str)
    requires Placed(p) && Within(p.queue, |p.drafts|) && Ascending(p.queue)
    ensures Placed(Accept(p, draft)) && Ascending(Accept(p, draft).queue)
  {
    var q := Accept(p, draft);
    assert q.queue[|p.queue|] == |p.drafts|;
    forall i | 0 <= i < |p.sent| ensures p.sent[i] < |p.drafts| { assert p.sent[i] in p.sent; }
  }

  lemma AcceptKeeps(p: Past, phase: Phase, draft: Str)
    requires PastInv(p, phase) && (phase.Resting? || phase.Flying?)
    ensures PastInv(Accept(p, draft), phase)
  {
    AcceptSends(p, Accept(p, draft), phase);
    AcceptPlaced(p, draft);
    LogSameWritten(p, Accept(p, draft));
  }

  lemma TakeOutKeeps(p: Past)
    requires PastInv(p, Resting)
    ensures PastInv(TakeOut(p), Resting)
  {
    SendsStay(p, TakeOut(p), Resting, Resting);
    LogSameWritten(p, TakeOut(p));
  }

  lemma DepartKeeps(p: Past)
    requires PastInv(p, Resting) && p.queue != []
    ensures PastInv(Depart(p), Leaving)
  {
    SendsStay(p, Depart(p), Resting, Leaving);
    LogSameWritten(p, Depart(p));
  }

  lemma HandOverKeeps(p: Past, text: Str, target: Target)
    requires PastInv(p, Leaving)
    ensures PastInv(HandOver(p, text, target), Flying)
  {
    var q := HandOver(p, text, target);
    assert p.queue[..p.head] == p.queue;
    assert Extends(p, q);
    forall k | 0 <= k < |p.sends|
      ensures SendOk(q, Flying, k)
      ensures Lasting(p.sends[k]) ==> Before(p.sends[k].ids, p.queue)
    {
      assert SendOk(p, Leaving, k);
      SendStays(p, q, Leaving, Flying, k);
    }
    assert SendOk(q, Flying, |p.sends|);
    TypedByIndex(p.sends, q.sends);
    LogSameWritten(p, q);
  }

  lemma TypeOutKeeps(p: Past, phase: Phase, k: nat)
    requires PastInv(p, phase)
    requires k < |p.sends| && !p.sends[k].written && Lasting(p.sends[k]) && !p.sends[k].fate.Confirmed?
    ensures PastInv(TypeOut(p, k), phase)
  {
    var q := TypeOut(p, k);
    assert SendOk(p, phase, k);
    forall l | 0 <= l < |q.sends| ensures SendOk(q, phase, l) {
      assert SendOk(p, phase, l);
    }
    TypeOutLog(p, phase, k);
  }

  lemma TypeOutLog(p: Past, phase: Phase, k: nat)
    requires PastInv(p, phase)
    requires k < |p.sends| && !p.sends[k].written && Lasting(p.sends[k]) && !p.sends[k].fate.Confirmed?
    ensures LogOk(TypeOut(p, k))
  {
    var q := TypeOut(p, k);
    var ids := p.sends[k].ids;
    assert SendOk(p, phase, k);
    forall i | 0 <= i < |p.log|
      ensures p.log[i] !in ids
      ensures Holding(p, phase, k) ==> Before([p.log[i]], ids)
    {
      LoggedApart(p, phase, k, i);
    }
    forall id ensures id in q.log <==> TypedIn(q.sends, id) {
      if id in ids { assert q.sends[k].written && id in q.sends[k].ids; }
      if TypedIn(p.sends, id) {
        var l :| 0 <= l < |p.sends| && p.sends[l].written && id in p.sends[l].ids;
        assert q.sends[l].written && id in q.sends[l].ids;
      }
    }
    forall i, j | 0 <= i < j < |q.log|
      ensures q.log[i] != q.log[j] && (q.log[i] > q.log[j] ==> q.log[j] in q.given && Unsure(q.given[q.log[j]]))
    {
      if j >= |p.log| {
        assert q.log[j] == ids[j - |p.log|];
        if i >= |p.log| { assert q.log[i] == ids[i - |p.log|]; }
        else if Holding(p, phase, k) { assert Before([p.log[i]], ids) && q.log[i] == [p.log[i]][0]; }
        else { assert GivenUnsure(p, ids); }
      } else {
        assert q.log[i] == p.log[i] && q.log[j] == p.log[j];
      }
    }
  }

  /** What is in the log came from another send, and from an earlier one if this is the last. */
  lemma LoggedApart(p: Past, phase: Phase, k: nat, i: nat)
    requires PastInv(p, phase) && k < |p.sends| && !p.sends[k].written && Lasting(p.sends[k]) && i < |p.log|
    ensures p.log[i] !in p.sends[k].ids
    ensures Holding(p, phase, k) ==> Before([p.log[i]], p.sends[k].ids)
  {
    assert p.log[i] in p.log;
    var l :| 0 <= l < |p.sends| && p.sends[l].written && p.log[i] in p.sends[l].ids;
    assert SendOk(p, phase, l);
    var a :| 0 <= a < |p.sends[l].ids| && p.sends[l].ids[a] == p.log[i];
    if l < k {
      assert Before(p.sends[l].ids, p.sends[k].ids);
    } else {
      assert Before(p.sends[k].ids, p.sends[l].ids);
    }
  }

  lemma AnswerKeeps(p: Past, prompt: Prompt, result: DeliveryResult)
    requires PastInv(p, Flying)
    requires ProvesWritten(result) ==> p.sends[|p.sends| - 1].written
    requires ProvesNotWritten(result) ==> !p.sends[|p.sends| - 1].written
    ensures PastInv(Conclude(p, result, SettleDelivery(prompt, result)), Resting)
  {
    SettleTells(prompt, result);
    AnswerSends(p, prompt, result);
    AnswerPlaces(p, prompt, result);
    AnswerLog(p, prompt, result);
  }

  lemma AnswerLog(p: Past, prompt: Prompt, result: DeliveryResult)
    requires PastInv(p, Flying)
    requires ProvesWritten(result) ==> p.sends[|p.sends| - 1].written
    ensures LogOk(Conclude(p, result, SettleDelivery(prompt, result)))
  {
    var last := |p.sends| - 1;
    var q := Conclude(p, result, SettleDelivery(prompt, result));
    SettleTells(prompt, result);
    assert SendOk(p, Flying, last);
    TypedByIndex(p.sends, q.sends);
    LogSameWritten(p, q.(sent := p.sent));
    if ProvesWritten(result) {
      forall i | 0 <= i < |q.sent| ensures q.sent[i] in q.log {
        if i >= |p.sent| {
          assert q.sent[i] == p.sends[last].ids[i - |p.sent|];
          assert TypedIn(p.sends, q.sent[i]);
        }
      }
    }
  }

  lemma AnswerSends(p: Past, prompt: Prompt, result: DeliveryResult)
    requires PastInv(p, Flying)
    requires ProvesWritten(result) ==> p.sends[|p.sends| - 1].written
    requires ProvesNotWritten(result) ==> !p.sends[|p.sends| - 1].written
    ensures SendsOk(Conclude(p, result, SettleDelivery(prompt, result)), Resting)
  {
    var last := |p.sends| - 1;
    var q := Conclude(p, result, SettleDelivery(prompt, result));
    SettleTells(prompt, result);
    assert SendOk(p, Flying, last);
    assert Extends(p, q);
    AnswerLast(p, prompt, result);
    forall k | 0 <= k < last ensures SendOk(q, Resting, k) {
      assert SendOk(p, Flying, k);
      SendStays(p, q, Flying, Resting, k);
    }
  }

  lemma AnswerLast(p: Past, prompt: Prompt, result: DeliveryResult)
    requires PastInv(p, Flying)
    requires ProvesWritten(result) ==> p.sends[|p.sends| - 1].written
    requires ProvesNotWritten(result) ==> !p.sends[|p.sends| - 1].written
    ensures SendOk(Conclude(p, result, SettleDelivery(prompt, result)), Resting, |p.sends| - 1)
  {
    var q := Conclude(p, result, SettleDelivery(prompt, result));
    SettleTells(prompt, result);
    assert SendOk(p, Flying, |p.sends| - 1);
    if ProvesWritten(result) {
      var front, back := p.queue[..p.head], p.queue[p.head..];
      assert q.sent == p.sent + front && Before(front, back);
    }
  }

  lemma AnswerPlaces(p: Past, prompt: Prompt, result: DeliveryResult)
    requires PastInv(p, Flying)
    ensures Placed(Conclude(p, result, SettleDelivery(prompt, result)))
  {
    match SettleDelivery(prompt, result)
    case Kept(_) =>
    case Sent(_) => SentPlaced(p);
    case Returned(_, reason) => GivePlaced(p, reason);
  }

  lemma GivePlaced(p: Past, reason: Reason)
    requires Placed(p) && Within(p.queue, |p.drafts|)
    ensures Placed(GiveAll(p, reason))
  {
  }

  lemma SentPlaced(p: Past)
    requires Placed(p) && Ascending(p.queue) && Within(p.queue, |p.drafts|) && p.head <= |p.queue|
    ensures Placed(p.(sent := p.sent + p.queue[..p.head], queue := p.queue[p.head..]))
  {
    var front, back := p.queue[..p.head], p.queue[p.head..];
    assert p.queue == front + back;
    assert forall i :: i in p.queue <==> i in front || i in back;
    assert Before(front, back);
  }

  lemma DieKeeps(p: Past)
    requires PastInv(p, Flying)
    ensures PastInv(MarkLast(p, Orphaned), Cut)
  {
    var q := MarkLast(p, Orphaned);
    var last := |p.sends| - 1;
    assert SendOk(p, Flying, last);
    assert SendOk(q, Cut, last);
    assert Extends(p, q);
    forall k | 0 <= k < last ensures SendOk(q, Cut, k) {
      assert SendOk(p, Flying, k);
      SendStays(p, q, Flying, Cut, k);
    }
    TypedByIndex(p.sends, q.sends);
    LogSameWritten(p, q);
  }

  /** Death between the mark and the send leaves the mark and nothing on the wire. */
  lemma DieLeavingKeeps(p: Past)
    requires PastInv(p, Leaving)
    ensures PastInv(p.(head := 0), Cut)
  {
    SendsStay(p, p.(head := 0), Leaving, Cut);
    LogSameWritten(p, p.(head := 0));
  }

  lemma RecoverKeeps(p: Past)
    requires PastInv(p, Cut)
    ensures PastInv(GiveAll(p, Uncertain), Resting)
  {
    var q := GiveAll(p, Uncertain);
    assert Extends(p, q);
    forall k | 0 <= k < |q.sends| ensures SendOk(q, Resting, k) {
      assert SendOk(p, Cut, k);
      if !Holding(p, Cut, k) { SendStays(p, q, Cut, Resting, k); }
    }
    GivePlaced(p, Uncertain);
    LogSameWritten(p, q);
  }

  /** Sends that agree on what is written, and differ at most in an unwritten new one. */
  lemma TypedByIndex(s: seq<Send>, t: seq<Send>)
    requires |s| <= |t|
    requires forall k :: 0 <= k < |s| ==> t[k].ids == s[k].ids && t[k].written == s[k].written
    requires forall k :: |s| <= k < |t| ==> !t[k].written
    ensures forall id :: TypedIn(s, id) <==> TypedIn(t, id)
  {
    forall id | TypedIn(s, id) ensures TypedIn(t, id) {
      var k :| 0 <= k < |s| && s[k].written && id in s[k].ids;
      assert t[k].written;
    }
  }

  /** The log's meaning depends only on which drafts have been typed. */
  lemma LogSameWritten(p: Past, q: Past)
    requires LogOk(p) && q.log == p.log && q.sent == p.sent
    requires forall i :: i in p.given ==> i in q.given && q.given[i] == p.given[i]
    requires forall id :: TypedIn(p.sends, id) <==> TypedIn(q.sends, id)
    ensures LogOk(q)
  {
  }
}
