/** What the queued-prompt protocol promises, over every run of events. */
module ChatGuarantees {
  import opened JsText
  import opened Lists
  import opened ChatQueue
  import opened ChatView
  import opened ChatHistory
  import opened ChatProtocol

  /**
   * Never twice by itself: no accepted draft reaches the agent twice, and one that
   * waits in the queue with no delivery out was never written and no earlier send
   * can still write it.
   */
  lemma NeverTwice(es: seq<Event>)
    ensures var w := After(es);
            && Distinct(w.past.log)
            && (PhaseOf(w).Resting? ==> forall id :: id in w.past.queue ==> id !in w.past.log && OnlyRefuted(w.past, id))
  {
    EveryRun(es);
    var w := After(es);
    if PhaseOf(w).Resting? {
      forall id | id in w.past.queue ensures id !in w.past.log && OnlyRefuted(w.past, id) {
        RestingUnwritten(w.past, id);
      }
    }
  }

  /** Every send that carried this draft is known to have written nothing. */
  predicate OnlyRefuted(p: Past, id: nat) {
    forall k :: 0 <= k < |p.sends| && id in p.sends[k].ids ==> p.sends[k].fate.Refuted? && !p.sends[k].written
  }

  lemma RestingUnwritten(p: Past, id: nat)
    requires PastInv(p, Resting) && id in p.queue
    ensures id !in p.log && OnlyRefuted(p, id)
  {
    var j :| 0 <= j < |p.queue| && p.queue[j] == id;
    forall k | 0 <= k < |p.sends| && id in p.sends[k].ids
      ensures p.sends[k].fate.Refuted? && !p.sends[k].written
    {
      assert SendOk(p, Resting, k);
      var i :| 0 <= i < |p.sends[k].ids| && p.sends[k].ids[i] == id;
    }
    assert !TypedIn(p.sends, id);
  }

  /**
   * Between any two steps storage is exactly what the session's holder has: its
   * queue, marked `sending` precisely while a delivery is out, or its given-back
   * composer text, never both.
   */
  lemma StorageIsTheHolder(es: seq<Event>)
    ensures var w := After(es);
            Holder(w).Some? ==>
              && Holder(w).value in w.views
              && var v := w.views[Holder(w).value];
              && w.stored == Image(v)
              && !(v.queued.Some? && v.returned.Some?)
              && (QueueStored(w) ==> w.stored.value.sending == Delivering(w))
              && (Delivering(w) ==> QueueStored(w))
  {
    EveryRun(es);
  }

  /** Nothing dropped: each accepted draft is in exactly one place, and what was settled as sent was written. */
  lemma NothingDropped(es: seq<Event>, id: nat)
    requires id < |After(es).past.drafts|
    ensures var p := After(es).past;
            && (id in p.queue || id in p.sent || id in p.given || id in p.removed)
            && !(id in p.queue && (id in p.sent || id in p.given || id in p.removed))
            && !(id in p.sent && (id in p.given || id in p.removed))
            && !(id in p.given && id in p.removed)
            && (id in p.sent ==> id in p.log)
  {
    EveryRun(es);
  }

  /** What is being typed on screen, if anything is on screen. */
  function Typing(w: World): Str {
    if w.live.Some? && w.live.value in w.views then w.views[w.live.value].input else []
  }

  /** The session's entry is text given back for this reason: what was queued, then what was being typed. */
  predicate HandedBack(w: World, w': World, reason: Reason) {
    && QueueStored(w) && w'.stored.Some? && w'.stored.value.StoredReturned?
    && w'.stored.value.reason == reason && HoldsBoth(w'.stored.value.text, w.stored.value.text, Typing(w))
  }

  /** The controller on screen, if there is one, has the stored text in its composer. */
  predicate InComposer(w: World) {
    w.live.Some? ==> w.live.value in w.views && w.stored.Some? && w.views[w.live.value].input == w.stored.value.text
  }

  /**
   * A draft counts as given back only once its text is: it waited in the queue, the whole
   * queued text is stored as given back with that reason, in front of what was being typed,
   * and stands in the composer of whatever controller is on screen.
   */
  lemma GivenBackIsKept(es: seq<Event>, e: Event, id: nat)
    ensures var w, w' := After(es), Step(After(es), e);
            id in w'.past.given && id !in w.past.given ==>
              id in w.past.queue && HandedBack(w, w', w'.past.given[id]) && InComposer(w')
  {
    EveryRun(es);
    var w := After(es);
    StepKeeps(w, e);
    if Enabled(w, e) {
      if e.Reply? { ReplyHandsBack(w, e.result, id); }
      else if e.Create? { CreateHandsBack(w, id); }
      else { OthersGiveNothing(w, e); }
    }
  }

  lemma OthersGiveNothing(w: World, e: Event)
    requires !e.Reply? && !e.Create?
    ensures Step(w, e).past.given == w.past.given
  {
  }

  lemma CreateHandsBack(w: World, id: nat)
    requires Core(w) && Enabled(w, Create)
    ensures var w' := Step(w, Create);
            id in w'.past.given && id !in w.past.given ==>
              id in w.past.queue && HandedBack(w, w', w'.past.given[id]) && InComposer(w')
  {
    if PhaseOf(w).Cut? {
      GiveBackAgrees(View(None, false, None, []), w.stored.value.text, Uncertain);
    }
  }

  lemma ReplyHandsBack(w: World, result: DeliveryResult, id: nat)
    requires Core(w) && Enabled(w, Reply(result)) && PhoneInv(Step(w, Reply(result)))
    ensures var w' := Step(w, Reply(result));
            id in w'.past.given && id !in w.past.given ==>
              id in w.past.queue && HandedBack(w, w', w'.past.given[id]) && InComposer(w')
  {
    var f := w.flight.value;
    QueueSplits(w.past, w.stored.value.text);
    SettledStored(Turn(w.views[f.owner], w.stored), w.live != Some(f.owner), f.prompt, Rest(w.past), result);
  }

  /** Nothing left the queue: it is stored as it was, no longer marked, and its holder shows why it waits. */
  predicate StaysQueued(w: World, w': World, wait: Wait) {
    && w'.past.queue == w.past.queue && w'.past.given == w.past.given && w'.past.sent == w.past.sent
    && QueueStored(w) && w'.stored == Some(w.stored.value.(sending := false))
    && w.flight.Some? && w.flight.value.owner in w'.views
    && var v := w'.views[w.flight.value.owner];
    && !v.delivering && v.queued.Some? && v.queued.value.wait == Some(wait)
  }

  /** The queue is empty, and each draft of it counts as given back for this reason. */
  predicate AllGivenBack(w: World, w': World, reason: Reason) {
    && w'.past.queue == [] && w'.past.sent == w.past.sent
    && (forall id :: id in w.past.queue ==> id in w'.past.given && w'.past.given[id] == reason)
    && HandedBack(w, w', reason) && InComposer(w')
  }

  /**
   * A refusal leaves the queue waiting exactly when the agent was not idle, asked for
   * attention or did not say in time; any other gives every queued draft back under its code.
   */
  lemma RefusalKeepsOrReturns(es: seq<Event>, c: Option<Refusal>)
    requires Enabled(After(es), Reply(Answered(RefusedAnswer(c))))
    ensures var w, w' := After(es), Step(After(es), Reply(Answered(RefusedAnswer(c))));
            if c == Some(NotIdle) || c == Some(AttentionPending) || c == Some(ProbeTimeout)
            then StaysQueued(w, w', WaitRefused(c.value))
            else AllGivenBack(w, w', Refused(if c.Some? then c.value else UnknownRefusal))
  {
    EveryRun(es);
    SettleTells(After(es).flight.value.prompt, Answered(RefusedAnswer(c)));
    ReplySettles(After(es), Answered(RefusedAnswer(c)), Step(After(es), Reply(Answered(RefusedAnswer(c)))));
  }

  /** A failed send leaves the queue waiting exactly when it did not get out; otherwise all of it comes back as uncertain. */
  lemma FailureKeepsOrReturns(es: seq<Event>, e: Failure)
    requires Enabled(After(es), Reply(Failed(e)))
    ensures var w, w' := After(es), Step(After(es), Reply(Failed(e)));
            if e == HubUnreachable || e == HubComputerOffline || e == ServerUnreachable
            then StaysQueued(w, w', WaitUnreachable)
            else AllGivenBack(w, w', Uncertain)
  {
    EveryRun(es);
    SettleTells(After(es).flight.value.prompt, Failed(e));
    ReplySettles(After(es), Failed(e), Step(After(es), Reply(Failed(e))));
  }

  /** The drafts of the last send went from the front of the queue to the end of the sent ones. */
  predicate LastMoved(p: Past, q: Past) {
    && p.sends != [] && q.given == p.given
    && q.sent == p.sent + p.sends[|p.sends| - 1].ids
    && p.sends[|p.sends| - 1].ids + q.queue == p.queue
  }

  /** The part that was out counts as sent, and exactly what was added meanwhile still waits, for no reason. */
  predicate PartSent(w: World, w': World) {
    && LastMoved(w.past, w'.past)
    && (QueueStored(w') <==> w'.past.queue != []) && (w'.stored.Some? ==> QueueStored(w'))
    && w.flight.Some? && w.flight.value.owner in w'.views
    && var v := w'.views[w.flight.value.owner];
    && !v.delivering && (v.queued.Some? ==> v.queued.value.wait.None?)
  }

  /** An answer that the prompt was typed settles exactly its part; one that does not say gives everything back. */
  lemma AnswerSettles(es: seq<Event>, a: Answer)
    requires !a.RefusedAnswer? && Enabled(After(es), Reply(Answered(a)))
    ensures var w, w' := After(es), Step(After(es), Reply(Answered(a)));
            match a
            case WrittenToPty => PartSent(w, w')
            case LostAnswer => AllGivenBack(w, w', Uncertain)
            case OtherState => AllGivenBack(w, w', Refused(UnknownRefusal))
  {
    EveryRun(es);
    SettleTells(After(es).flight.value.prompt, Answered(a));
    ReplySettles(After(es), Answered(a), Step(After(es), Reply(Answered(a))));
  }

  lemma KeptStays(w: World, result: DeliveryResult, w': World)
    requires Core(w) && Enabled(w, Reply(result)) && w' == Step(w, Reply(result))
    requires var d := SettleDelivery(w.flight.value.prompt, result); d.Kept? && d.prompt.wait.Some?
    ensures StaysQueued(w, w', SettleDelivery(w.flight.value.prompt, result).prompt.wait.value)
  {
    var f := w.flight.value;
    QueueSplits(w.past, w.stored.value.text);
    SettledStored(Turn(w.views[f.owner], w.stored), w.live != Some(f.owner), f.prompt, Rest(w.past), result);
  }

  lemma ReturnedGivesAll(w: World, result: DeliveryResult, w': World)
    requires Core(w) && Enabled(w, Reply(result)) && w' == Step(w, Reply(result)) && PhoneInv(w')
    requires SettleDelivery(w.flight.value.prompt, result).Returned?
    ensures AllGivenBack(w, w', SettleDelivery(w.flight.value.prompt, result).reason)
  {
    var f := w.flight.value;
    QueueSplits(w.past, w.stored.value.text);
    SettledStored(Turn(w.views[f.owner], w.stored), w.live != Some(f.owner), f.prompt, Rest(w.past), result);
  }

  lemma ConcludeMoves(p: Past, result: DeliveryResult, text: Str)
    requires SendsOk(p, Flying) && p.head <= |p.queue|
    ensures LastMoved(p, Conclude(p, result, Sent(text)))
  {
    assert SendOk(p, Flying, |p.sends| - 1);
    assert p.queue == p.queue[..p.head] + p.queue[p.head..];
  }

  lemma SentView(w: World, result: DeliveryResult, w': World)
    requires Core(w) && Enabled(w, Reply(result)) && w' == Step(w, Reply(result))
    requires SettleDelivery(w.flight.value.prompt, result).Sent?
    ensures w.flight.value.owner in w'.views
    ensures var v := w'.views[w.flight.value.owner];
            !v.delivering && (v.queued.Some? ==> v.queued.value.wait.None?)
    ensures w'.stored.Some? ==> QueueStored(w')
    ensures w'.past == Conclude(w.past, result, SettleDelivery(w.flight.value.prompt, result))
  {
  }

  lemma ReplySettles(w: World, result: DeliveryResult, w': World)
    requires Inv(w) && Enabled(w, Reply(result)) && w' == Step(w, Reply(result))
    ensures var d := SettleDelivery(w.flight.value.prompt, result);
            && (d.Kept? && d.prompt.wait.Some? ==> StaysQueued(w, w', d.prompt.wait.value))
            && (d.Returned? ==> AllGivenBack(w, w', d.reason))
            && (d.Sent? ==> PartSent(w, w'))
  {
    StepKeeps(w, Reply(result));
    match SettleDelivery(w.flight.value.prompt, result)
    case Kept(p) => if p.wait.Some? { KeptStays(w, result, w'); }
    case Returned(_, _) => ReturnedGivesAll(w, result, w');
    case Sent(text) =>
      SentView(w, result, w');
      ConcludeMoves(w.past, result, text);
  }

  /** Only Edit and Cancel take drafts out, and Edit puts the whole queued text in front of what was being typed. */
  lemma TakenOutByThePerson(es: seq<Event>, e: Event, id: nat)
    ensures var w, w' := After(es), Step(After(es), e);
            id in w'.past.removed && id !in w.past.removed ==>
              && id in w.past.queue && (e.Edit? || e.Cancel?)
              && w'.live.Some? && w'.live.value in w'.views && QueueStored(w) && w'.stored.None?
              && (e.Edit? ==> HoldsBoth(w'.views[w'.live.value].input, w.stored.value.text, Typing(w)))
              && (e.Cancel? ==> Typing(w') == Typing(w))
  {
    EveryRun(es);
    if e.Edit? || e.Cancel? {
      TakesOut(After(es), e);
    } else {
      OthersTakeNothing(After(es), e);
    }
  }

  lemma OthersTakeNothing(w: World, e: Event)
    requires !e.Edit? && !e.Cancel?
    ensures Step(w, e).past.removed == w.past.removed
  {
  }

  lemma TakesOut(w: World, e: Event)
    requires Core(w) && (e.Edit? || e.Cancel?)
    ensures var w' := Step(w, e);
            w'.past.removed != w.past.removed ==>
              && (forall id :: id in w'.past.removed && id !in w.past.removed ==> id in w.past.queue)
              && w'.live.Some? && w'.live.value in w'.views && QueueStored(w) && w'.stored.None?
              && (e.Edit? ==> HoldsBoth(w'.views[w'.live.value].input, w.stored.value.text, Typing(w)))
              && (e.Cancel? ==> Typing(w') == Typing(w))
  {
    if e.Edit? && OnScreen(w) && QueueStored(w) { ReturnHoldsBoth(w.stored.value.text, Typing(w)); }
  }

  /** Given-back text stays stored as it is until the person types in the composer or submits it. */
  lemma OnlyThePersonClears(es: seq<Event>, e: Event)
    requires var w := After(es); w.stored.Some? && w.stored.value.StoredReturned?
    requires !e.Type? && !e.Submit?
    ensures Step(After(es), e).stored == After(es).stored
  {
    EveryRun(es);
  }

  /** A draft that may be sent and fits behind what waits joins it, last, and leaves the composer; any other changes nothing. */
  lemma SubmitDecides(es: seq<Event>, target: Target, nowMs: int)
    requires OnScreen(After(es))
    ensures var w, w' := After(es), Step(After(es), Submit(target, nowMs));
            var draft, n := LineFeeds(Typing(w)), |w.past.drafts|;
            if Sendable(draft) && (QueueStored(w) ==> Utf8Length(w.stored.value.text) + 2 + Utf8Length(draft) <= 3072)
            then && Typing(w') == [] && w'.past.drafts == w.past.drafts + [draft] && w'.past.queue == w.past.queue + [n]
                 && QueueStored(w') && w'.stored.value.sending == Delivering(w)
            else w' == w
  {
    EveryRun(es);
    SubmitStored(After(es), target, nowMs);
  }

  /** Whether a draft fits behind what waits. */
  predicate Fits(existing: Option<Prompt>, draft: Str) {
    Sendable(draft) && (existing.Some? ==> Utf8Length(existing.value.text) + 2 + Utf8Length(draft) <= 3072)
  }

  lemma SubmitTurn(t: Turn, target: Target, nowMs: int, t': Turn)
    requires t' == Submitted(t, target, nowMs) && (t.view.queued.Some? ==> Sendable(t.view.queued.value.text))
    ensures EnqueuePrompt(t.view.queued, t.view.input, target, nowMs).Queued? <==> Fits(t.view.queued, LineFeeds(t.view.input))
    ensures !Fits(t.view.queued, LineFeeds(t.view.input)) ==> t' == t
    ensures Fits(t.view.queued, LineFeeds(t.view.input)) ==>
              t'.view.input == [] && t'.stored.Some? && t'.stored.value.StoredQueued? && t'.stored.value.sending == t.view.delivering
  {
    EnqueueRule(t.view.queued, t.view.input, target, nowMs);
  }

  lemma SubmitStored(w: World, target: Target, nowMs: int)
    requires Core(w) && OnScreen(w)
    ensures var w' := Step(w, Submit(target, nowMs));
            var draft, n := LineFeeds(Typing(w)), |w.past.drafts|;
            if Fits(w.views[w.live.value].queued, draft)
            then && Typing(w') == [] && w'.past.drafts == w.past.drafts + [draft] && w'.past.queue == w.past.queue + [n]
                 && QueueStored(w') && w'.stored.value.sending == Delivering(w)
            else w' == w
  {
    var t := LiveTurn(w);
    SubmitTurn(t, target, nowMs, Submitted(t, target, nowMs));
    assert w.views[w.live.value := t.view] == w.views;
  }

  /** A controller opened while a delivery is out takes it over: it shows the whole stored queue as being sent. */
  lemma OpenedTakesOver(es: seq<Event>)
    requires Enabled(After(es), Create) && After(es).flight.Some?
    ensures var w, w' := After(es), Step(After(es), Create);
            && w'.live == Some(w.born) && w.born in w'.views && w'.flight.Some? && w'.flight.value.owner == w.born
            && QueueStored(w) && w'.stored == w.stored && w'.past == w.past
            && w'.views[w.born]
               == View(Some(Prompt(w.stored.value.text, w.stored.value.target, w.stored.value.queuedAtMs, None)), true, None, [])
  {
    EveryRun(es);
  }

  /** What is typed stands in the composer. Text given back follows it in storage, with its reason, until it is blank. */
  lemma TypingFollows(es: seq<Event>, text: Str)
    requires OnScreen(After(es))
    ensures var w, w' := After(es), Step(After(es), Type(text));
            && Typing(w') == text && w'.past == w.past
            && w'.stored == (if w.stored.None? || w.stored.value.StoredQueued? then w.stored
                             else if Blank(text) then None else Some(StoredReturned(text, w.stored.value.reason)))
  {
    EveryRun(es);
  }

  /** The queued text is the waiting drafts joined in submit order; so is each prompt handed over. */
  lemma TextsAreTheDrafts(es: seq<Event>)
    ensures var w := After(es);
            var p := w.past;
            && Ascending(p.queue) && Ascending(p.sent)
            && (QueueStored(w) <==> p.queue != [])
            && (QueueStored(w) ==> Within(p.queue, |p.drafts|) && w.stored.value.text == Text(p.drafts, p.queue))
            && (forall k :: 0 <= k < |p.sends| ==>
                  && Within(p.sends[k].ids, |p.drafts|)
                  && p.sends[k].text == Text(p.drafts, p.sends[k].ids)
                  && NormalizePrompt(p.sends[k].text) == Fine(p.sends[k].text))
  {
    EveryRun(es);
    var w := After(es);
    forall k | 0 <= k < |w.past.sends| ensures NormalizePrompt(w.past.sends[k].text) == Fine(w.past.sends[k].text) {
      SendableIsFixpoint(w.past.sends[k].text);
    }
  }

  /** How many of the waiting controllers settle a flight: those that find themselves its owner. */
  function Settlers(followers: seq<nat>, owner: nat): nat {
    if followers == [] then 0
    else (if followers[0] == owner then 1 else 0) + Settlers(followers[1..], owner)
  }

  lemma {:induction false} OneSettler(followers: seq<nat>, owner: nat)
    requires Distinct(followers)
    ensures Settlers(followers, owner) == if owner in followers then 1 else 0
  {
    if followers != [] {
      OneSettler(followers[1..], owner);
      assert owner in followers <==> owner == followers[0] || owner in followers[1..];
    }
  }

  /** At most one send is unanswered in a run of the app, and exactly one controller will settle it. */
  lemma OneFlightOneSettler(es: seq<Event>)
    ensures var w := After(es);
            && (forall k :: 0 <= k < |w.past.sends| && w.past.sends[k].fate.OnWire? ==>
                  w.flight.Some? && w.flight.value.send == k)
            && (w.flight.Some? ==>
                && Settlers(w.flight.value.followers, w.flight.value.owner) == 1
                && (w.live.Some? ==> w.flight.value.owner == w.live.value))
  {
    EveryRun(es);
    var w := After(es);
    forall k | 0 <= k < |w.past.sends| && w.past.sends[k].fate.OnWire?
      ensures w.flight.Some? && w.flight.value.send == k
    {
      assert SendOk(w.past, PhaseOf(w), k);
    }
    if w.flight.Some? { OneSettler(w.flight.value.followers, w.flight.value.owner); }
  }

  /**
   * The app may die after any run and be opened again: a queue at rest comes back
   * as it was, a marked one is given back whole as uncertain, given-back text comes
   * back with its reason.
   */
  lemma DeathLosesNothing(es: seq<Event>)
    ensures var w := After(es);
            var r := Step(Step(w, Crash), Create);
            && r.live.Some? && r.live.value in r.views
            && var v := r.views[r.live.value];
            match w.stored
            case None => v == View(None, false, None, [])
            case Some(StoredReturned(text, reason)) => v == View(None, false, Some(reason), text)
            case Some(StoredQueued(text, target, at, sending)) =>
              if !sending then v == View(Some(Prompt(text, target, at, None)), false, None, []) && r.past.queue == w.past.queue
              else v == View(None, false, Some(Uncertain), text)
                   && r.past.queue == []
                   && (forall id :: id in w.past.queue ==> id in r.past.given && r.past.given[id] == Uncertain)
  {
    EveryRun(es);
    Reopened(After(es));
  }

  lemma Reopened(w: World)
    requires Core(w) && Enabled(w, Crash)
    ensures var r := Step(Step(w, Crash), Create);
            && r.live.Some? && r.live.value in r.views
            && r.views[r.live.value] == Created(w.stored, None).view
            && r.past.queue == (if QueueStored(w) && w.stored.value.sending then [] else w.past.queue)
            && (forall id :: id in w.past.queue && r.past.queue == [] ==>
                  id in r.past.given && r.past.given[id] == Uncertain)
  {
    var c := Step(w, Crash);
    assert c.live.None? && c.leaving.None? && c.flight.None? && c.stored == w.stored && c.past.queue == w.past.queue;
  }

  /** A prompt leaves only when the agent is seen idle, and then it is everything that is queued. */
  lemma LeavesWhenIdle(es: seq<Event>, e: Event)
    ensures var w, w' := After(es), Step(After(es), e);
            && (w.leaving.None? && w'.leaving.Some? ==> e == Mark(Idle) && w'.past.head == |w.past.queue| > 0)
            && (e == Mark(Idle) && OnScreen(w) && QueueStored(w) && !Delivering(w) ==>
                  w'.leaving.Some? && w'.leaving.value.text == w.stored.value.text
                  && w'.leaving.value.target == w.stored.value.target && w'.stored == Some(w.stored.value.(sending := true)))
  {
    EveryRun(es);
  }

  /** As long as something is queued, it stays addressed to the same terminal and conversation. */
  lemma TargetStays(es: seq<Event>, e: Event)
    ensures var w := After(es);
            var w' := Step(w, e);
            QueueStored(w) && QueueStored(w') ==> w'.stored.value.target == w.stored.value.target
  {
    EveryRun(es);
    if e.Submit? { SubmitKeepsTarget(After(es), e); }
    else if e.Reply? { ReplyKeepsTarget(After(es), e); }
    else { OthersKeepTarget(After(es), e); }
  }

  lemma SubmitKeepsTarget(w: World, e: Event)
    requires Core(w) && e.Submit?
    ensures QueueStored(w) && QueueStored(Step(w, e)) ==> Step(w, e).stored.value.target == w.stored.value.target
  {
    if Enabled(w, e) {
      var t := LiveTurn(w);
      EnqueueRule(t.view.queued, t.view.input, e.target, e.nowMs);
    }
  }

  lemma ReplyKeepsTarget(w: World, e: Event)
    requires Core(w) && e.Reply?
    ensures QueueStored(w) && QueueStored(Step(w, e)) ==> Step(w, e).stored.value.target == w.stored.value.target
  {
    if Enabled(w, e) {
      var f := w.flight.value;
      QueueSplits(w.past, w.stored.value.text);
      SettledStored(Turn(w.views[f.owner], w.stored), w.live != Some(f.owner), f.prompt, Rest(w.past), e.result);
    }
  }

  lemma OthersKeepTarget(w: World, e: Event)
    requires Core(w) && !e.Submit? && !e.Reply?
    ensures QueueStored(w) && QueueStored(Step(w, e)) ==> Step(w, e).stored.value.target == w.stored.value.target
  {
  }

  /**
   * Prompts settled as sent are in submit order, and whatever was typed after a later
   * draft had been given back first for a reason that does not rule a write out.
   */
  lemma WrittenInOrder(es: seq<Event>)
    ensures var p := After(es).past;
            && Ascending(p.sent)
            && (forall i, j :: 0 <= i < j < |p.log| && p.log[i] > p.log[j] ==>
                  p.log[j] in p.given && Unsure(p.given[p.log[j]]))
  {
    EveryRun(es);
  }

  /**
   * Text given back was written only if the reason shown does not rule it out, and it was
   * carried by a send that no answer decided: without a warning only by one whose answer
   * came in a state this build does not know.
   */
  lemma GivenBackHonestly(es: seq<Event>, id: nat)
    requires id in After(es).past.given
    ensures var p := After(es).past;
            && (id in p.log ==> Unsure(p.given[id]) && exists k: nat :: CarriedBy(p, id, k) && Undecided(p.sends[k].fate))
            && (id in p.log && p.given[id] != Uncertain ==> exists k: nat :: CarriedBy(p, id, k) && p.sends[k].fate.Doubtful?)
  {
    EveryRun(es);
    var w := After(es);
    var p := w.past;
    if id in p.log {
      var k :| 0 <= k < |p.sends| && p.sends[k].written && id in p.sends[k].ids;
      assert CarriedBy(p, id, k) && SendOk(p, PhaseOf(w), k);
      var i :| 0 <= i < |p.sends[k].ids| && p.sends[k].ids[i] == id;
    }
  }

  /** A send that typed this draft. */
  predicate CarriedBy(p: Past, id: nat, k: nat) {
    k < |p.sends| && p.sends[k].written && id in p.sends[k].ids
  }

  /** Answered without saying whether it wrote, or never answered. */
  predicate Undecided(fate: Fate) { fate.Doubtful? || fate.Orphaned? }

  // ── Two stronger claims that fail ──────────────────────────────────────────

  /** The queue of one draft, handed to the channel by the controller on screen. */
  predicate JustHanded(w: World, id: nat, text: Str) {
    && w.leaving.None? && w.live == Some(0) && w.born == 1 && 0 in w.views
    && w.flight == Some(Out(Prompt(text, TARGET, 0, None), 0, [0], id))
    && w.views[0] == View(Some(Prompt(text, TARGET, 0, None)), true, None, [])
    && w.past.queue == [id] && w.past.head == 1 && |w.past.drafts| == id + 1 && |w.past.sends| == id + 1
    && w.past.sends[id] == Send(text, TARGET, [id], OnWire, false)
    && w.past.log == []
  }

  const TARGET: Target := Target([], None)

  const LETTER: Str := [0x61]

  lemma LetterIsSendable()
    ensures Sendable(LETTER) && LineFeeds(LETTER) == LETTER && NormalizePrompt(LETTER) == Fine(LETTER)
  {
    assert !IsSpace(LETTER[0]);
    assert LETTER[1..] == [];
  }

  lemma AfterSplit(es: seq<Event>, e: Event)
    ensures After(es + [e]) == Step(After(es), e)
  {
    assert (es + [e])[..|es|] == es;
  }

  /** Some run leads here. */
  ghost predicate Reached(w: World) {
    exists es :: After(es) == w
  }

  lemma ReachedOn(w: World, e: Event)
    requires Reached(w)
    ensures Reached(Step(w, e))
  {
    var es :| After(es) == w;
    AfterSplit(es, e);
  }

  /** A controller on screen with nothing queued and nothing out, and so far nothing written. */
  predicate Empty(w: World, id: nat) {
    && w.leaving.None? && w.flight.None? && w.live == Some(0) && w.born == 1 && 0 in w.views
    && !w.views[0].delivering && w.views[0].queued.None?
    && w.past.queue == [] && |w.past.drafts| == id && |w.past.sends| == id && w.past.log == []
  }

  lemma FirstOpened() returns (w: World)
    ensures Reached(w) && Empty(w, 0)
  {
    assert After([]) == START;
    ReachedOn(START, Create);
    w := Step(START, Create);
  }

  /** Typing and submitting a letter. */
  function Lettered(w: World): World {
    Step(Step(w, Type(LETTER)), Submit(TARGET, 0))
  }

  /** And handing it over. */
  function Handed(w: World): World {
    Step(Step(w, Mark(Idle)), Launch)
  }

  lemma LetterQueued(w: World, id: nat)
    requires Empty(w, id)
    ensures var w' := Lettered(w);
            && w'.leaving.None? && w'.flight.None? && w'.live == Some(0) && w'.born == 1 && 0 in w'.views
            && w'.views[0] == View(Some(Prompt(LETTER, TARGET, 0, None)), false, None, [])
            && w'.past.queue == [id] && |w'.past.drafts| == id + 1 && w'.past.sends == w.past.sends && w'.past.log == []
  {
    LetterIsSendable();
    assert Step(w, Type(LETTER)).views[0].input == LETTER;
  }

  /** From an idle controller, that puts it on the wire. */
  lemma HandsOver(w: World, id: nat)
    requires Empty(w, id)
    ensures JustHanded(Handed(Lettered(w)), id, LETTER) && Handed(Lettered(w)).past.sends[..id] == w.past.sends
    ensures Reached(w) ==> Reached(Handed(Lettered(w)))
  {
    LetterQueued(w, id);
    if Reached(w) {
      ReachedOn(w, Type(LETTER));
      ReachedOn(Step(w, Type(LETTER)), Submit(TARGET, 0));
      ReachedOn(Lettered(w), Mark(Idle));
      ReachedOn(Step(Lettered(w), Mark(Idle)), Launch);
    }
  }

  lemma LosesAnswer(w: World)
    requires JustHanded(w, 0, LETTER)
    ensures var w' := Step(w, Reply(Answered(LostAnswer)));
            Empty(w', 1) && w'.past.sends == [Send(LETTER, TARGET, [0], Doubtful, false)]
  {
  }

  /** Submit order is not always the order of writing: an answer lost, a second prompt, a late write. */
  lemma LateWriteOvertakes()
    ensures exists es :: After(es).past.log == [1, 0]
  {
    var w0 := FirstOpened();
    HandsOver(w0, 0);
    var w1 := Handed(Lettered(w0));
    LosesAnswer(w1);
    ReachedOn(w1, Reply(Answered(LostAnswer)));
    var w2 := Step(w1, Reply(Answered(LostAnswer)));
    HandsOver(w2, 1);
    BothWritten(Handed(Lettered(w2)));
  }

  lemma BothWritten(w: World)
    requires Reached(w) && JustHanded(w, 1, LETTER)
    requires w.past.sends[..1] == [Send(LETTER, TARGET, [0], Doubtful, false)]
    ensures exists es :: After(es).past.log == [1, 0]
  {
    assert w.past.sends[0] == w.past.sends[..1][0];
    var v := Step(w, Write(1));
    ReachedOn(w, Write(1));
    ReachedOn(v, Write(0));
    assert Step(v, Write(0)).past.log == [1, 0];
  }

  /** An answer state this build does not know gives written text back as a plain refusal. */
  lemma UnknownStateHidesAWrite()
    ensures exists es :: var p := After(es).past; 0 in p.log && 0 in p.given && p.given[0] == Refused(UnknownRefusal)
  {
    var w0 := FirstOpened();
    HandsOver(w0, 0);
    WrittenThenUnknown(Handed(Lettered(w0)));
  }

  lemma WrittenThenUnknown(w: World)
    requires Reached(w) && JustHanded(w, 0, LETTER)
    ensures exists es :: var p := After(es).past; 0 in p.log && 0 in p.given && p.given[0] == Refused(UnknownRefusal)
  {
    var v := Step(w, Write(0));
    ReachedOn(w, Write(0));
    ReachedOn(v, Reply(Answered(OtherState)));
    UnknownGivesBack(v);
  }

  lemma UnknownGivesBack(w: World)
    requires Enabled(w, Reply(Answered(OtherState))) && 0 in w.past.log && 0 in w.past.queue
    ensures var p := Step(w, Reply(Answered(OtherState))).past;
            0 in p.log && 0 in p.given && p.given[0] == Refused(UnknownRefusal)
  {
  }
}
