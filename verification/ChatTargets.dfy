/** Which conversation each accepted draft is addressed to when it goes out. */
module ChatTargets {
  import opened JsText
  import opened ChatQueue
  import opened ChatView
  import opened ChatHistory
  import opened ChatProtocol
  import opened ChatGuarantees

  /** The target a draft was submitted for, and the one it was queued under. */
  datatype Submission = Submission(asked: Target, under: Target)

  /** The step takes a draft into the queue. */
  predicate Accepts(w: World, e: Event) {
    e.Submit? && |Step(w, e).past.drafts| > |w.past.drafts|
  }

  function QueuedUnder(w: World, target: Target): Target {
    if QueueStored(w) then w.stored.value.target else target
  }

  /** One submission for each accepted draft, in order. */
  function Submissions(es: seq<Event>): seq<Submission> {
    if es == [] then []
    else
      var w, e := After(es[..|es| - 1]), es[|es| - 1];
      Submissions(es[..|es| - 1]) + if Accepts(w, e) then [Submission(e.target, QueuedUnder(w, e.target))] else []
  }

  /** All of these drafts were queued under the target. */
  predicate Under(subs: seq<Submission>, ids: seq<nat>, target: Target) {
    forall i :: 0 <= i < |ids| ==> ids[i] < |subs| && subs[ids[i]].under == target
  }

  predicate Addressed(w: World, subs: seq<Submission>) {
    && |subs| == |w.past.drafts|
    && (QueueStored(w) ==> Under(subs, w.past.queue, w.stored.value.target))
    && (forall k :: 0 <= k < |w.past.sends| ==> Under(subs, w.past.sends[k].ids, w.past.sends[k].target))
  }

  lemma UnderMore(subs: seq<Submission>, more: seq<Submission>, ids: seq<nat>, target: Target)
    requires Under(subs, ids, target) && subs <= more
    ensures Under(more, ids, target)
  {
  }

  // ── What a step does to the sends and to the queue ─────────────────────────

  /** Apart from a launch, a step leaves what each send carries and where it goes. */
  predicate SameSends(w: World, w': World) {
    && |w'.past.sends| == |w.past.sends|
    && forall k :: 0 <= k < |w.past.sends| ==>
         w'.past.sends[k].ids == w.past.sends[k].ids && w'.past.sends[k].target == w.past.sends[k].target
  }

  lemma SendsStaySo(w: World, e: Event)
    requires !e.Launch?
    ensures SameSends(w, Step(w, e))
  {
    if Enabled(w, e) && e.Reply? { ReplySends(w, e.result, Step(w, e)); }
  }

  /** What waits after a step waited before it, unless it is the draft just taken in. */
  predicate QueueFrom(w: World, w': World, e: Event) {
    forall j :: 0 <= j < |w'.past.queue| ==>
      w'.past.queue[j] in w.past.queue || (Accepts(w, e) && w'.past.queue[j] == |w.past.drafts|)
  }

  lemma QueueComesFrom(w: World, e: Event)
    ensures QueueFrom(w, Step(w, e), e)
    ensures |Step(w, e).past.drafts| == |w.past.drafts| + if Accepts(w, e) then 1 else 0
  {
  }

  lemma OpensQueue(w: World, e: Event)
    requires Inv(w) && QueueStored(Step(w, e)) && !QueueStored(w)
    ensures Accepts(w, e) && Step(w, e).stored.value.target == e.target
  {
    StepKeeps(w, e);
    QueueComesFrom(w, e);
    assert Step(w, e).past.queue[0] in Step(w, e).past.queue;
    assert Accepts(w, e);
    EnqueueRule(LiveTurn(w).view.queued, LiveTurn(w).view.input, e.target, e.nowMs);
  }

  lemma QueueAddressed(es: seq<Event>, e: Event, subs: seq<Submission>, subs': seq<Submission>)
    requires Addressed(After(es), subs) && QueueStored(Step(After(es), e))
    requires var w := After(es);
             subs' == subs + if Accepts(w, e) then [Submission(e.target, QueuedUnder(w, e.target))] else []
    ensures Under(subs', Step(After(es), e).past.queue, Step(After(es), e).stored.value.target)
  {
    var w, w' := After(es), Step(After(es), e);
    EveryRun(es);
    QueueComesFrom(w, e);
    if QueueStored(w) {
      TargetStays(es, e);
    } else {
      OpensQueue(w, e);
    }
    forall j | 0 <= j < |w'.past.queue|
      ensures w'.past.queue[j] < |subs'| && subs'[w'.past.queue[j]].under == w'.stored.value.target
    {
      if w'.past.queue[j] in w.past.queue {
        var l :| 0 <= l < |w.past.queue| && w.past.queue[l] == w'.past.queue[j];
      }
    }
  }

  lemma LaunchAddressed(w: World, subs: seq<Submission>)
    requires Inv(w) && Addressed(w, subs) && Enabled(w, Launch)
    ensures var w' := Step(w, Launch);
            forall k :: 0 <= k < |w'.past.sends| ==> Under(subs, w'.past.sends[k].ids, w'.past.sends[k].target)
  {
    var v := w.views[w.live.value];
    assert v.queued == w.leaving && Agrees(Turn(v, w.stored));
  }

  lemma SendsAddressed(w: World, e: Event, subs: seq<Submission>, subs': seq<Submission>)
    requires Inv(w) && Addressed(w, subs) && subs <= subs'
    ensures var w' := Step(w, e);
            forall k :: 0 <= k < |w'.past.sends| ==> Under(subs', w'.past.sends[k].ids, w'.past.sends[k].target)
  {
    var w' := Step(w, e);
    if e.Launch? {
      if Enabled(w, e) { LaunchAddressed(w, subs); }
    } else {
      SendsStaySo(w, e);
    }
    forall k | 0 <= k < |w'.past.sends| ensures Under(subs', w'.past.sends[k].ids, w'.past.sends[k].target) {
      assert Under(subs, w'.past.sends[k].ids, w'.past.sends[k].target);
      UnderMore(subs, subs', w'.past.sends[k].ids, w'.past.sends[k].target);
    }
  }

  lemma {:induction false} EveryAddress(es: seq<Event>)
    ensures Addressed(After(es), Submissions(es))
  {
    if es != [] {
      var rest, e := es[..|es| - 1], es[|es| - 1];
      EveryAddress(rest);
      EveryRun(rest);
      QueueComesFrom(After(rest), e);
      SendsAddressed(After(rest), e, Submissions(rest), Submissions(es));
      if QueueStored(After(es)) { QueueAddressed(rest, e, Submissions(rest), Submissions(es)); }
    }
  }

  // ── Where a draft goes ─────────────────────────────────────────────────────

  lemma {:induction false} SubmissionsLast(es: seq<Event>, later: seq<Event>)
    ensures Submissions(es) <= Submissions(es + later)
    decreases |later|
  {
    if later == [] {
      assert es + later == es;
    } else {
      var rest := later[..|later| - 1];
      assert (es + later)[..|es + later| - 1] == es + rest;
      SubmissionsLast(es, rest);
    }
  }

  /** Every send goes to the target its drafts were queued under: the one the queue held, or opened with. */
  lemma SentUnder(es: seq<Event>, k: nat, i: nat)
    requires k < |After(es).past.sends| && i < |After(es).past.sends[k].ids|
    ensures var send := After(es).past.sends[k];
            send.ids[i] < |Submissions(es)| && send.target == Submissions(es)[send.ids[i]].under
  {
    EveryAddress(es);
    assert Under(Submissions(es), After(es).past.sends[k].ids, After(es).past.sends[k].target);
  }

  /**
   * Whatever happens later, a draft goes out to the conversation it was submitted for
   * exactly when the queue was empty at that moment or held something for the same one.
   */
  lemma OwnTarget(es: seq<Event>, target: Target, nowMs: int, later: seq<Event>, k: nat)
    requires Accepts(After(es), Submit(target, nowMs))
    requires var p := After(es + [Submit(target, nowMs)] + later).past;
             k < |p.sends| && |After(es).past.drafts| in p.sends[k].ids
    ensures var w := After(es);
            After(es + [Submit(target, nowMs)] + later).past.sends[k].target == target
            <==> !QueueStored(w) || w.stored.value.target == target
  {
    var e := Submit(target, nowMs);
    var now, all := es + [e], es + [e] + later;
    var id := |After(es).past.drafts|;
    EveryAddress(es);
    assert now[..|es|] == es;
    SubmissionsLast(now, later);
    assert Submissions(now)[id] == Submission(target, QueuedUnder(After(es), target));
    var send := After(all).past.sends[k];
    var i :| 0 <= i < |send.ids| && send.ids[i] == id;
    SentUnder(all, k, i);
  }

  const ELSEWHERE: Target := Target([], Some([0x62]))

  /** A draft added to another conversation's prompt goes out there with it. */
  lemma AddedGoesElsewhere()
    ensures exists es :: var p := After(es).past;
              && |p.sends| == 1 && p.sends[0].ids == [0, 1] && p.sends[0].target == TARGET
              && |Submissions(es)| == 2 && Submissions(es)[1].asked == ELSEWHERE
  {
    var w0 := FirstOpened();
    LetterQueued(w0, 0);
    ReachedOn(w0, Type(LETTER));
    ReachedOn(Step(w0, Type(LETTER)), Submit(TARGET, 0));
    ReachedOn(Lettered(w0), Type(LETTER));
    var w1 := Step(Lettered(w0), Type(LETTER));
    SecondJoins(w1);
    var es :| After(es) == w1;
    JoinedGoesOut(es);
    var e :| SentTogether(e);
  }

  /** One letter is queued for the first conversation, and another typed. */
  predicate SecondTyped(w: World) {
    && w.leaving.None? && w.flight.None? && w.live == Some(0) && 0 in w.views
    && w.views[0] == View(Some(Prompt(LETTER, TARGET, 0, None)), false, None, LETTER)
    && w.past.queue == [0] && |w.past.drafts| == 1 && w.past.sends == []
  }

  /** Submitted for another conversation, it joins the first. */
  lemma SecondJoins(w: World)
    requires SecondTyped(w)
    ensures var w' := Step(w, Submit(ELSEWHERE, 0));
            && Accepts(w, Submit(ELSEWHERE, 0)) && Waits(w', TARGET)
            && w'.past.queue == [0, 1] && |w'.past.drafts| == 2
  {
    TwoLetters();
  }

  /** Something is queued for this target, nothing is out and nothing ever was. */
  predicate Waits(w: World, target: Target) {
    && w.leaving.None? && w.flight.None? && w.live == Some(0) && 0 in w.views && w.past.sends == []
    && w.views[0].queued.Some? && w.views[0].queued.value.target == target && !w.views[0].delivering
  }

  lemma QueueGoesOut(w: World, target: Target)
    requires Waits(w, target)
    ensures var p := Handed(w).past;
            && |p.sends| == 1 && p.sends[0].ids == w.past.queue && p.sends[0].target == target && p.drafts == w.past.drafts
  {
  }

  /** A run that has sent both letters to the first conversation. */
  ghost predicate SentTogether(es: seq<Event>) {
    var p := After(es).past;
    && |p.sends| == 1 && p.sends[0].ids == [0, 1] && p.sends[0].target == TARGET
    && |Submissions(es)| == 2 && Submissions(es)[1].asked == ELSEWHERE
  }

  lemma AfterHanded(es: seq<Event>)
    ensures After(es + [Mark(Idle)] + [Launch]) == Handed(After(es))
    ensures Submissions(es) <= Submissions(es + [Mark(Idle)] + [Launch])
  {
    AfterSplit(es, Mark(Idle));
    AfterSplit(es + [Mark(Idle)], Launch);
    SubmissionsLast(es, [Mark(Idle)]);
    SubmissionsLast(es + [Mark(Idle)], [Launch]);
  }

  lemma JoinedGoesOut(es: seq<Event>)
    requires SecondTyped(After(es))
    ensures exists es :: SentTogether(es)
  {
    var e1 := es + [Submit(ELSEWHERE, 0)];
    SecondJoins(After(es));
    AfterSplit(es, Submit(ELSEWHERE, 0));
    SecondSubmission(es, e1);
    BothGoOut(e1);
  }

  lemma BothGoOut(es: seq<Event>)
    requires Waits(After(es), TARGET) && After(es).past.queue == [0, 1] && |After(es).past.drafts| == 2
    requires |Submissions(es)| == 2 && Submissions(es)[1].asked == ELSEWHERE
    ensures exists es :: SentTogether(es)
  {
    var e2 := es + [Mark(Idle)] + [Launch];
    QueueGoesOut(After(es), TARGET);
    AfterHanded(es);
    EveryAddress(e2);
    assert SentTogether(e2);
  }

  lemma SecondSubmission(es: seq<Event>, e1: seq<Event>)
    requires SecondTyped(After(es)) && e1 == es + [Submit(ELSEWHERE, 0)] && Accepts(After(es), Submit(ELSEWHERE, 0))
    ensures |Submissions(e1)| == 2 && Submissions(e1)[1].asked == ELSEWHERE
  {
    EveryAddress(es);
    assert e1[..|es|] == es;
  }

  lemma TwoLetters()
    ensures NormalizePrompt(LETTER + QUEUE_JOINER + LETTER) == Fine(LETTER + QUEUE_JOINER + LETTER)
    ensures NormalizePrompt(LETTER) == Fine(LETTER)
  {
    LetterIsSendable();
    assert !Blank(LETTER) by { assert !IsSpace(LETTER[0]); }
    JoinSendable(LETTER, LETTER);
    assert Utf8Length(LETTER) == 1 by { assert LETTER[1..] == []; }
    SendableIsFixpoint(LETTER + QUEUE_JOINER + LETTER);
  }
}
