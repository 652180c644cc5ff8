/**
 * One session's queued prompt over every run of the app: controllers come and go,
 * answers are lost, the app dies between any two steps. The handlers are those of
 * `ChatView`; `ChatHistory` remembers what became of each accepted draft.
 */
module ChatProtocol {
  import opened JsText
  import opened Lists
  import opened ChatQueue
  import opened ChatView
  import opened ChatHistory

  /** An entry of `flights`, with the controllers that wait for its answer. */
  datatype Out = Out(prompt: Prompt, owner: nat, followers: seq<nat>, send: nat)

  datatype World = World(
    views: map<nat, View>, born: nat, live: Option<nat>,
    leaving: Option<Prompt>,  // marked in storage, not yet handed to `send`
    flight: Option<Out>,
    stored: Option<Stored>,
    past: Past)

  datatype Event =
    | Submit(target: Target, nowMs: int)
    | Edit
    | Cancel
    | Type(text: Str)
    | Mark(readiness: Readiness)
    | Launch
    | Write(send: nat)
    | Reply(result: DeliveryResult)
    | Dispose
    | Create
    | Crash

  const START: World := World(map[], 0, None, None, None, None, NOTHING)

  // ── Steps ──────────────────────────────────────────────────────────────────

  predicate OnScreen(w: World) {
    w.leaving.None? && w.live.Some? && w.live.value in w.views
  }

  /**
   * A handler runs to its end, so between the mark and the send only the app's
   * death or the far side can act. The far side types a prompt at most once, and
   * its answers are true: a refusal or a not-sent error means nothing was typed,
   * `written_to_pty` that it was.
   */
  predicate Enabled(w: World, e: Event) {
    match e
    case Submit(_, _) => OnScreen(w)
    case Edit => OnScreen(w)
    case Cancel => OnScreen(w)
    case Type(_) => OnScreen(w)
    case Mark(readiness) =>
      OnScreen(w) && DeliveryDue(w.views[w.live.value].queued, readiness, w.views[w.live.value].delivering)
    case Launch => w.leaving.Some? && w.live.Some?
    case Write(k) =>
      && k < |w.past.sends| && !w.past.sends[k].written
      && Lasting(w.past.sends[k]) && !w.past.sends[k].fate.Confirmed?
    case Reply(result) =>
      && w.leaving.None? && w.flight.Some? && w.flight.value.owner in w.views
      && w.past.sends != [] && w.past.head <= |w.past.queue|
      && (ProvesWritten(result) ==> w.past.sends[|w.past.sends| - 1].written)
      && (ProvesNotWritten(result) ==> !w.past.sends[|w.past.sends| - 1].written)
    case Dispose => w.leaving.None? && w.live.Some?
    case Create => w.leaving.None? && w.live.None?
    case Crash => w.flight.Some? ==> w.past.sends != []
  }

  function LiveTurn(w: World): Turn
    requires OnScreen(w)
  {
    Turn(w.views[w.live.value], w.stored)
  }

  function Put(w: World, id: nat, t: Turn): World {
    w.(views := w.views[id := t.view], stored := t.stored)
  }

  function SubmitStep(w: World, target: Target, nowMs: int): World
    requires OnScreen(w)
  {
    var t := LiveTurn(w);
    var w' := Put(w, w.live.value, Submitted(t, target, nowMs));
    if EnqueuePrompt(t.view.queued, t.view.input, target, nowMs).Invalid? then w'
    else w'.(past := Accept(w.past, LineFeeds(t.view.input)))
  }

  /** Edit and Cancel take the whole queue out, unless it is being delivered. */
  function RemoveStep(w: World, after: Turn): World
    requires OnScreen(w)
  {
    var v := w.views[w.live.value];
    var w' := Put(w, w.live.value, after);
    if v.queued.None? || v.delivering then w' else w'.(past := TakeOut(w.past))
  }

  function MarkStep(w: World): World
    requires OnScreen(w)
  {
    var t := LiveTurn(w);
    Put(w, w.live.value, Marked(t)).(leaving := t.view.queued, past := Depart(w.past))
  }

  function LaunchStep(w: World): World
    requires w.leaving.Some? && w.live.Some?
  {
    var p := w.leaving.value;
    w.(leaving := None,
       flight := Some(Out(p, w.live.value, [w.live.value], |w.past.sends|)),
       past := HandOver(w.past, p.text, p.target))
  }

  function ReplyStep(w: World, result: DeliveryResult): World
    requires Enabled(w, Reply(result))
  {
    var f := w.flight.value;
    var t := Turn(w.views[f.owner], w.stored);
    Put(w, f.owner, Settled(t, w.live != Some(f.owner), f.prompt, result))
      .(flight := None, past := Conclude(w.past, result, SettleDelivery(f.prompt, result)))
  }

  function CreateStep(w: World): World {
    var t := Created(w.stored, if w.flight.Some? then Some(w.flight.value.prompt) else None);
    var w' := Put(w, w.born, t).(live := Some(w.born), born := w.born + 1);
    if w.flight.Some? then
      w'.(flight := Some(w.flight.value.(owner := w.born, followers := w.flight.value.followers + [w.born])))
    else if QueueStored(w) && w.stored.value.sending then w'.(past := GiveAll(w.past, Uncertain))
    else w'
  }

  /** The app dies: only storage and what is on the wire are left. */
  function CrashStep(w: World): World
    requires w.flight.Some? ==> w.past.sends != []
  {
    w.(views := map[], live := None, leaving := None, flight := None,
       past := if w.flight.Some? then MarkLast(w.past, Orphaned) else w.past.(head := 0))
  }

  function Step(w: World, e: Event): World {
    if !Enabled(w, e) then w
    else match e
      case Submit(target, nowMs) => SubmitStep(w, target, nowMs)
      case Edit => RemoveStep(w, Edited(LiveTurn(w)))
      case Cancel => RemoveStep(w, Cancelled(LiveTurn(w)))
      case Type(text) => Put(w, w.live.value, Typed(LiveTurn(w), text))
      case Mark(_) => MarkStep(w)
      case Launch => LaunchStep(w)
      case Write(k) => w.(past := TypeOut(w.past, k))
      case Reply(result) => ReplyStep(w, result)
      case Dispose => w.(live := None)
      case Create => CreateStep(w)
      case Crash => CrashStep(w)
  }

  /** The world after any sequence of events. */
  function After(es: seq<Event>): World {
    if es == [] then START else Step(After(es[..|es| - 1]), es[|es| - 1])
  }

  // ── What every step keeps ──────────────────────────────────────────────────

  /** The controller whose variables are the session's: the flight's owner, or the one on screen. */
  function Holder(w: World): Option<nat> {
    if w.flight.Some? then Some(w.flight.value.owner) else w.live
  }

  /** A delivery is out: marked, or on the wire. */
  predicate Delivering(w: World) {
    w.flight.Some? || w.leaving.Some?
  }

  predicate QueueStored(w: World) {
    w.stored.Some? && w.stored.value.StoredQueued?
  }

  function PhaseOf(w: World): Phase {
    if w.flight.Some? then Flying
    else if w.leaving.Some? then Leaving
    else if w.live.None? && QueueStored(w) && w.stored.value.sending then Cut
    else Resting
  }

  /** Who holds the session, and that storage is exactly what it holds. */
  predicate PhoneInv(w: World) {
    && (forall i :: i in w.views ==> i < w.born)
    && (w.live.Some? ==> w.live.value in w.views)
    && (w.leaving.Some? ==> w.live.Some? && w.flight.None?)
    && (w.flight.Some? ==>
        var f := w.flight.value;
        && f.owner in w.views && f.owner in f.followers && Distinct(f.followers)
        && Within(f.followers, w.born)
        && (w.live.Some? ==> w.live.value == f.owner))
    && (Holder(w).Some? ==>
        var v := w.views[Holder(w).value];
        v.delivering == Delivering(w) && Agrees(Turn(v, w.stored)))
    && (w.leaving.Some? ==> w.views[w.live.value].queued == w.leaving)
    && (w.stored.Some? ==> !Blank(w.stored.value.text))
  }

  function Pick(drafts: seq<Str>, ids: seq<nat>): seq<Str>
    requires Within(ids, |drafts|)
  {
    seq(|ids|, i requires 0 <= i < |ids| => drafts[ids[i]])
  }

  /** The drafts of `ids` as the queue joins them. */
  function Text(drafts: seq<Str>, ids: seq<nat>): Str
    requires Within(ids, |drafts|)
  {
    JoinWith(Pick(drafts, ids), QUEUE_JOINER)
  }

  predicate Carries(drafts: seq<Str>, ids: seq<nat>, text: Str) {
    Within(ids, |drafts|) && text == Text(drafts, ids) && Sendable(text)
  }

  /** The stored text is the queued drafts joined, and each prompt sent was its own. */
  predicate TextInv(w: World) {
    var p := w.past;
    && (forall i :: 0 <= i < |p.drafts| ==> Sendable(p.drafts[i]))
    && (QueueStored(w) <==> p.queue != [])
    && (QueueStored(w) ==> Carries(p.drafts, p.queue, w.stored.value.text))
    && (w.flight.Some? ==>
        && p.head <= |p.queue|
        && w.flight.value.send == |p.sends| - 1
        && Carries(p.drafts, p.queue[..p.head], w.flight.value.prompt.text)
        && QueueStored(w) && w.flight.value.prompt.target == w.stored.value.target)
    && (forall k :: 0 <= k < |p.sends| ==> Carries(p.drafts, p.sends[k].ids, p.sends[k].text))
  }

  /** The part of the invariant the phone's own lemmas need. */
  predicate Core(w: World) {
    PhoneInv(w) && QueueOrdered(w.past, PhaseOf(w)) && TextInv(w)
  }

  ghost predicate Inv(w: World) {
    PhoneInv(w) && TextInv(w) && PastInv(w.past, PhaseOf(w))
  }

  // ── Joined texts ───────────────────────────────────────────────────────────

  lemma TextSplit(drafts: seq<Str>, xs: seq<nat>, ys: seq<nat>)
    requires Within(xs, |drafts|) && Within(ys, |drafts|) && xs != [] && ys != []
    ensures Within(xs + ys, |drafts|)
    ensures Text(drafts, xs + ys) == Text(drafts, xs) + QUEUE_JOINER + Text(drafts, ys)
  {
    assert Pick(drafts, xs + ys) == Pick(drafts, xs) + Pick(drafts, ys);
    JoinSplit(Pick(drafts, xs), Pick(drafts, ys), QUEUE_JOINER);
  }

  lemma CarriesGrow(drafts: seq<Str>, draft: Str, ids: seq<nat>, text: Str)
    requires Carries(drafts, ids, text)
    ensures Carries(drafts + [draft], ids, text)
  {
    assert Pick(drafts + [draft], ids) == Pick(drafts, ids);
  }

  lemma TextNotBlank(drafts: seq<Str>, ids: seq<nat>)
    requires Within(ids, |drafts|) && ids != []
    requires forall i :: 0 <= i < |drafts| ==> Sendable(drafts[i])
    ensures !Blank(Text(drafts, ids))
  {
    var d := drafts[ids[0]];
    if |ids| > 1 {
      TextSplit(drafts, ids[..1], ids[1..]);
      assert ids == ids[..1] + ids[1..];
      assert Pick(drafts, ids[..1]) == [d];
      var tail := QUEUE_JOINER + Text(drafts, ids[1..]);
      assert Text(drafts, ids) == d + tail;
      BlankParts(d, tail);
    } else {
      assert Pick(drafts, ids) == [d];
    }
  }

  /** What stays queued behind the part being delivered. */
  function Rest(p: Past): Option<Str>
    requires Within(p.queue, |p.drafts|) && p.head <= |p.queue|
  {
    if p.head == |p.queue| then None else Some(Text(p.drafts, p.queue[p.head..]))
  }

  /** The delivered part, the joiner and the rest rebuild the queued text; each is sendable. */
  lemma QueueSplits(p: Past, whole: Str)
    requires Carries(p.drafts, p.queue, whole) && 0 < p.head <= |p.queue|
    requires forall i :: 0 <= i < |p.drafts| ==> Sendable(p.drafts[i])
    ensures Within(p.queue[..p.head], |p.drafts|)
    ensures var part := Text(p.drafts, p.queue[..p.head]);
            && whole == (if Rest(p).Some? then part + QUEUE_JOINER + Rest(p).value else part)
            && !Blank(whole) && Sendable(part)
            && (Rest(p).Some? ==> !Blank(Rest(p).value) && Carries(p.drafts, p.queue[p.head..], Rest(p).value))
  {
    TextNotBlank(p.drafts, p.queue);
    TextNotBlank(p.drafts, p.queue[..p.head]);
    assert p.queue == p.queue[..p.head] + p.queue[p.head..];
    if p.head < |p.queue| {
      TextSplit(p.drafts, p.queue[..p.head], p.queue[p.head..]);
      TextNotBlank(p.drafts, p.queue[p.head..]);
      JoinSendable(Text(p.drafts, p.queue[..p.head]), Text(p.drafts, p.queue[p.head..]));
    } else {
      assert p.queue[..p.head] == p.queue;
    }
  }

  // ── Storage is the image of the holder ─────────────────────────────────────

  lemma PhoneSubmit(w: World, target: Target, nowMs: int)
    requires Core(w) && Enabled(w, Submit(target, nowMs))
    ensures PhoneInv(Step(w, Submit(target, nowMs)))
  {
    var t := LiveTurn(w);
    EnqueueRule(t.view.queued, t.view.input, target, nowMs);
  }

  lemma PhoneReply(w: World, result: DeliveryResult)
    requires Core(w) && Enabled(w, Reply(result))
    ensures PhoneInv(Step(w, Reply(result)))
  {
    var f := w.flight.value;
    var t := Turn(w.views[f.owner], w.stored);
    QueueSplits(w.past, w.stored.value.text);
    SettledAgrees(t, f.prompt, Rest(w.past), result);
    SettledAgrees(t.(view := t.view.(input := [])), f.prompt, Rest(w.past), result);
  }

  lemma PhoneCreate(w: World)
    requires Core(w) && Enabled(w, Create)
    ensures PhoneInv(Step(w, Create))
  {
    if PhaseOf(w).Cut? {
      GiveBackAgrees(View(None, false, None, []), w.stored.value.text, Uncertain);
    }
  }

  lemma PhoneOther(w: World, e: Event)
    requires PhoneInv(w) && Enabled(w, e)
    requires !e.Submit? && !e.Reply? && !e.Create?
    ensures PhoneInv(Step(w, e))
  {
  }

  // ── The stored text is the queued drafts ───────────────────────────────────

  lemma TextSubmit(w: World, target: Target, nowMs: int)
    requires Core(w) && Enabled(w, Submit(target, nowMs))
    ensures TextInv(Step(w, Submit(target, nowMs)))
  {
    var t := LiveTurn(w);
    EnqueueRule(t.view.queued, t.view.input, target, nowMs);
    var r := EnqueuePrompt(t.view.queued, t.view.input, target, nowMs);
    if r.Queued? {
      TextAccepted(w, LineFeeds(t.view.input), r.prompt, t.view.delivering);
    }
  }

  lemma TextAccepted(w: World, draft: Str, prompt: Prompt, sending: bool)
    requires TextInv(w) && Sendable(draft) && Sendable(prompt.text)
    requires prompt.text == (if QueueStored(w) then w.stored.value.text + QUEUE_JOINER else []) + draft
    requires QueueStored(w) ==> prompt.target == w.stored.value.target
    ensures TextInv(w.(stored := QueuedEntry(Some(prompt), sending), past := Accept(w.past, draft)))
  {
    var p := w.past;
    var q := Accept(p, draft);
    SubmitCarries(p, draft, w.stored, prompt.text);
    forall k | 0 <= k < |p.sends| ensures Carries(q.drafts, p.sends[k].ids, p.sends[k].text) {
      CarriesGrow(p.drafts, draft, p.sends[k].ids, p.sends[k].text);
    }
    if w.flight.Some? {
      assert q.queue[..p.head] == p.queue[..p.head];
      CarriesGrow(p.drafts, draft, p.queue[..p.head], w.flight.value.prompt.text);
    }
  }

  lemma SubmitCarries(p: Past, draft: Str, stored: Option<Stored>, text: Str)
    requires p.queue != [] ==> stored.Some? && Carries(p.drafts, p.queue, stored.value.text)
    requires text == (if p.queue != [] then stored.value.text + QUEUE_JOINER else []) + draft && Sendable(text)
    ensures var q := Accept(p, draft); Carries(q.drafts, q.queue, text)
  {
    var q := Accept(p, draft);
    var id := [|p.drafts|];
    assert Pick(q.drafts, id) == [draft];
    if p.queue != [] {
      CarriesGrow(p.drafts, draft, p.queue, stored.value.text);
      TextSplit(q.drafts, p.queue, id);
    } else {
      assert q.queue == id && text == draft;
    }
  }

  /** With no delivery out, the texts are right if the stored queue is and the sends are the same. */
  lemma TextAtRest(w: World, w': World)
    requires TextInv(w) && w'.flight.None? && w'.past.drafts == w.past.drafts && |w'.past.sends| == |w.past.sends|
    requires forall k :: 0 <= k < |w.past.sends| ==>
               w'.past.sends[k].ids == w.past.sends[k].ids && w'.past.sends[k].text == w.past.sends[k].text
    requires QueueStored(w') <==> w'.past.queue != []
    requires QueueStored(w') ==> Carries(w'.past.drafts, w'.past.queue, w'.stored.value.text)
    ensures TextInv(w')
  {
  }

  lemma ReplyQueue(w: World, result: DeliveryResult, w': World)
    requires Core(w) && Enabled(w, Reply(result)) && w' == Step(w, Reply(result))
    ensures QueueStored(w') <==> w'.past.queue != []
    ensures QueueStored(w') ==> Carries(w'.past.drafts, w'.past.queue, w'.stored.value.text)
  {
    var f := w.flight.value;
    var t := Turn(w.views[f.owner], w.stored);
    QueueSplits(w.past, w.stored.value.text);
    SettledStored(t, w.live != Some(f.owner), f.prompt, Rest(w.past), result);
  }

  lemma ReplySends(w: World, result: DeliveryResult, w': World)
    requires Enabled(w, Reply(result)) && w' == Step(w, Reply(result))
    ensures w'.flight.None? && w'.past.drafts == w.past.drafts && |w'.past.sends| == |w.past.sends|
    ensures forall k :: 0 <= k < |w.past.sends| ==>
              && w'.past.sends[k].ids == w.past.sends[k].ids && w'.past.sends[k].text == w.past.sends[k].text
              && w'.past.sends[k].target == w.past.sends[k].target
  {
  }

  lemma TextReplied(w: World, result: DeliveryResult, w': World)
    requires Core(w) && Enabled(w, Reply(result)) && w' == Step(w, Reply(result))
    ensures TextInv(w')
  {
    ReplyQueue(w, result, w');
    ReplySends(w, result, w');
    TextAtRest(w, w');
  }

  lemma ReplyRests(w: World, result: DeliveryResult)
    requires Core(w) && Enabled(w, Reply(result))
    ensures PhaseOf(Step(w, Reply(result))).Resting?
  {
    var f := w.flight.value;
    var t := Turn(w.views[f.owner], w.stored);
    QueueSplits(w.past, w.stored.value.text);
    SettledStored(t, w.live != Some(f.owner), f.prompt, Rest(w.past), result);
  }

  lemma TextRemove(w: World, e: Event)
    requires Core(w) && Enabled(w, e) && (e.Edit? || e.Cancel? || e.Type?)
    ensures TextInv(Step(w, e))
  {
  }

  lemma TextSendSide(w: World, e: Event)
    requires Core(w) && Enabled(w, e) && (e.Mark? || e.Launch? || e.Write? || e.Dispose?)
    ensures TextInv(Step(w, e))
  {
    if e.Launch? { assert w.past.queue[..w.past.head] == w.past.queue; }
  }

  lemma TextEnd(w: World, e: Event)
    requires Core(w) && Enabled(w, e) && (e.Create? || e.Crash?)
    ensures TextInv(Step(w, e))
  {
    if PhaseOf(w).Cut? {
      GiveBackAgrees(View(None, false, None, []), w.stored.value.text, Uncertain);
    }
  }

  // ── Every run ──────────────────────────────────────────────────────────────

  lemma PastSubmit(w: World, target: Target, nowMs: int)
    requires Inv(w) && Enabled(w, Submit(target, nowMs))
    ensures PastInv(Step(w, Submit(target, nowMs)).past, PhaseOf(Step(w, Submit(target, nowMs))))
  {
    AcceptKeeps(w.past, PhaseOf(w), LineFeeds(LiveTurn(w).view.input));
  }

  lemma PastRemove(w: World, e: Event)
    requires Inv(w) && Enabled(w, e) && (e.Edit? || e.Cancel? || e.Type?)
    ensures PastInv(Step(w, e).past, PhaseOf(Step(w, e)))
  {
    if PhaseOf(w).Resting? { TakeOutKeeps(w.past); }
  }

  lemma PastSend(w: World, e: Event)
    requires Inv(w) && Enabled(w, e) && (e.Mark? || e.Launch? || e.Write? || e.Dispose?)
    ensures PastInv(Step(w, e).past, PhaseOf(Step(w, e)))
  {
    match e
    case Mark(_) => DepartKeeps(w.past);
    case Launch => HandOverKeeps(w.past, w.leaving.value.text, w.leaving.value.target);
    case Write(k) => TypeOutKeeps(w.past, PhaseOf(w), k);
    case Dispose =>
  }

  lemma PastEnd(w: World, e: Event)
    requires Inv(w) && Enabled(w, e) && (e.Create? || e.Crash?)
    ensures PastInv(Step(w, e).past, PhaseOf(Step(w, e)))
  {
    if e.Create? {
      if PhaseOf(w).Cut? { RecoverKeeps(w.past); }
    } else {
      if w.flight.Some? { DieKeeps(w.past); }
      else if w.leaving.Some? { DieLeavingKeeps(w.past); }
    }
  }

  lemma SubmitKeeps(w: World, e: Event)
    requires Inv(w) && Enabled(w, e) && e.Submit?
    ensures Inv(Step(w, e))
  {
    PhoneSubmit(w, e.target, e.nowMs);
    TextSubmit(w, e.target, e.nowMs);
    PastSubmit(w, e.target, e.nowMs);
  }

  lemma ReplyKeeps(w: World, e: Event)
    requires Inv(w) && Enabled(w, e) && e.Reply?
    ensures Inv(Step(w, e))
  {
    PhoneReply(w, e.result);
    TextReplied(w, e.result, Step(w, e));
    ReplyRests(w, e.result);
    AnswerKeeps(w.past, w.flight.value.prompt, e.result);
  }

  lemma CreateKeeps(w: World, e: Event)
    requires Inv(w) && Enabled(w, e) && e.Create?
    ensures Inv(Step(w, e))
  {
    PhoneCreate(w);
    TextEnd(w, e);
    PastEnd(w, e);
  }

  lemma OtherKeeps(w: World, e: Event)
    requires Inv(w) && Enabled(w, e) && !e.Submit? && !e.Reply? && !e.Create?
    ensures Inv(Step(w, e))
  {
    PhoneOther(w, e);
    if e.Edit? || e.Cancel? || e.Type? {
      TextRemove(w, e);
      PastRemove(w, e);
    } else if e.Crash? {
      TextEnd(w, e);
      PastEnd(w, e);
    } else {
      TextSendSide(w, e);
      PastSend(w, e);
    }
  }

  /** Every event keeps storage, the queued text and the places of the drafts in step. */
  lemma StepKeeps(w: World, e: Event)
    requires Inv(w)
    ensures Inv(Step(w, e))
  {
    if Enabled(w, e) {
      if e.Submit? { SubmitKeeps(w, e); }
      else if e.Reply? { ReplyKeeps(w, e); }
      else if e.Create? { CreateKeeps(w, e); }
      else { OtherKeeps(w, e); }
    }
  }

  lemma {:induction false} EveryRun(es: seq<Event>)
    ensures Inv(After(es))
  {
    if es != [] {
      EveryRun(es[..|es| - 1]);
      StepKeeps(After(es[..|es| - 1]), es[|es| - 1]);
    }
  }
}
