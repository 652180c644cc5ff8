/** Starting an agent from the phone: action ids that let the computer tell a retry from a second press. */
module Launch {
  import opened JsText

  /** What the screen holds of the form; an absent or empty id is not chosen yet. */
  datatype Form = Form(targetId: Option<Str>, kindId: Option<Str>, useWorktree: bool, branch: Str, folderPath: Option<Str>)

  /** A form a name was made for. Names are minted fresh, so they are numbered. */
  datatype Press = Press(actionId: nat, form: Form)

  datatype Code = ScreenSilent | ScreenUnreachable | StillStarting | OtherCode

  datatype Stage = Loading | Broken | Ready | Starting | Done(code: Option<Code>)

  datatype Screen = Screen(hubId: Str, stage: Stage, form: Form, press: Option<Press>)

  predicate Chosen(id: Option<Str>) {
    id.Some? && id.value != []
  }

  predicate SamePress(press: Option<Press>, form: Form) {
    && press.Some?
    && press.value.form.targetId == form.targetId
    && press.value.form.kindId == form.kindId
    && press.value.form.folderPath == form.folderPath
    && press.value.form.useWorktree == form.useWorktree
    && (!form.useWorktree || Trim(press.value.form.branch) == Trim(form.branch))
  }

  /** The name to send under: the kept one for the same choice, or `unused`. */
  function ActionIdFor(press: Option<Press>, form: Form, unused: nat): nat {
    if SamePress(press, form) then press.value.actionId else unused
  }

  /** The computer said it does not know: the request may have reached it. */
  predicate RetryKeepsActionId(code: Option<Code>) {
    code.Some? && (code.value.ScreenSilent? || code.value.ScreenUnreachable? || code.value.StillStarting?)
  }

  /** One call of `hubStartAgent`. */
  datatype Request = Request(
    hubId: Str, targetId: Str, kindId: Str, actionId: nat, useWorktree: bool, branch: Option<Str>, folderPath: Option<Str>)

  predicate CanSend(s: Screen) {
    s.stage.Ready? && Chosen(s.form.targetId) && Chosen(s.form.kindId)
  }

  /** The screen while a request made from it is out. */
  function Sending(s: Screen, unused: nat): Screen {
    s.(press := Some(Press(ActionIdFor(s.press, s.form, unused), s.form)), stage := Starting)
  }

  function RequestOf(sending: Screen): Request
    requires sending.press.Some? && sending.form.targetId.Some? && sending.form.kindId.Some?
  {
    var f := sending.form;
    Request(sending.hubId, f.targetId.value, f.kindId.value, sending.press.value.actionId,
            f.useWorktree, if f.useWorktree then Some(f.branch) else None, f.folderPath)
  }

  function Again(s: Screen): Screen {
    s.(press := if s.stage.Done? && RetryKeepsActionId(s.stage.code) then s.press else None,
       stage := if s.stage.Done? then Ready else s.stage)
  }

  // ── Every run of the app's launch screens ──────────────────────────────────

  /** `out` are the screens whose requests are unanswered, by request number. */
  datatype World = World(screen: Option<Screen>, out: map<nat, Screen>, requests: seq<Request>, minted: nat)

  datatype Event =
    | Open(hubId: Str)
    | Close
    | Offer(hubId: Str, targetId: Option<Str>, kindId: Option<Str>)
    | OfferLost(hubId: Str)
    | Edit(form: Form)
    | Start
    | Answer(request: nat, code: Option<Code>)
    | Lose(request: nat)
    | PressAgain

  /** A form nobody has touched; the branch is the prefix "agent/". */
  const EMPTY: Form := Form(None, None, true, [0x61, 0x67, 0x65, 0x6E, 0x74, 0x2F], None)

  /** The offer's first choices, where it has any. */
  function Preselected(form: Form, targetId: Option<Str>, kindId: Option<Str>): Form {
    form.(targetId := if targetId.Some? then targetId else form.targetId,
          kindId := if kindId.Some? then kindId else form.kindId)
  }

  /** A launch screen of this computer is up, whatever it is doing: a late offer does not ask. */
  predicate Shows(w: World, hubId: Str) {
    w.screen.Some? && w.screen.value.hubId == hubId
  }

  const NOWHERE: World := World(None, map[], [], 0)

  /** An answer lands on whatever launch screen of its computer is up, and puts the asking screen there. */
  function Land(w: World, k: nat, stage: Stage): World
    requires k in w.out
  {
    var s := w.out[k];
    var w' := w.(out := w.out - {k});
    if w.screen.Some? && w.screen.value.hubId == s.hubId then w'.(screen := Some(s.(stage := stage))) else w'
  }

  function Step(w: World, e: Event): World {
    match e
    case Open(hubId) => w.(screen := Some(Screen(hubId, Loading, EMPTY, None)))
    case Close => w.(screen := None)
    case Offer(hubId, targetId, kindId) =>
      if Shows(w, hubId) then
        w.(screen := Some(w.screen.value.(stage := Ready, form := Preselected(w.screen.value.form, targetId, kindId))))
      else w
    case OfferLost(hubId) =>
      if Shows(w, hubId) then w.(screen := Some(w.screen.value.(stage := Broken))) else w
    case Edit(form) =>
      if w.screen.Some? then w.(screen := Some(w.screen.value.(form := form))) else w
    case Start =>
      if w.screen.None? || !CanSend(w.screen.value) then w
      else
        var s := Sending(w.screen.value, w.minted);
        World(Some(s), w.out[|w.requests| := s], w.requests + [RequestOf(s)],
              if SamePress(w.screen.value.press, w.screen.value.form) then w.minted else w.minted + 1)
    case Answer(k, code) => if k in w.out then Land(w, k, Done(code)) else w
    case Lose(k) => if k in w.out then Land(w, k, Ready) else w
    case PressAgain => if w.screen.Some? then w.(screen := Some(Again(w.screen.value))) else w
  }

  function After(es: seq<Event>): World {
    if es == [] then NOWHERE else Step(After(es[..|es| - 1]), es[|es| - 1])
  }

  /** The launch screen in place, with the calls it has made. */
  class LaunchFlow {
    var screen: Option<Screen>
    var out: map<nat, Screen>
    var requests: seq<Request>
    var minted: nat

    function Now(): World
      reads this
    {
      World(screen, out, requests, minted)
    }

    constructor ()
      ensures Now() == NOWHERE
    {
      screen, out, requests, minted := None, map[], [], 0;
    }

    method StartAgent()
      modifies this
      ensures Now() == Step(old(Now()), Start)
    {
      if screen.None? || !screen.value.stage.Ready? { return; }
      var form := screen.value.form;
      if !Chosen(form.targetId) || !Chosen(form.kindId) { return; }
      var actionId := ActionIdFor(screen.value.press, form, minted);
      if !SamePress(screen.value.press, form) { minted := minted + 1; }
      var sending := screen.value.(press := Some(Press(actionId, form)), stage := Starting);
      screen := Some(sending);
      out := out[|requests| := sending];
      requests := requests + [RequestOf(sending)];
    }

    method OfferCame(hubId: Str, targetId: Option<Str>, kindId: Option<Str>)
      modifies this`screen
      ensures Now() == Step(old(Now()), Offer(hubId, targetId, kindId))
    {
      if screen.None? || screen.value.hubId != hubId { return; }
      screen := Some(screen.value.(stage := Ready, form := Preselected(screen.value.form, targetId, kindId)));
    }

    method OfferFailed(hubId: Str)
      modifies this`screen
      ensures Now() == Step(old(Now()), OfferLost(hubId))
    {
      if screen.None? || screen.value.hubId != hubId { return; }
      screen := Some(screen.value.(stage := Broken));
    }

    method AnswerCame(k: nat, code: Option<Code>)
      requires k in out
      modifies this
      ensures Now() == Step(old(Now()), Answer(k, code))
    {
      var sending := out[k];
      out := out - {k};
      if screen.None? || screen.value.hubId != sending.hubId { return; }
      screen := Some(sending.(stage := Done(code)));
    }

    method AnswerLost(k: nat)
      requires k in out
      modifies this
      ensures Now() == Step(old(Now()), Lose(k))
    {
      var sending := out[k];
      out := out - {k};
      if screen.None? || screen.value.hubId != sending.hubId { return; }
      screen := Some(sending.(stage := Ready));
    }

    method ChooseAgain()
      modifies this`screen
      ensures Now() == Step(old(Now()), PressAgain)
    {
      if screen.None? { return; }
      screen := Some(Again(screen.value));
    }
  }

  // ── One name, one choice ───────────────────────────────────────────────────

  /** What a person chose, as far as the computer can tell it apart. */
  datatype Choice = Choice(targetId: Option<Str>, kindId: Option<Str>, folderPath: Option<Str>, branch: Option<Str>)

  function ChoiceOf(form: Form): Choice {
    Choice(form.targetId, form.kindId, form.folderPath, if form.useWorktree then Some(Trim(form.branch)) else None)
  }

  function Requested(r: Request): Choice {
    Choice(Some(r.targetId), Some(r.kindId), r.folderPath, if r.branch.Some? then Some(Trim(r.branch.value)) else None)
  }

  /** A name is kept exactly when the choice is the one it was made for. */
  lemma SamePressMeans(press: Press, form: Form)
    ensures SamePress(Some(press), form) <==> ChoiceOf(press.form) == ChoiceOf(form)
  {
  }

  /** What a name was made for: which computer, and what to start there. */
  datatype Wish = Wish(hubId: Str, choice: Choice)

  function WishOf(s: Screen): Wish { Wish(s.hubId, ChoiceOf(s.form)) }

  function Asked(r: Request): Wish { Wish(r.hubId, Requested(r)) }

  /** Every name in use stands for the wish recorded for it. */
  predicate Names(w: World, wishes: seq<Wish>) {
    && |wishes| == w.minted
    && (forall i :: 0 <= i < |w.requests| ==>
          w.requests[i].actionId < w.minted && Asked(w.requests[i]) == wishes[w.requests[i].actionId])
    && (w.screen.Some? ==> Named(w.screen.value, wishes, w.requests))
    && (forall k :: k in w.out ==> Named(w.out[k], wishes, w.requests))
  }

  predicate NameUsed(actionId: nat, requests: seq<Request>) {
    exists i :: 0 <= i < |requests| && requests[i].actionId == actionId
  }

  /** The press a screen keeps is one that went out, to that screen's computer. */
  predicate Named(s: Screen, wishes: seq<Wish>, requests: seq<Request>) {
    s.press.Some? ==>
      && s.press.value.actionId < |wishes|
      && Wish(s.hubId, ChoiceOf(s.press.value.form)) == wishes[s.press.value.actionId]
      && NameUsed(s.press.value.actionId, requests)
  }

  function StepWishes(w: World, e: Event, wishes: seq<Wish>): seq<Wish> {
    if Step(w, e).minted == w.minted || w.screen.None? then wishes else wishes + [WishOf(w.screen.value)]
  }

  lemma NamedStays(s: Screen, wishes: seq<Wish>, requests: seq<Request>, wishes': seq<Wish>, requests': seq<Request>)
    requires Named(s, wishes, requests) && wishes <= wishes' && requests <= requests'
    ensures Named(s, wishes', requests')
  {
    if s.press.Some? {
      var i :| 0 <= i < |requests| && requests[i].actionId == s.press.value.actionId;
      assert requests'[i].actionId == s.press.value.actionId;
    }
  }

  /** A start goes out under the press's name exactly when the choice is still the press's, and else under a new one. */
  lemma StartNames(w: World)
    requires w.screen.Some? && CanSend(w.screen.value)
    ensures var s, w' := w.screen.value, Step(w, Start);
            var reuses := s.press.Some? && ChoiceOf(s.press.value.form) == ChoiceOf(s.form);
            && |w'.requests| == |w.requests| + 1 && w.requests <= w'.requests
            && Asked(w'.requests[|w.requests|]) == WishOf(s)
            && w'.requests[|w.requests|].useWorktree == s.form.useWorktree
            && w'.requests[|w.requests|].branch == (if s.form.useWorktree then Some(s.form.branch) else None)
            && w'.requests[|w.requests|].actionId == (if reuses then s.press.value.actionId else w.minted)
            && w'.minted == (if reuses then w.minted else w.minted + 1)
  {
    var s := w.screen.value;
    if s.press.Some? { SamePressMeans(s.press.value, s.form); }
    assert Requested(RequestOf(Sending(s, w.minted))) == ChoiceOf(s.form);
  }

  lemma StartKeepsNames(w: World, wishes: seq<Wish>)
    requires Names(w, wishes) && w.screen.Some? && CanSend(w.screen.value)
    ensures Names(Step(w, Start), StepWishes(w, Start, wishes))
  {
    var s, w' := w.screen.value, Step(w, Start);
    var wishes' := StepWishes(w, Start, wishes);
    StartNames(w);
    assert w'.requests[|w.requests|].actionId == w'.screen.value.press.value.actionId;
    assert Named(w'.screen.value, wishes', w'.requests);
    forall k | k in w'.out ensures Named(w'.out[k], wishes', w'.requests) {
      if k != |w.requests| { NamedStays(w.out[k], wishes, w.requests, wishes', w'.requests); }
    }
  }

  lemma StepNames(w: World, e: Event, wishes: seq<Wish>)
    requires Names(w, wishes)
    ensures Names(Step(w, e), StepWishes(w, e, wishes))
  {
    if e.Start? && w.screen.Some? && CanSend(w.screen.value) {
      StartKeepsNames(w, wishes);
    }
  }

  lemma {:induction false} EveryRun(es: seq<Event>) returns (wishes: seq<Wish>)
    ensures Names(After(es), wishes)
  {
    if es == [] {
      wishes := [];
    } else {
      var before := EveryRun(es[..|es| - 1]);
      StepNames(After(es[..|es| - 1]), es[|es| - 1], before);
      wishes := StepWishes(After(es[..|es| - 1]), es[|es| - 1], before);
    }
  }

  /** Two requests under one name ask the same computer for the same thing, over any run of launch screens. */
  lemma SameNameSameChoice(es: seq<Event>, i: nat, j: nat)
    requires i < |After(es).requests| && j < |After(es).requests|
    requires After(es).requests[i].actionId == After(es).requests[j].actionId
    ensures Asked(After(es).requests[i]) == Asked(After(es).requests[j])
  {
    var wishes := EveryRun(es);
  }

  /** Over any run, a start goes out under a name used before exactly when its screen still keeps a press for the choice. */
  lemma OldNameExactly(es: seq<Event>)
    requires var w := After(es); w.screen.Some? && CanSend(w.screen.value)
    ensures var w, w' := After(es), Step(After(es), Start);
            var s := w.screen.value;
            && |w'.requests| == |w.requests| + 1
            && (NameUsed(w'.requests[|w.requests|].actionId, w.requests)
                <==> s.press.Some? && ChoiceOf(s.press.value.form) == ChoiceOf(s.form))
  {
    var wishes := EveryRun(es);
    StartNames(After(es));
  }

  // ── Retries ────────────────────────────────────────────────────────────────

  /** How a try ended without an outcome: no answer came, or the computer does not know. */
  datatype Undecided = NoAnswer | Unknown(code: Code)

  /** One more try: the form as it stands now, and how the try before it ended. */
  datatype Retry = Retry(before: Undecided, form: Form)

  function UndecidedEvents(k: nat, u: Undecided): seq<Event> {
    match u
    case NoAnswer => [Lose(k)]
    case Unknown(code) => [Answer(k, Some(code)), PressAgain]
  }

  function Runs(w: World, es: seq<Event>): World
    decreases |es|
  {
    if es == [] then w else Runs(Step(w, es[0]), es[1..])
  }

  /** Each retry waits for its predecessor to end undecided, edits the form, and presses start. */
  function Tries(w: World, retries: seq<Retry>): World
    decreases |retries|
  {
    if retries == [] then w
    else
      var r := retries[0];
      var ended := if w.requests == [] then w else Runs(w, UndecidedEvents(|w.requests| - 1, r.before));
      Tries(Step(Step(ended, Edit(r.form)), Start), retries[1..])
  }

  /** The screen whose last request is out, for this choice. */
  predicate Waiting(w: World, choice: Choice) {
    && w.requests != [] && (|w.requests| - 1) in w.out
    && w.screen == Some(w.out[|w.requests| - 1])
    && w.screen.value.stage.Starting? && w.screen.value.press.Some?
    && w.screen.value.press.value.actionId == w.requests[|w.requests| - 1].actionId
    && ChoiceOf(w.screen.value.press.value.form) == choice
  }

  lemma StartWaits(w: World)
    requires w.screen.Some? && CanSend(w.screen.value)
    ensures Waiting(Step(w, Start), ChoiceOf(w.screen.value.form))
    ensures |Step(w, Start).requests| == |w.requests| + 1
  {
  }

  lemma RetryReuses(w: World, r: Retry)
    requires Waiting(w, ChoiceOf(r.form)) && Chosen(r.form.targetId) && Chosen(r.form.kindId)
    requires r.before.Unknown? ==> r.before.code in {ScreenSilent, ScreenUnreachable, StillStarting}
    ensures var ended := Runs(w, UndecidedEvents(|w.requests| - 1, r.before));
            var w' := Step(Step(ended, Edit(r.form)), Start);
            && Waiting(w', ChoiceOf(r.form)) && w'.minted == w.minted
            && |w'.requests| == |w.requests| + 1 && w.requests <= w'.requests
            && w'.requests[|w.requests|].actionId == w.requests[|w.requests| - 1].actionId
  {
    var k := |w.requests| - 1;
    var sent := w.screen.value;
    SamePressMeans(sent.press.value, r.form);
    match r.before
    case NoAnswer =>
      assert Runs(w, [Lose(k)]) == Runs(Step(w, Lose(k)), []);
    case Unknown(code) =>
      var es := [Answer(k, Some(code)), PressAgain];
      assert es[1..] == [PressAgain];
      var answered := Step(w, Answer(k, Some(code)));
      assert Runs(w, es) == Runs(answered, [PressAgain]);
      assert Runs(answered, [PressAgain]) == Runs(Step(answered, PressAgain), []);
  }

  /** The answer comes, the person goes back, leaves the form so, and starts once more. */
  function OnceMore(w: World, code: Option<Code>, form: Form): World
    requires w.requests != []
  {
    Step(Step(Step(Step(w, Answer(|w.requests| - 1, code)), PressAgain), Edit(form)), Start)
  }

  /** Answers that leave open whether an agent started. */
  predicate LeavesOpen(code: Option<Code>) {
    code == Some(ScreenSilent) || code == Some(ScreenUnreachable) || code == Some(StillStarting)
  }

  lemma GoesBack(w: World, code: Option<Code>, form: Form)
    requires Waiting(w, ChoiceOf(form))
    ensures var back := Step(Step(Step(w, Answer(|w.requests| - 1, code)), PressAgain), Edit(form));
            && back.screen == Some(Screen(w.screen.value.hubId, Ready, form,
                                          if LeavesOpen(code) then w.screen.value.press else None))
            && back.requests == w.requests && back.minted == w.minted
  {
    var answered := Step(w, Answer(|w.requests| - 1, code));
    assert answered.screen == Some(w.screen.value.(stage := Done(code)));
  }

  lemma NextName(w: World, code: Option<Code>, form: Form, w': World)
    requires Waiting(w, ChoiceOf(form)) && Chosen(form.targetId) && Chosen(form.kindId) && w' == OnceMore(w, code, form)
    ensures |w'.requests| == |w.requests| + 1 && w.requests <= w'.requests
    ensures Asked(w'.requests[|w.requests|]) == Wish(w.screen.value.hubId, ChoiceOf(form))
    ensures w'.requests[|w.requests|].actionId
            == if LeavesOpen(code) then w.requests[|w.requests| - 1].actionId else w.minted
  {
    GoesBack(w, code, form);
    StartNames(Step(Step(Step(w, Answer(|w.requests| - 1, code)), PressAgain), Edit(form)));
  }

  /**
   * One more request for what the last one asked: under its name if the answer was one of
   * these three, and else under a name no request had.
   */
  predicate NamedByAnswer(sent: seq<Request>, all: seq<Request>, code: Option<Code>) {
    && sent != [] && |all| == |sent| + 1 && sent <= all
    && Asked(all[|sent|]) == Asked(sent[|sent| - 1])
    && (all[|sent|].actionId == sent[|sent| - 1].actionId <==>
        code == Some(ScreenSilent) || code == Some(ScreenUnreachable) || code == Some(StillStarting))
    && (NameUsed(all[|sent|].actionId, sent) <==>
        code == Some(ScreenSilent) || code == Some(ScreenUnreachable) || code == Some(StillStarting))
  }

  lemma NextNameTells(w: World, code: Option<Code>, form: Form, w': World)
    requires Waiting(w, ChoiceOf(form)) && Chosen(form.targetId) && Chosen(form.kindId) && w' == OnceMore(w, code, form)
    requires NameUsed(w.requests[|w.requests| - 1].actionId, w.requests) && !NameUsed(w.minted, w.requests)
    requires Asked(w.requests[|w.requests| - 1]) == Wish(w.screen.value.hubId, ChoiceOf(form))
    ensures NamedByAnswer(w.requests, w'.requests, code)
  {
    NextName(w, code, form, w');
  }

  /**
   * Over any run: once the answer to the last start is in, the person goes back and starts
   * the same choice again. It goes out under the same name exactly when the computer kept
   * silent, was out of reach or was still starting, and else under one never used before.
   */
  lemma AnswerDecidesName(w: World, code: Option<Code>, form: Form)
    requires Reached(w) && Waiting(w, ChoiceOf(form)) && Chosen(form.targetId) && Chosen(form.kindId)
    ensures NamedByAnswer(w.requests, OnceMore(w, code, form).requests, code)
  {
    RunNames(w, ChoiceOf(form));
    NextNameTells(w, code, form, OnceMore(w, code, form));
  }

  /** Some run leads here. */
  ghost predicate Reached(w: World) {
    exists es :: After(es) == w
  }

  /** What waits was asked for, by the computer and the choice on screen. */
  lemma LastAsked(w: World, wishes: seq<Wish>, choice: Choice)
    requires Names(w, wishes) && Waiting(w, choice)
    ensures Asked(w.requests[|w.requests| - 1]) == Wish(w.screen.value.hubId, choice)
    ensures NameUsed(w.requests[|w.requests| - 1].actionId, w.requests)
  {
  }

  lemma RunNames(w: World, choice: Choice)
    requires Reached(w) && Waiting(w, choice)
    ensures Asked(w.requests[|w.requests| - 1]) == Wish(w.screen.value.hubId, choice)
    ensures NameUsed(w.requests[|w.requests| - 1].actionId, w.requests) && !NameUsed(w.minted, w.requests)
  {
    var es :| After(es) == w;
    var wishes := EveryRun(es);
    LastAsked(w, wishes, choice);
    NamesAreOlder(w, wishes);
  }

  lemma NamesAreOlder(w: World, wishes: seq<Wish>)
    requires Names(w, wishes)
    ensures !NameUsed(w.minted, w.requests)
  {
  }

  /** However often an undecided start is retried for the same choice, it goes out under one name. */
  lemma {:induction false} RetriesShareOneName(w: World, choice: Choice, retries: seq<Retry>)
    requires Waiting(w, choice)
    requires forall i :: 0 <= i < |retries| ==>
               && ChoiceOf(retries[i].form) == choice
               && Chosen(retries[i].form.targetId) && Chosen(retries[i].form.kindId)
               && (retries[i].before.Unknown? ==> retries[i].before.code in {ScreenSilent, ScreenUnreachable, StillStarting})
    ensures var w' := Tries(w, retries);
            && w'.minted == w.minted && |w'.requests| == |w.requests| + |retries| && w.requests <= w'.requests
            && (forall i :: |w.requests| - 1 <= i < |w'.requests| ==>
                  w'.requests[i].actionId == w.requests[|w.requests| - 1].actionId)
    decreases |retries|
  {
    if retries != [] {
      var r := retries[0];
      RetryReuses(w, r);
      var w1 := Step(Step(Runs(w, UndecidedEvents(|w.requests| - 1, r.before)), Edit(r.form)), Start);
      RetriesShareOneName(w1, choice, retries[1..]);
    }
  }

  /** What a computer that runs each name once starts. */
  function AgentsStarted(requests: seq<Request>): set<nat> {
    set i | 0 <= i < |requests| :: requests[i].actionId
  }

  /** So all the retries of one press start one agent. */
  lemma RetriesStartOneAgent(w: World, choice: Choice, retries: seq<Retry>)
    requires Waiting(w, choice)
    requires forall i :: 0 <= i < |retries| ==>
               && ChoiceOf(retries[i].form) == choice
               && Chosen(retries[i].form.targetId) && Chosen(retries[i].form.kindId)
               && (retries[i].before.Unknown? ==> retries[i].before.code in {ScreenSilent, ScreenUnreachable, StillStarting})
    ensures AgentsStarted(Tries(w, retries).requests) == AgentsStarted(w.requests)
  {
    RetriesShareOneName(w, choice, retries);
    var w' := Tries(w, retries);
    forall id ensures id in AgentsStarted(w'.requests) <==> id in AgentsStarted(w.requests) {
      if id in AgentsStarted(w.requests) {
        var i :| 0 <= i < |w.requests| && w.requests[i].actionId == id;
        assert w'.requests[i].actionId == id;
      }
      if id in AgentsStarted(w'.requests) {
        var i :| 0 <= i < |w'.requests| && w'.requests[i].actionId == id;
        assert id == w.requests[if i < |w.requests| then i else |w.requests| - 1].actionId;
      }
    }
  }

  /** A press and all its retries start one agent more than there were, or none if the press was itself a retry. */
  lemma {:induction false} PressStartsOne(w: World, retries: seq<Retry>)
    requires w.screen.Some? && CanSend(w.screen.value)
    requires forall i :: 0 <= i < |retries| ==>
               && ChoiceOf(retries[i].form) == ChoiceOf(w.screen.value.form)
               && Chosen(retries[i].form.targetId) && Chosen(retries[i].form.kindId)
               && (retries[i].before.Unknown? ==> retries[i].before.code in {ScreenSilent, ScreenUnreachable, StillStarting})
    ensures var w' := Step(w, Start);
            && |w'.requests| == |w.requests| + 1
            && AgentsStarted(Tries(w', retries).requests)
               == AgentsStarted(w.requests) + {w'.requests[|w.requests|].actionId}
  {
    var w' := Step(w, Start);
    StartWaits(w);
    RetriesStartOneAgent(w', ChoiceOf(w.screen.value.form), retries);
    StartNames(w);
    OneMoreName(w.requests, w'.requests[|w.requests|]);
    assert w'.requests == w.requests + [w'.requests[|w.requests|]];
  }

  lemma OneMoreName(requests: seq<Request>, r: Request)
    ensures AgentsStarted(requests + [r]) == AgentsStarted(requests) + {r.actionId}
  {
    var all := requests + [r];
    assert all[|requests|] == r;
    forall i | 0 <= i < |requests| ensures requests[i].actionId in AgentsStarted(all) {
      assert all[i] == requests[i];
    }
  }

  /** A request that is out remembers the screen that sent it: its computer, its form and its press. */
  predicate Remembers(w: World, k: nat) {
    k in w.out ==>
      && k < |w.requests| && w.out[k].stage == Starting
      && w.out[k].press == Some(Press(w.requests[k].actionId, w.out[k].form))
      && Asked(w.requests[k]) == WishOf(w.out[k])
  }

  lemma StartRemembers(w: World, k: nat)
    requires Remembers(w, k) && (forall j :: j in w.out ==> j < |w.requests|) && w.screen.Some? && CanSend(w.screen.value)
    ensures Remembers(Step(w, Start), k)
  {
    StartNames(w);
  }

  lemma {:induction false} OutIsRemembered(es: seq<Event>, k: nat)
    ensures Remembers(After(es), k)
  {
    if es != [] {
      var w, e := After(es[..|es| - 1]), es[|es| - 1];
      OutIsRemembered(es[..|es| - 1], k);
      OutIsSent(es[..|es| - 1]);
      if e.Start? && w.screen.Some? && CanSend(w.screen.value) { StartRemembers(w, k); }
    }
  }

  lemma {:induction false} OutIsSent(es: seq<Event>)
    ensures forall j :: j in After(es).out ==> j < |After(es).requests|
  {
    if es != [] { OutIsSent(es[..|es| - 1]); }
  }

  /**
   * However the screen was changed meanwhile, an answer to a request of the computer on
   * screen brings back the screen that sent it; one of another computer changes nothing seen.
   */
  lemma AnswerBringsBack(es: seq<Event>, k: nat, e: Event)
    requires k in After(es).out && (e == Lose(k) || (e.Answer? && e.request == k))
    ensures var w, w' := After(es), Step(After(es), e);
            && k < |w.requests| && w'.out == w.out - {k} && w'.requests == w.requests && w'.minted == w.minted
            && if w.screen.Some? && w.screen.value.hubId == w.requests[k].hubId then
                 && w'.screen.Some? && w'.screen.value.hubId == w.requests[k].hubId
                 && w'.screen.value.stage == (if e.Lose? then Ready else Done(e.code))
                 && w'.screen.value.press == Some(Press(w.requests[k].actionId, w'.screen.value.form))
                 && ChoiceOf(w'.screen.value.form) == Requested(w.requests[k])
               else w'.screen == w.screen
  {
    OutIsRemembered(es, k);
  }

  /** An offer to the screen of its computer makes it ready, and chooses only what it brings. */
  lemma OfferFills(w: World, targetId: Option<Str>, kindId: Option<Str>)
    requires w.screen.Some?
    ensures var s, s' := w.screen.value, Step(w, Offer(w.screen.value.hubId, targetId, kindId)).screen;
            && s'.Some? && s'.value.stage == Ready && s'.value.press == s.press && s'.value.hubId == s.hubId
            && (targetId.Some? ==> s'.value.form.targetId == targetId) && (kindId.Some? ==> s'.value.form.kindId == kindId)
            && (targetId.None? ==> s'.value.form.targetId == s.form.targetId)
            && (kindId.None? ==> s'.value.form.kindId == s.form.kindId)
            && s'.value.form.useWorktree == s.form.useWorktree && s'.value.form.branch == s.form.branch
            && s'.value.form.folderPath == s.form.folderPath
  {
  }

  /** An offer that comes in late, while a request is out, makes the screen ready again but keeps the press. */
  lemma LateOfferKeepsPress(w: World, choice: Choice, form: Form, targetId: Option<Str>, kindId: Option<Str>)
    requires Waiting(w, choice) && ChoiceOf(form) == choice && Chosen(form.targetId) && Chosen(form.kindId)
    ensures var ready := Step(Step(w, Offer(w.screen.value.hubId, targetId, kindId)), Edit(form));
            var w' := Step(ready, Start);
            && |w'.requests| == |w.requests| + 1
            && w'.requests[|w.requests|].actionId == w.requests[|w.requests| - 1].actionId
  {
    StartNames(Step(Step(w, Offer(w.screen.value.hubId, targetId, kindId)), Edit(form)));
  }

  /** The name lives with the screen: left and opened again, the same choice goes out as another press. */
  lemma ReopenedIsAnotherPress(w: World, choice: Choice, form: Form)
    requires Waiting(w, choice) && ChoiceOf(form) == choice && Chosen(form.targetId) && Chosen(form.kindId)
    ensures var reopened := Step(Step(Step(w, Close), Open(w.screen.value.hubId)), Offer(w.screen.value.hubId, None, None));
            var w' := Step(Step(reopened, Edit(form)), Start);
            && |w'.requests| == |w.requests| + 1
            && Requested(w'.requests[|w.requests|]) == choice
            && w'.requests[|w.requests|].actionId == w.minted
  {
    var hubId := w.screen.value.hubId;
    var reopened := Step(Step(Step(Step(w, Close), Open(hubId)), Offer(hubId, None, None)), Edit(form));
    assert reopened.screen == Some(Screen(hubId, Ready, form, None));
    StartNames(reopened);
  }
}
