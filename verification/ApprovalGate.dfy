/**
 * The owner check in front of every input: sent now, or held in order behind a sheet
 * that asks about the pending approval.
 */
module ApprovalGate {
  import opened JsText
  import opened Lists

  datatype Attention = NoAttention | InputRequired | ApprovalRequired | ErrorAttention

  datatype AgentState = AgentState(attention: Attention, attentionId: Option<Str>, revision: Str)

  /** "revision:" */
  const REVISION_PREFIX: Str := [0x72, 0x65, 0x76, 0x69, 0x73, 0x69, 0x6F, 0x6E, 0x3A]

  function ApprovalIdentity(state: AgentState): Option<Str> {
    if !state.attention.ApprovalRequired? then None
    else if state.attentionId.Some? then state.attentionId
    else Some(REVISION_PREFIX + state.revision)
  }

  datatype Check = Passed | Cancelled | Unavailable | Failed

  /** The gate's variables. Inputs are numbered in the order they are admitted. */
  datatype Gate = Gate(pending: Option<Str>, proven: Option<Str>, queue: seq<nat>, prompting: bool, generation: nat)

  const CLOSED: Gate := Gate(None, None, [], false, 0)

  predicate SendsNow(g: Gate, enabled: bool) {
    !g.prompting && (!enabled || g.pending.None? || g.pending == g.proven)
  }

  predicate OpensSheet(g: Gate, enabled: bool) {
    !g.prompting && !SendsNow(g, enabled)
  }

  function Admitted(g: Gate, input: nat, enabled: bool): Gate {
    if SendsNow(g, enabled) then g else g.(queue := g.queue + [input], prompting := true)
  }

  function Settled(g: Gate, id: Str, since: nat, check: Check): Gate {
    if since != g.generation then g
    else g.(prompting := false, queue := [], proven := if check.Passed? then Some(id) else g.proven)
  }

  function Cleared(g: Gate): Gate {
    Gate(None, None, [], false, g.generation + 1)
  }

  /** The gate in place; `sent` is what has gone out, `refusals` how often a sheet did not pass. */
  class ApprovalGateObject {
    var pending: Option<Str>
    var proven: Option<Str>
    var queue: seq<nat>
    var prompting: bool
    var generation: nat
    var sent: seq<nat>
    var refusals: nat

    function State(): Gate
      reads this
    {
      Gate(pending, proven, queue, prompting, generation)
    }

    constructor ()
      ensures State() == CLOSED && sent == [] && refusals == 0
    {
      pending, proven, queue, prompting, generation := None, None, [], false, 0;
      sent, refusals := [], 0;
    }

    method Observe(state: AgentState)
      modifies this`pending
      ensures State() == old(State()).(pending := ApprovalIdentity(state))
    {
      pending := ApprovalIdentity(state);
    }

    /** Names the approval and the generation of the sheet it opens, if it opens one. */
    method Admit(input: nat, enabled: bool) returns (sheet: Option<(Str, nat)>)
      modifies this`queue, this`prompting, this`sent
      ensures State() == Admitted(old(State()), input, enabled)
      ensures sent == if SendsNow(old(State()), enabled) then old(sent) + [input] else old(sent)
      ensures OpensSheet(old(State()), enabled) ==>
                pending.Some? && sheet == Some((pending.value, generation))
      ensures !OpensSheet(old(State()), enabled) ==> sheet.None?
    {
      sheet := None;
      if prompting {
        queue := queue + [input];
        return;
      }
      if !enabled || pending.None? || pending == proven {
        sent := sent + [input];
        return;
      }
      queue := queue + [input];
      prompting := true;
      sheet := Some((pending.value, generation));
    }

    method SheetAnswered(id: Str, since: nat, check: Check)
      modifies this`prompting, this`queue, this`proven, this`sent, this`refusals
      ensures State() == Settled(old(State()), id, since, check)
      ensures sent == if since == generation && check.Passed? then old(sent) + old(queue) else old(sent)
      ensures refusals == old(refusals) + if since == generation && !check.Passed? then 1 else 0
    {
      if since != generation { return; }
      prompting := false;
      var waiting := queue;
      queue := [];
      if check.Passed? {
        proven := Some(id);
        var i := 0;
        while i < |waiting|
          invariant 0 <= i <= |waiting|
          invariant sent == old(sent) + waiting[..i] && refusals == old(refusals)
          invariant State() == Settled(old(State()), id, since, check)
        {
          sent := sent + [waiting[i]];
          i := i + 1;
        }
        assert waiting[..i] == waiting;
        return;
      }
      refusals := refusals + 1;
    }

    method Reset()
      modifies this`generation, this`pending, this`proven, this`queue, this`prompting
      ensures State() == Cleared(old(State()))
    {
      generation := generation + 1;
      pending, proven := None, None;
      queue := [];
      prompting := false;
    }
  }

  // ── Every run ──────────────────────────────────────────────────────────────

  datatype Outcome = Unanswered | Answered(check: Check)

  /** A sheet: whose approval it asks about, the generation it went up in, and what was proven then. */
  datatype Sheet = Sheet(id: Str, since: nat, provenThen: Option<Str>, outcome: Outcome)

  /** An input: whether the gate was on, what the agent waited on, and the sheet it went behind. */
  datatype Input = Input(enabled: bool, pending: Option<Str>, behind: Option<Str>)

  /** An input let through: in which generation, and what was proven by then. */
  datatype Release = Release(input: nat, generation: nat, proven: Option<Str>)

  datatype World = World(gate: Gate, inputs: seq<Input>, released: seq<Release>, dropped: set<nat>, sheets: seq<Sheet>)

  datatype Event =
    | Observe(state: AgentState)
    | Admit(enabled: bool)
    | Answer(sheet: nat, check: Check)
    | Reset

  const START: World := World(CLOSED, [], [], {}, [])

  function Releases(inputs: seq<nat>, generation: nat, proven: Option<Str>): seq<Release> {
    seq(|inputs|, i requires 0 <= i < |inputs| => Release(inputs[i], generation, proven))
  }

  function Step(w: World, e: Event): World {
    var g := w.gate;
    match e
    case Observe(state) => w.(gate := g.(pending := ApprovalIdentity(state)))
    case Admit(enabled) =>
      var k := |w.inputs|;
      var behind := if g.prompting && w.sheets != [] then Some(w.sheets[|w.sheets| - 1].id)
                    else if OpensSheet(g, enabled) then g.pending else None;
      w.(gate := Admitted(g, k, enabled),
         inputs := w.inputs + [Input(enabled, g.pending, behind)],
         released := if SendsNow(g, enabled) then w.released + Releases([k], g.generation, g.proven) else w.released,
         sheets := if OpensSheet(g, enabled) then w.sheets + [Sheet(g.pending.value, g.generation, g.proven, Unanswered)]
                   else w.sheets)
    case Answer(s, check) =>
      if s >= |w.sheets| || w.sheets[s].outcome != Unanswered then w
      else
        var sheet := w.sheets[s];
        var g' := Settled(g, sheet.id, sheet.since, check);
        var current := sheet.since == g.generation;
        w.(gate := g',
           sheets := w.sheets[s := sheet.(outcome := Answered(check))],
           released := if current && check.Passed? then w.released + Releases(g.queue, g.generation, g'.proven) else w.released,
           dropped := if current && !check.Passed? then w.dropped + (set i | i in g.queue) else w.dropped)
    case Reset =>
      w.(gate := Cleared(g), dropped := w.dropped + (set i | i in g.queue))
  }

  function After(es: seq<Event>): World {
    if es == [] then START else Step(After(es[..|es| - 1]), es[|es| - 1])
  }

  /** A check that passed for this approval since the last reset. */
  predicate PassedIn(sheets: seq<Sheet>, id: Str, generation: nat) {
    exists s :: 0 <= s < |sheets| && sheets[s].id == id && sheets[s].since == generation
                && sheets[s].outcome == Answered(Passed)
  }

  /** The approval of the last check that passed in a generation. */
  function LastPassed(sheets: seq<Sheet>, generation: nat): Option<Str> {
    if sheets == [] then None
    else
      var last := sheets[|sheets| - 1];
      if last.since == generation && last.outcome == Answered(Passed) then Some(last.id)
      else LastPassed(sheets[..|sheets| - 1], generation)
  }

  function ReleasedInputs(rs: seq<Release>): (r: seq<nat>)
    ensures |r| == |rs| && forall i :: 0 <= i < |rs| ==> r[i] == rs[i].input
  {
    seq(|rs|, i requires 0 <= i < |rs| => rs[i].input)
  }

  /** Asked of an owner: the gate was on and the agent waited on an approval. */
  predicate Gated(i: Input) {
    i.enabled && i.pending.Some?
  }

  predicate Prompting(w: World) {
    && (w.gate.prompting <==> w.gate.queue != [])
    && (w.gate.prompting <==>
        && w.sheets != []
        && w.sheets[|w.sheets| - 1].since == w.gate.generation
        && w.sheets[|w.sheets| - 1].outcome == Unanswered)
    && (forall s :: 0 <= s < |w.sheets| ==> w.sheets[s].since <= w.gate.generation)
    && w.gate.proven == LastPassed(w.sheets, w.gate.generation)
  }

  /** Opened for an approval other than the one last proven, which it remembers. */
  predicate Needed(sheets: seq<Sheet>, s: nat)
    requires s < |sheets|
  {
    sheets[s].provenThen == LastPassed(sheets[..s], sheets[s].since) && sheets[s].provenThen != Some(sheets[s].id)
  }

  predicate SheetsOrdered(sheets: seq<Sheet>) {
    && (forall s, t :: 0 <= s < t < |sheets| ==>
          && sheets[s].since <= sheets[t].since
          && (sheets[s].since == sheets[t].since ==> sheets[s].outcome != Unanswered))
    && (forall s :: 0 <= s < |sheets| ==> Needed(sheets, s))
  }

  /** Of the first `n` inputs each is out, waiting or dropped, and what waits came after what is out. */
  predicate Spread(out: seq<nat>, queue: seq<nat>, dropped: set<nat>, n: nat) {
    && (forall k :: 0 <= k < n ==> k in out || k in queue || k in dropped)
    && (forall k :: k in dropped ==> k < n && k !in out && k !in queue)
    && (forall i :: 0 <= i < |out| ==> out[i] < n)
    && (forall i :: 0 <= i < |queue| ==> queue[i] < n)
    && Ascending(out + queue)
  }

  predicate Conserved(w: World) {
    Spread(ReleasedInputs(w.released), w.gate.queue, w.dropped, |w.inputs|)
  }

  /** What waits came behind the sheet that is up. */
  predicate Behind(w: World) {
    forall i :: 0 <= i < |w.gate.queue| && w.gate.queue[i] < |w.inputs| ==>
      w.sheets != [] && w.inputs[w.gate.queue[i]].behind == Some(w.sheets[|w.sheets| - 1].id)
  }

  /** The approval whose proof lets an input through: the sheet it went behind, or the one pending. */
  function Ticket(i: Input): Option<Str> {
    if i.behind.Some? then i.behind else i.pending
  }

  /** A gated input came out on a check that had passed for its ticket since the last reset. */
  predicate Proved(w: World, r: Release) {
    r.input < |w.inputs| && Gated(w.inputs[r.input]) ==>
      r.proven.Some? && r.proven == Ticket(w.inputs[r.input]) && PassedIn(w.sheets, r.proven.value, r.generation)
  }

  predicate Checked(w: World) {
    Behind(w) && forall i :: 0 <= i < |w.released| ==> Proved(w, w.released[i])
  }

  predicate Inv(w: World) {
    Prompting(w) && SheetsOrdered(w.sheets) && Conserved(w) && Checked(w)
  }

  // ── One lemma per event ────────────────────────────────────────────────────

  lemma {:induction false} LastPassedMeans(sheets: seq<Sheet>, generation: nat)
    ensures LastPassed(sheets, generation).Some? ==> PassedIn(sheets, LastPassed(sheets, generation).value, generation)
  {
    if sheets != [] {
      var front := sheets[..|sheets| - 1];
      LastPassedMeans(front, generation);
      if LastPassed(front, generation).Some? {
        PassedInLasts(front, sheets, LastPassed(front, generation).value, generation);
      }
      var last := sheets[|sheets| - 1];
      assert last.since == generation && last.outcome == Answered(Passed) ==> PassedIn(sheets, last.id, generation);
    }
  }

  lemma {:induction false} NothingPassedYet(sheets: seq<Sheet>, generation: nat)
    requires forall s :: 0 <= s < |sheets| ==> sheets[s].since != generation
    ensures LastPassed(sheets, generation).None?
  {
    if sheets != [] { NothingPassedYet(sheets[..|sheets| - 1], generation); }
  }

  /** Answering a sheet of another generation, or not passing, leaves the last pass alone. */
  lemma {:induction false} LastPassedUpdate(sheets: seq<Sheet>, s: nat, sheet: Sheet, generation: nat)
    requires s < |sheets| && sheets[s].outcome == Unanswered
    requires sheet.since == sheets[s].since && (sheet.since != generation || sheet.outcome != Answered(Passed))
    ensures LastPassed(sheets[s := sheet], generation) == LastPassed(sheets, generation)
  {
    var front := sheets[..|sheets| - 1];
    if s < |sheets| - 1 {
      LastPassedUpdate(front, s, sheet, generation);
      assert sheets[s := sheet][..|sheets| - 1] == front[s := sheet];
    } else {
      assert sheets[s := sheet][..|sheets| - 1] == front;
    }
  }

  lemma PassedInLasts(before: seq<Sheet>, after: seq<Sheet>, id: Str, generation: nat)
    requires |before| <= |after| && PassedIn(before, id, generation)
    requires forall s :: 0 <= s < |before| && before[s].outcome != Unanswered ==> after[s] == before[s]
    ensures PassedIn(after, id, generation)
  {
    var s :| 0 <= s < |before| && before[s].id == id && before[s].since == generation
             && before[s].outcome == Answered(Passed);
    assert after[s] == before[s];
  }

  lemma AdmitKeeps(w: World, enabled: bool)
    requires Inv(w)
    ensures Inv(Step(w, Admit(enabled)))
  {
    var w' := Step(w, Admit(enabled));
    LastPassedMeans(w.sheets, w.gate.generation);
    AdmitPrompting(w, enabled);
    AdmitConserved(w, enabled);
    AdmitChecked(w, enabled);
  }

  lemma OneMoreSheet(sheets: seq<Sheet>, sheet: Sheet, generation: nat)
    requires sheet.outcome == Unanswered
    ensures LastPassed(sheets + [sheet], generation) == LastPassed(sheets, generation)
  {
    assert (sheets + [sheet])[..|sheets|] == sheets;
  }

  lemma SheetsMore(sheets: seq<Sheet>, sheet: Sheet)
    requires SheetsOrdered(sheets) && sheet.provenThen == LastPassed(sheets, sheet.since) != Some(sheet.id)
    requires forall s :: 0 <= s < |sheets| ==>
               sheets[s].since <= sheet.since && (sheets[s].since == sheet.since ==> sheets[s].outcome != Unanswered)
    ensures SheetsOrdered(sheets + [sheet])
  {
    var all := sheets + [sheet];
    assert all[..|sheets|] == sheets;
    forall s | 0 <= s < |all| ensures Needed(all, s) {
      assert s < |sheets| ==> all[..s] == sheets[..s] && Needed(sheets, s);
    }
  }

  /** While no sheet of this generation is up, all of its sheets have been answered. */
  lemma NoneUp(w: World)
    requires Prompting(w) && SheetsOrdered(w.sheets) && !w.gate.prompting
    ensures forall s :: 0 <= s < |w.sheets| && w.sheets[s].since == w.gate.generation ==> w.sheets[s].outcome != Unanswered
  {
    if w.sheets != [] {
      var last := |w.sheets| - 1;
      assert forall s :: 0 <= s < last ==> w.sheets[s].since <= w.sheets[last].since;
    }
  }

  /** No new sheet: either one is up already, or the input goes straight through. */
  lemma AdmitNoSheet(w: World, enabled: bool)
    requires Prompting(w) && !OpensSheet(w.gate, enabled)
    ensures Prompting(Step(w, Admit(enabled)))
  {
    assert Step(w, Admit(enabled)).sheets == w.sheets;
  }

  lemma AdmitOpens(w: World, enabled: bool, sheet: Sheet)
    requires Prompting(w) && OpensSheet(w.gate, enabled)
    requires sheet == Sheet(w.gate.pending.value, w.gate.generation, w.gate.proven, Unanswered)
    ensures Prompting(Step(w, Admit(enabled)))
  {
    var w' := Step(w, Admit(enabled));
    OneMoreSheet(w.sheets, sheet, w.gate.generation);
    assert w'.sheets == w.sheets + [sheet] && w'.sheets[|w.sheets|] == sheet;
  }

  lemma AdmitPrompting(w: World, enabled: bool)
    requires Prompting(w) && SheetsOrdered(w.sheets)
    ensures Prompting(Step(w, Admit(enabled))) && SheetsOrdered(Step(w, Admit(enabled)).sheets)
  {
    if OpensSheet(w.gate, enabled) {
      var sheet := Sheet(w.gate.pending.value, w.gate.generation, w.gate.proven, Unanswered);
      NoneUp(w);
      SheetsMore(w.sheets, sheet);
      AdmitOpens(w, enabled, sheet);
    } else {
      AdmitNoSheet(w, enabled);
    }
  }

  lemma SpreadOut(out: seq<nat>, dropped: set<nat>, n: nat)
    requires Spread(out, [], dropped, n)
    ensures Spread(out + [n], [], dropped, n + 1)
  {
    assert out + [] == out && (out + [n]) + [] == out + [n];
  }

  lemma SpreadWaits(out: seq<nat>, queue: seq<nat>, dropped: set<nat>, n: nat)
    requires Spread(out, queue, dropped, n)
    ensures Spread(out, queue + [n], dropped, n + 1)
  {
    var all := out + queue;
    assert out + (queue + [n]) == all + [n];
    forall i | 0 <= i < |all| ensures all[i] < n { }
  }

  lemma SpreadReleased(out: seq<nat>, queue: seq<nat>, dropped: set<nat>, n: nat)
    requires Spread(out, queue, dropped, n)
    ensures Spread(out + queue, [], dropped, n)
  {
    assert (out + queue) + [] == out + queue;
    assert forall k :: k in out + queue <==> k in out || k in queue;
  }

  lemma SpreadDropped(out: seq<nat>, queue: seq<nat>, dropped: set<nat>, n: nat)
    requires Spread(out, queue, dropped, n)
    ensures Spread(out, [], dropped + (set i | i in queue), n)
  {
    OutThenQueue(out, queue);
    assert out + [] == out;
  }

  lemma OutThenQueue(out: seq<nat>, queue: seq<nat>)
    requires Ascending(out + queue)
    ensures Ascending(out) && forall k :: k in queue ==> k !in out
  {
    var all := out + queue;
    assert forall i :: 0 <= i < |out| ==> all[i] == out[i];
    forall j | 0 <= j < |queue| ensures queue[j] !in out {
      assert all[|out| + j] == queue[j];
    }
  }

  lemma AdmitConserved(w: World, enabled: bool)
    requires Conserved(w) && Prompting(w)
    ensures Conserved(Step(w, Admit(enabled)))
  {
    var w' := Step(w, Admit(enabled));
    var out, k := ReleasedInputs(w.released), |w.inputs|;
    if SendsNow(w.gate, enabled) {
      SpreadOut(out, w.dropped, k);
      assert ReleasedInputs(w'.released) == out + [k];
    } else {
      SpreadWaits(out, w.gate.queue, w.dropped, k);
    }
  }

  lemma ReleasedAdmitted(w: World)
    requires Conserved(w)
    ensures forall i :: 0 <= i < |w.released| ==> w.released[i].input < |w.inputs|
  {
    var out := ReleasedInputs(w.released);
    forall i | 0 <= i < |w.released| ensures w.released[i].input < |w.inputs| { assert out[i] == w.released[i].input; }
  }

  /** Nobody's proof is lost while sheets are only added or answered. */
  lemma ProofsLast(w: World, w': World, n: nat)
    requires n <= |w.released| && n <= |w'.released| && w'.released[..n] == w.released[..n]
    requires forall i :: 0 <= i < n ==> w.released[i].input < |w.inputs| && Proved(w, w.released[i])
    requires w.inputs <= w'.inputs && |w.sheets| <= |w'.sheets|
    requires forall s :: 0 <= s < |w.sheets| && w.sheets[s].outcome != Unanswered ==> w'.sheets[s] == w.sheets[s]
    ensures forall i :: 0 <= i < n ==> Proved(w', w'.released[i])
  {
    forall i | 0 <= i < n ensures Proved(w', w'.released[i]) {
      var r := w.released[i];
      assert w'.released[..n][i] == w.released[..n][i];
      if Gated(w.inputs[r.input]) { PassedInLasts(w.sheets, w'.sheets, r.proven.value, r.generation); }
    }
  }

  lemma AdmitChecked(w: World, enabled: bool)
    requires Inv(w)
    ensures Checked(Step(w, Admit(enabled)))
  {
    var w' := Step(w, Admit(enabled));
    LastPassedMeans(w.sheets, w.gate.generation);
    ReleasedAdmitted(w);
    ProofsLast(w, w', |w.released|);
    if SendsNow(w.gate, enabled) {
      assert Proved(w', w'.released[|w.released|]);
    }
  }

  lemma AnswerKeeps(w: World, s: nat, check: Check)
    requires Inv(w) && s < |w.sheets| && w.sheets[s].outcome == Unanswered
    ensures Inv(Step(w, Answer(s, check)))
  {
    AnswerPrompting(w, s, check);
    AnswerOrdered(w.sheets, s, check);
    AnswerConserved(w, s, check);
    AnswerChecked(w, s, check);
  }

  lemma AnswerPrompting(w: World, s: nat, check: Check)
    requires Prompting(w) && SheetsOrdered(w.sheets) && s < |w.sheets| && w.sheets[s].outcome == Unanswered
    ensures Prompting(Step(w, Answer(s, check)))
  {
    var sheet := w.sheets[s].(outcome := Answered(check));
    if sheet.since != w.gate.generation || !check.Passed? {
      LastPassedUpdate(w.sheets, s, sheet, w.gate.generation);
    }
  }

  lemma AnswerOrdered(sheets: seq<Sheet>, s: nat, check: Check)
    requires SheetsOrdered(sheets) && s < |sheets| && sheets[s].outcome == Unanswered
    ensures SheetsOrdered(sheets[s := sheets[s].(outcome := Answered(check))])
  {
    var sheet := sheets[s].(outcome := Answered(check));
    var after := sheets[s := sheet];
    forall k | 0 <= k < |after| ensures Needed(after, k) {
      assert Needed(sheets, k);
      AnswerLeavesBefore(sheets, s, sheet, k);
    }
  }

  /** What was proven when a sheet opened does not change with a later answer. */
  lemma AnswerLeavesBefore(sheets: seq<Sheet>, s: nat, sheet: Sheet, k: nat)
    requires s < |sheets| && k < |sheets| && sheets[s].outcome == Unanswered && sheet.since == sheets[s].since
    requires s < k ==> sheets[s].since != sheets[k].since
    ensures LastPassed(sheets[s := sheet][..k], sheets[k].since) == LastPassed(sheets[..k], sheets[k].since)
  {
    if s < k {
      assert sheets[s := sheet][..k] == sheets[..k][s := sheet];
      LastPassedUpdate(sheets[..k], s, sheet, sheets[k].since);
    } else {
      assert sheets[s := sheet][..k] == sheets[..k];
    }
  }

  lemma AnswerConserved(w: World, s: nat, check: Check)
    requires Inv(w) && s < |w.sheets| && w.sheets[s].outcome == Unanswered
    ensures Conserved(Step(w, Answer(s, check)))
  {
    var w' := Step(w, Answer(s, check));
    var out := ReleasedInputs(w.released);
    if w.sheets[s].since == w.gate.generation {
      if check.Passed? {
        SpreadReleased(out, w.gate.queue, w.dropped, |w.inputs|);
        assert ReleasedInputs(w'.released) == out + w.gate.queue;
      } else {
        SpreadDropped(out, w.gate.queue, w.dropped, |w.inputs|);
      }
    }
  }

  lemma AnswerChecked(w: World, s: nat, check: Check)
    requires Inv(w) && s < |w.sheets| && w.sheets[s].outcome == Unanswered
    ensures Checked(Step(w, Answer(s, check)))
  {
    var w' := Step(w, Answer(s, check));
    ReleasedAdmitted(w);
    ProofsLast(w, w', |w.released|);
    if w.sheets[s].since == w.gate.generation && check.Passed? {
      assert w'.sheets[s].outcome == Answered(Passed);
      forall i | |w.released| <= i < |w'.released| ensures Proved(w', w'.released[i]) {
        assert w'.released[i].input == w.gate.queue[i - |w.released|];
      }
    }
  }

  lemma ResetKeeps(w: World)
    requires Inv(w)
    ensures Inv(Step(w, Reset))
  {
    var w' := Step(w, Reset);
    NothingPassedYet(w.sheets, w'.gate.generation);
    SpreadDropped(ReleasedInputs(w.released), w.gate.queue, w.dropped, |w.inputs|);
    ReleasedAdmitted(w);
    ProofsLast(w, w', |w.released|);
  }

  lemma ObserveKeeps(w: World, e: Event)
    requires Inv(w) && e.Observe?
    ensures Inv(Step(w, e))
  {
  }

  lemma StepKeeps(w: World, e: Event)
    requires Inv(w)
    ensures Inv(Step(w, e))
  {
    match e
    case Observe(_) => ObserveKeeps(w, e);
    case Admit(enabled) => AdmitKeeps(w, enabled);
    case Answer(s, check) => if s < |w.sheets| && w.sheets[s].outcome == Unanswered { AnswerKeeps(w, s, check); }
    case Reset => ResetKeeps(w);
  }

  lemma {:induction false} EveryRun(es: seq<Event>)
    ensures Inv(After(es))
  {
    if es != [] {
      EveryRun(es[..|es| - 1]);
      StepKeeps(After(es[..|es| - 1]), es[|es| - 1]);
    }
  }

  // ── What the gate promises ─────────────────────────────────────────────────

  /** Every input is let through once, waiting, or dropped; in order; and waiting only behind a sheet. */
  lemma OrderKept(es: seq<Event>, k: nat)
    requires k < |After(es).inputs|
    ensures var w := After(es);
            var out := ReleasedInputs(w.released);
            && Ascending(out)
            && (k in out || k in w.gate.queue || k in w.dropped)
            && !(k in out && (k in w.gate.queue || k in w.dropped)) && !(k in w.gate.queue && k in w.dropped)
            && (w.gate.prompting <==> w.gate.queue != [])
  {
    EveryRun(es);
    var w := After(es);
    OutThenQueue(ReleasedInputs(w.released), w.gate.queue);
  }

  /** A sheet answered after a reset lets nothing through and proves nothing. */
  lemma StaleSheetDoesNothing(es: seq<Event>, s: nat, check: Check)
    requires s < |After(es).sheets| && After(es).sheets[s].since != After(es).gate.generation
    ensures var w := After(es);
            var w' := Step(w, Answer(s, check));
            w'.gate == w.gate && w'.released == w.released && w'.dropped == w.dropped
  {
  }

  /** Anything gated came out only after a check had passed since the last reset. */
  lemma OnlyAfterACheck(es: seq<Event>, i: nat)
    requires i < |After(es).released|
    ensures var w := After(es);
            var r := w.released[i];
            && r.input < |w.inputs|
            && (Gated(w.inputs[r.input]) ==> r.proven.Some? && PassedIn(w.sheets, r.proven.value, r.generation))
  {
    EveryRun(es);
    var w := After(es);
    assert Proved(w, w.released[i]);
  }

  /** The proven approval is one whose own sheet passed since the last reset. */
  lemma ProvenWasPassed(es: seq<Event>)
    ensures var w := After(es);
            w.gate.proven.Some? ==> PassedIn(w.sheets, w.gate.proven.value, w.gate.generation)
  {
    EveryRun(es);
    LastPassedMeans(After(es).sheets, After(es).gate.generation);
  }

  /** The owner is asked again about an approval already proven only if another was proven in between. */
  lemma OncePerApproval(es: seq<Event>, s: nat, t: nat)
    requires s < t < |After(es).sheets|
    requires var sheets := After(es).sheets;
             sheets[s].id == sheets[t].id && sheets[s].since == sheets[t].since && sheets[s].outcome == Answered(Passed)
    ensures var sheets := After(es).sheets;
            exists u :: s < u < t && sheets[u].since == sheets[t].since
                        && sheets[u].outcome == Answered(Passed) && sheets[u].id != sheets[t].id
  {
    EveryRun(es);
    var sheets := After(es).sheets;
    assert Needed(sheets, t);
    var u := LastPassAfter(sheets[..t], sheets[t].since, s);
    assert sheets[..t][u] == sheets[u];
  }

  lemma {:induction false} LastPassAfter(sheets: seq<Sheet>, generation: nat, s: nat) returns (u: nat)
    requires s < |sheets| && sheets[s].since == generation && sheets[s].outcome == Answered(Passed)
    ensures s <= u < |sheets| && sheets[u].since == generation && sheets[u].outcome == Answered(Passed)
    ensures LastPassed(sheets, generation) == Some(sheets[u].id)
  {
    var last := |sheets| - 1;
    if sheets[last].since == generation && sheets[last].outcome == Answered(Passed) {
      u := last;
    } else {
      u := LastPassAfter(sheets[..last], generation, s);
    }
  }

  /**
   * What came out was proven for the approval its agent was waiting on exactly when
   * no sheet was up as it arrived, or the one that was up asked about that approval.
   */
  lemma OwnApprovalOrNot(es: seq<Event>, i: nat)
    requires i < |After(es).released|
    ensures var w := After(es);
            var r := w.released[i];
            && r.input < |w.inputs|
            && var input := w.inputs[r.input];
            Gated(input) ==> (r.proven == input.pending <==> input.behind.None? || input.behind == input.pending)
  {
    EveryRun(es);
    var w := After(es);
    assert Proved(w, w.released[i]);
  }

  /** An input that waits behind another approval's sheet is let through without its own being asked. */
  lemma RidesOnAnotherProof()
    ensures exists es :: var w := After(es);
              && |w.released| == 2 && w.released[1].input == 1 && |w.inputs| == 2
              && w.inputs[1] == Input(true, Some([2]), Some([1])) && |w.sheets| == 1 && w.sheets[0].id == [1]
  {
    var a := Observe(AgentState(ApprovalRequired, Some([1]), []));
    var b := Observe(AgentState(ApprovalRequired, Some([2]), []));
    var e1 := [] + [a];
    var e2 := e1 + [Admit(true)];
    var e3 := e2 + [b];
    var e4 := e3 + [Admit(true)];
    AfterSplit([], a);
    AfterSplit(e1, Admit(true));
    AfterSplit(e2, b);
    AfterSplit(e3, Admit(true));
    AfterSplit(e4, Answer(0, Passed));
    assert After(e2) == World(Gate(Some([1]), None, [0], true, 0), [Input(true, Some([1]), Some([1]))],
                              [], {}, [Sheet([1], 0, None, Unanswered)]);
    assert After(e4).gate.queue == [0, 1];
    assert After(e4 + [Answer(0, Passed)]).released == Releases([0, 1], 0, Some([1]));
  }

  // ── What the gate asks about, and when ─────────────────────────────────────

  /** The agent's state as last seen since the last reset. */
  function LastSeen(es: seq<Event>): Option<AgentState> {
    if es == [] then None
    else match es[|es| - 1]
      case Observe(state) => Some(state)
      case Reset => None
      case _ => LastSeen(es[..|es| - 1])
  }

  /**
   * The agent waits on an approval exactly when its last seen state says so: on the one
   * named there, or, where none is named, on one told apart by the state's revision.
   */
  lemma {:induction false} PendingIsLastSeen(es: seq<Event>)
    ensures var pending := After(es).gate.pending;
            match LastSeen(es)
            case None => pending.None?
            case Some(state) =>
              if state.attention != ApprovalRequired then pending.None?
              else pending == Some(if state.attentionId.Some? then state.attentionId.value else REVISION_PREFIX + state.revision)
  {
    if es != [] { PendingIsLastSeen(es[..|es| - 1]); }
  }

  /**
   * With no sheet up, an input goes out at once exactly when the gate is off, no approval
   * is waited on, or the one that is was the last proven; else a sheet goes up for it. With
   * one up, it waits, last in line, whatever the gate says.
   */
  lemma AdmitDecides(es: seq<Event>, enabled: bool)
    ensures var w, w' := After(es), Step(After(es), Admit(enabled));
            var k, pending := |w.inputs|, w.gate.pending;
            && w'.dropped == w.dropped
            && if w.gate.prompting then
                 w'.released == w.released && w'.sheets == w.sheets && w'.gate.queue == w.gate.queue + [k]
               else if !enabled || pending.None? || LastPassed(w.sheets, w.gate.generation) == pending then
                 && ReleasedInputs(w'.released) == ReleasedInputs(w.released) + [k]
                 && w'.sheets == w.sheets && !w'.gate.prompting
               else
                 && w'.released == w.released && w'.gate.queue == [k] && w'.gate.prompting
                 && w'.sheets == w.sheets + [Sheet(pending.value, w.gate.generation, w.gate.proven, Unanswered)]
  {
    EveryRun(es);
  }

  /**
   * The answer to the sheet that is up: passed lets out everything behind it, in order, and
   * proves that approval; anything else drops everything behind it and proves nothing new.
   */
  lemma AnswerDecides(es: seq<Event>, check: Check)
    requires After(es).gate.prompting && After(es).sheets != []
    ensures var w := After(es);
            var w' := Step(w, Answer(|w.sheets| - 1, check));
            && w'.gate.queue == [] && !w'.gate.prompting && w'.inputs == w.inputs
            && if check == Passed then
                 && ReleasedInputs(w'.released) == ReleasedInputs(w.released) + w.gate.queue && w'.dropped == w.dropped
                 && LastPassed(w'.sheets, w.gate.generation) == Some(w.sheets[|w.sheets| - 1].id)
               else
                 && w'.released == w.released && w'.dropped == w.dropped + (set k | k in w.gate.queue)
                 && LastPassed(w'.sheets, w.gate.generation) == LastPassed(w.sheets, w.gate.generation)
  {
    EveryRun(es);
    var w := After(es);
    StepKeeps(w, Answer(|w.sheets| - 1, check));
  }

  lemma AfterSplit(es: seq<Event>, e: Event)
    ensures After(es + [e]) == Step(After(es), e)
  {
    assert (es + [e])[..|es|] == es;
  }
}
