/** The loop that brings the paired computers' push registrations to the last choice made. */
module PushSync {
  import opened JsText

  datatype Level = All | Approvals

  /** The person's choice; `None` is "off". */
  datatype Desired = Desired(preference: Option<Level>, korean: bool)

  datatype Permission = Granted | Denied | Undecided

  datatype PermissionAnswer = Permitted(permission: Permission) | PermissionFailed(detail: Str)

  datatype Outcome = Outcome(id: Str, error: Option<Str>)

  datatype SyncAnswer = Synced(supported: bool, outcomes: seq<Outcome>) | SyncFailed(detail: Str)

  datatype State = Syncing | Registered | Off | Unsupported | Unpaired | Error(detail: Str)

  /** Where the loop waits. */
  datatype At = Idle | Asking(current: Desired) | Calling(current: Desired, preference: Option<Level>)

  /** A truthy error: an empty string counts as none, as in the source. */
  predicate Failing(o: Outcome) {
    o.error.Some? && o.error.value != []
  }

  function FirstFailure(outcomes: seq<Outcome>): (r: Option<Str>)
    ensures r.None? <==> forall i :: 0 <= i < |outcomes| ==> !Failing(outcomes[i])
    ensures r.Some? ==> exists i :: 0 <= i < |outcomes| && Failing(outcomes[i]) && outcomes[i].error == r
  {
    if outcomes == [] then None
    else if Failing(outcomes[0]) then outcomes[0].error
    else
      var r := FirstFailure(outcomes[1..]);
      assert outcomes == [outcomes[0]] + outcomes[1..];
      r
  }

  function Result(preference: Option<Level>, answer: SyncAnswer): State {
    match answer
    case SyncFailed(detail) => Error(detail)
    case Synced(supported, outcomes) =>
      var failure := FirstFailure(outcomes);
      if !supported then Unsupported
      else if failure.Some? then Error(failure.value)
      else if preference.None? then Off
      else if |outcomes| == 0 then Unpaired
      else Registered
  }

  function Asked(current: Desired, permission: Permission): Option<Level> {
    if permission.Granted? then current.preference else None
  }

  // ── The machine ────────────────────────────────────────────────────────────

  datatype Sync = Sync(desired: Option<Desired>, disposed: bool, at: At)

  /** What one resumption publishes, and the call it makes. */
  datatype Effect = Effect(sync: Sync, published: seq<State>, call: Option<Option<Level>>)

  /** The head of the loop: take the newest choice, or stop. */
  function Loop(s: Sync): Effect {
    if s.desired.None? || s.disposed then Effect(s.(at := Idle), [], None)
    else
      var current := s.desired.value;
      if current.preference.None? then Effect(Sync(None, false, Calling(current, None)), [Syncing], Some(None))
      else Effect(Sync(None, false, Asking(current)), [Syncing], None)
  }

  function Publish(s: Sync, state: State): Effect {
    var rest := Loop(s);
    if s.desired.Some? || s.disposed then rest else rest.(published := [state] + rest.published)
  }

  function OnRequest(s: Sync, value: Desired): Effect {
    var s' := s.(desired := Some(value));
    if !s.at.Idle? || s.disposed then Effect(s', [], None) else Loop(s')
  }

  function OnPermission(s: Sync, answer: PermissionAnswer): Effect
    requires s.at.Asking?
  {
    match answer
    case PermissionFailed(detail) => Publish(s, Error(detail))
    case Permitted(permission) =>
      if s.desired.Some? || s.disposed then Loop(s)
      else
        var preference := Asked(s.at.current, permission);
        Effect(s.(at := Calling(s.at.current, preference)), [], Some(preference))
  }

  function OnSync(s: Sync, answer: SyncAnswer): Effect
    requires s.at.Calling?
  {
    Publish(s, Result(s.at.preference, answer))
  }

  /** The loop in place; `published` and `calls` are what its two callbacks have been given. */
  class PushSyncObject {
    var desired: Option<Desired>
    var running: bool
    var disposed: bool
    var at: At
    var published: seq<State>
    var calls: seq<(Option<Level>, bool)>

    predicate Valid()
      reads this
    {
      running <==> !at.Idle?
    }

    function Now(): Sync
      reads this
    {
      Sync(desired, disposed, at)
    }

    /** What a resumption did, told against the variables it started from. */
    twostate predicate Did(e: Effect, korean: bool)
      reads this
    {
      && Valid() && Now() == e.sync
      && published == old(published) + e.published
      && calls == old(calls) + (if e.call.Some? then [(e.call.value, korean)] else [])
    }

    constructor ()
      ensures Valid() && Now() == Sync(None, false, Idle) && published == [] && calls == []
    {
      desired, running, disposed, at, published, calls := None, false, false, Idle, [], [];
    }

    /** From the head of the loop to the next wait, or out of it. */
    method Continue()
      modifies this
      ensures Did(Loop(old(Now())), if at.Idle? then false else at.current.korean)
    {
      if desired.None? || disposed {
        running := false;
        at := Idle;
        return;
      }
      running := true;
      var current := desired.value;
      desired := None;
      published := published + [Syncing];
      if current.preference.None? {
        calls := calls + [(None, current.korean)];
        at := Calling(current, None);
      } else {
        at := Asking(current);
      }
    }

    method Request(value: Desired)
      requires Valid()
      modifies this
      ensures Did(OnRequest(old(Now()), value), value.korean)
    {
      desired := Some(value);
      if running || disposed { return; }
      Continue();
    }

    method Dispose()
      requires Valid()
      modifies this`disposed, this`desired
      ensures Did(Effect(old(Now()).(disposed := true, desired := None), [], None), false)
    {
      disposed := true;
      desired := None;
    }

    method PermissionAnswered(answer: PermissionAnswer)
      requires Valid() && at.Asking?
      modifies this
      ensures Did(OnPermission(old(Now()), answer), if at.Idle? then false else at.current.korean)
    {
      match answer {
        case PermissionFailed(detail) =>
          if desired.None? && !disposed { published := published + [Error(detail)]; }
          Continue();
        case Permitted(permission) =>
          if desired.Some? || disposed {
            Continue();
            return;
          }
          var current := at.current;
          var preference := Asked(current, permission);
          calls := calls + [(preference, current.korean)];
          at := Calling(current, preference);
      }
    }

    method SyncAnswered(answer: SyncAnswer)
      requires Valid() && at.Calling?
      modifies this
      ensures Did(OnSync(old(Now()), answer), if at.Idle? then false else at.current.korean)
    {
      if desired.None? && !disposed {
        published := published + [Result(at.preference, answer)];
      }
      Continue();
    }
  }

  // ── Every run ──────────────────────────────────────────────────────────────

  /** One call of `synchronize`: for which request, under which permission, with what, and how it came back. */
  datatype Call = Call(request: nat, permission: Permission, preference: Option<Level>, answer: Option<SyncAnswer>)

  /** One publication: for which request, when how many had been made, and the call it reports. */
  datatype Note = Note(state: State, request: nat, requests: nat, call: Option<nat>)

  datatype World = World(sync: Sync, requests: seq<Desired>, serving: nat, calls: seq<Call>, notes: seq<Note>)

  datatype Event = Request(value: Desired) | Dispose | PermissionCame(permission: PermissionAnswer) | SyncCame(sync: SyncAnswer)

  const START: World := World(Sync(None, false, Idle), [], 0, [], [])

  /** Enter the loop's head in the world: a taken choice is always the newest request. */
  function Resume(w: World): World {
    var e := Loop(w.sync);
    if w.sync.desired.None? || w.sync.disposed || w.requests == [] then w.(sync := e.sync)
    else
      var k := |w.requests| - 1;
      w.(sync := e.sync, serving := k,
         notes := w.notes + [Note(Syncing, k, |w.requests|, None)],
         calls := if e.call.Some? then w.calls + [Call(k, Denied, e.call.value, None)] else w.calls)
  }

  function Report(w: World, state: State, call: Option<nat>): World {
    if w.sync.desired.Some? || w.sync.disposed then w
    else w.(notes := w.notes + [Note(state, w.serving, |w.requests|, call)])
  }

  function Step(w: World, e: Event): World {
    match e
    case Request(value) =>
      var w' := w.(sync := w.sync.(desired := Some(value)), requests := w.requests + [value]);
      if !w.sync.at.Idle? || w.sync.disposed then w' else Resume(w')
    case Dispose => w.(sync := w.sync.(disposed := true, desired := None))
    case PermissionCame(answer) =>
      if !w.sync.at.Asking? then w
      else if answer.PermissionFailed? then Resume(Report(w, Error(answer.detail), None))
      else if w.sync.desired.Some? || w.sync.disposed then Resume(w)
      else
        var e := OnPermission(w.sync, answer);
        w.(sync := e.sync, calls := w.calls + [Call(w.serving, answer.permission, e.call.value, None)])
    case SyncCame(answer) =>
      if !w.sync.at.Calling? || w.calls == [] then w
      else
        var last := |w.calls| - 1;
        var w' := w.(calls := w.calls[last := w.calls[last].(answer := Some(answer))]);
        Resume(Report(w', Result(w.sync.at.preference, answer), Some(last)))
  }

  function After(es: seq<Event>): World {
    if es == [] then START else Step(After(es[..|es| - 1]), es[|es| - 1])
  }

  /** What the object does on an event, where it listens for one. */
  function EffectOf(s: Sync, e: Event): Effect {
    match e
    case Request(value) => OnRequest(s, value)
    case Dispose => Effect(s.(disposed := true, desired := None), [], None)
    case PermissionCame(answer) => if s.at.Asking? then OnPermission(s, answer) else Effect(s, [], None)
    case SyncCame(answer) => if s.at.Calling? then OnSync(s, answer) else Effect(s, [], None)
  }

  function States(notes: seq<Note>): seq<State> {
    if notes == [] then [] else States(notes[..|notes| - 1]) + [notes[|notes| - 1].state]
  }

  function Preferences(calls: seq<Call>): (r: seq<Option<Level>>)
    ensures |r| == |calls| && forall i :: 0 <= i < |r| ==> r[i] == calls[i].preference
  {
    if calls == [] then [] else Preferences(calls[..|calls| - 1]) + [calls[|calls| - 1].preference]
  }

  lemma StatesGrow(notes: seq<Note>, note: Note)
    ensures States(notes + [note]) == States(notes) + [note.state]
  {
    assert (notes + [note])[..|notes|] == notes;
  }

  /** The world went the way the object did: same variables, same publications, same calls. */
  predicate Mirrors(w: World, w': World, did: Effect) {
    && w'.sync == did.sync
    && States(w'.notes) == States(w.notes) + did.published
    && Preferences(w'.calls) == Preferences(w.calls) + if did.call.Some? then [did.call.value] else []
  }

  lemma ResumeIsTheLoop(w: World)
    requires w.sync.desired.Some? ==> w.requests != []
    ensures Mirrors(w, Resume(w), Loop(w.sync))
  {
    if w.requests != [] { StatesGrow(w.notes, Note(Syncing, |w.requests| - 1, |w.requests|, None)); }
  }

  lemma ReportIsPublished(w: World, state: State, call: Option<nat>)
    requires w.sync.desired.Some? ==> w.requests != []
    ensures Mirrors(w, Resume(Report(w, state, call)), Publish(w.sync, state))
  {
    StatesGrow(w.notes, Note(state, w.serving, |w.requests|, call));
    ResumeIsTheLoop(Report(w, state, call));
  }

  lemma RequestMirrors(w: World, value: Desired)
    requires w.sync.desired.Some? ==> w.requests != []
    ensures Mirrors(w, Step(w, Request(value)), OnRequest(w.sync, value))
  {
    if w.sync.at.Idle? && !w.sync.disposed {
      ResumeIsTheLoop(w.(sync := w.sync.(desired := Some(value)), requests := w.requests + [value]));
    }
  }

  lemma PermissionMirrors(w: World, answer: PermissionAnswer)
    requires (w.sync.desired.Some? ==> w.requests != []) && w.sync.at.Asking?
    ensures Mirrors(w, Step(w, PermissionCame(answer)), OnPermission(w.sync, answer))
  {
    if answer.PermissionFailed? {
      ReportIsPublished(w, Error(answer.detail), None);
    } else if w.sync.desired.Some? || w.sync.disposed {
      ResumeIsTheLoop(w);
    }
  }

  lemma SyncMirrors(w: World, answer: SyncAnswer)
    requires (w.sync.desired.Some? ==> w.requests != []) && w.sync.at.Calling? && w.calls != []
    ensures Mirrors(w, Step(w, SyncCame(answer)), OnSync(w.sync, answer))
  {
    var last := |w.calls| - 1;
    var w' := w.(calls := w.calls[last := w.calls[last].(answer := Some(answer))]);
    ReportIsPublished(w', Result(w.sync.at.preference, answer), Some(last));
    assert Preferences(w'.calls) == Preferences(w.calls);
  }

  /** The world's machine is the one the object runs, event by event. */
  lemma StepIsTheMachine(w: World, e: Event)
    requires w.sync.desired.Some? ==> w.requests != []
    requires w.sync.at.Calling? ==> w.calls != []
    ensures Mirrors(w, Step(w, e), EffectOf(w.sync, e))
  {
    match e
    case Request(value) => RequestMirrors(w, value);
    case Dispose =>
    case PermissionCame(answer) => if w.sync.at.Asking? { PermissionMirrors(w, answer); }
    case SyncCame(answer) => if w.sync.at.Calling? { SyncMirrors(w, answer); }
  }

  predicate NoteOk(w: World, n: Note) {
    && n.request < |w.requests| && n.requests <= |w.requests| && n.request + 1 == n.requests
    && (n.call.Some? ==>
        && n.call.value < |w.calls|
        && w.calls[n.call.value].request == n.request
        && w.calls[n.call.value].answer.Some?
        && n.state == Result(w.calls[n.call.value].preference, w.calls[n.call.value].answer.value))
    && (n.call.None? ==> n.state.Syncing? || n.state.Error?)
  }

  predicate CallOk(w: World, c: Call) {
    && c.request < |w.requests|
    && (c.preference.Some? <==> w.requests[c.request].preference.Some? && c.permission.Granted?)
    && (c.preference.Some? ==> c.preference == w.requests[c.request].preference)
  }

  predicate Inv(w: World) {
    var s := w.sync;
    && (s.desired.Some? ==> w.requests != [] && s.desired.value == w.requests[|w.requests| - 1])
    && (s.at.Idle? && !s.disposed ==> s.desired.None?)
    && (!s.at.Idle? ==>
        && w.serving < |w.requests| && s.at.current == w.requests[w.serving]
        && (s.desired.None? && !s.disposed ==> w.serving == |w.requests| - 1))
    && (s.at.Calling? ==>
        && w.calls != []
        && w.calls[|w.calls| - 1].request == w.serving
        && w.calls[|w.calls| - 1].preference == s.at.preference
        && w.calls[|w.calls| - 1].answer.None?)
    && (forall c :: 0 <= c < |w.calls| ==>
          && CallOk(w, w.calls[c])
          && (w.calls[c].answer.None? ==> s.at.Calling? && c == |w.calls| - 1))
    && (forall n :: 0 <= n < |w.notes| ==> NoteOk(w, w.notes[n]))
    && (s.at.Idle? && !s.disposed && w.requests != [] ==>
        && w.notes != []
        && w.notes[|w.notes| - 1].request == |w.requests| - 1
        && !w.notes[|w.notes| - 1].state.Syncing?)
  }

  // ── What every event keeps ─────────────────────────────────────────────────

  /** Between the answer to a wait and the next pass of the loop. */
  predicate AtHead(w: World) {
    var s := w.sync;
    && (s.desired.Some? ==> w.requests != [] && s.desired.value == w.requests[|w.requests| - 1])
    && (forall c :: 0 <= c < |w.calls| ==> CallOk(w, w.calls[c]) && w.calls[c].answer.Some?)
    && (forall n :: 0 <= n < |w.notes| ==> NoteOk(w, w.notes[n]))
    && (s.desired.None? && !s.disposed && w.requests != [] ==>
        && w.notes != []
        && w.notes[|w.notes| - 1].request == |w.requests| - 1
        && !w.notes[|w.notes| - 1].state.Syncing?)
  }

  lemma ResumeKeeps(w: World)
    requires AtHead(w)
    ensures Inv(Resume(w))
  {
    var w' := Resume(w);
    forall n | 0 <= n < |w'.notes| ensures NoteOk(w', w'.notes[n]) {
      if n < |w.notes| { assert NoteOk(w, w.notes[n]); }
    }
    forall c | 0 <= c < |w'.calls| ensures CallOk(w', w'.calls[c]) {
      if c < |w.calls| { assert CallOk(w, w.calls[c]); }
    }
  }

  lemma RequestKeeps(w: World, value: Desired)
    requires Inv(w)
    ensures Inv(Step(w, Request(value)))
  {
    var w' := w.(sync := w.sync.(desired := Some(value)), requests := w.requests + [value]);
    forall n | 0 <= n < |w.notes| ensures NoteOk(w', w.notes[n]) {
      assert NoteOk(w, w.notes[n]);
    }
    forall c | 0 <= c < |w.calls| ensures CallOk(w', w.calls[c]) {
      assert CallOk(w, w.calls[c]);
    }
    if w.sync.at.Idle? && !w.sync.disposed { ResumeKeeps(w'); }
  }

  lemma PermissionKeeps(w: World, answer: PermissionAnswer)
    requires Inv(w) && w.sync.at.Asking?
    ensures Inv(Step(w, PermissionCame(answer)))
  {
    if answer.PermissionFailed? {
      var r := Report(w, Error(answer.detail), None);
      forall n | 0 <= n < |r.notes| ensures NoteOk(r, r.notes[n]) {
        if n < |w.notes| { assert NoteOk(w, w.notes[n]); }
      }
      ResumeKeeps(r);
    } else if w.sync.desired.Some? || w.sync.disposed {
      ResumeKeeps(w);
    } else {
      var w' := Step(w, PermissionCame(answer));
      forall n | 0 <= n < |w'.notes| ensures NoteOk(w', w'.notes[n]) {
        assert NoteOk(w, w.notes[n]);
      }
    }
  }

  lemma SyncKeeps(w: World, answer: SyncAnswer)
    requires Inv(w) && w.sync.at.Calling?
    ensures Inv(Step(w, SyncCame(answer)))
  {
    var last := |w.calls| - 1;
    var call := w.calls[last].(answer := Some(answer));
    var w' := w.(calls := w.calls[last := call]);
    var r := Report(w', Result(w.sync.at.preference, answer), Some(last));
    AnsweredNotes(w, w', r, last, answer);
    AnsweredCalls(w, w', last, answer);
    forall c | 0 <= c < |r.calls| ensures CallOk(r, r.calls[c]) { assert CallOk(w', w'.calls[c]); }
    ResumeKeeps(r);
  }

  lemma AnsweredCalls(w: World, w': World, last: nat, answer: SyncAnswer)
    requires Inv(w) && w.sync.at.Calling? && last == |w.calls| - 1
    requires w' == w.(calls := w.calls[last := w.calls[last].(answer := Some(answer))])
    ensures forall c :: 0 <= c < |w'.calls| ==> CallOk(w', w'.calls[c]) && w'.calls[c].answer.Some?
  {
    forall c | 0 <= c < |w'.calls| ensures CallOk(w', w'.calls[c]) { assert CallOk(w, w.calls[c]); }
  }

  lemma AnsweredNotes(w: World, w': World, r: World, last: nat, answer: SyncAnswer)
    requires Inv(w) && w.sync.at.Calling? && last == |w.calls| - 1
    requires w' == w.(calls := w.calls[last := w.calls[last].(answer := Some(answer))])
    requires r == Report(w', Result(w.sync.at.preference, answer), Some(last))
    ensures forall n :: 0 <= n < |r.notes| ==> NoteOk(r, r.notes[n])
  {
    forall n | 0 <= n < |r.notes| ensures NoteOk(r, r.notes[n]) {
      if n < |w.notes| { assert NoteOk(w, w.notes[n]); }
    }
  }

  lemma {:induction false} EveryRun(es: seq<Event>)
    ensures Inv(After(es))
  {
    if es != [] {
      EveryRun(es[..|es| - 1]);
      var w := After(es[..|es| - 1]);
      match es[|es| - 1]
      case Request(value) => RequestKeeps(w, value);
      case Dispose =>
        forall n | 0 <= n < |w.notes| ensures NoteOk(After(es), w.notes[n]) { assert NoteOk(w, w.notes[n]); }
        forall c | 0 <= c < |w.calls| ensures CallOk(After(es), w.calls[c]) { assert CallOk(w, w.calls[c]); }
      case PermissionCame(answer) => if w.sync.at.Asking? { PermissionKeeps(w, answer); }
      case SyncCame(answer) => if w.sync.at.Calling? { SyncKeeps(w, answer); }
    }
  }

  // ── What the loop promises ─────────────────────────────────────────────────

  /** Over every run the publications and calls are those of the object. */
  lemma RunsAreTheObject(es: seq<Event>, e: Event)
    ensures Mirrors(After(es), Step(After(es), e), EffectOf(After(es).sync, e))
  {
    EveryRun(es);
    StepIsTheMachine(After(es), e);
  }

  /** Calls never overlap, and one carries a level exactly when it was wanted and the system permits it. */
  lemma CallsNeverOverlap(es: seq<Event>, c: nat)
    requires c < |After(es).calls|
    ensures var w := After(es);
            && (w.calls[c].answer.None? <==> w.sync.at.Calling? && c == |w.calls| - 1)
            && w.calls[c].request < |w.requests|
            && var wanted := w.requests[w.calls[c].request].preference;
            && (w.calls[c].preference.Some? <==> wanted.Some? && w.calls[c].permission.Granted?)
            && (w.calls[c].preference.Some? ==> w.calls[c].preference == wanted)
  {
    EveryRun(es);
    var w := After(es);
    assert CallOk(w, w.calls[c]);
  }

  /** The first outcome that fails, with what it says. */
  predicate FirstFails(outcomes: seq<Outcome>, i: int, detail: Str) {
    && 0 <= i < |outcomes| && outcomes[i].error == Some(detail) && detail != []
    && forall j :: 0 <= j < i ==> outcomes[j].error in {None, Some([])}
  }

  /** No outcome carries an error text. */
  predicate AllWell(outcomes: seq<Outcome>) {
    forall j :: 0 <= j < |outcomes| ==> outcomes[j].error in {None, Some([])}
  }

  lemma {:induction false} FirstFailureIs(outcomes: seq<Outcome>) returns (i: int)
    ensures match FirstFailure(outcomes)
            case None => AllWell(outcomes)
            case Some(detail) => FirstFails(outcomes, i, detail)
  {
    i := 0;
    if outcomes != [] && !Failing(outcomes[0]) {
      var k := FirstFailureIs(outcomes[1..]);
      i := k + 1;
      assert outcomes == [outcomes[0]] + outcomes[1..];
      assert outcomes[0].error in {None, Some([])};
      forall j | 0 < j < |outcomes| ensures outcomes[j] == outcomes[1..][j - 1] { }
    }
  }

  /** How a call came back decides what is shown of it, each state exactly when its condition holds. */
  ghost predicate Tells(state: State, preference: Option<Level>, answer: SyncAnswer) {
    && !state.Syncing?
    && (state.Unsupported? <==> answer.Synced? && !answer.supported)
    && (state.Registered? <==>
        answer.Synced? && answer.supported && AllWell(answer.outcomes) && preference.Some? && answer.outcomes != [])
    && (state.Unpaired? <==>
        answer.Synced? && answer.supported && AllWell(answer.outcomes) && preference.Some? && answer.outcomes == [])
    && (state.Off? <==> answer.Synced? && answer.supported && AllWell(answer.outcomes) && preference.None?)
    && (state.Error? <==> answer.SyncFailed? || (answer.supported && !AllWell(answer.outcomes)))
    && (state.Error? && answer.SyncFailed? ==> state.detail == answer.detail)
    && (state.Error? && answer.Synced? ==> exists i :: FirstFails(answer.outcomes, i, state.detail))
  }

  lemma ResultTells(preference: Option<Level>, answer: SyncAnswer)
    ensures Tells(Result(preference, answer), preference, answer)
  {
    if answer.Synced? {
      var i := FirstFailureIs(answer.outcomes);
      if FirstFailure(answer.outcomes).Some? {
        assert FirstFails(answer.outcomes, i, FirstFailure(answer.outcomes).value);
        assert answer.outcomes[i].error !in {None, Some([])};
      }
    }
  }

  /** Over every run, the report of a call is what the call's preference and answer make of it. */
  lemma ReportsTell(es: seq<Event>, n: nat)
    requires n < |After(es).notes| && After(es).notes[n].call.Some?
    ensures var w := After(es);
            var note := w.notes[n];
            && note.call.value < |w.calls| && w.calls[note.call.value].answer.Some?
            && Tells(note.state, w.calls[note.call.value].preference, w.calls[note.call.value].answer.value)
  {
    EveryRun(es);
    var w := After(es);
    assert NoteOk(w, w.notes[n]);
    var call := w.calls[w.notes[n].call.value];
    ResultTells(call.preference, call.answer.value);
  }

  /** A permission that could not be read is reported as the error it is, unless something newer came; no call is made. */
  lemma PermissionErrorTold(es: seq<Event>, detail: Str)
    requires After(es).sync.at.Asking?
    ensures var w, w' := After(es), Step(After(es), PermissionCame(PermissionFailed(detail)));
            w.sync.desired.None? && !w.sync.disposed ==>
              && w.requests != [] && w'.calls == w.calls && w'.sync.at.Idle?
              && w'.notes == w.notes + [Note(Error(detail), |w.requests| - 1, |w.requests|, None)]
  {
    EveryRun(es);
  }

  /** A report is made for the newest request at that moment, and of that request's own call. */
  lemma ReportsAreCurrent(es: seq<Event>, n: nat)
    requires n < |After(es).notes|
    ensures var w := After(es);
            var note := w.notes[n];
            && note.request == note.requests - 1 && note.requests <= |w.requests|
            && (note.call.None? ==> note.state.Syncing? || note.state.Error?)
            && (note.call.Some? ==>
                && note.call.value < |w.calls|
                && var call := w.calls[note.call.value];
                && call.request == note.request && call.answer.Some?
                && note.state == Result(call.preference, call.answer.value))
  {
    EveryRun(es);
    var w := After(es);
    assert NoteOk(w, w.notes[n]);
  }

  /** After a newer request or a dispose, an answer that was under way is not reported. */
  lemma StaleAnswersAreSilent(es: seq<Event>, e: Event)
    requires e.PermissionCame? || e.SyncCame?
    ensures var w, w' := After(es), Step(After(es), e);
            && (w.sync.disposed ==> w'.notes == w.notes && |w'.calls| == |w.calls|)
            && (w.sync.desired.Some? && !w.sync.disposed && !w.sync.at.Idle? ==>
                  forall n :: |w.notes| <= n < |w'.notes| ==> w'.notes[n].state.Syncing?)
  {
    EveryRun(es);
  }

  /** When the loop has stopped, no request is waiting and the last word is about the last one. */
  lemma StoppedMeansDone(es: seq<Event>)
    ensures var w := After(es);
            w.sync.at.Idle? && !w.sync.disposed ==>
              && w.sync.desired.None?
              && (w.requests != [] ==>
                  && w.notes != []
                  && w.notes[|w.notes| - 1].request == |w.requests| - 1
                  && !w.notes[|w.notes| - 1].state.Syncing?)
  {
    EveryRun(es);
  }

  /** Every request not yet taken up is the newest, and the loop is there to take it. */
  lemma NoRequestIsLost(es: seq<Event>)
    ensures var w := After(es);
            w.requests != [] && !w.sync.disposed ==>
              || (w.sync.desired == Some(w.requests[|w.requests| - 1]) && !w.sync.at.Idle?)
              || (!w.sync.at.Idle? && w.serving == |w.requests| - 1)
              || (w.notes != [] && w.notes[|w.notes| - 1].request == |w.requests| - 1)
  {
    EveryRun(es);
  }

  /** "Off" is said only after a call without a preference came back supported and without an error. */
  lemma OffIsAcknowledged(es: seq<Event>, n: nat)
    requires n < |After(es).notes| && After(es).notes[n].state.Off?
    ensures var w := After(es);
            var note := w.notes[n];
            && note.call.Some? && note.call.value < |w.calls|
            && var call := w.calls[note.call.value];
            && call.preference.None? && call.request == note.request
            && call.answer.Some? && call.answer.value.Synced? && call.answer.value.supported
            && (forall i :: 0 <= i < |call.answer.value.outcomes| ==> !Failing(call.answer.value.outcomes[i]))
  {
    EveryRun(es);
    var w := After(es);
    assert NoteOk(w, w.notes[n]);
  }
}
