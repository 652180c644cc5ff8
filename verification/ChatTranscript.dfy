/** The conversation a chat shows, the asks that keep it fresh, and the rows painted from it. */
module ChatTranscript {
  import opened JsText
  import Q = ChatQueue

  datatype Role = User | Agent

  /** `truncated` may be absent, which reads as false. */
  datatype Entry = Entry(role: Role, text: Str, truncated: Option<bool>)

  datatype Row = Row(role: Role, text: Str, truncated: bool)

  datatype Cursor = Cursor(terminalEpoch: Str, conversationId: Str, turnCompletedCount: int, turnOpen: bool, runtimeRevision: int)

  datatype Transcript = Transcript(
    entries: seq<Entry>, historyComplete: bool, cursor: Option<Cursor>, provider: Option<Str>, conversationId: Option<Str>)

  datatype Answer =
    | Read(entries: seq<Entry>, historyComplete: bool, cursor: Option<Cursor>, provider: Option<Str>, conversationId: Option<Str>)
    | Unchanged(cursor: Option<Cursor>)
    | Refused(code: Option<Q.Refusal>)
    | OtherOutcome

  datatype Wait = WaitCode(code: Q.Refusal) | Unreachable | NoAnswer | UnknownWait

  datatype Fallback = UpdatePhone | UpdateServer | NotAvailable

  datatype TranscriptStep = Show(transcript: Transcript, changed: bool) | Waiting(wait: Wait) | FallBack(fallback: Fallback)

  predicate Truthy(o: Option<bool>) {
    o == Some(true)
  }

  /** An empty string is dropped like an absent one. */
  function NonEmpty(o: Option<Str>): Option<Str> {
    if o == Some([]) then None else o
  }

  predicate SameEntries(left: seq<Entry>, right: seq<Entry>) {
    && |left| == |right|
    && forall i :: 0 <= i < |left| ==>
         left[i].role == right[i].role && left[i].text == right[i].text
         && Truthy(left[i].truncated) == Truthy(right[i].truncated)
  }

  predicate WaitRefusal(code: Q.Refusal) {
    code.ConversationUnknown? || code.TranscriptUnavailable? || code.ProbeTimeout? || code.Unavailable? || code.SessionNotFound?
  }

  function ApplyTranscriptAnswer(previous: Option<Transcript>, answer: Answer): TranscriptStep {
    match answer
    case Read(entries, complete, cursor, provider, conversation) =>
      var t := Transcript(entries, complete, cursor, NonEmpty(provider), NonEmpty(conversation));
      var changed := previous.None?
                     || previous.value.conversationId != t.conversationId
                     || previous.value.historyComplete != t.historyComplete
                     || !SameEntries(previous.value.entries, t.entries);
      Show(t, changed)
    case Unchanged(cursor) =>
      var base := if previous.Some? then previous.value else Transcript([], false, None, None, None);
      Show(if cursor.Some? then base.(cursor := cursor) else base, previous.None?)
    case Refused(c) =>
      var code := if c.Some? then c.value else Q.UnknownRefusal;
      if code.RemoteUnsupported? || code.UnsupportedRuntime? then FallBack(NotAvailable)
      else Waiting(if WaitRefusal(code) then WaitCode(code) else UnknownWait)
    case OtherOutcome => Waiting(UnknownWait)
  }

  const SILENT_CLOSES_BEFORE_UPDATE: nat := 3

  datatype AskError = ConversationNoAnswer | VersionUnsupported | ServerUpdateRequired | OtherError

  function TranscriptFailure(error: AskError, silentCloses: nat): (TranscriptStep, nat) {
    match error
    case ConversationNoAnswer =>
      var run := silentCloses + 1;
      (Waiting(if run >= SILENT_CLOSES_BEFORE_UPDATE then NoAnswer else Unreachable), run)
    case VersionUnsupported => (FallBack(UpdatePhone), 0)
    case ServerUpdateRequired => (FallBack(UpdateServer), 0)
    case OtherError => (Waiting(Unreachable), 0)
  }

  /** A row for each entry that has more than white space in it. */
  function ChatRows(entries: seq<Entry>): seq<Row> {
    if entries == [] then []
    else
      var e := entries[0];
      (if Blank(e.text) then [] else [Row(e.role, e.text, Truthy(e.truncated))]) + ChatRows(entries[1..])
  }

  /** Entries judged the same paint the same rows, whatever else about them differs. */
  lemma {:induction false} SameEntriesSameRows(left: seq<Entry>, right: seq<Entry>)
    requires SameEntries(left, right)
    ensures ChatRows(left) == ChatRows(right)
  {
    if left != [] { SameEntriesSameRows(left[1..], right[1..]); }
  }

  /** How many entries have more than white space in them. */
  function Written(entries: seq<Entry>): nat {
    if entries == [] then 0 else (if Blank(entries[0].text) then 0 else 1) + Written(entries[1..])
  }

  /** The rows are the entries that are not blank, in order, each with its role, its whole text and its mark. */
  lemma {:induction false} RowOfEntry(entries: seq<Entry>, i: nat)
    requires i < |entries|
    ensures |ChatRows(entries)| == Written(entries)
    ensures !Blank(entries[i].text) ==>
              && Written(entries[..i]) < Written(entries)
              && ChatRows(entries)[Written(entries[..i])]
                 == Row(entries[i].role, entries[i].text, entries[i].truncated == Some(true))
  {
    RowCount(entries);
    if i > 0 {
      RowOfEntry(entries[1..], i - 1);
      assert entries[..i][1..] == entries[1..][..i - 1];
    }
  }

  lemma {:induction false} RowCount(entries: seq<Entry>)
    ensures |ChatRows(entries)| == Written(entries)
  {
    if entries != [] { RowCount(entries[1..]); }
  }

  // ── One chat's view of its conversation ────────────────────────────────────

  datatype Paint = Paint(rows: seq<Row>, older: bool)

  /** `fetching` holds whether the ask that is out was forced; `again` what to ask next. */
  datatype View = View(
    transcript: Option<Transcript>, wait: Option<Wait>, silentCloses: nat, fallback: Option<Fallback>,
    fetching: Option<bool>, again: Option<bool>, disposed: bool, paint: Paint)

  /** What painting the current transcript from nothing would show. */
  function Repainted(t: Option<Transcript>): Paint {
    Paint(ChatRows(if t.Some? then t.value.entries else []), t.Some? && !t.value.historyComplete)
  }

  const FRESH: View := View(None, None, 0, None, None, None, false, Repainted(None))

  function ApplyStep(v: View, step: TranscriptStep): View {
    match step
    case FallBack(f) => v.(wait := None, fallback := Some(f))
    case Waiting(w) => v.(wait := Some(w))
    case Show(t, changed) =>
      v.(wait := None, transcript := Some(t), paint := if changed then Repainted(Some(t)) else v.paint)
  }

  predicate StartsAsk(v: View) {
    !v.disposed && v.fallback.None? && v.fetching.None?
  }

  function Refreshed(v: View, force: bool): View {
    if v.disposed || v.fallback.Some? then v
    else if v.fetching.Some? then v.(again := Some(force || v.again == Some(true)))
    else v.(fetching := Some(force))
  }

  /** The cursor an ask echoes; a forced one asks for everything. */
  function AskAfter(v: View, force: bool): Option<Cursor> {
    if force || v.transcript.None? then None else v.transcript.value.cursor
  }

  datatype AskResult = Got(answer: Answer) | FailedWith(error: AskError)

  /** The ask that was out has ended, before the next one is considered. */
  function Ended(v: View, result: AskResult): View
    requires v.fetching.Some?
  {
    var (step, closes) :=
      match result
      case Got(answer) => (ApplyTranscriptAnswer(if v.fetching.value then None else v.transcript, answer), 0)
      case FailedWith(error) => TranscriptFailure(error, v.silentCloses);
    var v' := v.(silentCloses := closes, fetching := None, again := None);
    if v.disposed then v' else ApplyStep(v', step)
  }

  function Completed(v: View, result: AskResult): View
    requires v.fetching.Some?
  {
    var v' := Ended(v, result);
    if v.again.Some? && !v.disposed then Refreshed(v', v.again.value) else v'
  }

  function Retried(v: View): View {
    if v.fallback.None? then v else Refreshed(v.(fallback := None), true)
  }

  /** The same in place: the closure variables `refresh` and `applyStep` share. */
  class TranscriptView {
    var transcript: Option<Transcript>
    var wait: Option<Wait>
    var silentCloses: nat
    var fallback: Option<Fallback>
    var fetching: Option<bool>
    var again: Option<bool>
    var disposed: bool
    var paint: Paint

    function Now(): View
      reads this
    {
      View(transcript, wait, silentCloses, fallback, fetching, again, disposed, paint)
    }

    constructor ()
      ensures Now() == FRESH
    {
      transcript, wait, silentCloses, fallback := None, None, 0, None;
      fetching, again, disposed, paint := None, None, false, Repainted(None);
    }

    /** Says whether an ask goes out, and with which cursor. */
    method Refresh(force: bool) returns (asks: bool, after: Option<Cursor>)
      modifies this`fetching, this`again
      ensures Now() == Refreshed(old(Now()), force)
      ensures asks == StartsAsk(old(Now())) && (asks ==> after == AskAfter(old(Now()), force))
      ensures asks ==> after == if force || transcript.None? then None else transcript.value.cursor
    {
      asks, after := false, None;
      if disposed || fallback.Some? { return; }
      if fetching.Some? {
        again := Some(force || (again.Some? && again.value));
        return;
      }
      fetching := Some(force);
      asks, after := true, AskAfter(Now(), force);
    }

    method Apply(step: TranscriptStep)
      modifies this`transcript, this`wait, this`fallback, this`paint
      ensures Now() == ApplyStep(old(Now()), step)
    {
      match step
      case FallBack(f) =>
        wait := None;
        if fallback != Some(f) { fallback := Some(f); }
      case Waiting(w) => wait := Some(w);
      case Show(t, changed) =>
        wait := None;
        transcript := Some(t);
        if changed { paint := Repainted(transcript); }
    }

    /** The ask that was out ends; what came up meanwhile is asked once. */
    method AskEnded(result: AskResult) returns (asks: bool, after: Option<Cursor>)
      requires fetching.Some?
      modifies this
      ensures Now() == Completed(old(Now()), result)
      ensures asks <==> old(again).Some? && StartsAsk(Ended(old(Now()), result))
      ensures asks ==> after == AskAfter(Ended(old(Now()), result), old(again).value)
    {
      var force := fetching.value;
      match result {
        case Got(answer) =>
          silentCloses := 0;
          if !disposed { Apply(ApplyTranscriptAnswer(if force then None else transcript, answer)); }
        case FailedWith(error) =>
          var (step, closes) := TranscriptFailure(error, silentCloses);
          silentCloses := closes;
          if !disposed { Apply(step); }
      }
      fetching := None;
      var next := again;
      again := None;
      asks, after := false, None;
      if next.Some? && !disposed { asks, after := Refresh(next.value); }
    }

    method Retry() returns (asks: bool, after: Option<Cursor>)
      modifies this
      ensures Now() == Retried(old(Now()))
      ensures asks <==> old(fallback).Some? && StartsAsk(old(Now()).(fallback := None))
      ensures asks ==> after.None?
    {
      asks, after := false, None;
      if fallback.None? { return; }
      fallback := None;
      asks, after := Refresh(true);
    }
  }

  // ── Every run ──────────────────────────────────────────────────────────────

  /** An ask: whether it was forced, and how many refreshes had been requested when it started. */
  datatype Ask = Ask(force: bool, wants: nat)

  /**
   * `wants` are the refreshes requested while the chat could serve them; the first
   * `voided` of them were cut off by a fallback or by leaving the chat. Of the results
   * the first `applied` came while the chat was open.
   */
  datatype World = World(view: View, wants: seq<bool>, voided: nat, asks: seq<Ask>, results: seq<AskResult>, applied: nat)

  datatype Event = Refresh(force: bool) | End(result: AskResult) | Dispose | Retry

  const START: World := World(FRESH, [], 0, [], [], 0)

  function Asking(w: World, v: View): World {
    if v.fetching.Some? then w.(view := v, asks := w.asks + [Ask(v.fetching.value, |w.wants|)]) else w.(view := v)
  }

  function Step(w: World, e: Event): World {
    var v := w.view;
    match e
    case Refresh(force) =>
      if v.disposed || v.fallback.Some? then w
      else
        var w' := w.(wants := w.wants + [force]);
        if v.fetching.Some? then w'.(view := Refreshed(v, force)) else Asking(w', Refreshed(v, force))
    case End(result) =>
      if v.fetching.None? then w
      else
        var w' := Asking(w.(results := w.results + [result], applied := if v.disposed then w.applied else w.applied + 1),
                         Completed(v, result));
        if Completed(v, result).fallback.Some? then w'.(voided := |w.wants|) else w'
    case Dispose => w.(view := v.(disposed := true), voided := |w.wants|)
    case Retry =>
      if v.fallback.None? || v.disposed then w else Asking(w.(wants := w.wants + [true]), Retried(v))
  }

  function After(es: seq<Event>): World {
    if es == [] then START else Step(After(es[..|es| - 1]), es[|es| - 1])
  }

  predicate SilentClose(r: AskResult) {
    r == FailedWith(ConversationNoAnswer)
  }

  /** The run of silent closes ending at the last completed ask. */
  function SilentRun(results: seq<AskResult>): nat {
    if results == [] || !SilentClose(results[|results| - 1]) then 0
    else 1 + SilentRun(results[..|results| - 1])
  }

  /** Some ask started after this refresh was requested, forced if it was. */
  predicate Served(asks: seq<Ask>, k: nat, force: bool) {
    exists a :: 0 <= a < |asks| && asks[a].wants > k && (force ==> asks[a].force)
  }

  predicate Inv(w: World) {
    var v := w.view;
    && v.paint == Repainted(v.transcript)
    && v.silentCloses == SilentRun(w.results)
    && |w.asks| == |w.results| + (if v.fetching.Some? then 1 else 0)
    && (v.again.Some? ==> v.fetching.Some?)
    && (v.fallback.Some? ==> v.fetching.None?)
    && (v.disposed ==> w.voided == |w.wants|)
    && w.voided <= |w.wants|
    && (forall k :: w.voided <= k < |w.wants| ==>
          Served(w.asks, k, w.wants[k]) || (v.again.Some? && (w.wants[k] ==> v.again.value)))
  }

  lemma ServedLasts(asks: seq<Ask>, more: seq<Ask>, k: nat, force: bool)
    requires Served(asks, k, force) && asks <= more
    ensures Served(more, k, force)
  {
    var a :| 0 <= a < |asks| && asks[a].wants > k && (force ==> asks[a].force);
    assert more[a] == asks[a];
  }

  /** A skipped repaint shows what repainting would have shown. */
  lemma ApplyKeepsPaint(v: View, previous: Option<Transcript>, answer: Answer)
    requires v.paint == Repainted(v.transcript) && (previous.None? || previous == v.transcript)
    ensures var v' := ApplyStep(v, ApplyTranscriptAnswer(previous, answer));
            v'.paint == Repainted(v'.transcript)
  {
    var step := ApplyTranscriptAnswer(previous, answer);
    if step.Show? && !step.changed {
      assert SameEntries(previous.value.entries, step.transcript.entries);
      SameEntriesSameRows(previous.value.entries, step.transcript.entries);
    }
  }

  lemma EndedKeeps(v: View, result: AskResult)
    requires v.fetching.Some? && v.paint == Repainted(v.transcript)
    ensures var v' := Ended(v, result);
            && v'.paint == Repainted(v'.transcript)
            && v'.silentCloses == (if SilentClose(result) then v.silentCloses + 1 else 0)
            && v'.fetching.None? && v'.again.None? && v'.disposed == v.disposed
  {
    var v0 := v.(silentCloses := Ended(v, result).silentCloses, fetching := None, again := None);
    match result
    case Got(answer) => ApplyKeepsPaint(v0, if v.fetching.value then None else v.transcript, answer);
    case FailedWith(error) =>
  }

  lemma EndKeeps(w: World, result: AskResult)
    requires Inv(w) && w.view.fetching.Some?
    ensures Inv(Step(w, End(result)))
  {
    var v := w.view;
    var w' := Step(w, End(result));
    EndedKeeps(v, result);
    assert (w.results + [result])[..|w.results|] == w.results;
    forall k | w'.voided <= k < |w.wants| ensures Served(w'.asks, k, w.wants[k]) {
      if Served(w.asks, k, w.wants[k]) {
        ServedLasts(w.asks, w'.asks, k, w.wants[k]);
      } else {
        assert w'.asks[|w.asks|] == Ask(v.again.value, |w.wants|);
      }
    }
  }

  lemma RefreshKeeps(w: World, force: bool)
    requires Inv(w) && !w.view.disposed && w.view.fallback.None?
    ensures Inv(Step(w, Refresh(force)))
  {
    var w' := Step(w, Refresh(force));
    forall k | w'.voided <= k < |w'.wants|
      ensures Served(w'.asks, k, w'.wants[k]) || (w'.view.again.Some? && (w'.wants[k] ==> w'.view.again.value))
    {
      if k < |w.wants| && Served(w.asks, k, w.wants[k]) {
        ServedLasts(w.asks, w'.asks, k, w.wants[k]);
      } else if w.view.fetching.None? {
        assert w'.asks[|w.asks|] == Ask(force, |w'.wants|);
      }
    }
  }

  lemma RetryKeeps(w: World)
    requires Inv(w) && w.view.fallback.Some? && !w.view.disposed
    ensures Inv(Step(w, Retry))
  {
    var w' := Step(w, Retry);
    forall k | w'.voided <= k < |w'.wants| ensures Served(w'.asks, k, w'.wants[k]) {
      assert w'.asks[|w.asks|] == Ask(true, |w'.wants|);
    }
  }

  lemma {:induction false} EveryRun(es: seq<Event>)
    ensures Inv(After(es))
  {
    if es != [] {
      EveryRun(es[..|es| - 1]);
      var w := After(es[..|es| - 1]);
      match es[|es| - 1]
      case Refresh(force) => if !w.view.disposed && w.view.fallback.None? { RefreshKeeps(w, force); }
      case End(result) => if w.view.fetching.Some? { EndKeeps(w, result); }
      case Dispose =>
      case Retry => if w.view.fallback.Some? && !w.view.disposed { RetryKeeps(w); }
    }
  }

  // ── What the chat promises ─────────────────────────────────────────────────

  /** What is painted is always what painting the current transcript afresh would show. */
  lemma PaintedIsCurrent(es: seq<Event>)
    ensures var v := After(es).view; v.paint == Repainted(v.transcript)
  {
    EveryRun(es);
  }

  /** One ask at a time; and once none is out, every refresh not cut off was followed by an ask, forced if it was. */
  lemma NoRefreshIsLost(es: seq<Event>, k: nat)
    requires After(es).voided <= k < |After(es).wants|
    ensures var w := After(es);
            && |w.asks| <= |w.results| + 1
            && (w.view.fetching.None? ==> Served(w.asks, k, w.wants[k]))
  {
    EveryRun(es);
  }

  /** Only a fallback on screen or leaving the chat cuts a refresh off. */
  lemma OnlyFallbackVoids(es: seq<Event>, e: Event)
    ensures var w, w' := After(es), Step(After(es), e);
            w'.voided != w.voided ==> w'.view.disposed || w'.view.fallback.Some?
  {
  }

  lemma SilentClosesCounted(es: seq<Event>)
    ensures After(es).view.silentCloses == SilentRun(After(es).results)
    ensures |After(es).asks| == |After(es).results| + (if After(es).view.fetching.Some? then 1 else 0)
  {
    EveryRun(es);
  }

  // ── What is shown is what was read ─────────────────────────────────────────

  /** The transcript is the answer's; an empty provider or conversation counts as none. */
  predicate ReadInto(t: Option<Transcript>, a: Answer) {
    && a.Read? && t.Some?
    && t.value.entries == a.entries && t.value.historyComplete == a.historyComplete
    && t.value.provider == (if a.provider == Some([]) then None else a.provider)
    && t.value.conversationId == (if a.conversationId == Some([]) then None else a.conversationId)
  }

  /** A conversation nothing has been read of. */
  predicate Hollow(t: Transcript) {
    t.entries == [] && !t.historyComplete && t.provider.None? && t.conversationId.None?
  }

  /** The same conversation, with the answer's cursor if it brought one. */
  predicate OnlyCursorMoved(t: Transcript, t': Transcript, c: Option<Cursor>) {
    && t'.entries == t.entries && t'.historyComplete == t.historyComplete
    && t'.provider == t.provider && t'.conversationId == t.conversationId
    && t'.cursor == if c.Some? then c else t.cursor
  }

  /** What comes up next is asked after the end is shown, and changes nothing of it. */
  lemma EndIsShown(w: World, result: AskResult)
    requires w.view.fetching.Some?
    ensures var v, v' := Step(w, End(result)).view, Ended(w.view, result);
            v.transcript == v'.transcript && v.paint == v'.paint && v.wait == v'.wait && v.fallback == v'.fallback
  {
  }

  /** What an answer to the ask that is out does to what is shown. */
  lemma AnswerShows(w: World, a: Answer)
    requires w.view.fetching.Some? && !w.view.disposed
    ensures var v, v' := w.view, Step(w, End(Got(a))).view;
            match a
            case Read(_, _, cursor, _, _) => ReadInto(v'.transcript, a) && v'.transcript.value.cursor == cursor && v'.wait.None?
            case Unchanged(c) =>
              && v'.transcript.Some? && v'.wait.None?
              && (if v.transcript.Some? && !v.fetching.value
                  then OnlyCursorMoved(v.transcript.value, v'.transcript.value, c) && v'.paint == v.paint
                  else Hollow(v'.transcript.value) && v'.transcript.value.cursor == c)
            case _ => v'.transcript == v.transcript && v'.paint == v.paint
  {
    EndIsShown(w, Got(a));
  }

  /** What each refusal and each failure says; none of them touches what is shown. */
  lemma RefusalShows(w: World, result: AskResult)
    requires w.view.fetching.Some? && !w.view.disposed && w.view.silentCloses == SilentRun(w.results)
    requires result.FailedWith? || result.answer.Refused? || result.answer.OtherOutcome?
    ensures var v, v' := w.view, Step(w, End(result)).view;
            && v'.transcript == v.transcript && v'.paint == v.paint
            && match result
               case FailedWith(VersionUnsupported) => v'.fallback == Some(UpdatePhone)
               case FailedWith(ServerUpdateRequired) => v'.fallback == Some(UpdateServer)
               case FailedWith(ConversationNoAnswer) =>
                 v'.wait == Some(if SilentRun(w.results) < 2 then Unreachable else NoAnswer) && v'.fallback == v.fallback
               case FailedWith(OtherError) => v'.wait == Some(Unreachable) && v'.fallback == v.fallback
               case Got(Refused(Some(c))) =>
                 if c in {Q.RemoteUnsupported, Q.UnsupportedRuntime} then v'.fallback == Some(NotAvailable)
                 else && v'.fallback == v.fallback
                      && v'.wait == Some(if c in {Q.ConversationUnknown, Q.TranscriptUnavailable, Q.ProbeTimeout,
                                                  Q.Unavailable, Q.SessionNotFound}
                                         then WaitCode(c) else UnknownWait)
               case Got(_) => v'.wait == Some(UnknownWait) && v'.fallback == v.fallback
  {
    EndIsShown(w, result);
  }

  /** An answer that fixed the whole transcript: a read one, or "unchanged" to an ask that sent no cursor by force. */
  predicate Decides(w: World, k: nat) {
    && k < w.applied <= |w.results| && w.applied <= |w.asks| && w.results[k].Got?
    && (w.results[k].answer.Read? || (w.results[k].answer.Unchanged? && w.asks[k].force))
  }

  ghost predicate LastDecides(w: World, k: nat) {
    Decides(w, k) && forall j: nat :: k < j ==> !Decides(w, j)
  }

  /** What is shown is what the last such answer made it. */
  ghost predicate ShowsLast(w: World) {
    && (forall k: nat :: LastDecides(w, k) ==>
          if w.results[k].answer.Read? then ReadInto(w.view.transcript, w.results[k].answer)
          else w.view.transcript.Some? && Hollow(w.view.transcript.value))
    && ((forall k: nat :: !Decides(w, k)) ==> w.view.transcript.None? || Hollow(w.view.transcript.value))
  }

  ghost predicate ShownOk(w: World) {
    && w.applied <= |w.results| <= |w.asks|
    && (!w.view.disposed ==> w.applied == |w.results|)
    && (w.view.fetching.Some? ==> |w.asks| > |w.results| && w.asks[|w.results|].force == w.view.fetching.value)
    && ShowsLast(w)
  }

  /** More asks and results that were not applied decide nothing. */
  lemma DecidesStays(w: World, w': World, k: nat)
    requires w.asks <= w'.asks && w.results <= w'.results && w.applied <= |w.results| <= |w.asks|
    requires k < w.applied <= w'.applied <= |w'.results| <= |w'.asks|
    ensures Decides(w', k) <==> Decides(w, k)
  {
    assert w'.asks[k] == w.asks[k] && w'.results[k] == w.results[k];
  }

  /** A step whose newly applied results decide nothing, and which kept the conversation, shows the same. */
  lemma ShowsSame(w: World, w': World)
    requires ShowsLast(w) && w.asks <= w'.asks && w.results <= w'.results && w.applied <= |w.results| <= |w.asks|
    requires w.applied <= w'.applied <= |w'.results| <= |w'.asks|
    requires forall k: nat :: w.applied <= k ==> !Decides(w', k)
    requires SameShown(w.view.transcript, w'.view.transcript)
    ensures ShowsLast(w')
  {
    forall k: nat ensures Decides(w', k) <==> Decides(w, k) {
      if k < w.applied { DecidesStays(w, w', k); }
    }
    forall k: nat | LastDecides(w', k)
      ensures if w'.results[k].answer.Read? then ReadInto(w'.view.transcript, w'.results[k].answer)
              else w'.view.transcript.Some? && Hollow(w'.view.transcript.value)
    {
      assert LastDecides(w, k) && w'.results[k] == w.results[k];
    }
  }

  /** The same but for the cursor; from no transcript also one nothing was read of. */
  predicate SameShown(t: Option<Transcript>, t': Option<Transcript>) {
    if t.None? then t'.None? || Hollow(t'.value)
    else t'.Some? && OnlyCursorMoved(t.value, t'.value, t'.value.cursor)
  }

  lemma EndCounts(w: World, result: AskResult, w': World)
    requires ShownOk(w) && |w.asks| == |w.results| + 1 && w.view.fetching.Some? && w' == Step(w, End(result))
    ensures w.asks <= w'.asks && w'.results == w.results + [result]
    ensures w'.applied == if w.view.disposed then w.applied else |w'.results|
    ensures w'.view.fetching.Some? ==> |w'.asks| > |w'.results| && w'.asks[|w'.results|].force == w'.view.fetching.value
    ensures w'.view.disposed == w.view.disposed && |w'.results| <= |w'.asks|
    ensures w.view.disposed ==> w'.view.transcript == w.view.transcript
  {
  }

  /** An answer that fixes the whole transcript is the last to do so. */
  lemma DecidingShows(w: World, w': World)
    requires w'.applied == |w'.results| <= |w'.asks| && w'.results != [] && Decides(w', |w'.results| - 1)
    requires var a := w'.results[|w'.results| - 1].answer;
             if a.Read? then ReadInto(w'.view.transcript, a) else w'.view.transcript.Some? && Hollow(w'.view.transcript.value)
    ensures ShowsLast(w')
  {
  }

  lemma EndShows(w: World, result: AskResult, w': World)
    requires ShownOk(w) && |w.asks| == |w.results| + 1 && w.view.silentCloses == SilentRun(w.results)
    requires w.view.fetching.Some? && w' == Step(w, End(result))
    ensures ShownOk(w')
  {
    EndCounts(w, result, w');
    if !w.view.disposed {
      if result.Got? { AnswerShows(w, result.answer); } else { RefusalShows(w, result); }
    }
    if !w.view.disposed && Decides(w', |w.results|) { DecidingShows(w, w'); } else { ShowsSame(w, w'); }
  }

  lemma OtherShows(w: World, e: Event, w': World)
    requires ShownOk(w) && !e.End? && |w.asks| == |w.results| + (if w.view.fetching.Some? then 1 else 0)
    requires (w.view.fallback.Some? ==> w.view.fetching.None?) && w' == Step(w, e)
    ensures ShownOk(w')
  {
    ShowsSame(w, w');
  }

  lemma {:induction false} EveryRunShows(es: seq<Event>)
    ensures ShownOk(After(es))
  {
    if es != [] {
      var w := After(es[..|es| - 1]);
      EveryRun(es[..|es| - 1]);
      EveryRunShows(es[..|es| - 1]);
      var e := es[|es| - 1];
      if !e.End? { OtherShows(w, e, After(es)); }
      else if w.view.fetching.Some? { EndShows(w, e.result, After(es)); }
    }
  }

  /**
   * Over every run the conversation shown is the one last read, unless a forced ask was
   * later answered "unchanged": it sent no cursor, so that answer leaves nothing to show.
   */
  lemma LastReadIsShown(es: seq<Event>, k: nat)
    requires LastDecides(After(es), k)
    ensures var w := After(es);
            if w.results[k].answer.Read? then ReadInto(w.view.transcript, w.results[k].answer)
            else w.view.transcript.Some? && Hollow(w.view.transcript.value)
  {
    EveryRunShows(es);
  }

  /** Until something was read, there is nothing to show. */
  lemma NothingReadNothingShown(es: seq<Event>)
    requires forall k: nat :: !Decides(After(es), k)
    ensures var v := After(es).view;
            && (v.transcript.None? || Hollow(v.transcript.value))
            && v.paint.rows == []
  {
    EveryRunShows(es);
    EveryRun(es);
  }

  /** Each entry of the conversation shown that is not blank is painted, at its place among those that are not. */
  lemma EntryIsPainted(es: seq<Event>, i: nat)
    requires var t := After(es).view.transcript; t.Some? && i < |t.value.entries| && !Blank(t.value.entries[i].text)
    ensures var v := After(es).view;
            var entries := v.transcript.value.entries;
            && |v.paint.rows| == Written(entries) && Written(entries[..i]) < Written(entries)
            && v.paint.rows[Written(entries[..i])]
               == Row(entries[i].role, entries[i].text, entries[i].truncated == Some(true))
            && v.paint.older == !v.transcript.value.historyComplete
  {
    EveryRun(es);
    RowOfEntry(After(es).view.transcript.value.entries, i);
  }

  lemma AfterMore(es: seq<Event>, e: Event)
    ensures After(es + [e]) == Step(After(es), e)
  {
    assert (es + [e])[..|es|] == es;
  }

  /** And such a run there is: something was read, then a forced ask was answered "unchanged". */
  lemma ForcedUnchangedEmpties(entries: seq<Entry>)
    ensures var es := [Refresh(false)] + [End(Got(Read(entries, true, None, None, None)))];
            && After(es).view.transcript == Some(Transcript(entries, true, None, None, None))
            && After(es + [Refresh(true)] + [End(Got(Unchanged(None)))]).view.transcript == Some(Transcript([], false, None, None, None))
  {
    var es := [Refresh(false)] + [End(Got(Read(entries, true, None, None, None)))];
    assert [] + [Refresh(false)] == [Refresh(false)];
    AfterMore([], Refresh(false));
    var w1 := After([Refresh(false)]);
    assert w1.view.fetching == Some(false) && w1.view.again.None? && Open(w1.view);
    AfterMore([Refresh(false)], es[1]);
    ReadThenForced(w1, After(es), entries);
    AfterMore(es, Refresh(true));
    AfterMore(es + [Refresh(true)], End(Got(Unchanged(None))));
  }

  /** On screen, with no fallback in its place. */
  predicate Open(v: View) { !v.disposed && v.fallback.None? }

  lemma ReadThenForced(w: World, w': World, entries: seq<Entry>)
    requires w.view.fetching == Some(false) && w.view.again.None? && Open(w.view)
    requires w' == Step(w, End(Got(Read(entries, true, None, None, None))))
    ensures w'.view.transcript == Some(Transcript(entries, true, None, None, None))
    ensures Step(Step(w', Refresh(true)), End(Got(Unchanged(None)))).view.transcript == Some(Transcript([], false, None, None, None))
  {
    assert w'.view.fetching.None? && Open(w'.view);
    var forced := Step(w', Refresh(true));
    assert forced.view.fetching == Some(true) && Open(forced.view);
    AnswerShows(forced, Unchanged(None));
  }
}
