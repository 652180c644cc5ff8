/** Accepting, joining, sending and settling the queued prompt of one session. */
module ChatQueue {
  import opened JsText

  const MAX_AGENT_PROMPT_BYTES: nat := 3 * 1024

  const QUEUE_JOINER: Str := [LF, LF]

  datatype Problem = Empty | Control | TooLong(bytes: nat, limit: nat)

  datatype Normalized = Fine(text: Str) | Bad(problem: Problem)

  predicate IsControl(u: Unit) {
    u <= 0x08 || 0x0B <= u <= 0x1F || 0x7F <= u <= 0x9F
  }

  predicate HasControl(s: Str) {
    exists i :: 0 <= i < |s| && IsControl(s[i])
  }

  /** `text.replace(/\r\n?/g, "\n")`. */
  function LineFeeds(s: Str): (r: Str)
    ensures CR !in r
    ensures CR !in s ==> r == s
    decreases |s|
  {
    if s == [] then []
    else if s[0] != CR then [s[0]] + LineFeeds(s[1..])
    else if |s| > 1 && s[1] == LF then [LF] + LineFeeds(s[2..])
    else [LF] + LineFeeds(s[1..])
  }

  lemma FirstLineEnd(end: Str, after: Str)
    requires end == [CR, LF] || (end == [CR] && (after == [] || after[0] != LF))
    ensures LineFeeds(end + after) == [LF] + LineFeeds(after)
  {
    assert (end + after)[|end|..] == after;
  }

  lemma FirstStays(u: Unit, rest: Str)
    requires u != CR
    ensures LineFeeds([u] + rest) == [u] + LineFeeds(rest)
  {
    assert ([u] + rest)[1..] == rest;
  }

  /** A carriage return, with the line feed right after it if there is one, becomes one line feed; nothing else changes. */
  lemma {:induction false} LineEndBecomesOne(before: Str, end: Str, after: Str)
    requires CR !in before
    requires end == [CR, LF] || (end == [CR] && (after == [] || after[0] != LF))
    ensures LineFeeds(before + end + after) == before + [LF] + LineFeeds(after)
    decreases |before|
  {
    if before == [] {
      FirstLineEnd(end, after);
      assert before + end + after == end + after && before + [LF] == [LF];
    } else {
      var u, rest := before[0], before[1..];
      assert before == [u] + rest;
      LineEndBecomesOne(rest, end, after);
      FirstStays(u, rest + end + after);
      Regroup(u, rest, end, after);
      Regroup(u, rest, [LF], LineFeeds(after));
    }
  }

  lemma Regroup(u: Unit, a: Str, b: Str, c: Str)
    ensures [u] + (a + b + c) == [u] + a + b + c
  {
  }

  /** The checks after line endings are normalised, in the source's order. */
  function Checked(normalized: Str): Normalized {
    if Blank(normalized) then Bad(Empty)
    else if HasControl(normalized) then Bad(Control)
    else
      var bytes := Utf8Length(normalized);
      if bytes > MAX_AGENT_PROMPT_BYTES then Bad(TooLong(bytes, MAX_AGENT_PROMPT_BYTES))
      else Fine(normalized)
  }

  function NormalizePrompt(text: Str): Normalized {
    Checked(LineFeeds(text))
  }

  /** What the computer takes: non-blank, no control characters, within the limit. */
  predicate Sendable(text: Str) {
    !Blank(text) && !HasControl(text) && Utf8Length(text) <= MAX_AGENT_PROMPT_BYTES
  }

  /** The sendable texts are exactly the fixpoints of `NormalizePrompt`. */
  lemma SendableIsFixpoint(text: Str)
    ensures Sendable(text) <==> NormalizePrompt(text) == Fine(text)
    ensures Sendable(text) ==> CR !in text
  {
    if CR in text {
      var i :| 0 <= i < |text| && text[i] == CR;
      assert IsControl(text[i]);
      assert NormalizePrompt(text).Fine? ==> NormalizePrompt(text).text == LineFeeds(text);
    }
  }

  /** Normalising accepts a text exactly when its line-feed form is sendable, and returns that; else it says what is wrong first. */
  lemma NormalizeGivesSendable(text: Str)
    ensures NormalizePrompt(text).Fine? <==> Sendable(LineFeeds(text))
    ensures NormalizePrompt(text).Fine? ==> NormalizePrompt(text).text == LineFeeds(text)
    ensures NormalizePrompt(text) == Bad(Empty) <==> Blank(LineFeeds(text))
    ensures NormalizePrompt(text) == Bad(Control) <==> !Blank(LineFeeds(text)) && HasControl(LineFeeds(text))
    ensures NormalizePrompt(text).Bad? && NormalizePrompt(text).problem.TooLong? ==>
              NormalizePrompt(text).problem == TooLong(Utf8Length(LineFeeds(text)), 3072) && Utf8Length(LineFeeds(text)) > 3072
  {
  }

  lemma NoControlJoined(a: Str, b: Str)
    ensures HasControl(a + QUEUE_JOINER + b) <==> HasControl(a) || HasControl(b)
  {
    var j := a + QUEUE_JOINER + b;
    assert forall i :: 0 <= i < |a| ==> j[i] == a[i];
    assert forall i :: 0 <= i < |b| ==> j[|a| + 2 + i] == b[i];
    if i :| 0 <= i < |a| && IsControl(a[i]) { assert IsControl(j[i]); }
    if i :| 0 <= i < |b| && IsControl(b[i]) { assert IsControl(j[|a| + 2 + i]); }
    if i :| 0 <= i < |j| && IsControl(j[i]) {
      if i < |a| { assert IsControl(a[i]); } else { assert IsControl(b[i - |a| - 2]); }
    }
  }

  lemma JoinBytes(a: Str, b: Str)
    ensures Utf8Length(a + QUEUE_JOINER + b) == Utf8Length(a) + 2 + Utf8Length(b)
  {
    Utf8Concat(a, QUEUE_JOINER);
    Utf8Concat(a + QUEUE_JOINER, b);
    assert QUEUE_JOINER[1..] == [LF];
    assert Utf8Length([LF]) == 1;
  }

  /** Two non-blank texts joined are sendable exactly when both are and the bytes fit. */
  lemma JoinSendable(a: Str, b: Str)
    requires !Blank(a) && !Blank(b)
    ensures Sendable(a + QUEUE_JOINER + b) <==>
            Sendable(a) && Sendable(b) && Utf8Length(a) + 2 + Utf8Length(b) <= MAX_AGENT_PROMPT_BYTES
  {
    var j := a + QUEUE_JOINER + b;
    assert j == a + (QUEUE_JOINER + b);
    BlankParts(a, QUEUE_JOINER + b);
    NoControlJoined(a, b);
    JoinBytes(a, b);
  }

  // ── The queued prompt ──────────────────────────────────────────────────────

  datatype Target = Target(terminalEpoch: Str, conversationId: Option<Str>)

  datatype Refusal =
    | SessionNotFound | RemoteUnsupported | UnsupportedRuntime | ConversationUnknown
    | TranscriptUnavailable | NotIdle | AttentionPending | IdentityChanged
    | InputDraftPending | InvalidRequest | ProbeTimeout | Unavailable | UnknownRefusal

  /** What an attempt that kept the prompt in the queue ran into. */
  datatype Wait = WaitRefused(code: Refusal) | WaitUnreachable

  datatype Prompt = Prompt(text: Str, target: Target, queuedAtMs: int, wait: Option<Wait>)

  datatype Enqueued = Queued(prompt: Prompt, added: bool) | Invalid(problem: Problem)

  function EnqueuePrompt(existing: Option<Prompt>, draft: Str, target: Target, nowMs: int): Enqueued {
    match NormalizePrompt(draft)
    case Bad(problem) => Invalid(problem)
    case Fine(own) =>
      if existing.None? then Queued(Prompt(own, target, nowMs, None), false)
      else
        var held := existing.value;
        match NormalizePrompt(held.text + QUEUE_JOINER + own)
        case Bad(problem) => Invalid(problem)
        case Fine(combined) => Queued(Prompt(combined, held.target, held.queuedAtMs, None), true)
  }

  /** Nothing dropped: an accepted draft stands whole behind the text held before it. */
  lemma EnqueueRule(existing: Option<Prompt>, draft: Str, target: Target, nowMs: int)
    requires existing.Some? ==> Sendable(existing.value.text)
    ensures var r := EnqueuePrompt(existing, draft, target, nowMs);
            && (r.Queued? <==>
                && Sendable(LineFeeds(draft))
                && (existing.Some? ==>
                      Utf8Length(existing.value.text) + 2 + Utf8Length(LineFeeds(draft)) <= MAX_AGENT_PROMPT_BYTES))
            && (r.Queued? ==>
                && Sendable(r.prompt.text)
                && r.added == existing.Some?
                && r.prompt.text == (if existing.Some? then existing.value.text + QUEUE_JOINER else []) + LineFeeds(draft)
                && r.prompt.target == (if existing.Some? then existing.value.target else target)
                && r.prompt.queuedAtMs == (if existing.Some? then existing.value.queuedAtMs else nowMs))
  {
    NormalizeGivesSendable(draft);
    var own := LineFeeds(draft);
    if existing.Some? && Sendable(own) {
      var held := existing.value.text;
      SendableIsFixpoint(held);
      SendableIsFixpoint(own);
      JoinSendable(held, own);
      NoCarriageReturn(held, own);
      NormalizeGivesSendable(held + QUEUE_JOINER + own);
    }
  }

  lemma NoCarriageReturn(a: Str, b: Str)
    requires CR !in a && CR !in b
    ensures LineFeeds(a + QUEUE_JOINER + b) == a + QUEUE_JOINER + b
  {
  }

  /** The composer once text comes back to it: the text, then whatever was being typed. */
  function ReturnToComposer(text: Str, draft: Str): Str {
    if Blank(draft) then text else text + QUEUE_JOINER + draft
  }

  /** A text with, after a blank line, what was being typed, if it was more than white space; and nothing else. */
  predicate HoldsBoth(composer: Str, text: Str, typed: Str) {
    text <= composer && composer[|text|..] == if Blank(typed) then [] else [LF, LF] + typed
  }

  lemma ReturnHoldsBoth(text: Str, draft: Str)
    ensures HoldsBoth(ReturnToComposer(text, draft), text, draft)
  {
    assert text + QUEUE_JOINER + draft == text + (QUEUE_JOINER + draft);
  }

  datatype Readiness = Idle | Working | Attention | Starting | Exited | UnknownReadiness

  predicate DeliveryDue(queued: Option<Prompt>, readiness: Readiness, inFlight: bool) {
    queued.Some? && !inFlight && readiness == Idle
  }

  // ── One delivery attempt ───────────────────────────────────────────────────

  datatype Reason = Refused(code: Refusal) | Uncertain

  /** What the computer says; `OtherState` is a state this build does not know. */
  datatype Answer = WrittenToPty | LostAnswer | RefusedAnswer(code: Option<Refusal>) | OtherState

  /** How a command fails; only the first three prove that nothing was written. */
  datatype Failure = HubUnreachable | HubComputerOffline | ServerUnreachable | OtherCommandError | NotACommandError

  datatype DeliveryResult = Answered(answer: Answer) | Failed(error: Failure)

  datatype Delivery = Sent(text: Str) | Kept(prompt: Prompt) | Returned(text: Str, reason: Reason)

  predicate NotSentCode(e: Failure) {
    e.HubUnreachable? || e.HubComputerOffline? || e.ServerUnreachable?
  }

  predicate Retryable(code: Refusal) {
    code.NotIdle? || code.AttentionPending? || code.ProbeTimeout?
  }

  function SettleDelivery(prompt: Prompt, result: DeliveryResult): Delivery {
    match result
    case Failed(e) =>
      if NotSentCode(e) then Kept(prompt.(wait := Some(WaitUnreachable)))
      else Returned(prompt.text, Uncertain)
    case Answered(WrittenToPty) => Sent(prompt.text)
    case Answered(LostAnswer) => Returned(prompt.text, Uncertain)
    case Answered(RefusedAnswer(c)) =>
      var code := if c.Some? then c.value else UnknownRefusal;
      if Retryable(code) then Kept(prompt.(wait := Some(WaitRefused(code))))
      else Returned(prompt.text, Refused(code))
    case Answered(OtherState) => Returned(prompt.text, Refused(UnknownRefusal))
  }

  /** A refusal, or an error from before the prompt went out: nothing was written. */
  predicate ProvesNotWritten(result: DeliveryResult) {
    match result
    case Failed(e) => NotSentCode(e)
    case Answered(a) => a.RefusedAnswer?
  }

  predicate ProvesWritten(result: DeliveryResult) {
    result == Answered(WrittenToPty)
  }

  /**
   * A prompt waits to go again exactly when the agent was not idle, asked for attention
   * or did not say in time, or when the computer or the server was not reached; it waits
   * unchanged but for that reason. Any other refusal gives it back under its own code.
   * Whatever may have been written comes back marked `Uncertain` - except for an answer
   * state this build does not know, which comes back as a plain refusal.
   */
  lemma SettleTells(prompt: Prompt, result: DeliveryResult)
    ensures var d := SettleDelivery(prompt, result);
            && (d.Sent? <==> ProvesWritten(result))
            && (d.Kept? <==> result in {
                  Answered(RefusedAnswer(Some(NotIdle))), Answered(RefusedAnswer(Some(AttentionPending))),
                  Answered(RefusedAnswer(Some(ProbeTimeout))),
                  Failed(HubUnreachable), Failed(HubComputerOffline), Failed(ServerUnreachable)})
            && (d.Kept? ==>
                && ProvesNotWritten(result) && d.prompt == prompt.(wait := d.prompt.wait)
                && (result.Answered? ==> d.prompt.wait == Some(WaitRefused(result.answer.code.value)))
                && (result.Failed? ==> d.prompt.wait == Some(WaitUnreachable)))
            && (d.Returned? && result.Answered? && result.answer.RefusedAnswer? ==>
                d.reason == Refused(if result.answer.code.Some? then result.answer.code.value else UnknownRefusal))
            && (d.Returned? && result.Failed? ==> d.reason == Uncertain)
            && (result == Answered(LostAnswer) ==> d == Returned(prompt.text, Uncertain))
            && (d.Returned? ==> d.text == prompt.text)
            && (d.Returned? && d.reason == Uncertain ==> !ProvesNotWritten(result))
            && ((d.Returned? && d.reason != Uncertain && !ProvesNotWritten(result)) <==> result == Answered(OtherState))
  {
  }

  datatype AfterDelivered = AfterDelivered(queued: Option<Prompt>, sent: Option<Str>, returned: Option<(Str, Reason)>)

  predicate StartsWith(text: Str, prefix: Str) {
    prefix <= text
  }

  /**
   * What becomes of the queue once a delivery is settled. The source also asks that
   * the two prompts be different objects; a text never starts with itself and a
   * joiner, so the test on the text alone decides the same.
   */
  function AfterDelivery(delivered: Prompt, current: Option<Prompt>, delivery: Delivery): AfterDelivered {
    var now := if current.Some? then current.value else delivered;
    var prefix := delivered.text + QUEUE_JOINER;
    var added := if StartsWith(now.text, prefix) then Some(now.text[|prefix|..]) else None;
    match delivery
    case Kept(p) => AfterDelivered(Some(now.(wait := p.wait)), None, None)
    case Sent(text) =>
      AfterDelivered(if added.Some? then Some(Prompt(added.value, now.target, now.queuedAtMs, None)) else None,
                     Some(text), None)
    case Returned(_, reason) => AfterDelivered(None, None, Some((now.text, reason)))
  }

  /** The delivered part, the joiner and what was added rebuild the queued text. */
  lemma AfterDeliverySplits(delivered: Prompt, now: Prompt, rest: Option<Str>, result: DeliveryResult)
    requires now.text == (if rest.Some? then delivered.text + QUEUE_JOINER + rest.value else delivered.text)
    ensures var a := AfterDelivery(delivered, Some(now), SettleDelivery(delivered, result));
            && (a.sent.Some? <==> ProvesWritten(result))
            && (a.sent.Some? ==>
                && a.sent.value == delivered.text && a.returned.None?
                && (a.queued.Some? <==> rest.Some?)
                && (rest.Some? ==> a.queued.value.text == rest.value && a.queued.value.target == now.target))
            && (a.sent.None? && a.queued.Some? ==>
                && ProvesNotWritten(result) && a.returned.None?
                && a.queued.value == now.(wait := a.queued.value.wait))
            && (a.returned.Some? ==> a.queued.None? && a.returned.value.0 == now.text)
            && (a.sent.None? && a.queued.None? ==> a.returned.Some?)
  {
    var prefix := delivered.text + QUEUE_JOINER;
    if rest.Some? {
      assert now.text == prefix + rest.value;
      assert now.text[|prefix|..] == rest.value;
    }
  }

  // ── What one session keeps on the phone ────────────────────────────────────

  datatype Stored =
    | StoredQueued(text: Str, target: Target, queuedAtMs: int, sending: bool)
    | StoredReturned(text: Str, reason: Reason)

  function QueuedEntry(prompt: Option<Prompt>, sending: bool): Option<Stored> {
    if prompt.None? then None
    else Some(StoredQueued(prompt.value.text, prompt.value.target, prompt.value.queuedAtMs, sending))
  }

  function ReturnedEntry(text: Str, reason: Reason): Option<Stored> {
    if Blank(text) then None else Some(StoredReturned(text, reason))
  }

  function StoredPrompt(e: Stored): Prompt
    requires e.StoredQueued?
  {
    Prompt(e.text, e.target, e.queuedAtMs, None)
  }

  /** The stored record behind `CHAT_QUEUE_STORAGE_KEY`, one entry per session key. */
  class QueueStorage {
    var prompts: map<Str, Stored>

    constructor ()
      ensures prompts == map[]
    {
      prompts := map[];
    }

    function Entry(key: Str): Option<Stored>
      reads this
    {
      if key in prompts then Some(prompts[key]) else None
    }

    method WriteEntry(key: Str, entry: Option<Stored>)
      modifies this
      ensures Entry(key) == entry
      ensures forall k :: k != key ==> Entry(k) == old(Entry(k))
    {
      match entry
      case Some(e) => prompts := prompts[key := e];
      case None => prompts := prompts - {key};
    }

    method SaveQueuedPrompt(key: Str, prompt: Option<Prompt>, sending: bool)
      modifies this
      ensures Entry(key) == QueuedEntry(prompt, sending)
      ensures forall k :: k != key ==> Entry(k) == old(Entry(k))
    {
      WriteEntry(key, QueuedEntry(prompt, sending));
    }

    method SaveReturnedDraft(key: Str, text: Str, reason: Reason)
      modifies this
      ensures Entry(key) == ReturnedEntry(text, reason)
      ensures forall k :: k != key ==> Entry(k) == old(Entry(k))
    {
      WriteEntry(key, ReturnedEntry(text, reason));
    }
  }
}
