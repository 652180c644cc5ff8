/**
 * The chat controller: what each event handler does to the controller's own
 * variables and to the entry its session keeps in storage.
 */
module ChatView {
  import opened JsText
  import opened ChatQueue

  /** The closure variables of one controller that the queue lives in. */
  datatype View = View(queued: Option<Prompt>, delivering: bool, returned: Option<Reason>, input: Str)

  /** A controller's variables beside its session's stored entry. */
  datatype Turn = Turn(view: View, stored: Option<Stored>)

  /** What storage should hold for a controller: its queue, or its given-back text. */
  function Image(v: View): Option<Stored> {
    if v.queued.Some? then QueuedEntry(v.queued, v.delivering)
    else if v.returned.Some? then Some(StoredReturned(v.input, v.returned.value))
    else None
  }

  function Persist(v: View): Turn {
    Turn(v, QueuedEntry(v.queued, v.delivering))
  }

  function GiveBack(v: View, text: Str, reason: Reason): Turn {
    var input := ReturnToComposer(text, v.input);
    Turn(v.(input := input, returned := Some(reason)), ReturnedEntry(input, reason))
  }

  /** A new controller for a session with this entry and this delivery in flight. */
  function Created(stored: Option<Stored>, inFlight: Option<Prompt>): Turn {
    var blank := View(None, false, None, []);
    if inFlight.Some? then
      var queued := if stored.Some? && stored.value.StoredQueued? then StoredPrompt(stored.value) else inFlight.value;
      Turn(blank.(delivering := true, queued := Some(queued)), stored)
    else match stored
      case None => Turn(blank, stored)
      case Some(StoredReturned(text, reason)) => Turn(blank.(input := text, returned := Some(reason)), stored)
      case Some(StoredQueued(text, _, _, sending)) =>
        if sending then GiveBack(blank, text, Uncertain)
        else Turn(blank.(queued := Some(StoredPrompt(stored.value))), stored)
  }

  function Submitted(t: Turn, target: Target, nowMs: int): Turn {
    match EnqueuePrompt(t.view.queued, t.view.input, target, nowMs)
    case Invalid(_) => t
    case Queued(prompt, _) => Persist(t.view.(queued := Some(prompt), returned := None, input := []))
  }

  function Edited(t: Turn): Turn {
    if t.view.queued.None? || t.view.delivering then t
    else Persist(t.view.(input := ReturnToComposer(t.view.queued.value.text, t.view.input), queued := None))
  }

  function Cancelled(t: Turn): Turn {
    if t.view.queued.None? || t.view.delivering then t else Persist(t.view.(queued := None))
  }

  function Typed(t: Turn, text: Str): Turn {
    var v := t.view.(input := text);
    if v.returned.None? then Turn(v, t.stored)
    else Turn(if Blank(text) then v.(returned := None) else v, ReturnedEntry(text, v.returned.value))
  }

  /** The first half of `deliver`: the mark, stored before the prompt leaves. */
  function Marked(t: Turn): Turn {
    Persist(t.view.(delivering := true))
  }

  function Settled(t: Turn, disposed: bool, delivered: Prompt, result: DeliveryResult): Turn {
    var after := AfterDelivery(delivered, t.view.queued, SettleDelivery(delivered, result));
    var v := t.view.(delivering := false, queued := after.queued);
    if after.returned.None? then Persist(v)
    else
      var (text, reason) := after.returned.value;
      if disposed then Turn(v, ReturnedEntry(text, reason)) else GiveBack(v, text, reason)
  }

  /** A controller and its entry agree: one queue or one given-back text, never both. */
  predicate Agrees(t: Turn) {
    && t.stored == Image(t.view)
    && (t.view.delivering ==> t.view.queued.Some?)
    && (t.view.queued.Some? ==> t.view.returned.None? && !Blank(t.view.queued.value.text))
    && (t.view.returned.Some? ==> !Blank(t.view.input))
  }

  lemma GiveBackAgrees(v: View, text: Str, reason: Reason)
    requires v.queued.None? && !v.delivering && !Blank(text)
    ensures Agrees(GiveBack(v, text, reason))
    ensures HoldsBoth(GiveBack(v, text, reason).view.input, text, v.input)
  {
    ReturnHoldsBoth(text, v.input);
    BlankParts(text, QUEUE_JOINER + v.input);
    assert text + QUEUE_JOINER + v.input == text + (QUEUE_JOINER + v.input);
  }

  lemma SettledAgrees(t: Turn, delivered: Prompt, rest: Option<Str>, result: DeliveryResult)
    requires Agrees(t) && t.view.queued.Some?
    requires t.view.queued.value.text
          == (if rest.Some? then delivered.text + QUEUE_JOINER + rest.value else delivered.text)
    requires rest.Some? ==> !Blank(rest.value)
    ensures Agrees(Settled(t, false, delivered, result))
    ensures Settled(t, true, delivered, result).stored == Settled(t.(view := t.view.(input := [])), false, delivered, result).stored
  {
    AfterDeliverySplits(delivered, t.view.queued.value, rest, result);
    var after := AfterDelivery(delivered, t.view.queued, SettleDelivery(delivered, result));
    if after.returned.Some? {
      var v := t.view.(delivering := false, queued := after.queued);
      GiveBackAgrees(v, after.returned.value.0, after.returned.value.1);
    }
  }

  /** The entry a settled delivery leaves, whoever settles it. */
  lemma SettledStored(t: Turn, disposed: bool, delivered: Prompt, rest: Option<Str>, result: DeliveryResult)
    requires Agrees(t) && t.view.queued.Some?
    requires t.view.queued.value.text
          == (if rest.Some? then delivered.text + QUEUE_JOINER + rest.value else delivered.text)
    ensures var now := t.view.queued.value;
            var stored := Settled(t, disposed, delivered, result).stored;
            match SettleDelivery(delivered, result)
            case Sent(_) =>
              stored == (if rest.None? then None else Some(StoredQueued(rest.value, now.target, now.queuedAtMs, false)))
            case Kept(_) => stored == Some(StoredQueued(now.text, now.target, now.queuedAtMs, false))
            case Returned(_, reason) => stored.Some? && stored.value.StoredReturned? && stored.value.reason == reason
                                        && HoldsBoth(stored.value.text, now.text, if disposed then [] else t.view.input)
  {
    var after := AfterDelivery(delivered, t.view.queued, SettleDelivery(delivered, result));
    AfterDeliverySplits(delivered, t.view.queued.value, rest, result);
    if after.returned.Some? {
      var v := t.view.(delivering := false, queued := after.queued);
      GiveBackAgrees(v, after.returned.value.0, after.returned.value.1);
    }
  }

  // ── The same handlers, in place ────────────────────────────────────────────

  class Flight {
    const prompt: Prompt
    var owner: ChatController?

    constructor (prompt: Prompt, owner: ChatController)
      ensures this.prompt == prompt && this.owner == owner
    {
      this.prompt := prompt;
      this.owner := owner;
    }
  }

  /** What the whole app knows of sends not answered yet: one at most per session. */
  class Flights {
    var byKey: map<Str, Flight>

    constructor ()
      ensures byKey == map[]
    {
      byKey := map[];
    }
  }

  /** The deliveries that are out once this one has been answered. */
  function Landed(byKey: map<Str, Flight>, key: Str, flight: Flight): map<Str, Flight> {
    if key in byKey && byKey[key] == flight then byKey - {key} else byKey
  }

  class ChatController {
    const key: Str
    const storage: QueueStorage
    const flights: Flights
    var queued: Option<Prompt>
    var delivering: bool
    var returned: Option<Reason>
    var input: Str
    var disposed: bool

    function Now(): Turn
      reads this, storage
    {
      Turn(View(queued, delivering, returned, input), storage.Entry(key))
    }

    constructor (key: Str, storage: QueueStorage, flights: Flights)
      modifies storage, if key in flights.byKey then {flights.byKey[key]} else {}
      ensures this.key == key && this.storage == storage && this.flights == flights && !disposed
      ensures Now() == Created(old(storage.Entry(key)),
                               if key in flights.byKey then Some(flights.byKey[key].prompt) else None)
      ensures key in flights.byKey ==> flights.byKey[key].owner == this
      ensures forall k :: k != key ==> storage.Entry(k) == old(storage.Entry(k))
    {
      this.key := key;
      this.storage := storage;
      this.flights := flights;
      queued, delivering, returned, input, disposed := None, false, None, [], false;
      new;
      var entry := storage.Entry(key);
      if key in flights.byKey {
        var inFlight := flights.byKey[key];
        inFlight.owner := this;
        delivering := true;
        queued := if entry.Some? && entry.value.StoredQueued? then Some(StoredPrompt(entry.value)) else Some(inFlight.prompt);
      } else if entry.Some? && entry.value.StoredQueued? && entry.value.sending {
        PutBack(entry.value.text, Uncertain);
      } else if entry.Some? && entry.value.StoredQueued? {
        queued := Some(StoredPrompt(entry.value));
      } else if entry.Some? {
        input := entry.value.text;
        returned := Some(entry.value.reason);
      }
    }

    method PutBack(text: Str, reason: Reason)
      modifies this`input, this`returned, storage
      ensures Now() == GiveBack(old(Now()).view, text, reason)
      ensures forall k :: k != key ==> storage.Entry(k) == old(storage.Entry(k))
    {
      input := ReturnToComposer(text, input);
      returned := Some(reason);
      storage.SaveReturnedDraft(key, input, reason);
    }

    method Submit(target: Target, nowMs: int)
      modifies this`queued, this`returned, this`input, storage
      ensures Now() == Submitted(old(Now()), target, nowMs)
      ensures forall k :: k != key ==> storage.Entry(k) == old(storage.Entry(k))
    {
      var result := EnqueuePrompt(queued, input, target, nowMs);
      if result.Invalid? { return; }
      queued := Some(result.prompt);
      returned := None;
      storage.SaveQueuedPrompt(key, queued, delivering);
      input := [];
    }

    method Edit()
      modifies this`queued, this`input, storage
      ensures Now() == Edited(old(Now()))
      ensures forall k :: k != key ==> storage.Entry(k) == old(storage.Entry(k))
    {
      if queued.None? || delivering { return; }
      input := ReturnToComposer(queued.value.text, input);
      queued := None;
      storage.SaveQueuedPrompt(key, queued, delivering);
    }

    method Cancel()
      modifies this`queued, storage
      ensures Now() == Cancelled(old(Now()))
      ensures forall k :: k != key ==> storage.Entry(k) == old(storage.Entry(k))
    {
      if queued.None? || delivering { return; }
      queued := None;
      storage.SaveQueuedPrompt(key, queued, delivering);
    }

    method Type(text: Str)
      modifies this`input, this`returned, storage
      ensures Now() == Typed(old(Now()), text)
      ensures forall k :: k != key ==> storage.Entry(k) == old(storage.Entry(k))
    {
      input := text;
      if returned.Some? {
        storage.SaveReturnedDraft(key, input, returned.value);
        if Blank(input) { returned := None; }
      }
    }

    /** Hands over the prompt to send, if one is due, once its mark is stored. */
    method Deliver(readiness: Readiness) returns (out: Option<Flight>)
      modifies this`delivering, storage, flights
      ensures out.Some? <==> !disposed && DeliveryDue(old(queued), readiness, old(delivering))
      ensures out.None? ==> Now() == old(Now()) && flights.byKey == old(flights.byKey)
      ensures out.Some? ==>
                && Now() == Marked(old(Now()))
                && fresh(out.value) && out.value.owner == this && Some(out.value.prompt) == queued
                && flights.byKey == old(flights.byKey)[key := out.value]
      ensures forall k :: k != key ==> storage.Entry(k) == old(storage.Entry(k))
    {
      if disposed || !DeliveryDue(queued, readiness, delivering) { return None; }
      var prompt := queued.value;
      delivering := true;
      storage.SaveQueuedPrompt(key, queued, delivering);
      var flight := new Flight(prompt, this);
      flights.byKey := flights.byKey[key := flight];
      out := Some(flight);
    }

    method Settle(flight: Flight, result: DeliveryResult)
      modifies this`queued, this`delivering, this`returned, this`input, storage
      ensures Now() == Settled(old(Now()), disposed, flight.prompt, result)
      ensures forall k :: k != key ==> storage.Entry(k) == old(storage.Entry(k))
    {
      delivering := false;
      var delivery := SettleDelivery(flight.prompt, result);
      var after := AfterDelivery(flight.prompt, queued, delivery);
      queued := after.queued;
      if after.returned.Some? {
        if disposed {
          storage.SaveReturnedDraft(key, after.returned.value.0, after.returned.value.1);
          return;
        }
        PutBack(after.returned.value.0, after.returned.value.1);
      } else {
        storage.SaveQueuedPrompt(key, queued, delivering);
      }
    }

    /** What runs in this controller when the flight's answer is in. */
    method Follow(flight: Flight, result: DeliveryResult)
      modifies this`queued, this`delivering, this`returned, this`input, storage, flights
      ensures flights.byKey == Landed(old(flights.byKey), key, flight)
      ensures Now() == if flight.owner == this then Settled(old(Now()), disposed, flight.prompt, result) else old(Now())
      ensures forall k :: k != key ==> storage.Entry(k) == old(storage.Entry(k))
    {
      if key in flights.byKey && flights.byKey[key] == flight {
        flights.byKey := flights.byKey - {key};
      }
      if flight.owner == this {
        Settle(flight, result);
      }
    }

    method Dispose()
      modifies this`disposed
      ensures disposed && Now() == old(Now())
    {
      disposed := true;
    }
  }

  /**
   * The answer to a flight is in, and every controller that waited for it runs in
   * turn. Only the owner settles, the others leave themselves and storage alone, and
   * the flight is no longer out.
   */
  method AnswerArrives(flight: Flight, followers: seq<ChatController>, owner: ChatController, result: DeliveryResult)
    requires flight.owner == owner && owner in followers
    requires forall i, j :: 0 <= i < j < |followers| ==> followers[i] != followers[j]
    requires forall c :: c in followers ==>
               c.key == owner.key && c.storage == owner.storage && c.flights == owner.flights
    modifies set c | c in followers :: c
    modifies owner.storage, owner.flights
    ensures owner.Now() == Settled(old(owner.Now()), owner.disposed, flight.prompt, result)
    ensures forall c :: c in followers && c != owner ==> c.Now().view == old(c.Now().view)
    ensures forall c :: c in followers ==> c.disposed == old(c.disposed)
    ensures owner.flights.byKey == Landed(old(owner.flights.byKey), owner.key, flight)
    ensures forall k :: k != owner.key ==> owner.storage.Entry(k) == old(owner.storage.Entry(k))
  {
    var i := 0;
    while i < |followers|
      invariant 0 <= i <= |followers|
      invariant flight.owner == owner
      invariant forall c :: c in followers && c != owner ==> c.Now().view == old(c.Now().view)
      invariant forall c :: c in followers ==> c.disposed == old(c.disposed)
      invariant owner.Now() == if owner in followers[..i]
                               then Settled(old(owner.Now()), owner.disposed, flight.prompt, result)
                               else old(owner.Now())
      invariant owner.flights.byKey ==
                  if i == 0 then old(owner.flights.byKey) else Landed(old(owner.flights.byKey), owner.key, flight)
      invariant forall k :: k != owner.key ==> owner.storage.Entry(k) == old(owner.storage.Entry(k))
    {
      var c := followers[i];
      c.Follow(flight, result);
      assert followers[..i + 1] == followers[..i] + [c];
      i := i + 1;
    }
    assert followers[..i] == followers;
  }
}
