/** What the far side can still type after a run, and when that breaks the order of submitting. */
module ChatLateWrites {
  import opened Lists
  import opened ChatHistory
  import opened ChatProtocol
  import opened ChatGuarantees

  /** The far side types these sends, in this order, and nothing else happens. */
  function Writes(w: World, ks: seq<nat>): World {
    if ks == [] then w else Step(Writes(w, ks[..|ks| - 1]), Write(ks[|ks| - 1]))
  }

  /** Writing changes which sends are typed, and appends to the log. */
  predicate OnlyWrote(p: Past, q: Past) {
    && |q.sends| == |p.sends| && p.log <= q.log
    && (forall k :: 0 <= k < |p.sends| ==>
          && q.sends[k].ids == p.sends[k].ids && q.sends[k].fate == p.sends[k].fate
          && (p.sends[k].written ==> q.sends[k].written))
  }

  lemma WriteOnlyWrote(p: Past, q: Past, w: World, k: nat)
    requires OnlyWrote(p, q) && w.past == q
    ensures OnlyWrote(p, Step(w, Write(k)).past)
  {
  }

  lemma {:induction false} WritesKeep(w: World, ks: seq<nat>)
    requires Inv(w)
    ensures Inv(Writes(w, ks)) && OnlyWrote(w.past, Writes(w, ks).past)
  {
    if ks != [] {
      var rest, k := ks[..|ks| - 1], ks[|ks| - 1];
      WritesKeep(w, rest);
      StepKeeps(Writes(w, rest), Write(k));
      WriteOnlyWrote(w.past, Writes(w, rest).past, Writes(w, rest), k);
    }
  }

  lemma OneWrite(w: World, k: nat)
    ensures Writes(w, [k]) == Step(w, Write(k))
  {
    assert [k][..0] == [] && Writes(w, [k][..0]) == w;
  }

  lemma TwoWrites(w: World, l: nat, k: nat)
    ensures Writes(w, [l, k]) == Step(Step(w, Write(l)), Write(k))
  {
    assert [l, k][..1] == [l];
    OneWrite(w, l);
  }

  // ── Text given back that may yet turn out written ──────────────────────────

  /** The draft is in the log, or the far side can still put it there. */
  ghost predicate MayBeTyped(w: World, id: nat) {
    exists ks :: id in Writes(w, ks).past.log
  }

  /** A send that no answer decided carried the draft. */
  predicate LeftUndecided(p: Past, id: nat) {
    exists k :: 0 <= k < |p.sends| && id in p.sends[k].ids && Undecided(p.sends[k].fate)
  }

  /**
   * A given-back draft is written, or can still be, exactly when a send that carried it
   * was never decided. Where none was, the text can be sent again without a doubt.
   */
  lemma MayBeWritten(es: seq<Event>, id: nat)
    requires id in After(es).past.given
    ensures MayBeTyped(After(es), id) <==> LeftUndecided(After(es).past, id)
  {
    EveryRun(es);
    if MayBeTyped(After(es), id) {
      TypedWasUndecided(After(es), id);
    }
    if LeftUndecided(After(es).past, id) {
      UndecidedCanBeTyped(After(es), id);
    }
  }

  lemma TypedWasUndecided(w: World, id: nat)
    requires Inv(w) && MayBeTyped(w, id) && id in w.past.given
    ensures LeftUndecided(w.past, id)
  {
    var ks :| id in Writes(w, ks).past.log;
    WritesKeep(w, ks);
    WrittenWasUndecided(w, Writes(w, ks), id);
  }

  lemma UndecidedCanBeTyped(w: World, id: nat)
    requires Inv(w) && LeftUndecided(w.past, id)
    ensures MayBeTyped(w, id)
  {
    var k :| 0 <= k < |w.past.sends| && id in w.past.sends[k].ids && Undecided(w.past.sends[k].fate);
    CanBeTyped(w, id, k);
  }

  lemma WrittenWasUndecided(w: World, w': World, id: nat)
    requires Inv(w) && Inv(w') && OnlyWrote(w.past, w'.past) && id in w.past.given && id in w'.past.log
    ensures LeftUndecided(w.past, id)
  {
    var p, q := w.past, w'.past;
    var k :| 0 <= k < |q.sends| && q.sends[k].written && id in q.sends[k].ids;
    assert SendOk(p, PhaseOf(w), k) && SendOk(q, PhaseOf(w'), k);
    var i :| 0 <= i < |p.sends[k].ids| && p.sends[k].ids[i] == id;
    assert p.sends[k].fate.OnWire? ==> id in p.queue;
  }

  lemma CanBeTyped(w: World, id: nat, k: nat)
    requires Inv(w) && k < |w.past.sends| && id in w.past.sends[k].ids && Undecided(w.past.sends[k].fate)
    ensures MayBeTyped(w, id)
  {
    if w.past.sends[k].written {
      assert TypedIn(w.past.sends, id);
      assert Writes(w, []) == w;
    } else {
      OneWrite(w, k);
      assert id in Writes(w, [k]).past.log;
    }
  }

  // ── The order of writing ───────────────────────────────────────────────────

  /** Position `j` of the log holds an earlier draft than some position before it. */
  predicate Overtaken(log: seq<nat>, j: nat) {
    j < |log| && exists i :: 0 <= i < j && log[i] > log[j]
  }

  predicate NewlyOvertaken(before: seq<nat>, log: seq<nat>) {
    exists j :: |before| <= j < |log| && Overtaken(log, j)
  }

  /** A send that may still be typed, with a later one that was or may be. */
  predicate Overtakable(p: Past, k: nat, l: nat) {
    k < l < |p.sends| && Lasting(p.sends[k]) && Lasting(p.sends[l]) && !p.sends[k].written
  }

  predicate AnyOvertakable(p: Past) {
    exists k, l :: 0 <= k < l < |p.sends| && Overtakable(p, k, l)
  }

  /** Some writes the far side can still do put an earlier draft behind a later one. */
  ghost predicate CanBreak(w: World) {
    exists ks :: NewlyOvertaken(w.past.log, Writes(w, ks).past.log)
  }

  lemma OvertakenNow(p: Past, phase: Phase, k: nat, l: nat)
    requires PastInv(p, phase) && k < l < |p.sends| && Lasting(p.sends[k]) && p.sends[l].written
    ensures NewlyOvertaken(p.log, p.log + p.sends[k].ids)
  {
    assert SendOk(p, phase, k) && SendOk(p, phase, l);
    var log := p.log + p.sends[k].ids;
    assert TypedIn(p.sends, p.sends[l].ids[0]);
    var i :| 0 <= i < |p.log| && p.log[i] == p.sends[l].ids[0];
    assert Before(p.sends[k].ids, p.sends[l].ids);
    assert log[i] > log[|p.log|];
    assert Overtaken(log, |p.log|);
  }

  lemma AscendingTail(log: seq<nat>, ids: seq<nat>, i: nat, j: nat)
    requires Ascending(ids) && i < j < |log + ids| && (log + ids)[i] > (log + ids)[j]
    ensures i < |log|
  {
  }

  lemma LaterSend(p: Past, phase: Phase, k: nat, l: nat, a: nat, b: nat)
    requires SendsOk(p, phase) && k < |p.sends| && l < |p.sends| && k != l
    requires Lasting(p.sends[k]) && Lasting(p.sends[l]) && a < |p.sends[l].ids| && b < |p.sends[k].ids|
    requires p.sends[l].ids[a] > p.sends[k].ids[b]
    ensures k < l
  {
  }

  lemma OvertakenBy(p: Past, phase: Phase, k: nat) returns (l: nat)
    requires PastInv(p, phase) && k < |p.sends| && Lasting(p.sends[k]) && !p.sends[k].written
    requires NewlyOvertaken(p.log, p.log + p.sends[k].ids)
    ensures k < l < |p.sends| && p.sends[l].written && Lasting(p.sends[l])
  {
    var ids := p.sends[k].ids;
    var log := p.log + ids;
    assert SendOk(p, phase, k);
    var j :| |p.log| <= j < |log| && Overtaken(log, j);
    var i :| 0 <= i < j && log[i] > log[j];
    AscendingTail(p.log, ids, i, j);
    assert p.log[i] in p.log;
    l :| 0 <= l < |p.sends| && p.sends[l].written && p.log[i] in p.sends[l].ids;
    assert SendOk(p, phase, l);
    var a :| 0 <= a < |p.sends[l].ids| && p.sends[l].ids[a] == p.log[i];
    LaterSend(p, phase, k, l, a, j - |p.log|);
  }

  /** A late write breaks the order exactly when a later send has been written before it. */
  lemma WriteBreaksOrder(es: seq<Event>, k: nat)
    requires Enabled(After(es), Write(k))
    ensures var w := After(es);
            NewlyOvertaken(w.past.log, Step(w, Write(k)).past.log)
            <==> exists l :: k < l < |w.past.sends| && w.past.sends[l].written
  {
    EveryRun(es);
    var w := After(es);
    if NewlyOvertaken(w.past.log, Step(w, Write(k)).past.log) {
      var l := OvertakenBy(w.past, PhaseOf(w), k);
    } else if l :| k < l < |w.past.sends| && w.past.sends[l].written {
      OvertakenNow(w.past, PhaseOf(w), k, l);
    }
  }

  /** If the last write is the one that overtakes, there was something to overtake from the start. */
  lemma LastOvertakes(w: World, v: World, k: nat)
    requires Inv(v) && OnlyWrote(w.past, v.past) && NewlyOvertaken(v.past.log, Step(v, Write(k)).past.log)
    ensures AnyOvertakable(w.past)
  {
    var l := OvertakenBy(v.past, PhaseOf(v), k);
    assert Overtakable(w.past, k, l);
  }

  lemma {:induction false} BreaksOnlyIfOvertakable(w: World, ks: seq<nat>)
    requires Inv(w) && NewlyOvertaken(w.past.log, Writes(w, ks).past.log)
    ensures AnyOvertakable(w.past)
  {
    if ks != [] {
      var rest, k := ks[..|ks| - 1], ks[|ks| - 1];
      var v := Writes(w, rest);
      WritesKeep(w, rest);
      var log := Writes(w, ks).past.log;
      var j :| |w.past.log| <= j < |log| && Overtaken(log, j);
      if j < |v.past.log| {
        StillOvertaken(v, k, j);
        BreaksOnlyIfOvertakable(w, rest);
      } else {
        LastOvertakes(w, v, k);
      }
    }
  }

  lemma StillOvertaken(w: World, k: nat, j: nat)
    requires Overtaken(Step(w, Write(k)).past.log, j) && j < |w.past.log|
    ensures Overtaken(w.past.log, j)
  {
    var log := Step(w, Write(k)).past.log;
    assert w.past.log <= log;
    var i :| 0 <= i < j && log[i] > log[j];
    assert w.past.log[i] > w.past.log[j];
  }

  lemma BreaksIfOvertakable(w: World, k: nat, l: nat)
    requires Inv(w) && Overtakable(w.past, k, l)
    ensures CanBreak(w)
  {
    assert SendOk(w.past, PhaseOf(w), k) && SendOk(w.past, PhaseOf(w), l);
    if w.past.sends[l].written {
      OneWrite(w, k);
      OvertakenNow(w.past, PhaseOf(w), k, l);
      assert NewlyOvertaken(w.past.log, Writes(w, [k]).past.log);
    } else {
      WritesBoth(w, k, l);
    }
  }

  /** The later one typed, then the earlier one. */
  lemma BothTyped(p: Past, phase: Phase, k: nat, l: nat)
    requires PastInv(p, phase) && Overtakable(p, k, l) && !p.sends[l].written && !p.sends[l].fate.Confirmed?
    ensures NewlyOvertaken(p.log, p.log + p.sends[l].ids + p.sends[k].ids)
  {
    TypeOutKeeps(p, phase, l);
    var q := TypeOut(p, l);
    OvertakenNow(q, phase, k, l);
    NewerStill(p.log, q.log, q.log + q.sends[k].ids);
  }

  lemma TwoWritesLog(w: World, k: nat, l: nat)
    requires Enabled(w, Write(l)) && Enabled(w, Write(k)) && k != l
    ensures Writes(w, [l, k]).past.log == w.past.log + w.past.sends[l].ids + w.past.sends[k].ids
  {
    TwoWrites(w, l, k);
  }

  lemma WritesBoth(w: World, k: nat, l: nat)
    requires Inv(w) && Overtakable(w.past, k, l) && Enabled(w, Write(l)) && Enabled(w, Write(k))
    ensures CanBreak(w)
  {
    BothTyped(w.past, PhaseOf(w), k, l);
    TwoWritesLog(w, k, l);
  }

  lemma NewerStill(log: seq<nat>, log': seq<nat>, log'': seq<nat>)
    requires |log| <= |log'| && NewlyOvertaken(log', log'')
    ensures NewlyOvertaken(log, log'')
  {
    var j :| |log'| <= j < |log''| && Overtaken(log'', j);
  }

  /**
   * From any point on, what the far side still types can break the order of submitting
   * exactly when a send that is neither written nor ruled out has a later one behind it
   * that is not ruled out either.
   */
  lemma OrderCanBreak(es: seq<Event>)
    ensures CanBreak(After(es)) <==> AnyOvertakable(After(es).past)
  {
    EveryRun(es);
    var w := After(es);
    if CanBreak(w) {
      var ks :| NewlyOvertaken(w.past.log, Writes(w, ks).past.log);
      BreaksOnlyIfOvertakable(w, ks);
    }
    if AnyOvertakable(w.past) {
      var k, l :| 0 <= k < l < |w.past.sends| && Overtakable(w.past, k, l);
      BreaksIfOvertakable(w, k, l);
    }
  }
}
