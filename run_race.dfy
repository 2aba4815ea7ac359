/**
 * Two clicks on the run button whose handlers overlap. The handler reads
 * `runProcess` from the render it was created in, then waits for the mount
 * and for `npm install` to spawn, kills that value, waits for `npm start` to
 * spawn, and only then stores the new process. A second click during the
 * waits sees the same old process, so the process the first click started is
 * never killed.
 *
 * Processes are numbered handles; `live` holds the run processes not yet
 * killed, `current` is the screen's `runProcess`. The three steps of the
 * handler's tail are separate functions, so that another click's steps can
 * fall between them.
 */
module RunRace {

  import opened Wrappers

  datatype Sandbox = Sandbox(live: set<nat>, next: nat, current: Option<nat>)

  /** Handles are issued in order, and only the current run process is live. */
  predicate Sound(s: Sandbox) {
    && (forall h :: h in s.live ==> h < s.next)
    && (s.current.Some? ==> s.current.value < s.next)
    && (forall h :: h in s.live ==> s.current == Some(h))
  }

  /** `runProcess.kill()` on the handle `h`, when there is one. */
  function Kill(s: Sandbox, h: Option<nat>): (r: Sandbox)
    ensures r.next == s.next && r.current == s.current
    ensures forall x :: x in r.live <==> x in s.live && Some(x) != h
  {
    if h.Some? then s.(live := s.live - {h.value}) else s
  }

  /** The awaited `npm start` spawn resolves: handle `next` is issued and runs. */
  function Spawn(s: Sandbox): (r: Sandbox)
    ensures r.next == s.next + 1 && r.current == s.current
    ensures forall x :: x in r.live <==> x in s.live || x == s.next
  {
    s.(live := s.live + {s.next}, next := s.next + 1)
  }

  /** `setRunProcess(h)`. */
  function Store(s: Sandbox, h: nat): (r: Sandbox)
    ensures r.live == s.live && r.next == s.next && r.current == Some(h)
  {
    s.(current := Some(h))
  }

  /** The rest of a click, as written, run without interruption: kill the process `seen` when the click began, spawn, keep the new one. */
  function FinishAsWritten(s: Sandbox, seen: Option<nat>): (r: Sandbox)
    ensures r.current == Some(s.next) && s.next in r.live && r.next == s.next + 1
    ensures forall h :: h in r.live <==> h == s.next || (h in s.live && Some(h) != seen)
  {
    Store(Spawn(Kill(s, seen)), s.next)
  }

  /**
   * As written: from any sound state, two clicks that both begin before
   * either finishes leave two live run processes, and the first one is no
   * longer the screen's `runProcess`, so nothing will kill it.
   */
  lemma OverlappingRunsLeak(s: Sandbox)
    requires Sound(s)
    ensures var seen1 := s.current;
      var seen2 := s.current;
      var after := FinishAsWritten(FinishAsWritten(s, seen1), seen2);
      && s.next in after.live && s.next + 1 in after.live
      && after.current == Some(s.next + 1)
      && !Sound(after)
  {
  }

  /** The smallest instance: two quick clicks on a fresh screen leave processes 0 and 1 both running. */
  lemma TwoQuickClicksOnFreshScreen()
    ensures FinishAsWritten(FinishAsWritten(Sandbox({}, 0, None), None), None).live == {0, 1}
  {
  }

  /**
   * Killing the process current at the moment of the kill is not enough:
   * the `npm start` spawn is awaited between the kill and `setRunProcess`,
   * so a second click that kills during that wait still finds the old
   * process current, and the first click's new process leaks.
   */
  lemma KillingCurrentBeforeSpawnStillLeaks(s: Sandbox)
    requires Sound(s)
    ensures
      var a1 := Kill(s, s.current);          // click A kills
      var a2 := Spawn(a1);                    // A's spawn resolves: handle s.next
      var b1 := Kill(a2, a2.current);         // click B kills what is current: still the old one
      var b2 := Spawn(b1);                    // B's spawn resolves: handle s.next + 1
      var after := Store(Store(b2, s.next), s.next + 1);
      && s.next in after.live && s.next + 1 in after.live
      && !Sound(after)
  {
  }

  /**
   * The corrected tail of a click, once its `npm start` spawn has resolved
   * with handle `h`: in one synchronous step, kill the process current at
   * that moment and store `h` (a functional `setRunProcess(prev => ...)`).
   */
  function Adopt(s: Sandbox, h: nat): (r: Sandbox)
    ensures r.next == s.next && r.current == Some(h)
    ensures forall x :: x in r.live <==> x in s.live && Some(x) != s.current
  {
    Store(Kill(s, s.current), h)
  }

  /** One click finishing with nothing in between, corrected. */
  function FinishCorrected(s: Sandbox): (r: Sandbox)
    ensures r.current == Some(s.next) && r.next == s.next + 1
    ensures Sound(s) ==> r.live == {s.next}
  {
    Adopt(Spawn(s), s.next)
  }

  /**
   * The invariant of the corrected handler under any interleaving: every live
   * handle is either the current one or one whose spawn has resolved but not
   * yet been adopted (`pending`); pending handles are live and not current.
   */
  predicate Accounted(s: Sandbox, pending: set<nat>) {
    && (forall h :: h in s.live ==> h < s.next)
    && (s.current.Some? ==> s.current.value < s.next)
    && (forall h :: h in s.live ==> s.current == Some(h) || h in pending)
    && (forall h :: h in pending ==> h in s.live && s.current != Some(h))
  }

  /** With no click in flight, the invariant is exactly soundness. */
  lemma AccountedIdle(s: Sandbox)
    ensures Accounted(s, {}) <==> Sound(s)
  {
  }

  /** A spawn resolving adds one pending handle. */
  lemma SpawnKeepsAccounted(s: Sandbox, pending: set<nat>)
    requires Accounted(s, pending)
    ensures Accounted(Spawn(s), pending + {s.next})
  {
  }

  /**
   * Corrected: adopting a pending handle keeps the invariant, so whatever
   * the interleaving of spawns and adoptions, once every click has finished
   * only the current run process is live.
   */
  lemma AdoptKeepsAccounted(s: Sandbox, pending: set<nat>, h: nat)
    requires Accounted(s, pending) && h in pending
    ensures Accounted(Adopt(s, h), pending - {h})
  {
  }

  /** The interleaving that leaks above, under the corrected handler: only B's process stays live. */
  lemma CorrectedOverlappingClicks(s: Sandbox)
    requires Sound(s)
    ensures
      var after := Adopt(Adopt(Spawn(Spawn(s)), s.next), s.next + 1);
      && after.live == {s.next + 1} && after.current == Some(s.next + 1) && Sound(after)
  {
    AccountedIdle(s);
    SpawnKeepsAccounted(s, {});
    SpawnKeepsAccounted(Spawn(s), {s.next});
    AdoptKeepsAccounted(Spawn(Spawn(s)), {s.next, s.next + 1}, s.next);
    assert {s.next, s.next + 1} - {s.next} == {s.next + 1};
    AdoptKeepsAccounted(Adopt(Spawn(Spawn(s)), s.next), {s.next + 1}, s.next + 1);
    assert {s.next + 1} - {s.next + 1} == {};
    AccountedIdle(Adopt(Adopt(Spawn(Spawn(s)), s.next), s.next + 1));
  }

  /**
   * Corrected, clicks one after another: each finishing click keeps exactly
   * one live run process, the current one.
   */
  lemma {:induction false} CorrectedKeepsSingleLive(s: Sandbox, finishes: nat)
    requires Sound(s)
    ensures Sound(FinishMany(s, finishes))
    ensures finishes > 0 ==> FinishMany(s, finishes).live == {FinishMany(s, finishes).current.value}
  {
    if finishes > 0 {
      CorrectedKeepsSingleLive(s, finishes - 1);
    }
  }

  /** `n` clicks finishing one after another under the corrected handler. */
  function FinishMany(s: Sandbox, n: nat): Sandbox {
    if n == 0 then s else FinishCorrected(FinishMany(s, n - 1))
  }
}
