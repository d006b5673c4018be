/** What one step of the server changes, seen from the network. */
module ServerFacts {
  import opened ServerSystem
  import opened ServerBase

  /** Steps the server takes by itself, as opposed to those a request or a frame triggers. */
  predicate Internal(e: Event) {
    !e.HoldPoll? && !e.ReleasePoll? && !e.UpgradeArrives?
  }

  /** What the server has put on the network only grows, and no upgrade is completed. */
  ghost predicate Grows(s: System, s': System) {
    && s.w.handed <= s'.w.handed && s.w.polls <= s'.w.polls && s.w.frames <= s'.w.frames
    && s'.u.first == s.u.first && s'.u.swaps == s.u.swaps && s'.u.completer == s.u.completer
    && s'.u.swappedIn == s.u.swappedIn && s.u.owned <= s'.u.owned && s.u.used <= s'.u.used
    && (forall t :: t in s.u.used && t in s'.probing ==> t in s.probing)
  }

  lemma CallGrows(s: System, e: Event)
    requires IsAppend(e) || (IsPoll(e))
    ensures Grows(s, Apply(s, e))
  {}

  lemma ProbeGrows(s: System, e: Event)
    requires IsProbe(e)
    ensures Grows(s, Apply(s, e))
  {}

  lemma DischargeGrows(s: System, i: nat)
    requires i in s.threads && !Free(s.threads[i])
    ensures Grows(s, Discharge(s, i, s.threads[i]))
  {}

  lemma FlushGrows(s: System, i: nat, arm: bool, ok: bool)
    ensures Grows(s, FlushStep(s, i, arm, ok))
  {}

  lemma ContinueGrows(s: System, i: nat, next: Next, ok: bool)
    ensures Grows(s, Continue(s, i, next, ok))
  {
    if next.Flush? {
      FlushGrows(s, i, next.arm, ok);
    }
  }

  lemma InternalGrows(s: System, e: Event)
    requires Internal(e)
    ensures Grows(s, Apply(s, e))
  {
    if IsAppend(e) || IsPoll(e) {
      CallGrows(s, e);
    } else if IsProbe(e) {
      ProbeGrows(s, e);
    } else if e.i in s.threads {
      if Free(s.threads[e.i]) {
        ContinueGrows(s, e.i, s.threads[e.i].next, e.ok);
      } else {
        DischargeGrows(s, e.i);
      }
    }
  }
}
