/** Falling back from transport to transport while the socket is opening (socket.go). */
module Fallback {
  import opened Basics

  /** A transport kind, such as polling or websocket. */
  type Kind = string

  /** What decides the attempts of one Open: the list left, the remembered upgrade and the options. */
  datatype Plan = Plan(transports: seq<Kind>, prior: Option<Kind>, remember: bool, tryAll: bool)

  /** The remembered upgrade is used when it is still in the list. */
  predicate Remembers(p: Plan) {
    p.remember && p.prior.Some? && p.prior.value in p.transports
  }

  function Choice(p: Plan): Kind
    requires p.transports != []
  {
    if Remembers(p) then p.prior.value else p.transports[0]
  }

  predicate Retries(p: Plan) {
    p.tryAll && |p.transports| > 1
  }

  /** The plan after a failed open: the memory is dropped, and so is the head of the list on a retry. */
  function AfterFailure(p: Plan): Plan {
    p.(prior := None, transports := if Retries(p) then p.transports[1..] else p.transports)
  }

  /**
   * The transports attempted when none of them opens. A kind outside `creatable` cannot even
   * be constructed, which ends the chain.
   */
  function Attempts(p: Plan, creatable: set<Kind>): seq<Kind>
    decreases |p.transports|
  {
    if p.transports == [] then []
    else if Choice(p) !in creatable || !Retries(p) then [Choice(p)]
    else [Choice(p)] + Attempts(AfterFailure(p), creatable)
  }

  /** The plan left behind. */
  function Remaining(p: Plan, creatable: set<Kind>): Plan
    decreases |p.transports|
  {
    if p.transports == [] || Choice(p) !in creatable then p
    else if !Retries(p) then AfterFailure(p)
    else Remaining(AfterFailure(p), creatable)
  }

  /** The attempts that follow a failed one, and the plan they leave. */
  function Following(p: Plan, creatable: set<Kind>): (seq<Kind>, Plan) {
    if Retries(p) then (Attempts(AfterFailure(p), creatable), Remaining(AfterFailure(p), creatable))
    else ([], AfterFailure(p))
  }

  lemma OneAttempt(p: Plan, creatable: set<Kind>)
    requires p.transports != [] && Choice(p) in creatable
    ensures Attempts(p, creatable) == [Choice(p)] + Following(p, creatable).0
    ensures Remaining(p, creatable) == Following(p, creatable).1
  {}

  datatype SocketState = Opening | Open | Closing | Closed

  class Socket {
    const rememberUpgrade: bool
    const tryAllTransports: bool
    var transports: seq<Kind>
    var state: SocketState
    var transport: Option<Kind>
    var priorUpgrade: Option<Kind>
    var attempts: seq<Kind>      // every transport ever chosen by Open

    ghost function View(): Plan
      reads this
    {
      Plan(transports, priorUpgrade, rememberUpgrade, tryAllTransports)
    }

    constructor (transports: seq<Kind>, rememberUpgrade: bool, tryAllTransports: bool)
      ensures View() == Plan(transports, None, rememberUpgrade, tryAllTransports)
      ensures state == Closed && attempts == []
    {
      this.rememberUpgrade, this.tryAllTransports := rememberUpgrade, tryAllTransports;
      this.transports, state, transport, priorUpgrade, attempts := transports, Closed, None, None, [];
    }

    method BeginOpen() returns (ok: bool)
      modifies this`state
      ensures ok <==> old(state) == Closed
      ensures state == if ok then Opening else old(state)
    {
      ok := state == Closed;
      if ok {
        state := Opening;
      }
    }

    method SelectTransport() returns (kind: Option<Kind>)
      ensures kind == if transports == [] then None else Some(Choice(View()))
    {
      if transports == [] {
        return None;
      }
      if rememberUpgrade && priorUpgrade.Some? && priorUpgrade.value in transports {
        return priorUpgrade;
      }
      return Some(transports[0]);
    }

    method BeginRetry() returns (retry: bool)
      modifies this
      ensures retry <==> Retries(old(View())) && old(state) == Opening
      ensures attempts == old(attempts)
      ensures if retry then View() == AfterFailure(old(View())) && state == Closed && transport == None
              else View() == old(View()).(prior := None) && state == old(state) && transport == old(transport)
    {
      priorUpgrade := None;
      retry := tryAllTransports && |transports| > 1 && state == Opening;
      if retry {
        transports := transports[1..];
        state := Closed;
        transport := None;
      }
    }

    /** Open, when every transport that is created fails to open. */
    method OpenFailing(creatable: set<Kind>)
      modifies this
      ensures old(state) != Closed ==> state == old(state) && View() == old(View()) && attempts == old(attempts)
      ensures old(state) == Closed ==>
                && state == Closed
                && attempts == old(attempts) + Attempts(old(View()), creatable)
                && View() == Remaining(old(View()), creatable)
      decreases |transports|, 1
    {
      var ok := BeginOpen();
      if !ok {
        return;
      }
      var kind := SelectTransport();
      if kind == None {
        state := Closed;
        return;
      }
      attempts := attempts + [kind.value];
      if kind.value !in creatable {
        state := Closed;
        return;
      }
      transport := kind;
      ghost var p := View();
      OnError(creatable);
      OneAttempt(p, creatable);
      Assoc(old(attempts), [kind.value], Following(p, creatable).0);
    }

    /** onError while opening: falls back, or tears the socket down. */
    method OnError(creatable: set<Kind>)
      requires state == Opening
      modifies this
      ensures state == Closed
      ensures var (following, left) := Following(old(View()), creatable);
              attempts == old(attempts) + following && View() == left
      decreases |transports|, 0
    {
      var retry := BeginRetry();
      if !retry {
        state := Closed;
        transport := None;
        return;
      }
      OpenFailing(creatable);
    }
  }

  // ---- How many attempts, and which ----

  lemma {:induction false} AttemptsBounded(p: Plan, creatable: set<Kind>)
    ensures |Attempts(p, creatable)| <= |p.transports|
    decreases |p.transports|
  {
    if p.transports != [] && Choice(p) in creatable && Retries(p) {
      AttemptsBounded(AfterFailure(p), creatable);
    }
  }

  /** Once the memory is dropped, the list is tried in order. */
  lemma {:induction false} TriesInOrder(p: Plan, creatable: set<Kind>)
    requires p.tryAll && !Remembers(p) && p.transports != []
    requires forall k :: 0 <= k < |p.transports| - 1 ==> p.transports[k] in creatable
    ensures Attempts(p, creatable) == p.transports
    decreases |p.transports|
  {
    if |p.transports| > 1 {
      TriesInOrder(AfterFailure(p), creatable);
    }
  }

  /** What the option promises: every transport of the list is tried. */
  predicate TriesAll(p: Plan, creatable: set<Kind>) {
    forall k :: 0 <= k < |p.transports| ==> p.transports[k] in Attempts(p, creatable)
  }

  /** The attempts planned: the choice, then the rest of the list. */
  function Planned(p: Plan): seq<Kind> {
    if p.transports == [] then [] else [Choice(p)] + if p.tryAll then p.transports[1..] else []
  }

  /** How many of them are made: those up to and including the first that cannot be created. */
  function Made(planned: seq<Kind>, creatable: set<Kind>): (n: nat)
    ensures n <= |planned|
  {
    if planned == [] then 0
    else if planned[0] !in creatable then 1
    else 1 + Made(planned[1..], creatable)
  }

  lemma {:induction false} MadeUpTo(planned: seq<Kind>, creatable: set<Kind>)
    ensures forall k :: 0 <= k < Made(planned, creatable) - 1 ==> planned[k] in creatable
    ensures Made(planned, creatable) < |planned| ==>
              Made(planned, creatable) > 0 && planned[Made(planned, creatable) - 1] !in creatable
  {
    if planned != [] && planned[0] in creatable {
      MadeUpTo(planned[1..], creatable);
      assert forall k :: 0 < k < |planned| ==> planned[k] == planned[1..][k - 1];
    }
  }

  /** The attempts are the plan, cut after the first transport that cannot be created. */
  lemma {:induction false} AttemptsAre(p: Plan, creatable: set<Kind>)
    ensures Attempts(p, creatable) == Planned(p)[..Made(Planned(p), creatable)]
    decreases |p.transports|
  {
    if p.transports != [] && Choice(p) in creatable {
      assert Planned(p)[1..] == if p.tryAll then p.transports[1..] else [];
      if Retries(p) {
        var q := AfterFailure(p);
        AttemptsAre(q, creatable);
        assert Planned(q) == p.transports[1..] == Planned(p)[1..];
        assert Planned(p)[..Made(Planned(p), creatable)]
            == [Choice(p)] + Planned(q)[..Made(Planned(q), creatable)];
      } else {
        assert Planned(p)[1..] == [] && Planned(p) == [Choice(p)];
      }
    }
  }

  /** Place c of the plan is its last, or the first whose kind cannot be created. */
  predicate EndsAt(planned: seq<Kind>, creatable: set<Kind>, c: nat) {
    && c < |planned| && (forall k :: 0 <= k < c ==> planned[k] in creatable)
    && (c == |planned| - 1 || planned[c] !in creatable)
  }

  lemma {:induction false} MadeIs(planned: seq<Kind>, creatable: set<Kind>, c: nat)
    requires EndsAt(planned, creatable, c)
    ensures Made(planned, creatable) == c + 1
  {
    if c > 0 {
      MadeIs(planned[1..], creatable, c - 1);
    }
  }

  /**
   * With c the place at which the chain ends: every transport is tried exactly when the first
   * and those beyond place c are the choice or stand at places 1 to c.
   */
  lemma TriesAllExactly(p: Plan, creatable: set<Kind>, c: nat)
    requires p.tryAll && p.transports != [] && EndsAt(Planned(p), creatable, c)
    ensures TriesAll(p, creatable) <==>
            forall k :: 0 <= k < |p.transports| && (k == 0 || k > c) ==>
              p.transports[k] == Choice(p) || p.transports[k] in p.transports[1..c + 1]
  {
    AttemptsAre(p, creatable);
    MadeIs(Planned(p), creatable, c);
    assert Planned(p)[..c + 1] == [Choice(p)] + p.transports[1..c + 1];
    assert forall k :: 0 < k <= c ==> p.transports[k] == p.transports[1..c + 1][k - 1];
  }

  /**
   * What a failed open leaves, with c the place at which its chain ended: the list from there on,
   * and no memory, unless the remembered transport itself could not be created.
   */
  lemma {:induction false} LeavesTheRest(p: Plan, creatable: set<Kind>, c: nat)
    requires p.tryAll && p.transports != [] && EndsAt(Planned(p), creatable, c)
    ensures Remaining(p, creatable).transports == p.transports[c..]
    ensures Remaining(p, creatable).prior == if c == 0 && Choice(p) !in creatable then p.prior else None
    decreases |p.transports|
  {
    if Choice(p) in creatable && Retries(p) {
      var q := AfterFailure(p);
      EndsLater(p, creatable, c);
      LeavesTheRest(q, creatable, c - 1);
      assert q.transports[c - 1..] == p.transports[c..];
    } else {
      assert Planned(p)[0] == Choice(p) && |Planned(p)| == |p.transports|;
      assert c == 0 && p.transports[0..] == p.transports;
    }
  }

  lemma EndsLater(p: Plan, creatable: set<Kind>, c: nat)
    requires p.tryAll && Retries(p) && Choice(p) in creatable && EndsAt(Planned(p), creatable, c)
    ensures c > 0 && EndsAt(Planned(AfterFailure(p)), creatable, c - 1)
  {
    var planned := Planned(p);
    assert Planned(AfterFailure(p)) == planned[1..];
    assert forall k :: 0 <= k < |planned[1..]| ==> planned[1..][k] == planned[k + 1];
  }

  /** With every kind creatable, the only transport that can be skipped is the first, displaced by a remembered upgrade. */
  lemma AllCreatable(p: Plan, creatable: set<Kind>)
    requires p.tryAll && p.transports != [] && forall k :: 0 <= k < |p.transports| ==> p.transports[k] in creatable
    ensures TriesAll(p, creatable) <==>
            !Remembers(p) || p.prior.value == p.transports[0] || p.transports[0] in p.transports[1..]
  {
    var last := |p.transports| - 1;
    assert forall k :: 0 <= k < |Planned(p)| ==> Planned(p)[k] in creatable;
    TriesAllExactly(p, creatable, last);
    assert p.transports[1..last + 1] == p.transports[1..];
  }

  /** On a list without repetitions every transport is tried exactly when the memory is none or the first, and all but the last can be created. */
  lemma NoRepetitions(p: Plan, creatable: set<Kind>)
    requires p.tryAll && p.transports != []
    requires forall i, j :: 0 <= i < j < |p.transports| ==> p.transports[i] != p.transports[j]
    ensures TriesAll(p, creatable) <==>
            && (Remembers(p) ==> p.prior.value == p.transports[0])
            && (forall k :: 0 <= k < |p.transports| - 1 ==> p.transports[k] in creatable)
  {
    var planned, ts := Planned(p), p.transports;
    var c := Made(planned, creatable) - 1;
    MadeUpTo(planned, creatable);
    TriesAllExactly(p, creatable, c);
    LaterOnesAreNew(ts, c);
    assert forall k :: 0 < k < |ts| ==> planned[k] == ts[k];
    if Choice(p) == ts[0] {
      assert planned == ts;
    }
  }

  lemma LaterOnesAreNew(ts: seq<Kind>, c: int)
    requires 0 <= c < |ts| && forall i, j :: 0 <= i < j < |ts| ==> ts[i] != ts[j]
    ensures ts[0] !in ts[1..c + 1]
    ensures c < |ts| - 1 ==> ts[|ts| - 1] !in ts[1..c + 1]
  {}

  /** A remembered websocket is tried twice, and polling, the first of the list, never. */
  lemma RememberedUpgradeSkipsFirst()
    ensures var p := Plan(["polling", "websocket"], Some("websocket"), true, true);
            Attempts(p, {"polling", "websocket"}) == ["websocket", "websocket"]
            && !TriesAll(p, {"polling", "websocket"})
  {
    var p := Plan(["polling", "websocket"], Some("websocket"), true, true);
    var all := {"polling", "websocket"};
    assert "polling" != "websocket" by {
      assert "polling"[0] != "websocket"[0];
    }
    assert p.transports[1] == "websocket" && Choice(p) == "websocket";
    TriesInOrder(AfterFailure(p), all);
    assert p.transports[1..] == ["websocket"];
    assert p.transports[0] !in Attempts(p, all);
  }
}
