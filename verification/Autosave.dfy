/** The coalescing autosave hook while mounted, as one state machine over its
    events: edits, timer fires, user calls and settlements of launched saves. */
module Autosave {
  import opened Wrappers

  type Payload = int

  datatype Status = Idle | Saving | Saved | Error
  datatype Outcome = Running | Succeeded | Failed(abortError: bool)

  /** A launched save: what it sends, and which edit that was. */
  datatype Save = Save(payload: Payload, version: nat, aborted: bool, outcome: Outcome)

  /** Where the promise of a coalesced saveNow stands: queued, tied to the restart
      it waits for, or settled by that save (None: discarded by a reset). */
  datatype Ticket = Queued | Awaiting(save: nat) | Settled(after: Option<nat>)

  /** `born`: how many saves had been launched when the promise was handed out;
      `version`: the newest payload it was handed out for. */
  datatype Deferred = Deferred(born: nat, version: nat, ticket: Ticket)

  /** What saveNow hands back. */
  datatype Handle = OfSave(save: nat) | OfDeferred(deferred: nat)

  /** The refs of the hook, and the saves and promises it has created. `version`
      counts payload changes. `discarded`: since the last one, the pending work
      was dropped by a reset or a disabled schedule. */
  datatype State = State(enabled: bool, timer: bool, pending: bool, payload: Payload, version: nat,
                         controller: Option<nat>, restart: bool, deferred: Option<nat>, status: Status,
                         saves: seq<Save>, deferreds: seq<Deferred>, discarded: bool)

  datatype Event = Edit(p: Payload) | SetEnabled(on: bool) | TimerFires | Flush
                 | SaveNow(override: Option<Payload>) | Reset | Settle(save: nat, outcome: Outcome)

  // ----- The callbacks -----------------------------------------------------

  function Launch(s: State): State {
    s.(controller := Some(|s.saves|), status := Saving,
       saves := s.saves + [Save(s.payload, s.version, false, Running)])
  }

  function RunSave(s: State): State {
    if s.controller.Some? then s.(restart := true) else Launch(s)
  }

  predicate Linked(s: State) {
    s.deferred.Some? ==> s.deferred.value < |s.deferreds|
  }

  function FireQueuedRestart(s: State): State
    requires Linked(s)
  {
    var s1 := Launch(s.(restart := false));
    if s.deferred.None? then s1
    else
      var d := s.deferred.value;
      s1.(deferred := None, deferreds := s1.deferreds[d := s1.deferreds[d].(ticket := Awaiting(|s.saves|))])
  }

  function DoFlush(s: State): State {
    if !s.timer then s else RunSave(s.(timer := false, pending := false))
  }

  function DoTimer(s: State): State {
    RunSave(s.(timer := false, pending := false))
  }

  function DoEdit(s: State, p: Payload): State {
    s.(payload := p, version := s.version + 1, timer := s.enabled, pending := s.enabled, discarded := !s.enabled)
  }

  function DoSetEnabled(s: State, on: bool): State {
    s.(enabled := on, timer := on, pending := on, discarded := !on)
  }

  function DoReset(s: State): State
    requires Linked(s) && (s.controller.Some? ==> s.controller.value < |s.saves|)
  {
    s.(timer := false, pending := false, restart := false, deferred := None, controller := None, status := Idle,
       discarded := true,
       deferreds := if s.deferred.None? then s.deferreds
                    else s.deferreds[s.deferred.value := s.deferreds[s.deferred.value].(ticket := Settled(None))],
       saves := if s.controller.None? then s.saves
                else s.saves[s.controller.value := s.saves[s.controller.value].(aborted := true)])
  }

  /** No debounce is left pending, and an explicit payload replaces the tracked one. */
  function Overridden(s: State, override: Option<Payload>): State {
    s.(timer := false, pending := false, discarded := false,
       payload := if override.Some? then override.value else s.payload,
       version := if override.Some? then s.version + 1 else s.version)
  }

  function DoSaveNow(s: State, override: Option<Payload>): (State, Handle)
    requires Linked(s)
  {
    var s1 := Overridden(s, override);
    if s.controller.None? then (Launch(s1), OfSave(|s.saves|))
    else if s.deferred.Some? then
      var d := s.deferred.value;
      (s1.(restart := true, deferreds := s.deferreds[d := s.deferreds[d].(version := s1.version)]), OfDeferred(d))
    else
      (s1.(restart := true, deferred := Some(|s.deferreds|),
           deferreds := s.deferreds + [Deferred(|s.saves|, s1.version, Queued)]), OfDeferred(|s.deferreds|))
  }

  function Resolve(ds: seq<Deferred>, id: nat): (r: seq<Deferred>)
    ensures |r| == |ds|
    ensures forall d :: 0 <= d < |ds| ==>
              r[d] == if ds[d].ticket == Awaiting(id) then ds[d].(ticket := Settled(Some(id))) else ds[d]
  {
    seq(|ds|, d requires 0 <= d < |ds| =>
      if ds[d].ticket == Awaiting(id) then ds[d].(ticket := Settled(Some(id))) else ds[d])
  }

  /** Save id settles: its handler runs, and then its promise. */
  function DoSettle(s: State, id: nat, outcome: Outcome): State
    requires Linked(s) && id < |s.saves|
  {
    var s1 := s.(saves := s.saves[id := s.saves[id].(outcome := outcome)], deferreds := Resolve(s.deferreds, id));
    if s.controller != Some(id) then s1
    else
      var s2 := s1.(controller := None);
      if s.restart then FireQueuedRestart(s2)
      else s2.(status := match outcome
                 case Failed(abortError) => if abortError || s.saves[id].aborted then Idle else Error
                 case _ => Saved)
  }

  // ----- Runs --------------------------------------------------------------

  /** A save settles once; a timer fires only while armed; enabling is a change. */
  predicate Possible(s: State, ev: Event) {
    match ev
    case TimerFires => s.timer
    case SetEnabled(on) => on != s.enabled
    case Settle(id, outcome) => id < |s.saves| && s.saves[id].outcome == Running && outcome != Running
    case _ => true
  }

  function Next(s: State, ev: Event): State
    requires Inv(s) && Possible(s, ev)
  {
    match ev
    case Edit(p) => DoEdit(s, p)
    case SetEnabled(on) => DoSetEnabled(s, on)
    case TimerFires => DoTimer(s)
    case Flush => DoFlush(s)
    case SaveNow(override) => DoSaveNow(s, override).0
    case Reset => DoReset(s)
    case Settle(id, outcome) => DoSettle(s, id, outcome)
  }

  /** Mounting schedules the first payload when enabled. */
  function Mount(enabled: bool, p: Payload): (s: State)
    ensures Inv(s)
  {
    State(enabled, enabled, enabled, p, 1, None, false, None, Idle, [], [], !enabled)
  }

  predicate InFlight(x: Save) {
    x.outcome == Running && !x.aborted
  }

  /** The last save sent the current payload. */
  predicate SentNewest(s: State) {
    s.saves != [] && s.saves[|s.saves| - 1].version == s.version
  }

  /** Only the last launched save can be in flight and not aborted, and it is the
      active one. */
  predicate OneInFlight(s: State) {
    && (s.controller.Some? ==>
          s.saves != [] && s.controller.value == |s.saves| - 1 && InFlight(s.saves[s.controller.value]))
    && (forall i :: 0 <= i < |s.saves| && InFlight(s.saves[i]) ==> s.controller == Some(i))
    && (s.restart ==> s.controller.Some?)
    && (s.status == Saving <==> s.controller.Some?)
    && (s.status == Saved ==> s.saves != [] && s.saves[|s.saves| - 1].outcome == Succeeded)
  }

  /** Payloads go out in the order they were made; nothing unsent is unscheduled. */
  predicate Ordered(s: State) {
    && (forall i, j :: 0 <= i < j < |s.saves| ==> s.saves[i].version <= s.saves[j].version)
    && (forall i :: 0 <= i < |s.saves| ==> s.saves[i].version <= s.version)
    && (SentNewest(s) ==> s.saves[|s.saves| - 1].payload == s.payload)
    && (!s.discarded ==> SentNewest(s) || s.timer || s.restart)
    && s.timer == s.pending && (s.timer ==> s.enabled)
  }

  /** At most one promise is queued; a tied or settled one belongs to a save that
      was launched after it was handed out and sends a payload at least as new. */
  predicate Ticketed(s: State) {
    && (s.deferred.Some? ==> s.restart && s.deferred.value < |s.deferreds|)
    && (forall d :: 0 <= d < |s.deferreds| ==>
          (s.deferreds[d].ticket.Queued? <==> s.deferred == Some(d)) && TicketOk(s, s.deferreds[d]))
  }

  predicate TicketOk(s: State, d: Deferred) {
    d.born <= |s.saves| && d.version <= s.version &&
    match d.ticket
    case Queued => true
    case Awaiting(id) => Serves(s, d, id) && s.saves[id].outcome == Running
    case Settled(after) => after.Some? ==> Serves(s, d, after.value) && s.saves[after.value].outcome != Running
  }

  predicate Serves(s: State, d: Deferred, id: nat) {
    d.born <= id < |s.saves| && s.saves[id].version >= d.version
  }

  predicate Inv(s: State) {
    OneInFlight(s) && Ordered(s) && Ticketed(s)
  }

  // ----- Every event keeps the invariant -----------------------------------

  /** A promise stays in order when saves are only added, and none it is tied to
      settles. */
  lemma TicketKept(s: State, s': State, d: Deferred)
    requires TicketOk(s, d) && s.version <= s'.version && |s.saves| <= |s'.saves|
    requires forall i :: 0 <= i < |s.saves| ==>
               s'.saves[i].version == s.saves[i].version
               && (s.saves[i].outcome != Running ==> s'.saves[i].outcome != Running)
               && (d.ticket == Awaiting(i) ==> s'.saves[i].outcome == s.saves[i].outcome)
    ensures TicketOk(s', d)
  {}

  lemma LaunchKeeps(s: State)
    requires Ordered(s) && s.controller.None? && !s.restart
    requires forall i :: 0 <= i < |s.saves| ==> !InFlight(s.saves[i])
    ensures OneInFlight(Launch(s)) && Ordered(Launch(s))
  {}

  lemma LaunchTickets(s: State)
    requires forall d :: 0 <= d < |s.deferreds| ==> TicketOk(s, s.deferreds[d])
    ensures forall d :: 0 <= d < |s.deferreds| ==> TicketOk(Launch(s), s.deferreds[d])
  {
    hide TicketOk;
    forall d | 0 <= d < |s.deferreds| ensures TicketOk(Launch(s), s.deferreds[d]) {
      TicketKept(s, Launch(s), s.deferreds[d]);
    }
  }

  /** Tickets of a state that differs in nothing they depend on. */
  lemma TicketsSame(s: State, s': State)
    requires forall d :: 0 <= d < |s.deferreds| ==> TicketOk(s, s.deferreds[d])
    requires s'.saves == s.saves && s'.version >= s.version
    ensures forall d :: 0 <= d < |s.deferreds| ==> TicketOk(s', s.deferreds[d])
  {
    hide TicketOk;
    forall d | 0 <= d < |s.deferreds| ensures TicketOk(s', s.deferreds[d]) {
      TicketKept(s, s', s.deferreds[d]);
    }
  }

  lemma QueueKeeps(s: State)
    requires Inv(s) && s.controller.Some?
    ensures Inv(s.(timer := false, pending := false, restart := true))
  {
    hide TicketOk, Serves;
    TicketsSame(s, s.(timer := false, pending := false, restart := true));
  }

  lemma LaunchNowKeeps(s: State)
    requires Inv(s) && s.controller.None?
    ensures Inv(Launch(s.(timer := false, pending := false)))
  {
    hide TicketOk;
    var s1 := s.(timer := false, pending := false, discarded := true);
    TicketsSame(s, s1);
    LaunchTickets(s1);
    LaunchKeeps(s1);
    LaunchClears(s.(timer := false, pending := false));
  }

  /** After a launch nothing is unsent, whatever had been discarded. */
  lemma LaunchClears(s: State)
    requires OneInFlight(Launch(s.(discarded := true))) && Ordered(Launch(s.(discarded := true)))
    requires Ticketed(Launch(s.(discarded := true)))
    ensures Inv(Launch(s))
  {
    hide TicketOk;
    TicketsSame(Launch(s.(discarded := true)), Launch(s));
  }

  /** Cancelling the timer and saving or queueing at once. */
  lemma RunSaveKeeps(s: State)
    requires Inv(s)
    ensures Inv(RunSave(s.(timer := false, pending := false)))
  {
    hide Inv;
    if s.controller.None? {
      LaunchNowKeeps(s);
    } else {
      QueueKeeps(s);
    }
  }

  lemma EditKeeps(s: State, p: Payload)
    requires Inv(s)
    ensures Inv(DoEdit(s, p))
  {
    hide TicketOk;
    forall d | 0 <= d < |s.deferreds| ensures TicketOk(DoEdit(s, p), s.deferreds[d]) {
      TicketKept(s, DoEdit(s, p), s.deferreds[d]);
    }
  }

  lemma SetEnabledKeeps(s: State, on: bool)
    requires Inv(s)
    ensures Inv(DoSetEnabled(s, on))
  {
    hide TicketOk;
    forall d | 0 <= d < |s.deferreds| ensures TicketOk(DoSetEnabled(s, on), s.deferreds[d]) {
      TicketKept(s, DoSetEnabled(s, on), s.deferreds[d]);
    }
  }

  lemma ResetTickets(s: State)
    requires Inv(s)
    ensures Ticketed(DoReset(s))
  {
    var s' := DoReset(s);
    forall d | 0 <= d < |s.deferreds| ensures TicketOk(s', s'.deferreds[d]) {
      TicketKept(s, s', s.deferreds[d]);
    }
  }

  lemma ResetKeeps(s: State)
    requires Inv(s)
    ensures Inv(DoReset(s))
  {
    ResetTickets(s);
    hide TicketOk, Serves;
    var s' := DoReset(s);
    hide Ticketed;
    assert OneInFlight(s') && Ordered(s');
  }

  lemma SaveNowTickets(s: State, override: Option<Payload>)
    requires Inv(s)
    ensures Ticketed(DoSaveNow(s, override).0)
  {
    var s' := DoSaveNow(s, override).0;
    forall d | 0 <= d < |s'.deferreds| ensures TicketOk(s', s'.deferreds[d]) {
      if d < |s.deferreds| {
        TicketKept(s, s', s.deferreds[d]);
      }
    }
  }

  lemma SaveNowOrdered(s: State, override: Option<Payload>)
    requires OneInFlight(s) && Ordered(s) && Linked(s)
    ensures Ordered(DoSaveNow(s, override).0)
  {
    hide TicketOk, Ticketed;
  }

  lemma SaveNowOne(s: State, override: Option<Payload>)
    requires OneInFlight(s) && Linked(s)
    ensures OneInFlight(DoSaveNow(s, override).0)
  {
    hide TicketOk, Ticketed, Ordered;
  }

  lemma SaveNowKeeps(s: State, override: Option<Payload>)
    requires Inv(s)
    ensures Inv(DoSaveNow(s, override).0)
  {
    assert Linked(s);
    SaveNowTickets(s, override);
    SaveNowOrdered(s, override);
    SaveNowOne(s, override);
  }

  /** The first half of a settlement: the outcome and the promises tied to it. */
  lemma ResolveTickets(s: State, id: nat, outcome: Outcome)
    requires Inv(s) && Possible(s, Settle(id, outcome))
    ensures var s1 := s.(saves := s.saves[id := s.saves[id].(outcome := outcome)], deferreds := Resolve(s.deferreds, id));
            forall d :: 0 <= d < |s1.deferreds| ==>
              TicketOk(s1, s1.deferreds[d]) && (s1.deferreds[d].ticket.Queued? <==> s.deferred == Some(d))
  {
    var s1 := s.(saves := s.saves[id := s.saves[id].(outcome := outcome)], deferreds := Resolve(s.deferreds, id));
    forall d | 0 <= d < |s1.deferreds| ensures TicketOk(s1, s1.deferreds[d]) {
      if s.deferreds[d].ticket != Awaiting(id) {
        TicketKept(s, s1, s.deferreds[d]);
      }
    }
  }

  lemma RestartTickets(s: State)
    requires Linked(s)
    requires forall d :: 0 <= d < |s.deferreds| ==>
               TicketOk(s, s.deferreds[d]) && (s.deferreds[d].ticket.Queued? <==> s.deferred == Some(d))
    ensures Ticketed(FireQueuedRestart(s))
  {
    var s' := FireQueuedRestart(s);
    forall d | 0 <= d < |s.deferreds| ensures TicketOk(s', s'.deferreds[d]) {
      if s.deferred != Some(d) {
        TicketKept(s, s', s.deferreds[d]);
      }
    }
  }

  lemma RestartKeeps(s: State)
    requires Ordered(s.(restart := false, discarded := true)) && s.controller.None? && Linked(s)
    requires forall i :: 0 <= i < |s.saves| ==> !InFlight(s.saves[i])
    requires forall d :: 0 <= d < |s.deferreds| ==>
               TicketOk(s, s.deferreds[d]) && (s.deferreds[d].ticket.Queued? <==> s.deferred == Some(d))
    ensures Inv(FireQueuedRestart(s))
  {
    LaunchKeeps(s.(restart := false, discarded := true));
    RestartTickets(s);
    hide TicketOk, Ticketed;
    var s' := FireQueuedRestart(s);
    assert OneInFlight(s') && Ordered(s');
  }

  /** A settlement that launches nothing leaves one save in flight, in order. */
  lemma SettleOrdered(s: State, id: nat, outcome: Outcome)
    requires Inv(s) && Possible(s, Settle(id, outcome)) && (s.controller == Some(id) ==> !s.restart)
    ensures OneInFlight(DoSettle(s, id, outcome)) && Ordered(DoSettle(s, id, outcome))
  {
    hide TicketOk, Ticketed, Resolve;
  }

  /** A settlement that launches nothing: a superseded save, or no restart queued. */
  lemma SettleQuietly(s: State, id: nat, outcome: Outcome)
    requires Inv(s) && Possible(s, Settle(id, outcome)) && (s.controller == Some(id) ==> !s.restart)
    ensures Inv(DoSettle(s, id, outcome))
  {
    ResolveTickets(s, id, outcome);
    SettleOrdered(s, id, outcome);
    hide TicketOk, Serves, OneInFlight, Ordered;
    var s1 := s.(saves := s.saves[id := s.saves[id].(outcome := outcome)], deferreds := Resolve(s.deferreds, id));
    var s' := DoSettle(s, id, outcome);
    TicketsSame(s1, s');
    assert s'.deferreds == s1.deferreds;
  }

  lemma SettleRestarts(s: State, id: nat, outcome: Outcome)
    requires Inv(s) && Possible(s, Settle(id, outcome)) && s.controller == Some(id) && s.restart
    ensures Inv(DoSettle(s, id, outcome))
  {
    ResolveTickets(s, id, outcome);
    hide TicketOk, Serves, FireQueuedRestart;
    var s1 := s.(saves := s.saves[id := s.saves[id].(outcome := outcome)], deferreds := Resolve(s.deferreds, id));
    var s2 := s1.(controller := None);
    TicketsSame(s1, s2);
    RestartKeeps(s2);
  }

  lemma SettleKeeps(s: State, id: nat, outcome: Outcome)
    requires Inv(s) && Possible(s, Settle(id, outcome))
    ensures Inv(DoSettle(s, id, outcome))
  {
    hide Inv, DoSettle, Possible;
    if s.controller == Some(id) && s.restart {
      SettleRestarts(s, id, outcome);
    } else {
      SettleQuietly(s, id, outcome);
    }
  }

  lemma StepKeeps(s: State, ev: Event)
    requires Inv(s) && Possible(s, ev)
    ensures Inv(Next(s, ev))
  {
    hide Inv, DoEdit, DoSetEnabled, DoReset, DoSaveNow, DoSettle, RunSave;
    match ev
    case Edit(p) => EditKeeps(s, p);
    case SetEnabled(on) => SetEnabledKeeps(s, on);
    case TimerFires => RunSaveKeeps(s);
    case Flush => RunSaveKeeps(s);
    case SaveNow(override) => SaveNowKeeps(s, override);
    case Reset => ResetKeeps(s);
    case Settle(id, outcome) => SettleKeeps(s, id, outcome);
  }

  // ----- Whole runs --------------------------------------------------------

  /** A run from a mounted state; impossible events do not happen. */
  function Run(s: State, evs: seq<Event>): (r: State)
    requires Inv(s)
    ensures Inv(r)
  {
    if evs == [] then s
    else
      var r := Run(s, evs[..|evs| - 1]);
      var ev := evs[|evs| - 1];
      if !Possible(r, ev) then r else (StepKeeps(r, ev); Next(r, ev))
  }

  predicate SettledBySave(d: Deferred) {
    d.ticket.Settled? && d.ticket.after.Some?
  }

  /** Nothing is scheduled, queued or in flight. */
  predicate Quiescent(s: State) {
    !s.timer && !s.restart && s.controller.None?
  }

  /** Over every run: one save at a time on the wire, in edit order; once nothing is
      scheduled or in flight after a success, what was last sent succeeded and is
      the newest payload, unless that one was discarded; a coalesced promise settles
      only by a reset or a save launched later with a payload at least as new, and
      none is left pending once every save has settled. */
  lemma AutosaveRuns(enabled: bool, p: Payload, evs: seq<Event>)
    ensures Inv(Mount(enabled, p))
    ensures var s := Run(Mount(enabled, p), evs);
            && (forall i, j :: 0 <= i < |s.saves| && 0 <= j < |s.saves| && InFlight(s.saves[i]) && InFlight(s.saves[j])
                  ==> i == j)
            && (forall i, j :: 0 <= i < j < |s.saves| ==> s.saves[i].version <= s.saves[j].version)
            && (Quiescent(s) && s.status == Saved && !s.discarded ==>
                  s.saves != [] && s.saves[|s.saves| - 1].outcome == Succeeded
                  && s.saves[|s.saves| - 1].payload == s.payload)
            && (forall d :: 0 <= d < |s.deferreds| && SettledBySave(s.deferreds[d]) ==>
                  var k := s.deferreds[d].ticket.after.value;
                  Serves(s, s.deferreds[d], k) && s.saves[k].outcome != Running)
            && (forall d, e :: 0 <= d < e < |s.deferreds| ==>
                  !(s.deferreds[d].ticket.Queued? && s.deferreds[e].ticket.Queued?))
            && ((forall i :: 0 <= i < |s.saves| ==> s.saves[i].outcome != Running) ==>
                  forall d :: 0 <= d < |s.deferreds| ==> s.deferreds[d].ticket.Settled?)
  {
    hide Run;
    var s := Run(Mount(enabled, p), evs);
    assert forall d :: 0 <= d < |s.deferreds| ==> TicketOk(s, s.deferreds[d]);
  }

  /** A superseded save settles without launching or queueing anything. */
  lemma SupersededNeverRestarts(s: State, id: nat, outcome: Outcome)
    requires Inv(s) && Possible(s, Settle(id, outcome)) && s.saves[id].aborted
    ensures var s' := Next(s, Settle(id, outcome));
            && |s'.saves| == |s.saves| && s'.controller == s.controller && s'.restart == s.restart
            && s'.status == s.status && s'.timer == s.timer && s'.deferred == s.deferred
  {
    assert s.controller != Some(id);
  }

  // ----- What a settled promise means --------------------------------------

  /** A payload at least as new as version v has been stored. */
  ghost predicate Stored(s: State, v: nat) {
    exists i :: StoredBy(s, v, i)
  }

  predicate StoredBy(s: State, v: nat, i: int) {
    0 <= i < |s.saves| && s.saves[i].outcome == Succeeded && s.saves[i].version >= v
  }

  /** Settling save id records its outcome and resolves the promises tied to it;
      what it launches changes no older save and no settled promise. */
  lemma SettleShape(s: State, id: nat, outcome: Outcome)
    requires Inv(s) && Possible(s, Settle(id, outcome))
    ensures var s' := Next(s, Settle(id, outcome));
            && |s.saves| <= |s'.saves| <= |s.saves| + 1 && |s'.deferreds| == |s.deferreds|
            && (forall i :: 0 <= i < |s.saves| ==>
                  s'.saves[i] == if i == id then s.saves[i].(outcome := outcome) else s.saves[i])
            && (|s'.saves| > |s.saves| <==> s.controller == Some(id) && s.restart)
            && (|s'.saves| > |s.saves| ==> InFlight(s'.saves[|s.saves|]))
            && (forall d :: 0 <= d < |s.deferreds| && s.deferreds[d].ticket == Awaiting(id) ==>
                  s'.deferreds[d] == s.deferreds[d].(ticket := Settled(Some(id))))
  {
    assert s.controller == Some(id) ==> s.controller.value < |s.saves|;
    hide Ordered, OneInFlight, Ticketed, TicketOk;
  }

  /** When the save that a promise waits for settles, so does the promise, and then
      its payload, or a newer one, is stored exactly when that save succeeded or one
      was stored already: by an earlier save, or, if a reset aborted this one, by a
      later save that was faster. */
  lemma SettledIsStoredIff(s: State, d: nat, id: nat, outcome: Outcome)
    requires Inv(s) && Possible(s, Settle(id, outcome))
    requires d < |s.deferreds| && s.deferreds[d].ticket == Awaiting(id)
    ensures var s', v := Next(s, Settle(id, outcome)), s.deferreds[d].version;
            && d < |s'.deferreds| && s'.deferreds[d].ticket == Settled(Some(id))
            && (Stored(s', v) <==> outcome == Succeeded || Stored(s, v))
    ensures forall i :: StoredBy(s, s.deferreds[d].version, i) ==> i < id || (i > id && s.saves[id].aborted)
  {
    SettleShape(s, id, outcome);
    assert TicketOk(s, s.deferreds[d]);
    var s', v := Next(s, Settle(id, outcome)), s.deferreds[d].version;
    hide Next, Inv, Possible, TicketOk;
    if outcome == Succeeded {
      assert StoredBy(s', v, id);
    }
    if i :| StoredBy(s, v, i) {
      assert StoredBy(s', v, i);
    }
    if i :| StoredBy(s', v, i) {
      assert i == id || StoredBy(s, v, i);
    }
  }

  /** Over every run: a promise that a save settles does so on that save's
      settlement, and then says that its payload is stored exactly when that save
      succeeded or the payload was stored before. */
  lemma PromiseMeans(enabled: bool, p: Payload, evs: seq<Event>, ev: Event, d: nat)
    requires var s, s' := Run(Mount(enabled, p), evs), Run(Mount(enabled, p), evs + [ev]);
             d < |s.deferreds| && d < |s'.deferreds| && !SettledBySave(s.deferreds[d]) && SettledBySave(s'.deferreds[d])
    ensures var s, s' := Run(Mount(enabled, p), evs), Run(Mount(enabled, p), evs + [ev]);
            && ev.Settle? && s.deferreds[d].ticket == Awaiting(ev.save)
            && s'.deferreds[d] == s.deferreds[d].(ticket := Settled(Some(ev.save)))
            && (Stored(s', s.deferreds[d].version) <==> ev.outcome == Succeeded || Stored(s, s.deferreds[d].version))
  {
    var m := Mount(enabled, p);
    var s := Run(m, evs);
    RunStep(m, evs, ev);
    hide Run, Inv, Stored;
    SettlesOnSettle(s, ev, d);
    SettleShape(s, ev.save, ev.outcome);
    SettledIsStoredIff(s, d, ev.save, ev.outcome);
  }

  lemma SettlesOnSettle(s: State, ev: Event, d: nat)
    requires Inv(s) && Possible(s, ev) && d < |s.deferreds| && d < |Next(s, ev).deferreds|
    requires !SettledBySave(s.deferreds[d]) && SettledBySave(Next(s, ev).deferreds[d])
    ensures ev.Settle? && s.deferreds[d].ticket == Awaiting(ev.save)
  {
    hide Ordered, OneInFlight, TicketOk, Serves;
  }

  /** It never waits for a restart queued behind that save: the newer payload is then
      still on its way when the promise settles. */
  lemma NeverChains(s: State, d: nat, id: nat, outcome: Outcome)
    requires Inv(s) && Possible(s, Settle(id, outcome)) && s.controller == Some(id) && s.restart
    requires d < |s.deferreds| && s.deferreds[d].ticket == Awaiting(id)
    ensures var s' := Next(s, Settle(id, outcome));
            && d < |s'.deferreds| && s'.deferreds[d].ticket == Settled(Some(id))
            && |s'.saves| == |s.saves| + 1 && InFlight(s'.saves[|s.saves|])
  {
    SettleShape(s, id, outcome);
  }

  // ----- Two runs ----------------------------------------------------------

  /** A hook without autosave, saved by hand twice while the first save runs. */
  function TwoManualSaves(): State {
    State(false, false, false, 2, 2, Some(0), true, Some(0), Saving, [Save(1, 1, false, Running)],
          [Deferred(1, 2, Queued)], false)
  }

  function SecondInFlight(): State {
    State(false, false, false, 2, 2, Some(1), false, None, Saving,
          [Save(1, 1, false, Succeeded), Save(2, 2, false, Running)], [Deferred(1, 2, Awaiting(1))], false)
  }

  /** A third save by hand is queued behind the second. */
  function ThirdQueued(): State {
    State(false, false, false, 3, 3, Some(1), true, Some(1), Saving,
          [Save(1, 1, false, Succeeded), Save(2, 2, false, Running)],
          [Deferred(1, 2, Awaiting(1)), Deferred(2, 3, Queued)], false)
  }

  lemma ReachesTwoManualSaves()
    ensures Linked(DoSaveNow(Mount(false, 1), None).0)
    ensures DoSaveNow(DoSaveNow(Mount(false, 1), None).0, Some(2)).0 == TwoManualSaves()
  {}

  lemma ReachesSecondInFlight()
    ensures DoSettle(TwoManualSaves(), 0, Succeeded) == SecondInFlight()
  {
    assert Resolve([Deferred(1, 2, Queued)], 0) == [Deferred(1, 2, Queued)];
  }

  lemma ReachesThirdQueued()
    ensures DoSaveNow(SecondInFlight(), Some(3)).0 == ThirdQueued()
  {}

  lemma OneManualSave()
    ensures Inv(Mount(false, 1))
    ensures Run(Mount(false, 1), [SaveNow(None)]) == DoSaveNow(Mount(false, 1), None).0
  {
    hide Run, Inv, DoSaveNow;
    assert [] + [SaveNow(None)] == [SaveNow(None)];
    RunStep(Mount(false, 1), [], SaveNow(None));
  }

  lemma RunReachesTwo()
    ensures Inv(Mount(false, 1))
    ensures Run(Mount(false, 1), [SaveNow(None), SaveNow(Some(2))]) == TwoManualSaves()
  {
    OneManualSave();
    ReachesTwoManualSaves();
    hide Run, Inv, DoSaveNow;
    assert [SaveNow(None)] + [SaveNow(Some(2))] == [SaveNow(None), SaveNow(Some(2))];
    RunStep(Mount(false, 1), [SaveNow(None)], SaveNow(Some(2)));
  }

  lemma RunReachesSecond()
    ensures Inv(Mount(false, 1))
    ensures Run(Mount(false, 1), [SaveNow(None), SaveNow(Some(2)), Settle(0, Succeeded)]) == SecondInFlight()
  {
    RunReachesTwo();
    ReachesSecondInFlight();
    hide Run, Inv, DoSettle;
    var evs := [SaveNow(None), SaveNow(Some(2))];
    assert evs + [Settle(0, Succeeded)] == [SaveNow(None), SaveNow(Some(2)), Settle(0, Succeeded)];
    RunStep(Mount(false, 1), evs, Settle(0, Succeeded));
  }

  /** A coalesced promise can settle although the save that carried its payload
      failed: it says that the save is over, not that the payload is stored. */
  lemma SettledIsNotStored()
    ensures Inv(Mount(false, 1))
    ensures var s := Run(Mount(false, 1), [SaveNow(None), SaveNow(Some(2)), Settle(0, Succeeded),
                                           Settle(1, Failed(false))]);
            && s.deferreds == [Deferred(1, 2, Settled(Some(1)))]
            && s.saves == [Save(1, 1, false, Succeeded), Save(2, 2, false, Failed(false))]
  {
    RunReachesSecond();
    LastSettles();
    hide Run, Inv, DoSettle;
    var evs := [SaveNow(None), SaveNow(Some(2)), Settle(0, Succeeded)];
    var ev := Settle(1, Failed(false));
    assert evs + [ev] == [SaveNow(None), SaveNow(Some(2)), Settle(0, Succeeded), ev];
    RunStep(Mount(false, 1), evs, ev);
  }

  lemma LastSettles()
    ensures var s := DoSettle(SecondInFlight(), 1, Failed(false));
            && s.deferreds == [Deferred(1, 2, Settled(Some(1)))]
            && s.saves == [Save(1, 1, false, Succeeded), Save(2, 2, false, Failed(false))]
  {}

  lemma RunReachesThird()
    ensures Inv(Mount(false, 1))
    ensures Run(Mount(false, 1), [SaveNow(None), SaveNow(Some(2)), Settle(0, Succeeded), SaveNow(Some(3))])
            == ThirdQueued()
  {
    RunReachesSecond();
    ReachesThirdQueued();
    hide Run, Inv, DoSaveNow;
    var evs := [SaveNow(None), SaveNow(Some(2)), Settle(0, Succeeded)];
    assert evs + [SaveNow(Some(3))] == [SaveNow(None), SaveNow(Some(2)), Settle(0, Succeeded), SaveNow(Some(3))];
    RunStep(Mount(false, 1), evs, SaveNow(Some(3)));
  }

  /** A promise settles with its own save while the restart queued behind that save
      has only just been launched. */
  lemma SettlesBeforeRestart()
    ensures Inv(Mount(false, 1))
    ensures var s := Run(Mount(false, 1), [SaveNow(None), SaveNow(Some(2)), Settle(0, Succeeded), SaveNow(Some(3)),
                                           Settle(1, Succeeded)]);
            && s.deferreds == [Deferred(1, 2, Settled(Some(1))), Deferred(2, 3, Awaiting(2))]
            && |s.saves| == 3 && s.saves[2] == Save(3, 3, false, Running)
  {
    RunReachesThird();
    ThirdLaunches();
    hide Run, Inv, DoSettle;
    var evs := [SaveNow(None), SaveNow(Some(2)), Settle(0, Succeeded), SaveNow(Some(3))];
    var ev := Settle(1, Succeeded);
    assert evs + [ev] == [SaveNow(None), SaveNow(Some(2)), Settle(0, Succeeded), SaveNow(Some(3)), ev];
    RunStep(Mount(false, 1), evs, ev);
  }

  lemma ThirdLaunches()
    ensures var s := DoSettle(ThirdQueued(), 1, Succeeded);
            && s.deferreds == [Deferred(1, 2, Settled(Some(1))), Deferred(2, 3, Awaiting(2))]
            && |s.saves| == 3 && s.saves[2] == Save(3, 3, false, Running)
  {
    assert Resolve([Deferred(1, 2, Awaiting(1)), Deferred(2, 3, Queued)], 1)
        == [Deferred(1, 2, Settled(Some(1))), Deferred(2, 3, Queued)];
  }

  // ----- What a flush and a settlement do ----------------------------------

  /** The newest payload is in flight as save number |s.saves|. */
  predicate Sends(s: State, s': State) {
    && s'.saves == s.saves + [Save(s.payload, s.version, false, Running)]
    && s'.controller == Some(|s.saves|) && s'.status == Saving && !s'.restart
  }

  /** What is scheduled is saved by a flush as by its timer: at once if nothing is in
      flight, and otherwise queued behind it. With nothing scheduled a flush does
      nothing. */
  lemma FlushSaves(s: State)
    requires Inv(s)
    ensures !s.timer ==> Next(s, Flush) == s
    ensures s.timer ==>
              var s' := Next(s, Flush);
              && Next(s, TimerFires) == s' && !s'.timer && !s'.pending
              && (s.controller.None? ==> Sends(s, s'))
              && (s.controller.Some? ==> s'.restart && s'.saves == s.saves && s'.controller == s.controller)
  {
    hide Ticketed, Ordered;
  }

  /** When the active save settles, a queued restart sends the newest payload; else
      the status tells a success, a failure and an abort apart. */
  lemma SettleShows(s: State, id: nat, outcome: Outcome)
    requires Inv(s) && Possible(s, Settle(id, outcome)) && s.controller == Some(id)
    ensures var s' := Next(s, Settle(id, outcome));
            if s.restart then |s'.saves| == |s.saves| + 1 && Sends(s.(saves := s'.saves[..|s.saves|]), s')
            else && s'.controller == None && |s'.saves| == |s.saves|
                 && (s'.status == Saved <==> outcome == Succeeded)
                 && (s'.status == Error <==> outcome == Failed(false))
                 && (s'.status == Idle <==> outcome == Failed(true))
  {
    hide Ordered, TicketOk, Resolve;
  }

  lemma RunStep(s: State, evs: seq<Event>, ev: Event)
    requires Inv(s)
    ensures evs == [] ==> Run(s, evs) == s
    ensures Inv(Run(s, evs)) && Run(s, evs + [ev]) ==
            if Possible(Run(s, evs), ev) then Next(Run(s, evs), ev) else Run(s, evs)
  {
    assert (evs + [ev])[..|evs|] == evs;
  }

  // ----- The hook ----------------------------------------------------------

  /** The refs as fields; `saves`, `deferreds`, `version` and `discarded` record
      what the callbacks have handed to the outside. */
  class Hook {
    var enabled: bool
    var timer: bool
    var pending: bool
    var payload: Payload
    var controller: Option<nat>
    var restart: bool
    var deferred: Option<nat>
    var status: Status
    var saves: seq<Save>
    var deferreds: seq<Deferred>
    var version: nat
    ghost var discarded: bool

    ghost function View(): State
      reads this
    {
      State(enabled, timer, pending, payload, version, controller, restart, deferred, status, saves, deferreds, discarded)
    }

    constructor (enabled: bool, p: Payload)
      ensures View() == Mount(enabled, p) && Inv(View())
    {
      this.enabled, timer, pending, payload := enabled, enabled, enabled, p;
      controller, restart, deferred, status, saves, deferreds := None, false, None, Idle, [], [];
      version, discarded := 1, !enabled;
    }

    method LaunchSave() returns (save: nat)
      modifies this
      ensures View() == Launch(old(View())) && save == |old(saves)|
    {
      save := |saves|;
      controller := Some(save);
      status := Saving;
      saves := saves + [Save(payload, version, false, Running)];
    }

    method RunOrQueue()
      modifies this
      ensures View() == RunSave(old(View()))
    {
      if controller.Some? {
        restart := true;
        return;
      }
      var save := LaunchSave();
    }

    method RestartQueued()
      requires Linked(View())
      modifies this
      ensures View() == FireQueuedRestart(old(View()))
    {
      restart := false;
      var save := LaunchSave();
      if deferred.Some? {
        var d := deferred.value;
        deferred := None;
        deferreds := deferreds[d := deferreds[d].(ticket := Awaiting(save))];
      }
    }

    method OnSettle(id: nat, outcome: Outcome)
      requires Inv(View()) && Possible(View(), Settle(id, outcome))
      modifies this
      ensures View() == Next(old(View()), Settle(id, outcome)) && Inv(View())
    {
      StepKeeps(View(), Settle(id, outcome));
      assert Linked(View()) && id < |saves|;
      hide Inv, DoSettle;
      SettleHandler(id, outcome);
    }

    /** The then and catch handlers of save id. */
    method SettleHandler(id: nat, outcome: Outcome)
      requires Linked(View()) && id < |saves|
      modifies this
      ensures View() == DoSettle(old(View()), id, outcome)
    {
      hide Resolve, FireQueuedRestart;
      saves := saves[id := saves[id].(outcome := outcome)];
      deferreds := Resolve(deferreds, id);
      if controller == Some(id) {
        controller := None;
        if restart {
          RestartQueued();
        } else if outcome.Failed? {
          status := if outcome.abortError || saves[id].aborted then Idle else Error;
        } else {
          status := Saved;
        }
      }
    }

    method OnReset()
      requires Inv(View())
      modifies this
      ensures View() == Next(old(View()), Reset) && Inv(View())
    {
      StepKeeps(View(), Reset);
      assert Linked(View());
      hide Inv, DoReset;
      Clear();
    }

    method Clear()
      requires Linked(View()) && (controller.Some? ==> controller.value < |saves|)
      modifies this
      ensures View() == DoReset(old(View()))
    {
      timer, pending, restart := false, false, false;
      DiscardQueued();
      AbortActive();
      status := Idle;
      discarded := true;
    }

    method DiscardQueued()
      requires Linked(View())
      modifies this`deferred, this`deferreds
      ensures deferred == None
      ensures deferreds == if old(deferred).None? then old(deferreds)
                           else old(deferreds)[old(deferred).value :=
                             old(deferreds)[old(deferred).value].(ticket := Settled(None))]
    {
      if deferred.Some? {
        var d := deferred.value;
        deferred := None;
        deferreds := deferreds[d := deferreds[d].(ticket := Settled(None))];
      }
    }

    method AbortActive()
      requires controller.Some? ==> controller.value < |saves|
      modifies this`controller, this`saves
      ensures controller == None
      ensures saves == if old(controller).None? then old(saves)
                       else old(saves)[old(controller).value := old(saves)[old(controller).value].(aborted := true)]
    {
      if controller.Some? {
        var c := controller.value;
        controller := None;
        saves := saves[c := saves[c].(aborted := true)];
      }
    }

    method OnFlush()
      requires Inv(View())
      modifies this
      ensures View() == Next(old(View()), Flush) && Inv(View())
    {
      StepKeeps(View(), Flush);
      if !timer {
        return;
      }
      timer, pending := false, false;
      RunOrQueue();
    }

    method OnTimer()
      requires Inv(View()) && timer
      modifies this
      ensures View() == Next(old(View()), TimerFires) && Inv(View())
    {
      StepKeeps(View(), TimerFires);
      timer, pending := false, false;
      RunOrQueue();
    }

    /** Queue a restart and share or create the promise that is tied to it. */
    method Coalesce() returns (d: nat)
      requires Linked(View())
      modifies this`restart, this`deferred, this`deferreds
      ensures restart && deferred == Some(d)
      ensures old(deferred).Some? ==>
                old(deferred) == Some(d) && deferreds == old(deferreds)[d := old(deferreds)[d].(version := version)]
      ensures old(deferred).None? ==>
                d == |old(deferreds)| && deferreds == old(deferreds) + [Deferred(|saves|, version, Queued)]
    {
      restart := true;
      if deferred.None? {
        deferred := Some(|deferreds|);
        deferreds := deferreds + [Deferred(|saves|, version, Queued)];
      } else {
        deferreds := deferreds[deferred.value := deferreds[deferred.value].(version := version)];
      }
      d := deferred.value;
    }

    method OnSaveNow(override: Option<Payload>) returns (handle: Handle)
      requires Inv(View())
      modifies this
      ensures View() == Next(old(View()), SaveNow(override)) && Inv(View())
      ensures handle == DoSaveNow(old(View()), override).1
    {
      ghost var s := View();
      StepKeeps(s, SaveNow(override));
      assert Linked(s);
      hide Inv, Launch, Overridden;
      Override(override);
      if controller.Some? {
        var d := Coalesce();
        return OfDeferred(d);
      }
      var save := LaunchSave();
      handle := OfSave(save);
    }

    method Override(override: Option<Payload>)
      modifies this
      ensures View() == Overridden(old(View()), override)
      ensures unchanged(`controller) && unchanged(`deferred) && unchanged(`deferreds) && unchanged(`saves)
    {
      timer, pending, discarded := false, false, false;
      if override.Some? {
        payload := override.value;
        version := version + 1;
      }
    }

    /** The payload effect, then the scheduling effect. */
    method OnEdit(p: Payload)
      requires Inv(View())
      modifies this
      ensures View() == Next(old(View()), Edit(p)) && Inv(View())
    {
      StepKeeps(View(), Edit(p));
      payload := p;
      version := version + 1;
      Schedule();
    }

    method OnSetEnabled(on: bool)
      requires Inv(View()) && on != enabled
      modifies this
      ensures View() == Next(old(View()), SetEnabled(on)) && Inv(View())
    {
      StepKeeps(View(), SetEnabled(on));
      enabled := on;
      Schedule();
    }

    method Schedule()
      modifies this
      ensures View() == old(View()).(timer := old(enabled), pending := old(enabled), discarded := !old(enabled))
    {
      if !enabled {
        timer, pending, discarded := false, false, true;
        return;
      }
      timer, pending, discarded := true, true, false;
    }
  }
}
