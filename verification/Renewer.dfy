/**
 The runtime sidecar's event loop. Its local deadline is anchored at the start of
 the last confirmed call, and the workload's gate is the health marker: present
 while the workload may run. Straight-line code between two clock reads is taken
 to happen at one instant, and calls to the enforcer to succeed.
 */
module Renewers {
  import opened Wrappers
  import opened LeaseRecord

  const MAX_TTL: Time := MAX_TOKEN * SECOND

  /** What a lease call looked like to the sidecar. */
  datatype Rpc = Conflict | Error | Reply(acquired: bool, token: int)

  datatype Sidecar = Sidecar(
    holder: string, ttl: Time, heartbeat: Time,
    held: bool, token: int, expiresAt: Option<Time>,
    marker: Option<Time>)  // modification time of the health marker
  {
    predicate Configured() { holder != "" && 0 < heartbeat < ttl <= MAX_TTL }

    function Lose(): Sidecar { this.(held := false, marker := None) }

    predicate PastDeadline(now: Time) { expiresAt.Some? && now >= expiresAt.value }

    /** A call may last one heartbeat, or less when the confirmed lifetime ends earlier. */
    function RpcDeadline(now: Time): Time {
      if held && expiresAt.Some? && expiresAt.value < now + heartbeat then expiresAt.value else now + heartbeat
    }

    /** A success counts only while it still proves ownership. */
    predicate Late(started: Time, done: bool, now: Time) { done || now >= started + ttl }

    function Confirm(started: Time, granted: int, now: Time): Sidecar {
      this.(token := granted, expiresAt := Some(started + ttl), marker := Some(now))
    }

    function AfterRenew(started: Time, rpc: Rpc, done: bool, now: Time): Sidecar {
      match rpc
      case Conflict => Lose()
      case Error => if expiresAt.None? || now >= expiresAt.value then Lose() else this
      case Reply(acquired, t) =>
        if !acquired || Late(started, done, now) || PastDeadline(now) then Lose()
        else Confirm(started, t, now)
    }

    function AfterReacquire(started: Time, rpc: Rpc, done: bool, now: Time): Sidecar {
      match rpc
      case Reply(true, t) => if Late(started, done, now) then this else Confirm(started, t, now).(held := true)
      case _ => this
    }

    /** A restarted sidecar trusts the stored token but no remaining lifetime, and gates first. */
    function Handoff(storedHolder: Option<string>, storedToken: Option<int>): Sidecar {
      if storedHolder == Some(holder) && storedToken.Some? && storedToken.value > 0
      then this.(held := true, token := storedToken.value, expiresAt := None, marker := None)
      else this.(held := false, token := 0, expiresAt := None, marker := None)
    }
  }

  /** The loop's methods, each proved to do what the value-level description above says. */
  class Renewer {
    const holder: string
    const ttl: Time
    const heartbeat: Time
    var held: bool
    var token: int
    var expiresAt: Option<Time>
    var marker: Option<Time>

    function View(): Sidecar
      reads this
    {
      Sidecar(holder, ttl, heartbeat, held, token, expiresAt, marker)
    }

    constructor (holder: string, ttl: Time, heartbeat: Time, marker: Option<Time>)
      ensures View() == Sidecar(holder, ttl, heartbeat, false, 0, None, marker)
    {
      this.holder, this.ttl, this.heartbeat := holder, ttl, heartbeat;
      this.held, this.token, this.expiresAt, this.marker := false, 0, None, marker;
    }

    /** loadHandoff and the Hold that opens Run. */
    method Begin(storedHolder: Option<string>, storedToken: Option<int>)
      modifies this
      ensures View() == old(View()).Handoff(storedHolder, storedToken)
      ensures marker.None? && expiresAt.None?
      ensures held <==> storedHolder == Some(holder) && storedToken.Some? && storedToken.value > 0
      ensures token == if held then storedToken.value else 0
    {
      token, held, expiresAt := 0, false, None;
      if storedHolder.Some? && storedToken.Some? && storedHolder.value == holder && storedToken.value > 0 {
        token, held := storedToken.value, true;
      }
      marker := None;
    }

    method Lose()
      modifies this
      ensures View() == old(View()).Lose()
      ensures !held && marker.None? && token == old(token) && expiresAt == old(expiresAt)
    {
      held := false;
      marker := None;
    }

    /** The call starts at `started` and its answer is seen at `now`; done says the call's context had ended. */
    method TickHeld(started: Time, rpc: Rpc, done: bool, now: Time)
      modifies this
      ensures View() == if old(View()).PastDeadline(started) then old(View()).Lose()
                        else old(View()).AfterRenew(started, rpc, done, now)
      ensures var inTime := old(expiresAt.Some?) ==> started < old(expiresAt).value && now < old(expiresAt).value;
              if rpc.Reply? && rpc.acquired && !done && now < started + ttl && inTime then
                && held == old(held) && token == rpc.token && expiresAt == Some(started + ttl) && marker == Some(now)
              else if rpc.Error? && old(expiresAt.Some?) && inTime then
                && held == old(held) && token == old(token) && expiresAt == old(expiresAt) && marker == old(marker)
              else
                && !held && marker.None? && token == old(token) && expiresAt == old(expiresAt)
    {
      if expiresAt.Some? && started >= expiresAt.value {
        Lose();
        return;
      }
      match rpc
      case Conflict => Lose();
      case Error =>
        if expiresAt.None? || now >= expiresAt.value {
          Lose();
        }
      case Reply(acquired, t) =>
        if !acquired {
          Lose();
        } else if done || now >= started + ttl || (expiresAt.Some? && now >= expiresAt.value) {
          Lose();
        } else {
          token := t;
          expiresAt := Some(started + ttl);
          marker := Some(now);
        }
    }

    method TickReacquire(started: Time, rpc: Rpc, done: bool, now: Time)
      modifies this
      ensures View() == old(View()).(marker := None).AfterReacquire(started, rpc, done, now)
      ensures if rpc.Reply? && rpc.acquired && !done && now < started + ttl then
                held && token == rpc.token && expiresAt == Some(started + ttl) && marker == Some(now)
              else
                held == old(held) && token == old(token) && expiresAt == old(expiresAt) && marker.None?
    {
      marker := None;
      match rpc
      case Conflict =>
      case Error =>
      case Reply(acquired, t) =>
        if acquired {
          if !(done || now >= started + ttl) {
            token := t;
            expiresAt := Some(started + ttl);
            held := true;
            marker := Some(now);
          }
        }
    }
  }

  // ---------- Time to live on the wire ----------

  /** The client sends whole seconds, truncated toward zero. */
  function WireTtl(ttl: Time): Time {
    (if ttl >= 0 then ttl / SECOND else -(-ttl / SECOND)) * SECOND
  }

  /** A grant the server computes at `now` for a call begun at `started` outlasts the caller's deadline. */
  predicate Outlasts(ttl: Time, started: Time, now: Time) {
    now + WireTtl(ttl) >= started + ttl
  }

  /** Every grant does so exactly when the configured time to live is a number of whole seconds. */
  lemma DeadlineCoveredIffWholeSeconds(ttl: Time)
    requires 0 < ttl <= MAX_TTL
    ensures (forall started: Time, now: Time :: started <= now ==> Outlasts(ttl, started, now)) <==> ttl % SECOND == 0
  {
    assert ttl == ttl / SECOND * SECOND + ttl % SECOND;
    if ttl % SECOND != 0 {
      assert !Outlasts(ttl, 0, 0);
    }
  }

  // ---------- The probe ----------

  datatype Verdict = Healthy | Absent | Stale

  /** The bound is inclusive; a non-positive bound asks for presence only. */
  function MarkerVerdict(marker: Option<Time>, observed: Time, maxAge: Time): Verdict {
    if marker.None? then Absent
    else if maxAge <= 0 then Healthy
    else if observed - marker.value > maxAge then Stale
    else Healthy
  }
}
