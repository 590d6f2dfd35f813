/** Single-use tokens with a lifetime: pending sign-ins by state, and handoff codes. */
module SingleUse {
  import opened Workflow

  type Time = int

  datatype Entry<V> = Entry(value: V, createdAt: Time)

  type Store<V> = map<string, Entry<V>>

  /** Entries whose age has reached the lifetime are dropped; every operation starts with this. */
  function Sweep<V>(m: Store<V>, ttl: Time, now: Time): Store<V> {
    map k | k in m && now - m[k].createdAt < ttl :: m[k]
  }

  function Insert<V>(m: Store<V>, ttl: Time, token: string, value: V, sweptAt: Time, now: Time): Store<V> {
    Sweep(m, ttl, sweptAt)[token := Entry(value, now)]
  }

  function Remove<V>(m: Store<V>, ttl: Time, token: string, now: Time): Store<V> {
    Sweep(m, ttl, now) - {token}
  }

  function Taken<V>(m: Store<V>, ttl: Time, token: string, now: Time): Option<V> {
    var swept := Sweep(m, ttl, now);
    if token in swept then Some(swept[token].value) else None
  }

  // ---------- runs, with everything that ever happened remembered ----------

  datatype Use<V> = Use(token: string, value: V, at: Time)

  datatype History<V> = History(store: Store<V>, clock: Time, issued: Store<V>, uses: seq<Use<V>>)

  /** `Issue` carries a fresh random token and the two clock readings the code makes. */
  datatype Event<V> = Issue(token: string, value: V, sweptAt: Time, now: Time) | Take(token: string, now: Time)

  ghost predicate Possible<V>(h: History<V>, e: Event<V>) {
    match e
    case Issue(token, _, sweptAt, now) => token !in h.issued && h.clock <= sweptAt <= now
    case Take(_, now) => h.clock <= now
  }

  function After<V>(h: History<V>, ttl: Time, e: Event<V>): History<V> {
    match e
    case Issue(token, value, sweptAt, now) =>
      History(Insert(h.store, ttl, token, value, sweptAt, now), now, h.issued[token := Entry(value, now)], h.uses)
    case Take(token, now) =>
      var got := Taken(h.store, ttl, token, now);
      History(Remove(h.store, ttl, token, now), now, h.issued,
              if got.Some? then h.uses + [Use(token, got.value, now)] else h.uses)
  }

  ghost predicate PossibleRun<V>(h: History<V>, ttl: Time, events: seq<Event<V>>)
    decreases |events|
  {
    events == [] || (Possible(h, events[0]) && PossibleRun(After(h, ttl, events[0]), ttl, events[1..]))
  }

  function AfterRun<V>(h: History<V>, ttl: Time, events: seq<Event<V>>): History<V>
    decreases |events|
  {
    if events == [] then h else AfterRun(After(h, ttl, events[0]), ttl, events[1..])
  }

  ghost predicate WasUsed<V>(h: History<V>, token: string) {
    exists i :: 0 <= i < |h.uses| && h.uses[i].token == token
  }

  ghost predicate UseRight<V>(h: History<V>, ttl: Time, u: Use<V>) {
    && u.token in h.issued && u.value == h.issued[u.token].value
    && h.issued[u.token].createdAt <= u.at <= h.clock && u.at - h.issued[u.token].createdAt < ttl
  }

  /** The store holds exactly the issued, unused tokens, save that expired ones may have been swept. */
  ghost predicate Consistent<V>(h: History<V>, ttl: Time) {
    && (forall k :: k in h.store ==> k in h.issued && h.store[k] == h.issued[k] && !WasUsed(h, k))
    && (forall k :: k in h.issued ==> h.issued[k].createdAt <= h.clock)
    && (forall k :: k in h.issued && !WasUsed(h, k) && h.clock - h.issued[k].createdAt < ttl ==> k in h.store)
    && (forall i :: 0 <= i < |h.uses| ==> UseRight(h, ttl, h.uses[i]))
    && (forall i, j :: 0 <= i < j < |h.uses| ==> h.uses[i].token != h.uses[j].token)
  }

  lemma IssueKeeps<V>(h: History<V>, ttl: Time, token: string, value: V, sweptAt: Time, now: Time)
    requires Consistent(h, ttl) && Possible(h, Issue(token, value, sweptAt, now))
    ensures Consistent(After(h, ttl, Issue(token, value, sweptAt, now)), ttl)
  {
    var h' := After(h, ttl, Issue(token, value, sweptAt, now));
    assert forall k :: WasUsed(h', k) <==> WasUsed(h, k);
    forall i | 0 <= i < |h'.uses| ensures UseRight(h', ttl, h'.uses[i]) {
      assert UseRight(h, ttl, h.uses[i]);
    }
    assert !WasUsed(h, token) by {
      forall i | 0 <= i < |h.uses| ensures h.uses[i].token != token {
        assert UseRight(h, ttl, h.uses[i]);
      }
    }
  }

  lemma TakeUses<V>(h: History<V>, ttl: Time, token: string, now: Time)
    ensures var h' := After(h, ttl, Take(token, now));
            forall k :: WasUsed(h', k) <==> WasUsed(h, k) || (Taken(h.store, ttl, token, now).Some? && k == token)
  {
    var h' := After(h, ttl, Take(token, now));
    if Taken(h.store, ttl, token, now).Some? {
      assert h'.uses[|h.uses|].token == token;
      forall k | WasUsed(h, k) ensures WasUsed(h', k) {
        var i :| 0 <= i < |h.uses| && h.uses[i].token == k;
        assert h'.uses[i].token == k;
      }
    }
  }

  lemma TakeKeeps<V>(h: History<V>, ttl: Time, token: string, now: Time)
    requires Consistent(h, ttl) && h.clock <= now
    ensures Consistent(After(h, ttl, Take(token, now)), ttl)
  {
    var h' := After(h, ttl, Take(token, now));
    TakeUses(h, ttl, token, now);
    forall i | 0 <= i < |h'.uses| ensures UseRight(h', ttl, h'.uses[i]) {
      if i < |h.uses| {
        assert UseRight(h, ttl, h.uses[i]);
      }
    }
    forall i, j | 0 <= i < j < |h'.uses| ensures h'.uses[i].token != h'.uses[j].token {
      if j == |h.uses| {
        assert !WasUsed(h, token);
        assert h.uses[i] == h'.uses[i];
      }
    }
  }

  lemma {:induction false} RunKeeps<V>(h: History<V>, ttl: Time, events: seq<Event<V>>)
    requires Consistent(h, ttl) && PossibleRun(h, ttl, events)
    ensures Consistent(AfterRun(h, ttl, events), ttl)
    decreases |events|
  {
    if events != [] {
      match events[0] {
        case Issue(token, value, sweptAt, now) => IssueKeeps(h, ttl, token, value, sweptAt, now);
        case Take(token, now) => TakeKeeps(h, ttl, token, now);
      }
      RunKeeps(After(h, ttl, events[0]), ttl, events[1..]);
    }
  }

  ghost predicate Fresh<V>(h: History<V>) {
    h.store == map[] && h.issued == map[] && h.uses == []
  }

  /** In any run no token is used twice, and each use yields the value the token was issued for, within its lifetime. */
  lemma UsedOnceInTime<V>(h: History<V>, ttl: Time, events: seq<Event<V>>)
    requires Fresh(h) && PossibleRun(h, ttl, events)
    ensures var end := AfterRun(h, ttl, events);
            && (forall i, j :: 0 <= i < j < |end.uses| ==> end.uses[i].token != end.uses[j].token)
            && (forall i :: 0 <= i < |end.uses| ==> UseRight(end, ttl, end.uses[i]))
  {
    RunKeeps(h, ttl, events);
  }

  /** When taking a token succeeds, exactly: it was issued, is younger than its lifetime, and was never used. */
  lemma TakeSucceedsIff<V>(h: History<V>, ttl: Time, events: seq<Event<V>>, token: string, now: Time)
    requires Fresh(h) && PossibleRun(h, ttl, events) && AfterRun(h, ttl, events).clock <= now
    ensures var end := AfterRun(h, ttl, events);
            && (Taken(end.store, ttl, token, now).Some? <==>
                  token in end.issued && now - end.issued[token].createdAt < ttl && !WasUsed(end, token))
            && (Taken(end.store, ttl, token, now).Some? ==>
                  token in end.issued && Taken(end.store, ttl, token, now).value == end.issued[token].value)
  {
    RunKeeps(h, ttl, events);
  }

  /** Nothing lingers: what any operation leaves was young enough when it looked, and only the taken token goes early. */
  lemma NothingLingers<V>(m: Store<V>, ttl: Time, token: string, value: V, sweptAt: Time, now: Time)
    ensures forall k :: k in Insert(m, ttl, token, value, sweptAt, now) && k != token <==>
              k in m && k != token && sweptAt - m[k].createdAt < ttl
    ensures forall k :: k in Remove(m, ttl, token, now) <==> k in m && k != token && now - m[k].createdAt < ttl
  {
  }
}

/** The sign-in service's two stores. */
module Sso {
  import opened Workflow
  import opened SingleUse

  const PENDING_LOGIN_TTL: Time := 600
  const HANDOFF_CODE_TTL: Time := 60

  datatype PendingLogin = PendingLogin(verifier: string, nonce: string)

  class SsoService {
    var pendingLogins: Store<PendingLogin>
    var handoffCodes: Store<nat>

    constructor ()
      ensures pendingLogins == map[] && handoffCodes == map[]
    {
      pendingLogins := map[];
      handoffCodes := map[];
    }

    /** The three random tokens and the clock readings come from outside. */
    method BeginLogin(state: string, nonce: string, verifier: string, sweptAt: Time, now: Time)
      modifies this`pendingLogins
      ensures pendingLogins == Insert(old(pendingLogins), PENDING_LOGIN_TTL, state, PendingLogin(verifier, nonce), sweptAt, now)
    {
      pendingLogins := map k | k in pendingLogins && sweptAt - pendingLogins[k].createdAt < PENDING_LOGIN_TTL :: pendingLogins[k];
      pendingLogins := pendingLogins[state := Entry(PendingLogin(verifier, nonce), now)];
    }

    /** The part of completing a sign-in that touches the store: the entry is gone whatever the token exchange then does. */
    method ConsumeLogin(state: string, now: Time) returns (pending: Option<PendingLogin>)
      modifies this`pendingLogins
      ensures pendingLogins == Remove(old(pendingLogins), PENDING_LOGIN_TTL, state, now)
      ensures pending == Taken(old(pendingLogins), PENDING_LOGIN_TTL, state, now)
    {
      pendingLogins := map k | k in pendingLogins && now - pendingLogins[k].createdAt < PENDING_LOGIN_TTL :: pendingLogins[k];
      pending := if state in pendingLogins then Some(pendingLogins[state].value) else None;
      pendingLogins := pendingLogins - {state};
    }

    /** Sign-in succeeds only with the nonce recorded for this very state. */
    method CompleteLogin(state: string, claimedNonce: Option<string>, now: Time) returns (ok: bool)
      modifies this`pendingLogins
      ensures pendingLogins == Remove(old(pendingLogins), PENDING_LOGIN_TTL, state, now)
      ensures ok <==> var pending := Taken(old(pendingLogins), PENDING_LOGIN_TTL, state, now);
                      pending.Some? && claimedNonce == Some(pending.value.nonce)
    {
      var pending := ConsumeLogin(state, now);
      ok := pending.Some? && claimedNonce == Some(pending.value.nonce);
    }

    method IssueHandoffCode(code: string, user: nat, sweptAt: Time, now: Time)
      modifies this`handoffCodes
      ensures handoffCodes == Insert(old(handoffCodes), HANDOFF_CODE_TTL, code, user, sweptAt, now)
    {
      handoffCodes := map k | k in handoffCodes && sweptAt - handoffCodes[k].createdAt < HANDOFF_CODE_TTL :: handoffCodes[k];
      handoffCodes := handoffCodes[code := Entry(user, now)];
    }

    method RedeemHandoffCode(code: string, now: Time) returns (user: Option<nat>)
      modifies this`handoffCodes
      ensures handoffCodes == Remove(old(handoffCodes), HANDOFF_CODE_TTL, code, now)
      ensures user == Taken(old(handoffCodes), HANDOFF_CODE_TTL, code, now)
    {
      handoffCodes := map k | k in handoffCodes && now - handoffCodes[k].createdAt < HANDOFF_CODE_TTL :: handoffCodes[k];
      user := if code in handoffCodes then Some(handoffCodes[code].value) else None;
      handoffCodes := handoffCodes - {code};
    }
  }

  /** Handoff codes: at most one redemption each, less than 60 seconds after issue, for the user it was issued to. */
  lemma HandoffRedeemedOnce(h: History<nat>, events: seq<Event<nat>>, i: nat)
    requires Fresh(h) && PossibleRun(h, HANDOFF_CODE_TTL, events) && i < |AfterRun(h, HANDOFF_CODE_TTL, events).uses|
    ensures var end := AfterRun(h, HANDOFF_CODE_TTL, events);
            var use := end.uses[i];
            && use.token in end.issued && end.issued[use.token].value == use.value
            && end.issued[use.token].createdAt <= use.at < end.issued[use.token].createdAt + 60
            && forall j :: 0 <= j < |end.uses| && j != i ==> end.uses[j].token != use.token
  {
    UsedOnceInTime(h, HANDOFF_CODE_TTL, events);
    assert UseRight(AfterRun(h, HANDOFF_CODE_TTL, events), HANDOFF_CODE_TTL, AfterRun(h, HANDOFF_CODE_TTL, events).uses[i]);
  }

  /** Sign-in states: consumed at most once, yielding the verifier and nonce recorded for that state. */
  lemma LoginConsumedOnce(h: History<PendingLogin>, events: seq<Event<PendingLogin>>, i: nat)
    requires Fresh(h) && PossibleRun(h, PENDING_LOGIN_TTL, events) && i < |AfterRun(h, PENDING_LOGIN_TTL, events).uses|
    ensures var end := AfterRun(h, PENDING_LOGIN_TTL, events);
            var use := end.uses[i];
            && use.token in end.issued && end.issued[use.token].value == use.value
            && end.issued[use.token].createdAt <= use.at < end.issued[use.token].createdAt + 600
            && forall j :: 0 <= j < |end.uses| && j != i ==> end.uses[j].token != use.token
  {
    UsedOnceInTime(h, PENDING_LOGIN_TTL, events);
    assert UseRight(AfterRun(h, PENDING_LOGIN_TTL, events), PENDING_LOGIN_TTL, AfterRun(h, PENDING_LOGIN_TTL, events).uses[i]);
  }

  /** A handoff code is redeemed exactly when it was issued less than 60 seconds ago and never redeemed, for its user. */
  lemma HandoffRedeemsIff(h: History<nat>, events: seq<Event<nat>>, code: string, now: Time)
    requires Fresh(h) && PossibleRun(h, HANDOFF_CODE_TTL, events) && AfterRun(h, HANDOFF_CODE_TTL, events).clock <= now
    ensures var end := AfterRun(h, HANDOFF_CODE_TTL, events);
            var user := Taken(end.store, HANDOFF_CODE_TTL, code, now);
            && (user.Some? <==> code in end.issued && now < end.issued[code].createdAt + 60 && !WasUsed(end, code))
            && (user.Some? ==> code in end.issued && user.value == end.issued[code].value)
  {
    TakeSucceedsIff(h, HANDOFF_CODE_TTL, events, code, now);
  }

  /** A sign-in is completed exactly when it was begun less than 600 seconds ago and never completed. */
  lemma LoginConsumesIff(h: History<PendingLogin>, events: seq<Event<PendingLogin>>, state: string, now: Time)
    requires Fresh(h) && PossibleRun(h, PENDING_LOGIN_TTL, events) && AfterRun(h, PENDING_LOGIN_TTL, events).clock <= now
    ensures var end := AfterRun(h, PENDING_LOGIN_TTL, events);
            var pending := Taken(end.store, PENDING_LOGIN_TTL, state, now);
            && (pending.Some? <==> state in end.issued && now < end.issued[state].createdAt + 600 && !WasUsed(end, state))
            && (pending.Some? ==> state in end.issued && pending.value == end.issued[state].value)
  {
    TakeSucceedsIff(h, PENDING_LOGIN_TTL, events, state, now);
  }
}
