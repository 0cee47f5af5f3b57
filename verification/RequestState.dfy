/** The signed `requestState` of a retried call and the memory of used holds
    (mcp_core/mrtr.py). */
module RequestState {
  import opened ApprovalStore

  const TTL := 900.0

  /** The n-th question of a call, "q1", "q2", and so on. */
  datatype QuestionKey = QuestionKey(n: nat)

  datatype Payload = Payload(principal: string, rpc: string, digest: string,
                             holds: map<QuestionKey, HoldId>, expires: real)

  datatype Secret = Secret(bytes: seq<int>)

  /** A token carries either a payload with its MAC under some secret, or anything else. The
      MAC is symbolic: only the holder of the secret can seal, and sealing is injective. */
  datatype Token = Sealed(secret: Secret, payload: Payload) | Loose(text: string)

  datatype StateError = Unverified | Expired | OtherCaller | OtherRequest

  datatype Verified = Holds(holds: map<QuestionKey, HoldId>) | Refused(error: StateError)

  function Sign(secret: Secret, principal: string, rpc: string, digest: string,
                holds: map<QuestionKey, HoldId>, now: real): Token
  {
    Sealed(secret, Payload(principal, rpc, digest, holds, now + TTL))
  }

  function Verify(secret: Secret, token: Token, principal: string, rpc: string, digest: string, now: real): Verified {
    if token.Loose? || token.secret != secret then Refused(Unverified)
    else if token.payload.expires < now then Refused(Expired)
    else if token.payload.principal != principal then Refused(OtherCaller)
    else if token.payload.rpc != rpc || token.payload.digest != digest then Refused(OtherRequest)
    else Holds(token.payload.holds)
  }

  /** A state comes back exactly to the caller, call and time it was signed for, and then
      carries exactly the signed holds. */
  lemma {:induction false} SignThenVerify(secret: Secret, principal: string, rpc: string, digest: string,
                       holds: map<QuestionKey, HoldId>, signed: real, other: Secret, caller: string, rpc': string,
                       digest': string, now: real)
    ensures var v := Verify(other, Sign(secret, principal, rpc, digest, holds, signed), caller, rpc', digest', now);
            && (v.Holds? <==> other == secret && caller == principal && rpc' == rpc && digest' == digest && now <= signed + 900.0)
            && (v.Holds? ==> v.holds == holds)
            && (v == Refused(Unverified) <==> other != secret)
            && (v == Refused(Expired) <==> other == secret && now > signed + 900.0)
            && (v == Refused(OtherCaller) <==> other == secret && now <= signed + 900.0 && caller != principal)
  {
  }

  /** Nothing verifies but what this secret sealed. */
  lemma {:induction false} OnlySignedVerifies(secret: Secret, token: Token, principal: string, rpc: string,
            digest: string, now: real)
    requires Verify(secret, token, principal, rpc, digest, now).Holds?
    ensures token == Sign(secret, principal, rpc, digest,
                          Verify(secret, token, principal, rpc, digest, now).holds, token.payload.expires - TTL)
  {
  }

  // ----- Single use -------------------------------------------------------------------

  /** Uses older than the TTL are forgotten. */
  function Pruned(used: map<HoldId, real>, now: real): map<HoldId, real> {
    map h | h in used && used[h] >= now - TTL :: used[h]
  }

  predicate Fresh(used: map<HoldId, real>, hold: HoldId, now: real) {
    hold !in Pruned(used, now)
  }

  function Consumed(used: map<HoldId, real>, hold: HoldId, now: real): map<HoldId, real> {
    if Fresh(used, hold, now) then Pruned(used, now)[hold := now] else Pruned(used, now)
  }

  class StateSigner {
    const secret: Secret
    var used: map<HoldId, real>

    constructor (secret: Secret)
      ensures this.secret == secret && used == map[]
    {
      this.secret := secret;
      used := map[];
    }

    /** `consume`: forgets, then refuses a hold it remembers. */
    method Consume(hold: HoldId, now: real) returns (ok: bool)
      modifies this
      ensures ok <==> Fresh(old(used), hold, now)
      ensures used == Consumed(old(used), hold, now)
      ensures ok <==> hold !in old(used) || now - old(used)[hold] > 900.0
      ensures ok ==> hold in used && used[hold] == now
      ensures forall h :: h != hold || !ok ==> (h in used <==> h in old(used) && now - old(used)[h] <= 900.0)
      ensures forall h :: h in used && (h != hold || !ok) ==> used[h] == old(used)[h]
    {
      ghost var before := used;
      var left := used.Keys;
      while left != {}
        invariant left <= before.Keys && used.Keys <= before.Keys
        invariant forall h :: h in before && h !in left ==> (h in used <==> before[h] >= now - TTL)
        invariant forall h :: h in left ==> h in used
        invariant forall h :: h in used ==> used[h] == before[h]
      {
        var h :| h in left;
        if used[h] < now - TTL {
          used := used - {h};
        }
        left := left - {h};
      }
      assert used == Pruned(before, now);
      if hold in used {
        return false;
      }
      used := used[hold := now];
      return true;
    }
  }

  /** What the signer lives through. A use presents the state signed at position `state`; a
      first use is of an entry opened in the same pass, which no state names yet. */
  datatype SignerEvent =
    | Signing(holds: set<HoldId>, at: real)
    | Use(hold: HoldId, state: nat, at: real)
    | FirstUse(hold: HoldId, at: real)
    | RefusedUse(hold: HoldId, at: real)

  predicate Uses(e: SignerEvent, hold: HoldId) {
    (e.Use? || e.FirstUse?) && e.hold == hold
  }

  predicate Names(e: SignerEvent, hold: HoldId) {
    e.Signing? && hold in e.holds
  }

  /** Memory after the first `n` events. */
  function Memory(events: seq<SignerEvent>, n: nat): map<HoldId, real>
    requires n <= |events|
  {
    if n == 0 then map[]
    else if events[n - 1].Signing? then Memory(events, n - 1)
    else Consumed(Memory(events, n - 1), events[n - 1].hold, events[n - 1].at)
  }

  /** Event `n` can happen: the presented state was signed before, names the hold and has not
      expired; the hold is not remembered; a first use is of an entry nobody has seen. */
  ghost predicate CanHappen(events: seq<SignerEvent>, n: nat)
    requires n < |events|
  {
    var e := events[n];
    && (e.Use? ==> e.state < n && Names(events[e.state], e.hold) && e.at <= events[e.state].at + TTL)
    && (e.Use? ==> Fresh(Memory(events, n), e.hold, e.at))
    && (e.FirstUse? ==> forall m :: 0 <= m < n ==> !Uses(events[m], e.hold) && !Names(events[m], e.hold))
    && (e.RefusedUse? ==> !Fresh(Memory(events, n), e.hold, e.at))
  }

  ghost predicate IsLife(events: seq<SignerEvent>) {
    && (forall n :: 0 <= n < |events| ==> CanHappen(events, n))
    && (forall i, j :: 0 <= i <= j < |events| ==> events[i].at <= events[j].at)
  }

  lemma {:induction false} MemoryPrefix(events: seq<SignerEvent>, e: SignerEvent, n: nat)
    requires n <= |events|
    ensures Memory(events + [e], n) == Memory(events, n)
  {
    hide Consumed;
    if n > 0 {
      MemoryPrefix(events, e, n - 1);
    }
  }

  /** What a life may consist of: every life goes on with any signing, with a use that presents an
      unexpired state naming a hold that is not remembered, with the first use of a hold nobody
      has seen, and with the refusal of a hold that is remembered. */
  lemma {:induction false} LifeGoesOn(events: seq<SignerEvent>, e: SignerEvent)
    requires IsLife(events) && forall i :: 0 <= i < |events| ==> events[i].at <= e.at
    requires e.Use? ==>
               e.state < |events| && events[e.state].Signing? && e.hold in events[e.state].holds
               && e.at <= events[e.state].at + 900.0
    requires var memory := Memory(events, |events|);
             && (e.Use? ==> e.hold in memory ==> e.at - memory[e.hold] > 900.0)
             && (e.RefusedUse? ==> e.hold in memory && e.at - memory[e.hold] <= 900.0)
    requires e.FirstUse? ==>
               forall m :: 0 <= m < |events| ==>
                 if events[m].Signing? then e.hold !in events[m].holds
                 else events[m].RefusedUse? || events[m].hold != e.hold
    ensures IsLife([]) && IsLife(events + [e])
  {
    forall n | 0 <= n <= |events|
      ensures CanHappen(events + [e], n)
    {
      MemoryPrefix(events, e, n);
      if n < |events| {
        assert CanHappen(events, n);
      }
    }
  }

  /** After a use the hold is remembered, until the TTL has gone by. */
  lemma {:induction false} Remembered(events: seq<SignerEvent>, i: nat, n: nat)
    requires IsLife(events) && i < n <= |events| && !events[i].Signing? && !events[i].RefusedUse?
    ensures var hold := events[i].hold;
            (hold in Memory(events, n) && Memory(events, n)[hold] >= events[i].at) || events[n - 1].at > events[i].at + TTL
    decreases n
  {
    if n == i + 1 {
      assert CanHappen(events, i);
      FirstIsFresh(events, i, i);
    } else {
      Remembered(events, i, n - 1);
    }
  }

  /** Only used holds are remembered. */
  lemma {:induction false} FirstIsFresh(events: seq<SignerEvent>, i: nat, n: nat)
    requires IsLife(events) && n <= i < |events|
    ensures events[i].FirstUse? ==> events[i].hold !in Memory(events, n)
    decreases n
  {
    if n == 0 || !events[i].FirstUse? {
    } else {
      FirstIsFresh(events, i, n - 1);
      assert CanHappen(events, i);
      assert CanHappen(events, n - 1);
      RefusedKnown(events, n - 1);
    }
  }

  lemma {:induction false} RefusedKnown(events: seq<SignerEvent>, n: nat)
    requires IsLife(events) && n < |events|
    ensures events[n].RefusedUse? ==> events[n].hold in Memory(events, n)
  {
    assert CanHappen(events, n);
  }

  /** Single use under a forgetting memory: if no state naming the hold was signed later than
      its first use, no later use of it succeeds, although the memory forgets. */
  lemma {:induction false} SingleUse(events: seq<SignerEvent>, i: nat, j: nat, hold: HoldId)
    requires IsLife(events) && i < j < |events| && Uses(events[i], hold)
    requires forall k :: 0 <= k < j && Names(events[k], hold) ==> events[k].at <= events[i].at
    ensures !Uses(events[j], hold)
  {
    if Uses(events[j], hold) {
      assert CanHappen(events, j);
      Remembered(events, i, j);
    }
  }

  /** The condition is exact: a remembered hold can be used again with a given state, at some
      time, if and only if that state was signed later than the use. */
  lemma {:induction false} ReplayIff(secret: Secret, used: map<HoldId, real>, hold: HoldId, principal: string,
            rpc: string,
                  digest: string, holds: map<QuestionKey, HoldId>, signed: real)
    requires hold in used && hold in holds.Values
    ensures (exists now: real :: Verify(secret, Sign(secret, principal, rpc, digest, holds, signed), principal, rpc, digest, now).Holds?
                                 && Fresh(used, hold, now))
            <==> signed > used[hold]
  {
    if signed > used[hold] {
      var now := signed + TTL;
      assert Verify(secret, Sign(secret, principal, rpc, digest, holds, signed), principal, rpc, digest, now).Holds?
             && Fresh(used, hold, now);
    }
  }
}
