/**
 The order in which the library yields the effects of one answer does not matter to the network: handling
 any reordering of them sends the same envelopes and leaves the same slot, and as long as the announcing
 effects keep their order, it announces the same steps.
 */
module EffectOrder {
  import opened Options
  import opened PeerSets
  import opened Messages
  import opened Consensus
  import opened Application

  predicate Panics(e: Effect) {
    e.RestreamValue? || e.GetVoteSet? || e.SendVoteSetResponse? || e.VerifyCertificate?
  }

  /** What one effect sends, when a `GetValue` finds `value`. */
  function Sends(self: nat, vs: PeerSet, e: Effect, value: Option<Value>): multiset<Envelope> {
    var o := Handle(self, vs, e, value);
    if o.Sent? then multiset(o.envelopes) else multiset{}
  }

  function AllSends(self: nat, vs: PeerSet, effects: seq<Effect>, value: Option<Value>): multiset<Envelope> {
    if effects == [] then multiset{}
    else AllSends(self, vs, effects[..|effects| - 1], value) + Sends(self, vs, effects[|effects| - 1], value)
  }

  /** What one effect announces. */
  function Steps(self: nat, vs: PeerSet, e: Effect): seq<DecisionStep> {
    match e
    case Decide(c) => [Finalized(self, c.valueId, c.height)]
    case Publish(ProposalMsg(x)) => Announcements(vs.peers, x)
    case _ => []
  }

  function AllSteps(self: nat, vs: PeerSet, effects: seq<Effect>): seq<DecisionStep> {
    if effects == [] then []
    else AllSteps(self, vs, effects[..|effects| - 1]) + Steps(self, vs, effects[|effects| - 1])
  }

  function GetValues(effects: seq<Effect>): nat {
    if effects == [] then 0
    else GetValues(effects[..|effects| - 1]) + if effects[|effects| - 1].GetValue? then 1 else 0
  }

  function Without(effects: seq<Effect>, j: nat): seq<Effect>
    requires j < |effects|
  {
    effects[..j] + effects[j + 1..]
  }

  lemma WithoutBag(effects: seq<Effect>, j: nat)
    requires j < |effects|
    ensures multiset(effects) == multiset(Without(effects, j)) + multiset{effects[j]}
  {
    assert effects == effects[..j] + [effects[j]] + effects[j + 1..];
  }

  lemma {:induction false} RemoveOne(self: nat, vs: PeerSet, effects: seq<Effect>, value: Option<Value>, j: nat)
    requires j < |effects|
    ensures AllSends(self, vs, effects, value) == AllSends(self, vs, Without(effects, j), value) + Sends(self, vs, effects[j], value)
    ensures GetValues(effects) == GetValues(Without(effects, j)) + if effects[j].GetValue? then 1 else 0
    decreases |effects|
  {
    hide Sends;
    var init, rest := effects[..|effects| - 1], Without(effects, j);
    if j == |effects| - 1 {
      assert rest == init;
    } else {
      RemoveOne(self, vs, init, value, j);
      assert rest[..|rest| - 1] == Without(init, j) && rest[|rest| - 1] == effects[|effects| - 1];
    }
  }

  /** Where the last effect of `a` occurs in its reordering `b`, and that the rest is a reordering too. */
  lemma FindLast(a: seq<Effect>, b: seq<Effect>) returns (j: nat)
    requires multiset(a) == multiset(b) && a != []
    ensures j < |b| && b[j] == a[|a| - 1] && multiset(Without(b, j)) == multiset(a[..|a| - 1])
  {
    var init, last := a[..|a| - 1], a[|a| - 1];
    assert a == init + [last];
    assert multiset(a) == multiset(init) + multiset{last};
    assert last in multiset(b);
    j :| 0 <= j < |b| && b[j] == last;
    WithoutBag(b, j);
    assert multiset(Without(b, j)) == multiset(b) - multiset{last};
    assert multiset(init) == multiset(a) - multiset{last};
  }

  lemma {:induction false} SumsPermute(self: nat, vs: PeerSet, a: seq<Effect>, b: seq<Effect>, value: Option<Value>)
    requires multiset(a) == multiset(b)
    ensures AllSends(self, vs, a, value) == AllSends(self, vs, b, value) && GetValues(a) == GetValues(b)
    decreases |a|
  {
    hide Sends; hide Without;
    if a == [] {
      assert |multiset(a)| == |a| && |multiset(b)| == |b|;
    } else {
      var j := FindLast(a, b);
      SumsPermute(self, vs, a[..|a| - 1], Without(b, j), value);
      RemoveOne(self, vs, b, value, j);
    }
  }

  lemma {:induction false} StepsOfAnnouncing(self: nat, vs: PeerSet, effects: seq<Effect>)
    ensures AllSteps(self, vs, effects) == AllSteps(self, vs, Announcing(effects))
  {
    if effects != [] {
      var init, last := effects[..|effects| - 1], effects[|effects| - 1];
      StepsOfAnnouncing(self, vs, init);
      if IsAnnouncing(last) {
        assert Announcing(effects)[..|Announcing(effects)| - 1] == Announcing(init);
      } else {
        assert Announcing(effects) == Announcing(init);
      }
    }
  }

  lemma HandleSent(self: nat, vs: PeerSet, e: Effect, slot: Option<Value>)
    ensures Handle(self, vs, e, slot).Sent? <==> !Panics(e) && (e.GetValue? ==> slot.Some?)
  {
    hide VoteEnvelopes; hide ProposalEnvelopes; hide Announcements;
  }

  lemma HandleSum(self: nat, vs: PeerSet, e: Effect, slot: Option<Value>, value: Option<Value>)
    requires slot == value || slot == None
    requires Handle(self, vs, e, slot).Sent?
    ensures var o := Handle(self, vs, e, slot);
            && multiset(o.envelopes) == Sends(self, vs, e, value)
            && o.steps == Steps(self, vs, e)
            && o.slot == if e.GetValue? then None else slot
  {
    hide VoteEnvelopes; hide ProposalEnvelopes; hide Announcements;
    if !e.GetValue? {
      assert Handle(self, vs, e, value) == Handle(self, vs, e, slot).(slot := value);
      assert Handle(self, vs, e, slot).steps == Steps(self, vs, e);
      hide Handle; hide Steps;
    }
  }

  /** Handling succeeds exactly when no effect is unimplemented and the slot serves every `GetValue`. */
  lemma {:induction false} HandleAllSums(self: nat, vs: PeerSet, effects: seq<Effect>, slot: Option<Value>)
    ensures HandleAll(self, vs, effects, slot).Sent? <==>
            (forall e :: e in effects ==> !Panics(e)) && GetValues(effects) <= (if slot.Some? then 1 else 0)
    ensures var o := HandleAll(self, vs, effects, slot);
            o.Sent? ==>
              && multiset(o.envelopes) == AllSends(self, vs, effects, slot)
              && o.steps == AllSteps(self, vs, effects)
              && o.slot == (if GetValues(effects) > 0 then None else slot)
    decreases |effects|
  {
    if effects != [] {
      hide Handle; hide Sends; hide Steps; hide Panics;
      var init, last := effects[..|effects| - 1], effects[|effects| - 1];
      assert effects == init + [last];
      HandleAllSums(self, vs, init, slot);
      var before := HandleAll(self, vs, init, slot);
      if before.Sent? {
        HandleSent(self, vs, last, before.slot);
        if Handle(self, vs, last, before.slot).Sent? {
          HandleSum(self, vs, last, before.slot, slot);
        }
      }
    }
  }

  /** Reordering effects changes neither what is sent nor what is announced, only the order of sending. */
  lemma OrderIsImmaterial(self: nat, vs: PeerSet, a: seq<Effect>, b: seq<Effect>, slot: Option<Value>)
    requires Reorders(a, b) && HandleAll(self, vs, a, slot).Sent?
    ensures var o, o' := HandleAll(self, vs, a, slot), HandleAll(self, vs, b, slot);
            o'.Sent? && multiset(o.envelopes) == multiset(o'.envelopes) && o.steps == o'.steps && o.slot == o'.slot
  {
    hide HandleAll; hide AllSends; hide AllSteps; hide GetValues; hide Announcing; hide Panics;
    SumsPermute(self, vs, a, b, slot);
    HandleAllSums(self, vs, a, slot);
    HandleAllSums(self, vs, b, slot);
    StepsOfAnnouncing(self, vs, a);
    StepsOfAnnouncing(self, vs, b);
    forall e | e in b ensures !Panics(e) {
      assert e in multiset(a);
    }
  }
}
