/**
 * The host's voice state: one record per approval, one pointer to the current one and one turn isolation for all.
 * Each record, together with its part of what is shared, is one Voice.
 */
module VoiceHost {
  import opened Common
  import opened VoiceAttempts

  /**
   * The host's record of one approval. `settled` is whether the wait for its context is over; `exhausting` and
   * `retiring` are the suspended calls that captured this record.
   */
  datatype Authority = Authority(
    token: nat, settled: bool, contextReady: bool, preContextOnset: bool, attempt: nat, clarificationQueued: bool,
    exhausting: multiset<nat>, retiring: nat)

  /** A record and its Voice: whether it is isolated and whether it was cleared shows only in what is shared. */
  ghost predicate Agrees(a: Authority, v: Voice, isolated: bool, current: bool) {
    && v.prepared == a.settled && v.contextReady == a.contextReady && v.preContextOnset == a.preContextOnset
    && v.attempt == a.attempt && v.clarificationQueued == a.clarificationQueued
    && v.exhausting == a.exhausting && v.retiring == a.retiring
    && v.isolated == isolated && v.cleared == !current
  }

  class ApprovalVoice {
    var authorities: seq<Authority>
    var authority: Option<nat>
    var lifecycleToken: nat
    /** Whose authority the turn isolation holds. */
    var isolation: Option<nat>
    /** Every authority as the attempts' state machine sees it. */
    ghost var voices: seq<Voice>

    predicate IsCurrent(k: nat)
      requires k < |authorities|
      reads this
    {
      authority == Some(k) && authorities[k].token == lifecycleToken
    }

    /** Only the current authority ever holds the isolation, and no record carries a token of the future. */
    ghost predicate Sound()
      reads this
    {
      && |voices| == |authorities|
      && (authority.Some? ==> authority.value < |authorities| && IsCurrent(authority.value))
      && (isolation.Some? ==> isolation == authority)
      && (forall k {:trigger authorities[k]} | 0 <= k < |authorities| :: authorities[k].token <= lifecycleToken)
      && forall k {:trigger voices[k]} | 0 <= k < |voices| ::
           Agrees(authorities[k], voices[k], isolation == Some(k), IsCurrent(k))
    }

    ghost predicate Valid()
      reads this
    {
      Sound() && forall k {:trigger voices[k]} | 0 <= k < |voices| :: Inv(voices[k])
    }

    constructor ()
      ensures Valid() && voices == []
    {
      authorities, authority, lifecycleToken, isolation, voices := [], None, 0, None, [];
    }

    method BeginAttempt(k: nat, n: nat, current: bool)
      requires Sound() && k < |authorities|
      modifies this`authorities, this`isolation, this`voices
      ensures Sound() && voices == old(voices)[k := Begin(old(voices)[k], current, n)]
      ensures |authorities| == |old(authorities)| && authorities[k].token == old(authorities)[k].token
      ensures isolation == if current && old(IsCurrent(k)) then Some(k) else old(isolation)
    {
      if !IsCurrent(k) || !current { return; }
      authorities := authorities[k := authorities[k].(attempt := n)];
      isolation := Some(k);
      voices := voices[k := Begin(voices[k], current, n)];
    }

    method QueueClarification(k: nat, current: bool)
      requires Sound() && k < |authorities|
      modifies this`authorities, this`voices
      ensures Sound() && voices == old(voices)[k := Clarify(old(voices)[k], current)]
    {
      if !IsCurrent(k) || !current || authorities[k].clarificationQueued { return; }
      authorities := authorities[k := authorities[k].(clarificationQueued := true)];
      voices := voices[k := Clarify(voices[k], current)];
    }

    /** The current authority, if any, is given up together with the isolation it may hold; no other loses anything. */
    method ClearVoiceState()
      requires Sound()
      modifies this`lifecycleToken, this`authority, this`isolation, this`voices
      ensures Sound() && authority == None
      ensures voices == if old(authority).Some?
                        then old(voices)[old(authority).value := Clear(old(voices)[old(authority).value])]
                        else old(voices)
      ensures forall j {:trigger voices[j]} | 0 <= j < |voices| :: !MayBegin(voices[j])
    {
      if authority.Some? { voices := voices[authority.value := Clear(voices[authority.value])]; }
      lifecycleToken := lifecycleToken + 1;
      authority := None;
      isolation := None;
    }

    /** A new approval becomes the current authority; the one before it is cleared, and none holds the isolation. */
    method Arm()
      requires Valid()
      modifies this
      ensures Valid() && isolation == None
      ensures voices == (if old(authority).Some?
                         then old(voices)[old(authority).value := Clear(old(voices)[old(authority).value])]
                         else old(voices)) + [START]
      ensures forall j {:trigger voices[j]} | 0 <= j < |voices| :: MayBegin(voices[j]) <==> j == |old(voices)|
    {
      if authority.Some? {
        LossKeeps(voices[authority.value]);
        ClearVoiceState();
      }
      lifecycleToken := lifecycleToken + 1;
      authorities := authorities + [Authority(lifecycleToken, false, false, false, 0, false, multiset{}, 0)];
      voices := voices + [START];
      authority := Some(|authorities| - 1);
      isolation := None;
    }

    /** Speech before the context is ready is remembered for the current authority. */
    method NoteOnsetBeforeContext()
      requires Valid()
      modifies this`authorities, this`voices
      ensures Valid()
      ensures voices == if authority.Some?
                        then old(voices)[authority.value := Onset(old(voices)[authority.value])] else old(voices)
      ensures authority.Some? && !voices[authority.value].prepared ==>
                Prepare(voices[authority.value], true, true).begun == [2]
    {
      if authority.None? { return; }
      var k := authority.value;
      StepKeeps(voices[k], SpeechStarts);
      if !voices[k].prepared { OnsetSkipsToTwo(voices[k]); }
      voices := voices[k := Onset(voices[k])];
      if !authorities[k].contextReady { authorities := authorities[k := authorities[k].(preContextOnset := true)]; }
    }

    /**
     * The context of record `k`, which may not be the current one any more, was confirmed or not. Its first attempt
     * begins exactly if it is still the current one and the context was confirmed: attempt one, or attempt two if
     * the user spoke first.
     */
    method ContextSettled(k: nat, injected: bool, current: bool)
      requires Valid() && k < |authorities| && !authorities[k].settled
      modifies this
      ensures Valid() && voices == old(voices)[k := Prepare(old(voices)[k], injected, current)]
      ensures voices[k].begun ==
        if !injected || !current || !old(IsCurrent(k)) then []
        else if old(authorities)[k].preContextOnset then [2] else [1]
      ensures current && old(IsCurrent(k)) ==> (IsCurrent(k) <==> injected) && (voices[k].cleared <==> !injected)
    {
      TurnKeeps(voices[k], injected, current);
      voices := voices[k := voices[k].(prepared := true)];
      authorities := authorities[k := authorities[k].(settled := true)];
      if !IsCurrent(k) || !current { return; }
      if !injected {
        ClearVoiceState();
        return;
      }
      ContextConfirmed(k, current);
    }

    method ContextConfirmed(k: nat, current: bool)
      requires Sound() && k < |authorities|
      modifies this`authorities, this`isolation, this`voices
      ensures Sound() && voices == old(voices)[k := Confirm(old(voices)[k], current)]
    {
      voices := voices[k := voices[k].(contextReady := true)];
      authorities := authorities[k := authorities[k].(contextReady := true)];
      if authorities[k].preContextOnset {
        BeginAttempt(k, 2, current);
        QueueClarification(k, current);
      } else {
        BeginAttempt(k, 1, current);
      }
    }

    /** A newer user turn replaces attempt one of the authority that holds the isolation, and only attempt one. */
    method RotateAttempt(current: bool)
      requires Valid() && isolation.Some?
      modifies this`authorities, this`isolation, this`voices
      ensures Valid() && isolation == old(isolation)
      ensures voices == old(voices)[old(isolation).value := Rotate(old(voices)[old(isolation).value], current)]
      ensures var k := old(isolation).value;
        voices[k].begun == if current && old(authorities)[k].attempt == 1 then [1, 2] else old(voices)[k].begun
    {
      var k := isolation.value;
      TurnKeeps(voices[k], true, current);
      if !current || authorities[k].attempt != 1 { return; }
      BeginAttempt(k, 2, current);
    }

    /** `exhaustAttempt` up to the wait for the refusals: the isolation is gone, the call remembers its attempt. */
    method ExhaustAttempt(current: bool)
      requires Valid() && isolation.Some?
      modifies this`authorities, this`isolation, this`voices
      ensures Valid() && (current ==> isolation == None)
      ensures voices == old(voices)[old(isolation).value := Exhaust(old(voices)[old(isolation).value], current)]
      ensures MayBegin(voices[old(isolation).value]) <==> old(authorities)[old(isolation).value].attempt == 1
    {
      var k := isolation.value;
      ExhaustKeeps(voices[k], current);
      if !current { return; }
      var a := authorities[k];
      isolation := None;
      authorities := authorities[k := a.(exhausting := a.exhausting + multiset{a.attempt})];
      voices := voices[k := Exhaust(voices[k], current)];
    }

    /**
     * `exhaustAttempt` after the wait, on the record it captured. It begins attempt two exactly if it began at
     * attempt one and its record is still the current one: no clarification can have been queued meanwhile.
     */
    method ExhaustResumed(k: nat, from: nat, current: bool)
      requires Valid() && k < |authorities| && from in authorities[k].exhausting
      modifies this`authorities, this`isolation, this`voices
      ensures Valid() && voices == old(voices)[k := Exhausted(old(voices)[k], from, current)]
      ensures voices[k].begun == if from == 1 && current && old(IsCurrent(k)) then [1, 2] else old(voices)[k].begun
      ensures from != 1 && current && old(IsCurrent(k)) ==> GivenUp(voices[k])
    {
      ghost var v := voices[k];
      ExhaustedKeeps(v, from, current);
      ResumeExhaustion(k, from);
      ResolveExhaustion(k, from, current);
      assert voices == old(voices)[k := Exhausted(v, from, current)];
    }

    method ResumeExhaustion(k: nat, from: nat)
      requires Sound() && k < |authorities| && from in authorities[k].exhausting
      modifies this`authorities, this`voices
      ensures Sound()
      ensures voices == old(voices)[k := old(voices)[k].(exhausting := old(voices)[k].exhausting - multiset{from})]
    {
      voices := voices[k := voices[k].(exhausting := voices[k].exhausting - multiset{from})];
      authorities := authorities[k := authorities[k].(exhausting := authorities[k].exhausting - multiset{from})];
    }

    method ResolveExhaustion(k: nat, from: nat, current: bool)
      requires Sound() && k < |authorities|
      modifies this`authorities, this`isolation, this`voices
      ensures Sound() && voices == old(voices)[k := Resolve(old(voices)[k], from, current)]
    {
      if !IsCurrent(k) || !current { return; }
      if from == 1 && !authorities[k].clarificationQueued {
        BeginAttempt(k, 2, current);
        QueueClarification(k, current);
      } else {
        voices := voices[k := Resolve(voices[k], from, current)];
        authorities := authorities[k := authorities[k].(attempt := 0)];
      }
    }

    /** `retireVoiceAuthority` up to the wait for the refusals: nothing is given up yet. */
    method RetireVoice()
      requires Valid() && isolation.Some?
      modifies this`authorities, this`voices
      ensures Valid() && voices == old(voices)[isolation.value := Retire(old(voices)[isolation.value])]
      ensures forall j {:trigger voices[j]} | 0 <= j < |voices| ::
                && (MayBegin(voices[j]) <==> MayBegin(old(voices)[j]))
                && (GivenUp(voices[j]) <==> GivenUp(old(voices)[j]))
    {
      var k := isolation.value;
      StepKeeps(voices[k], RetireBegins);
      authorities := authorities[k := authorities[k].(retiring := authorities[k].retiring + 1)];
      voices := voices[k := Retire(voices[k])];
    }

    /** Whoever holds the isolation loses it. */
    method InvalidateIsolation()
      requires Valid()
      modifies this`isolation, this`voices
      ensures Valid() && isolation == None && |voices| == |old(voices)|
      ensures forall j {:trigger voices[j]} | 0 <= j < |voices| :: voices[j] == LoseIsolation(old(voices)[j])
    {
      if isolation.Some? {
        LossKeeps(voices[isolation.value]);
        voices := voices[isolation.value := LoseIsolation(voices[isolation.value])];
        isolation := None;
      }
    }

    /**
     * `retireVoiceAuthority` after the wait. The record it captured is given up, but the isolation is taken from
     * whichever authority holds it by now: a later one keeps its attempt and can begin no other.
     */
    method RetireResumed(k: nat)
      requires Valid() && k < |authorities| && authorities[k].retiring > 0
      modifies this`authorities, this`isolation, this`voices
      ensures Valid() && |voices| == |old(voices)| && isolation == None
      ensures voices[k] == VoiceAttempts.Retired(old(voices)[k]) && GivenUp(voices[k])
      ensures forall j {:trigger voices[j]} | 0 <= j < |voices| && j != k :: voices[j] == LoseIsolation(old(voices)[j])
    {
      StepKeeps(voices[k], RetireResumes);
      InvalidateIsolation();
      voices := voices[k := VoiceAttempts.Retired(voices[k])];
      authorities := authorities[k := authorities[k].(retiring := authorities[k].retiring - 1, attempt := 0)];
    }
  }
}
