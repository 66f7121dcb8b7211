/**
 When exactly a key pass can send a deletion for an ARN, and when for one that
 an entry of the ledger is recorded as encrypted with.
 */
module KeyLosses {
  import opened Ledger
  import opened Sweep
  import opened Ownership
  import opened Decisions
  import opened KmsCloud
  import opened KeyCleanup

  // The pass sends a deletion for the ARN.
  ghost predicate Sends(env: Env, wants: Wants, w: Cloud, l: seq<Entry>, arn: string) {
    w.scheduled <= AfterCleanup(env, wants, w, l).world.scheduled
    && arn in AfterCleanup(env, wants, w, l).world.scheduled[|w.scheduled|..]
  }

  // ------------------------------------------------- a cloud that lets it happen

  // The step of the entry makes a call.
  predicate Asks(env: Env, wants: Wants, e: Entry) {
    var held := wants.deleting && e.name in wants.inUse;
    var policy := if held then Retain else e.policy;
    && e.rtype == KMS && !(held && !wants.inUse[e.name]) && !Declared(wants, e.name)
    && (policy == Retain ==> !(e.state.Relinquished? && !NeedsRelinquishedRecheck(e, env.now)))
  }

  // Refused at once, a step does nothing to AWS.
  lemma RefusedStep(env: Env, wants: Wants, p: KeyPass, e: Entry)
    requires Asks(env, wants, e) ==> Next(p.world.faults).Refused?
    ensures AfterEntry(env, wants, p, e).world == if Asks(env, wants, e) then Drawn(p.world) else p.world
  {
  }

  function Refusals(m: nat): seq<Fault> {
    seq(m, _ => Refused)
  }

  // With enough refusals the first k steps leave the cloud as it was.
  lemma {:induction false} RefusedUpto(env: Env, wants: Wants, l: seq<Entry>, k: nat, w: Cloud) returns (m: nat)
    requires k <= |l|
    ensures Upto(Step(env, wants), l, k, Pass(w.(faults := Refusals(m) + w.faults), l, [], false)).world == w
  {
    if k == 0 {
      m := 0;
      assert Refusals(0) + w.faults == w.faults;
    } else {
      var d := if Asks(env, wants, l[k - 1]) then 1 else 0;
      var w1 := w.(faults := Refusals(d) + w.faults);
      var m' := RefusedUpto(env, wants, l, k - 1, w1);
      m := m' + d;
      assert Refusals(m) + w.faults == Refusals(m') + w1.faults;
      var start := Pass(w.(faults := Refusals(m) + w.faults), l, [], false);
      assert start == Pass(w1.(faults := Refusals(m') + w1.faults), l, [], false);
      OneRefused(env, wants, Upto(Step(env, wants), l, k - 1, start), l[k - 1], w);
    }
  }

  lemma OneRefused(env: Env, wants: Wants, p: KeyPass, e: Entry, w: Cloud)
    requires p.world == w.(faults := Refusals(if Asks(env, wants, e) then 1 else 0) + w.faults)
    ensures AfterEntry(env, wants, p, e).world == w
  {
    RefusedStep(env, wants, p, e);
    if Asks(env, wants, e) {
      assert p.world.faults[1..] == w.faults;
    } else {
      assert p.world.faults == w.faults;
    }
  }

  // A key that is there, enabled and the CR's own, with every call answered.
  function Ready(cr: CR, arn: string): Cloud {
    Cloud(map[arn := Key(Enabled, OwnerTags(cr))], map[], [], [], [], [])
  }

  lemma ReadySends(env: Env, wants: Wants, p: KeyPass, e: Entry)
    requires Schedulable(env, wants, e) && p.world == Ready(env.cr, e.arn)
    ensures AfterEntry(env, wants, p, e).world.scheduled == [e.arn]
  {
    assert |OWNER_TAG| != |OWNER_UID_TAG|;
    assert IsOwnedBy(OwnerTags(env.cr), env.cr);
  }

  function ScheduledBy(w: Cloud): seq<string> {
    w.scheduled
  }

  lemma StepIsLogged(env: Env, wants: Wants)
    ensures Logs(Step(env, wants), ScheduledBy)
  {
    forall p: KeyPass, e: Entry ensures ScheduledBy(p.world) <= ScheduledBy(Step(env, wants)(p, e).world) {
      EntrySchedules(env, wants, p, e);
    }
  }

  // A pass can send a deletion for an ARN if and only if some entry under it is
  // undeclared, unused, of Delete policy and past its quiet window.
  lemma CanSendIff(env: Env, wants: Wants, l: seq<Entry>, arn: string)
    ensures (exists w :: Sends(env, wants, w, l, arn)) <==> Sendable(env, wants, l, arn)
  {
    if w :| Sends(env, wants, w, l, arn) {
      SentIsSendable(env, wants, w, l, arn);
    }
    if Sendable(env, wants, l, arn) {
      var e :| e in l && e.arn == arn && Schedulable(env, wants, e);
      var k :| 0 <= k < |l| && l[k] == e;
      var w := SendingCloud(env, wants, l, k);
      assert Sends(env, wants, w, l, arn);
    }
  }

  lemma SentIsSendable(env: Env, wants: Wants, w: Cloud, l: seq<Entry>, arn: string)
    requires Sends(env, wants, w, l, arn)
    ensures Sendable(env, wants, l, arn)
  {
    PassSchedules(env, wants, l, |l|, Pass(w, l, [], false));
    var s := AfterCleanup(env, wants, w, l).world.scheduled;
    var i :| |w.scheduled| <= i < |s| && s[i] == arn;
  }

  lemma SendingCloud(env: Env, wants: Wants, l: seq<Entry>, k: nat) returns (w: Cloud)
    requires k < |l| && Schedulable(env, wants, l[k])
    ensures Sends(env, wants, w, l, l[k].arn)
  {
    var ready := Ready(env.cr, l[k].arn);
    var m := RefusedUpto(env, wants, l, k, ready);
    w := ready.(faults := Refusals(m) + ready.faults);
    var step, start := Step(env, wants), Pass(w, l, [], false);
    ReadySends(env, wants, Upto(step, l, k, start), l[k]);
    StepIsLogged(env, wants);
    LogGrows(Step(env, wants), ScheduledBy, l, k + 1, |l|, start);
    assert step(Upto(step, l, k, start), l[k]).world.scheduled == [l[k].arn];
    assert AfterCleanup(env, wants, w, l).world.scheduled[0] == l[k].arn;
  }

  // For an ARN that an entry is recorded as encrypted with, a pass can send a
  // deletion if and only if some schedulable key entry has that ARN; and such an
  // entry is never the last one under it, which is the one the entry holds.
  lemma CanLoseIff(env: Env, wants: Wants, l: seq<Entry>, h: Entry)
    requires SeesLedger(wants, l) && h in l && h.rtype != KMS && h.rtype != IAM && h.kmsKeyARN != ""
    ensures (exists w :: Sends(env, wants, w, l, h.kmsKeyARN)) <==>
      exists key :: && key in l && key.arn == h.kmsKeyARN && Schedulable(env, wants, key)
                    && KeyByARN(l, h.kmsKeyARN).Some? && KeyByARN(l, h.kmsKeyARN).value != key.name
  {
    CanSendIff(env, wants, l, h.kmsKeyARN);
    if Sendable(env, wants, l, h.kmsKeyARN) {
      var key :| key in l && key.arn == h.kmsKeyARN && Schedulable(env, wants, key);
      var k :| 0 <= k < |l| && l[k] == key;
      SomeKeyByARN(l, k);
      var last := KeyByARN(l, key.arn).value;
      assert KeyNameFor(l, h) == Some(last);
      assert Holds(l, last);
      assert last != key.name;
    }
  }
}
