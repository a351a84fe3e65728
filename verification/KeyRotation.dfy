/**
 Rotation of the master key that wraps the data keys, and the charm that starts and retries it.

 Wrapping is symbolic.  A rotation may stop at any point; a pass may then have written any of its keys.
 */
module KeyRotation {
  import opened Basics

  type Key = nat

  datatype Provider = Local | LocalNew

  datatype Dek = Dek(plaintext: nat, provider: Provider, wrappedBy: Key)

  datatype Kms = Kms(local: Key, localNew: Key)

  function KeyOf(kms: Kms, p: Provider): Key { if p.Local? then kms.local else kms.localNew }

  predicate Readable(kms: Kms, d: Dek) { d.wrappedBy == KeyOf(kms, d.provider) }

  predicate AllReadable(kms: Kms, v: seq<Dek>) { forall i :: 0 <= i < |v| ==> Readable(kms, v[i]) }

  function Wrap(kms: Kms, p: Provider, d: Dek): Dek { Dek(d.plaintext, p, KeyOf(kms, p)) }

  /** Which keys a pass has written: all, or the ones at these indices. */
  predicate Writes(written: Option<set<nat>>, i: nat) { written.None? || i in written.value }

  function Rewrapped(kms: Kms, p: Provider, v: seq<Dek>, written: Option<set<nat>>): (w: seq<Dek>)
    ensures |w| == |v|
    ensures forall i :: 0 <= i < |v| ==> w[i] == if Writes(written, i) then Wrap(kms, p, v[i]) else v[i]
  {
    seq(|v|, i requires 0 <= i < |v| => if Writes(written, i) then Wrap(kms, p, v[i]) else v[i])
  }

  datatype Fault =
    | Runs
    | StopsDuringFirst(written: set<nat>)
    | StopsDuringSecond(written: set<nat>)

  datatype Attempt = Attempt(deks: seq<Dek>, ok: bool)

  /** One pass: it writes nothing unless it can read every key. */
  function Pass(kms: Kms, p: Provider, v: seq<Dek>, stop: Option<set<nat>>): Attempt {
    if !AllReadable(kms, v) then Attempt(v, false)
    else Attempt(Rewrapped(kms, p, v, stop), stop.None?)
  }

  function Rotate(v: seq<Dek>, old_: Key, new_: Key, fault: Fault): Attempt {
    var first := Pass(Kms(old_, new_), LocalNew, v, if fault.StopsDuringFirst? then Some(fault.written) else None);
    if !first.ok then first
    else Pass(Kms(new_, new_), Local, first.deks, if fault.StopsDuringSecond? then Some(fault.written) else None)
  }

  class KeyVault {
    var deks: seq<Dek>

    constructor (deks: seq<Dek>)
      ensures this.deks == deks
    {
      this.deks := deks;
    }

    method RewrapManyDataKey(kms: Kms, provider: Provider, stop: Option<set<nat>>) returns (ok: bool)
      modifies this
      ensures Attempt(deks, ok) == Pass(kms, provider, old(deks), stop)
    {
      for i := 0 to |deks|
        invariant forall k :: 0 <= k < i ==> Readable(kms, deks[k])
        invariant deks == old(deks)
      {
        if !Readable(kms, deks[i]) {
          return false;
        }
      }
      deks := Rewrapped(kms, provider, deks, stop);
      ok := stop.None?;
    }

    method RotateMasterKey(oldKey: Key, newKey: Key, fault: Fault) returns (ok: bool)
      modifies this
      ensures Attempt(deks, ok) == Rotate(old(deks), oldKey, newKey, fault)
    {
      ok := RewrapManyDataKey(Kms(oldKey, newKey), LocalNew,
                              if fault.StopsDuringFirst? then Some(fault.written) else None);
      if ok {
        ok := RewrapManyDataKey(Kms(newKey, newKey), Local,
                                if fault.StopsDuringSecond? then Some(fault.written) else None);
      }
    }
  }

  // ---------------------------------------------------------------------------------------------
  // One rotation
  // ---------------------------------------------------------------------------------------------

  /** Each key is still under the old master key, or already under the new one as the first pass leaves it. */
  predicate Rotatable(v: seq<Dek>, old_: Key, new_: Key) {
    forall i :: 0 <= i < |v| ==>
      (v[i].provider == Local && v[i].wrappedBy == old_) || (v[i].provider == LocalNew && v[i].wrappedBy == new_)
  }

  predicate AllUnder(v: seq<Dek>, k: Key) {
    forall i :: 0 <= i < |v| ==> v[i].provider == Local && v[i].wrappedBy == k
  }

  predicate SamePlaintexts(v: seq<Dek>, w: seq<Dek>) {
    |v| <= |w| && forall i :: 0 <= i < |v| ==> w[i].plaintext == v[i].plaintext
  }

  /** Did the second pass write anything? */
  predicate SecondWrites(v: seq<Dek>, f: Fault) {
    match f
    case Runs => v != []
    case StopsDuringFirst(_) => false
    case StopsDuringSecond(w) => exists i: nat :: i < |v| && Writes(Some(w), i)
  }

  lemma RotateKeepsPlaintexts(v: seq<Dek>, old_: Key, new_: Key, f: Fault)
    ensures |Rotate(v, old_, new_, f).deks| == |v| && SamePlaintexts(v, Rotate(v, old_, new_, f).deks)
  {
  }

  /** An undisturbed rotation succeeds exactly on a rotatable vault; otherwise it changes nothing. */
  lemma RotateSucceedsIff(v: seq<Dek>, old_: Key, new_: Key)
    ensures Rotate(v, old_, new_, Runs).ok <==> Rotatable(v, old_, new_)
    ensures Rotate(v, old_, new_, Runs).ok ==> AllUnder(Rotate(v, old_, new_, Runs).deks, new_)
    ensures forall f :: !Rotatable(v, old_, new_) ==> Rotate(v, old_, new_, f) == Attempt(v, false)
  {
    assert AllReadable(Kms(old_, new_), v) <==> Rotatable(v, old_, new_);
    if Rotatable(v, old_, new_) {
      var first := Pass(Kms(old_, new_), LocalNew, v, None);
      assert AllReadable(Kms(new_, new_), first.deks);
    }
  }

  /** A rotation reports success exactly if it could read every key and was not stopped. */
  lemma RotateOkIff(v: seq<Dek>, old_: Key, new_: Key, f: Fault)
    ensures Rotate(v, old_, new_, f).ok <==> f.Runs? && Rotatable(v, old_, new_)
  {
    RotateSucceedsIff(v, old_, new_);
  }

  lemma FirstPassRead(v: seq<Dek>, old_: Key, new_: Key, f: Fault)
    requires Rotatable(v, old_, new_) && !f.StopsDuringFirst?
    ensures var first := Pass(Kms(old_, new_), LocalNew, v, None);
      && first.ok && AllReadable(Kms(new_, new_), first.deks)
      && Rotate(v, old_, new_, f)
         == Pass(Kms(new_, new_), Local, first.deks, if f.StopsDuringSecond? then Some(f.written) else None)
  {
    assert AllReadable(Kms(old_, new_), v);
  }

  /** A rotation that was stopped can be done again with the same two keys iff its second pass wrote nothing. */
  lemma RetryableIff(v: seq<Dek>, old_: Key, new_: Key, f: Fault)
    requires Rotatable(v, old_, new_) && old_ != new_
    ensures Rotatable(Rotate(v, old_, new_, f).deks, old_, new_) <==> !SecondWrites(v, f)
  {
    if f.StopsDuringFirst? {
      assert AllReadable(Kms(old_, new_), v);
    } else {
      FirstPassRead(v, old_, new_, f);
      SecondPassBlocks(v, old_, new_, f);
    }
  }

  lemma SecondPassBlocks(v: seq<Dek>, old_: Key, new_: Key, f: Fault)
    requires Rotatable(v, old_, new_) && old_ != new_ && !f.StopsDuringFirst?
    ensures Rotatable(Rotate(v, old_, new_, f).deks, old_, new_) <==> !SecondWrites(v, f)
  {
    FirstPassRead(v, old_, new_, f);
    var w := Rotate(v, old_, new_, f).deks;
    var written := if f.StopsDuringSecond? then Some(f.written) else None;
    assert forall i :: 0 <= i < |v| ==> w[i].wrappedBy == new_ && (w[i].provider == Local <==> Writes(written, i));
    assert SecondWrites(v, f) <==> exists i: nat :: i < |v| && Writes(written, i) by {
      assert f.Runs? && v != [] ==> Writes(written, 0);
    }
  }

  // ---------------------------------------------------------------------------------------------
  // The charm
  // ---------------------------------------------------------------------------------------------

  /** The configured key, the key the unit last recorded, and the vault. */
  datatype Unit = Unit(config: Option<Key>, stored: Option<Key>, deks: seq<Dek>)

  datatype Event =
    | ConfigChanged(key: Option<Key>, leader: bool, canConnect: bool, fault: Fault)
    | Retry(leader: bool, canConnect: bool, fault: Fault)
    /** The server, started with the recorded key, makes a data key. */
    | MakesKey(plaintext: nat)

  function AfterRotation(u: Unit, k: Key, fault: Fault): Unit
    requires u.stored.Some?
  {
    var a := Rotate(u.deks, u.stored.value, k, fault);
    Unit(u.config, if a.ok then Some(k) else u.stored, a.deks)
  }

  function Step(u: Unit, e: Event): Unit {
    match e
    case ConfigChanged(key, leader, canConnect, fault) =>
      var v := u.(config := key);
      if key.None? then v.(stored := None)
      else if u.stored.Some? && key != u.stored && leader then
        if canConnect then AfterRotation(v, key.value, fault) else v
      else v.(stored := key)
    case Retry(leader, canConnect, fault) =>
      if u.config.Some? && leader && u.stored.Some? && u.stored != u.config && canConnect then
        AfterRotation(u, u.config.value, fault)
      else u
    case MakesKey(plaintext) =>
      if u.stored.Some? && u.config == u.stored then u.(deks := u.deks + [Dek(plaintext, Local, u.stored.value)])
      else u
  }

  function Run(u: Unit, es: seq<Event>): Unit {
    if es == [] then u else Step(Run(u, es[..|es| - 1]), es[|es| - 1])
  }

  class TestflingerCharm {
    const vault: KeyVault
    var config: Option<Key>
    var previousMasterKey: Option<Key>
    var blocked: bool

    function View(): Unit reads this, vault { Unit(config, previousMasterKey, vault.deks) }

    constructor (vault: KeyVault)
      ensures View() == Unit(None, None, vault.deks) && this.vault == vault
    {
      this.vault := vault;
      config, previousMasterKey, blocked := None, None, false;
    }

    method OnConfigChanged(key: Option<Key>, leader: bool, canConnect: bool, fault: Fault)
      modifies this, vault
      ensures View() == Step(old(View()), ConfigChanged(key, leader, canConnect, fault))
      ensures blocked <==> canConnect && key.Some? && previousMasterKey.Some? && previousMasterKey != key
      ensures previousMasterKey ==
              if key.None? || old(previousMasterKey).None? || key == old(previousMasterKey) || !leader
                 || (canConnect && fault.Runs? && Rotatable(old(vault.deks), old(previousMasterKey).value, key.value))
              then key else old(previousMasterKey)
    {
      config, blocked := key, false;
      var storedKey := previousMasterKey;
      if key.None? {
        previousMasterKey := None;
        return;
      }
      if storedKey.Some? && key != storedKey && leader {
        if !canConnect {
          return;
        }
        RotateOkIff(vault.deks, storedKey.value, key.value, fault);
        var ok := vault.RotateMasterKey(storedKey.value, key.value, fault);
        if !ok {
          blocked := true;
          return;
        }
      }
      previousMasterKey := key;
    }

    method OnRetryKeyRotationAction(leader: bool, canConnect: bool, fault: Fault) returns (done: bool)
      modifies this, vault
      ensures View() == Step(old(View()), Retry(leader, canConnect, fault))
      ensures done <==>
                && old(config).Some? && old(previousMasterKey).Some? && old(previousMasterKey) != old(config)
                && leader && canConnect && fault.Runs?
                && Rotatable(old(vault.deks), old(previousMasterKey).value, old(config).value)
      ensures previousMasterKey == (if done then old(config) else old(previousMasterKey)) && config == old(config)
    {
      var currentKey, storedKey := config, previousMasterKey;
      if currentKey.None? || !leader || storedKey.None? || storedKey == currentKey || !canConnect {
        return false;
      }
      RotateOkIff(vault.deks, storedKey.value, currentKey.value, fault);
      done := vault.RotateMasterKey(storedKey.value, currentKey.value, fault);
      if done {
        previousMasterKey := currentKey;
      }
    }
  }

  // ---------------------------------------------------------------------------------------------
  // Runs
  // ---------------------------------------------------------------------------------------------

  /**
   Every data key is under the recorded master key, or has been through a first pass to one other key, which is
   the only one that can finish the rotation.
   */
  ghost predicate Recoverable(u: Unit) {
    if u.stored.None? then u.deks == []
    else exists k :: k != u.stored.value && Rotatable(u.deks, u.stored.value, k)
  }

  /** The unit leads, keeps having a key, and no second pass stops half way or unreported. */
  predicate Mild(e: Event) {
    match e
    case ConfigChanged(key, leader, _, fault) => key.Some? && leader && !fault.StopsDuringSecond?
    case Retry(leader, _, fault) => leader && !fault.StopsDuringSecond?
    case MakesKey(_) => true
  }

  lemma RotationRecovers(u: Unit, k: Key, f: Fault)
    requires u.stored.Some? && u.stored.value != k && Recoverable(u) && !f.StopsDuringSecond?
    ensures Recoverable(AfterRotation(u, k, f)) && SamePlaintexts(u.deks, AfterRotation(u, k, f).deks)
  {
    var s := u.stored.value;
    RotateKeepsPlaintexts(u.deks, s, k, f);
    RotateSucceedsIff(u.deks, s, k);
    var w := AfterRotation(u, k, f);
    if Rotatable(u.deks, s, k) {
      if f.Runs? {
        assert AllUnder(w.deks, k);
        assert k + 1 != k && Rotatable(w.deks, k, k + 1);
      } else {
        RetryableIff(u.deks, s, k, f);
      }
    }
  }

  lemma StepRecovers(u: Unit, e: Event)
    requires Recoverable(u) && Mild(e)
    ensures Recoverable(Step(u, e)) && SamePlaintexts(u.deks, Step(u, e).deks)
  {
    match e {
      case ConfigChanged(key, leader, canConnect, fault) =>
        var v := u.(config := key);
        if u.stored.Some? && key != u.stored && canConnect {
          RotationRecovers(v, key.value, fault);
        } else if u.stored.None? {
          assert key.value + 1 != key.value && Rotatable([], key.value, key.value + 1);
        }
      case Retry(leader, canConnect, fault) =>
        if u.config.Some? && u.stored.Some? && u.stored != u.config && canConnect {
          RotationRecovers(u, u.config.value, fault);
        }
      case MakesKey(plaintext) =>
        if u.stored.Some? && u.config == u.stored {
          var k :| k != u.stored.value && Rotatable(u.deks, u.stored.value, k);
          assert Rotatable(Step(u, e).deks, u.stored.value, k);
        }
    }
  }

  /** Through any mild events, with any keys configured in any order, no data key is lost or changed. */
  lemma {:induction false} RunRecovers(u: Unit, es: seq<Event>)
    requires Recoverable(u) && forall i :: 0 <= i < |es| ==> Mild(es[i])
    ensures Recoverable(Run(u, es)) && SamePlaintexts(u.deks, Run(u, es).deks)
  {
    if es != [] {
      RunRecovers(u, es[..|es| - 1]);
      StepRecovers(Run(u, es[..|es| - 1]), es[|es| - 1]);
    }
  }

  predicate Towards(e: Event, k: Key) {
    Mild(e) && (e.ConfigChanged? ==> e.key == Some(k))
  }

  /** A rotation to `k` is pending and can be finished, or is done. */
  predicate OnTheWay(u: Unit, k: Key) {
    && u.config == Some(k) && u.stored.Some?
    && if u.stored == Some(k) then AllUnder(u.deks, k) else Rotatable(u.deks, u.stored.value, k)
  }

  lemma StepOnTheWay(u: Unit, e: Event, k: Key)
    requires OnTheWay(u, k) && Towards(e, k)
    ensures OnTheWay(Step(u, e), k)
  {
    if u.stored != Some(k) && !e.MakesKey? && e.canConnect {
      RotateSucceedsIff(u.deks, u.stored.value, k);
      RetryableIff(u.deks, u.stored.value, k, e.fault);
    }
  }

  lemma {:induction false} RunOnTheWay(u: Unit, es: seq<Event>, k: Key)
    requires OnTheWay(u, k) && forall i :: 0 <= i < |es| ==> Towards(es[i], k)
    ensures OnTheWay(Run(u, es), k)
  {
    if es != [] {
      RunOnTheWay(u, es[..|es| - 1], k);
      StepOnTheWay(Run(u, es[..|es| - 1]), es[|es| - 1], k);
    }
  }

  /**
   Configure a new key on a settled unit, let the rotation stop early and be retried any number of times: the
   first retry that is not stopped leaves every data key as it was, under the new master key.
   */
  lemma RetryCompletes(u: Unit, s: Key, k: Key, c: Event, es: seq<Event>, last: Event)
    requires u.stored == Some(s) && s != k && AllUnder(u.deks, s)
    requires c.ConfigChanged? && Towards(c, k) && forall i :: 0 <= i < |es| ==> Towards(es[i], k)
    requires last.Retry? && last.leader && last.canConnect && last.fault.Runs?
    ensures var w := Step(Run(Step(u, c), es), last);
      w.stored == Some(k) && AllUnder(w.deks, k) && SamePlaintexts(u.deks, w.deks)
  {
    var v := u.(config := Some(k));
    assert OnTheWay(v, k);
    assert Step(u, c) == Step(v, c);
    StepOnTheWay(v, c, k);
    RunOnTheWay(Step(u, c), es, k);
    var w := Run(Step(u, c), es);
    RotateSucceedsIff(w.deks, w.stored.value, k);
    assert Recoverable(u) by {
      assert Rotatable(u.deks, s, k);
    }
    StepRecovers(u, c);
    RunRecovers(Step(u, c), es);
    StepRecovers(w, last);
  }

  /** Once a second pass has written a key unreported, every further rotation with the two keys changes nothing. */
  lemma UnreportedBlocks(u: Unit, k: Key, f: Fault, g: Fault)
    requires u.stored.Some? && u.stored.value != k && Rotatable(u.deks, u.stored.value, k)
    requires f.StopsDuringSecond? && SecondWrites(u.deks, f)
    ensures var w := AfterRotation(u, k, f);
      w.stored == u.stored && AfterRotation(w, k, g) == w
  {
    var s := u.stored.value;
    FirstPassRead(u.deks, s, k, f);
    RetryableIff(u.deks, s, k, f);
    RotateSucceedsIff(AfterRotation(u, k, f).deks, s, k);
  }

  /**
   A unit that does not lead records a key it has not rotated to; once it leads it finds nothing to retry, so a
   rotation that the old leader did not finish stays unfinished.
   */
  lemma {:induction false} NewLeaderHasNothingToRetry(u: Unit, k: Key, c: Event, es: seq<Event>)
    requires c.ConfigChanged? && c.key == Some(k) && !c.leader
    requires forall i :: 0 <= i < |es| ==> es[i].Retry? || (es[i].ConfigChanged? && es[i].key == Some(k))
    ensures var w := Run(Step(u, c), es);
      w.config == Some(k) && w.stored == Some(k) && w.deks == u.deks
  {
    if es != [] {
      NewLeaderHasNothingToRetry(u, k, c, es[..|es| - 1]);
    }
  }

  /** Unsetting the key forgets it: the vault stays as it is, and only the same key set again fits it. */
  lemma UnsetForgets(u: Unit, s: Key, k: Key, e1: Event, e2: Event)
    requires u.stored == Some(s) && u.deks != [] && AllUnder(u.deks, s)
    requires e1.ConfigChanged? && e1.key == None && e2.ConfigChanged? && e2.key == Some(k)
    ensures var w := Step(Step(u, e1), e2);
      w.stored == Some(k) && w.deks == u.deks && (AllUnder(w.deks, k) <==> k == s)
  {
    assert u.deks[0].wrappedBy == s;
  }
}
