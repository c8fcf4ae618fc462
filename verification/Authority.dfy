/** Exclusive grants and fence tokens. The functions give the value each
    operation computes; the classes are the two mutable objects. */
module Authority {
  import opened Base
  import opened Order
  import opened Model

  // ---------------------------------------------------------------------
  // Grants, one per device, kept sorted by device.
  // ---------------------------------------------------------------------

  function Holders(grants: seq<Grant>): seq<Id> { Map(GrantDpu, grants) }

  ghost predicate GrantsSorted(grants: seq<Grant>) { StrictlySorted(Holders(grants)) }

  function Claim(grants: seq<Grant>, scope: Id, group: Id, dpu: Id, epoch: nat, boot: nat, at: nat,
                 maxGrants: nat): Result<seq<Grant>>
  {
    if scope == "" || dpu == "" || group == "" then Err(InvalidIdentity)
    else
      var k := LowerBound(Holders(grants), dpu);
      if k < |grants| && grants[k].dpu == dpu then
        if grants[k].scope == scope
        then Ok(grants[k := grants[k].(epoch := epoch, boot := boot, grantedAt := at)])
        else Err(ExclusiveScopeConflict)
      else if |grants| >= maxGrants then Err(BoundExceeded)
      else Ok(grants[..k] + [Grant(dpu, scope, group, epoch, boot, at)] + grants[k..])
  }

  function Release(grants: seq<Grant>, scope: Id, dpu: Id): seq<Grant> {
    var k := LowerBound(Holders(grants), dpu);
    if k < |grants| && grants[k].dpu == dpu && grants[k].scope == scope
    then grants[..k] + grants[k + 1..]
    else grants
  }

  /** Releases the listed scopes on one device, in order. */
  function ReleaseScopes(grants: seq<Grant>, scopes: seq<Id>, dpu: Id): seq<Grant> {
    if scopes == [] then grants
    else ReleaseScopes(Release(grants, scopes[0], dpu), scopes[1..], dpu)
  }

  function ScopesOn(grants: seq<Grant>, dpu: Id): seq<Id> {
    if grants == [] then []
    else (if grants[0].dpu == dpu then [grants[0].scope] else []) + ScopesOn(grants[1..], dpu)
  }

  /** What the reducers do when a device goes: collect its scopes, release each. */
  function ReleaseDevice(grants: seq<Grant>, dpu: Id): seq<Grant> {
    ReleaseScopes(grants, ScopesOn(grants, dpu), dpu)
  }

  /** The grant table read as a partial function from devices to owners. */
  ghost predicate Owns(grants: seq<Grant>, dpu: Id, scope: Id) {
    exists g :: g in grants && g.dpu == dpu && g.scope == scope
  }

  lemma HolderIn(grants: seq<Grant>, dpu: Id)
    ensures dpu in Holders(grants) <==> exists g :: g in grants && g.dpu == dpu
  {
    if dpu in Holders(grants) {
      var i :| 0 <= i < |grants| && Holders(grants)[i] == dpu;
      assert grants[i] in grants;
    }
    if g :| g in grants && g.dpu == dpu {
      var i :| 0 <= i < |grants| && grants[i] == g;
      assert Holders(grants)[i] == dpu;
    }
  }

  /** In a sorted table a device has one grant. */
  lemma OneOwner(grants: seq<Grant>, g: Grant, h: Grant)
    requires GrantsSorted(grants) && g in grants && h in grants && g.dpu == h.dpu
    ensures g == h
  {
    StrictlySortedDistinct(Holders(grants));
    var i :| 0 <= i < |grants| && grants[i] == g;
    var j :| 0 <= j < |grants| && grants[j] == h;
    assert Holders(grants)[i] == Holders(grants)[j];
  }

  /** The grant the binary search stops at is the device's only grant. */
  lemma SearchGrant(grants: seq<Grant>, dpu: Id)
    requires GrantsSorted(grants)
    ensures var k := LowerBound(Holders(grants), dpu);
      if k < |grants| && grants[k].dpu == dpu
      then forall g :: g in grants && g.dpu == dpu <==> g == grants[k]
      else dpu !in Holders(grants) && forall g :: g in grants ==> g.dpu != dpu
  {
    LowerBoundExact(Holders(grants), dpu);
    HolderIn(grants, dpu);
    var k := LowerBound(Holders(grants), dpu);
    if k < |grants| && grants[k].dpu == dpu {
      assert grants[k] in grants;
      forall g | g in grants && g.dpu == dpu ensures g == grants[k] { OneOwner(grants, g, grants[k]); }
    }
  }

  ghost predicate Claimed(before: seq<Grant>, after: seq<Grant>, dpu: Id, scope: Id) {
    && GrantsSorted(after)
    && Owns(after, dpu, scope)
    && (forall g: Grant :: g.dpu != dpu ==> (g in after <==> g in before))
    && (forall d :: d in Holders(after) <==> d == dpu || d in Holders(before))
  }

  lemma ClaimInserts(grants: seq<Grant>, g: Grant)
    requires GrantsSorted(grants) && g.dpu !in Holders(grants)
    ensures var k := LowerBound(Holders(grants), g.dpu);
      Claimed(grants, grants[..k] + [g] + grants[k..], g.dpu, g.scope)
  {
    var ids := Holders(grants);
    var k := LowerBound(ids, g.dpu);
    var r := grants[..k] + [g] + grants[k..];
    LowerBoundExact(ids, g.dpu);
    assert Holders(r) == ids[..k] + [g.dpu] + ids[k..];
    InsertSorted(ids, k, g.dpu);
    InsertMembers(ids, k, g.dpu);
    InsertMembers(grants, k, g);
  }

  lemma ClaimRefreshes(grants: seq<Grant>, k: nat, g: Grant)
    requires GrantsSorted(grants) && k < |grants| && g.dpu == grants[k].dpu
    ensures Claimed(grants, grants[k := g], g.dpu, g.scope)
  {
    var r := grants[k := g];
    assert Holders(r) == Holders(grants);
    assert Holders(r)[k] == g.dpu;
    assert r[k] in r;
    forall h: Grant | h.dpu != g.dpu ensures h in r <==> h in grants {
      if h in grants {
        var i :| 0 <= i < |grants| && grants[i] == h;
        assert r[i] == h;
      }
    }
  }

  /** Claiming keeps the table sorted, leaves every other device's grant alone,
      and gives the device to the scope. It fails exactly when an identity is
      missing, another scope owns the device, or a new entry finds no room. */
  lemma ClaimExact(grants: seq<Grant>, scope: Id, group: Id, dpu: Id, epoch: nat, boot: nat, at: nat,
                   maxGrants: nat)
    requires GrantsSorted(grants)
    ensures var r := Claim(grants, scope, group, dpu, epoch, boot, at, maxGrants);
      && (r.Ok? <==> && scope != "" && dpu != "" && group != ""
                     && (forall g :: g in grants && g.dpu == dpu ==> g.scope == scope)
                     && (dpu in Holders(grants) || |grants| < maxGrants))
      && (r.Ok? ==> Claimed(grants, r.value, dpu, scope))
  {
    var k := LowerBound(Holders(grants), dpu);
    SearchGrant(grants, dpu);
    if k < |grants| && grants[k].dpu == dpu {
      assert Holders(grants)[k] == dpu;
      ClaimRefreshes(grants, k, Grant(dpu, grants[k].scope, grants[k].group, epoch, boot, at));
    } else {
      ClaimInserts(grants, Grant(dpu, scope, group, epoch, boot, at));
    }
  }

  lemma RemoveMembers<T>(s: seq<T>, k: nat)
    requires k < |s|
    ensures forall y :: y in s[..k] + s[k + 1..] ==> y in s
    ensures forall y :: y in s && y != s[k] ==> y in s[..k] + s[k + 1..]
  {
    assert s == s[..k] + [s[k]] + s[k + 1..];
  }

  /** Releasing removes exactly the named grant and keeps the table sorted. */
  lemma ReleaseExact(grants: seq<Grant>, scope: Id, dpu: Id)
    requires GrantsSorted(grants)
    ensures var r := Release(grants, scope, dpu);
      && GrantsSorted(r)
      && (forall g :: g in r <==> g in grants && !(g.dpu == dpu && g.scope == scope))
  {
    var k := LowerBound(Holders(grants), dpu);
    SearchGrant(grants, dpu);
    if k < |grants| && grants[k].dpu == dpu && grants[k].scope == scope {
      var r := grants[..k] + grants[k + 1..];
      assert Holders(r) == Holders(grants)[..k] + Holders(grants)[k + 1..];
      RemoveMembers(grants, k);
      assert grants[k] !in r by { RemovedGone(grants, k); }
    }
  }

  lemma RemovedGone(grants: seq<Grant>, k: nat)
    requires GrantsSorted(grants) && k < |grants|
    ensures grants[k] !in grants[..k] + grants[k + 1..]
  {
    StrictlySortedDistinct(Holders(grants));
    forall i | 0 <= i < |grants| && i != k ensures grants[i] != grants[k] {
      assert Holders(grants)[i] != Holders(grants)[k];
    }
  }

  lemma {:induction false} ReleaseScopesExact(grants: seq<Grant>, scopes: seq<Id>, dpu: Id, g: Grant)
    requires GrantsSorted(grants)
    ensures GrantsSorted(ReleaseScopes(grants, scopes, dpu))
    ensures g in ReleaseScopes(grants, scopes, dpu) <==> g in grants && !(g.dpu == dpu && g.scope in scopes)
  {
    if scopes != [] {
      var rest := Release(grants, scopes[0], dpu);
      ReleaseExact(grants, scopes[0], dpu);
      ReleaseScopesExact(rest, scopes[1..], dpu, g);
      assert g.scope in scopes <==> g.scope == scopes[0] || g.scope in scopes[1..];
    }
  }

  lemma {:induction false} ScopesOnExact(grants: seq<Grant>, dpu: Id)
    ensures forall g :: g in grants && g.dpu == dpu ==> g.scope in ScopesOn(grants, dpu)
  {
    if grants != [] {
      ScopesOnExact(grants[1..], dpu);
      assert grants == [grants[0]] + grants[1..];
    }
  }

  /** Losing a device leaves it without any grant and touches no other. */
  lemma ReleaseDeviceExact(grants: seq<Grant>, dpu: Id)
    requires GrantsSorted(grants)
    ensures var r := ReleaseDevice(grants, dpu);
      && GrantsSorted(r)
      && (forall g :: g in r <==> g in grants && g.dpu != dpu)
  {
    ScopesOnExact(grants, dpu);
    var r := ReleaseDevice(grants, dpu);
    forall g: Grant ensures GrantsSorted(r) && (g in r <==> g in grants && g.dpu != dpu) {
      ReleaseScopesExact(grants, ScopesOn(grants, dpu), dpu, g);
    }
  }

  class AuthorityRegistry {
    var grants: seq<Grant>

    ghost predicate Valid() reads this { GrantsSorted(grants) }

    constructor ()
      ensures Valid() && grants == []
    {
      grants := [];
    }

    method OwnerOf(dpu: Id) returns (owner: Option<Grant>)
      requires Valid()
      ensures owner.Some? <==> exists g :: g in grants && g.dpu == dpu
      ensures owner.Some? ==> owner.value in grants && owner.value.dpu == dpu
    {
      var k := LowerBound(Holders(grants), dpu);
      LowerBoundExact(Holders(grants), dpu);
      HolderIn(grants, dpu);
      if k == |grants| || grants[k].dpu != dpu { return None; }
      return Some(grants[k]);
    }

    method ClaimDevice(scope: Id, group: Id, dpu: Id, epoch: nat, boot: nat, at: nat, maxGrants: nat)
      returns (status: Reason)
      requires Valid()
      modifies this
      ensures Valid()
      ensures var r := Claim(old(grants), scope, group, dpu, epoch, boot, at, maxGrants);
        if r.Ok? then status == Nominal && grants == r.value
        else status == r.code && grants == old(grants)
    {
      ClaimExact(grants, scope, group, dpu, epoch, boot, at, maxGrants);
      if scope == "" || dpu == "" || group == "" { return InvalidIdentity; }
      var k := LowerBound(Holders(grants), dpu);
      if k != |grants| && grants[k].dpu == dpu {
        if grants[k].scope == scope {
          grants := grants[k := grants[k].(epoch := epoch, boot := boot, grantedAt := at)];
          return Nominal;
        }
        return ExclusiveScopeConflict;
      }
      if |grants| >= maxGrants { return BoundExceeded; }
      grants := grants[..k] + [Grant(dpu, scope, group, epoch, boot, at)] + grants[k..];
      return Nominal;
    }

    method ReleaseGrant(scope: Id, dpu: Id) returns (released: bool)
      requires Valid()
      modifies this
      ensures Valid() && grants == Release(old(grants), scope, dpu)
      ensures released <==> Owns(old(grants), dpu, scope)
    {
      LowerBoundExact(Holders(grants), dpu);
      ReleaseExact(grants, scope, dpu);
      HolderIn(grants, dpu);
      var k := LowerBound(Holders(grants), dpu);
      if k == |grants| || grants[k].dpu != dpu || grants[k].scope != scope {
        forall g | g in grants && g.dpu == dpu ensures g.scope != scope {
          assert k < |grants| && grants[k].dpu == dpu;
          OneOwner(grants, g, grants[k]);
        }
        return false;
      }
      assert grants[k] in grants;
      grants := grants[..k] + grants[k + 1..];
      return true;
    }

    method FenceAll() returns (removed: nat)
      modifies this
      ensures Valid() && grants == [] && removed == |old(grants)|
    {
      removed := |grants|;
      grants := [];
    }
  }

  // ---------------------------------------------------------------------
  // Fences: one current serial per instance, under one epoch and boot.
  // ---------------------------------------------------------------------

  function Reset(epoch: nat, boot: nat): Fences { Fences(epoch, boot, map[]) }

  datatype Issued = Issued(fences: Fences, token: Token)

  function Issue(f: Fences, instance: Id): Result<Issued> {
    if instance == "" then Err(InvalidIdentity)
    else if f.epoch == 0 || f.boot == 0 then Err(AuthorityNotGranted)
    else if instance !in f.serials then
      Ok(Issued(f.(serials := f.serials[instance := 1]), Token(f.epoch, f.boot, 1)))
    else if f.serials[instance] >= U64_MAX then Err(ArithmeticOverflow)
    else
      var s := f.serials[instance] + 1;
      Ok(Issued(f.(serials := f.serials[instance := s]), Token(f.epoch, f.boot, s)))
  }

  predicate Validates(f: Fences, instance: Id, token: Token) {
    && token.serial != 0
    && token.epoch == f.epoch && token.boot == f.boot
    && instance in f.serials
    && f.serials[instance] == token.serial
  }

  /** Issuing makes the new token the only one that validates for the instance,
      and changes nothing for the others. */
  lemma IssueExact(f: Fences, instance: Id)
    requires Issue(f, instance).Ok?
    ensures var r := Issue(f, instance).value;
      && (forall t :: Validates(r.fences, instance, t) <==> t == r.token)
      && (forall other, t :: other != instance ==>
            (Validates(r.fences, other, t) <==> Validates(f, other, t)))
  {
    var r := Issue(f, instance).value;
    forall other, t | other != instance
      ensures Validates(r.fences, other, t) <==> Validates(f, other, t)
    {
    }
  }

  datatype Entry = Entry(instance: Id, serial: nat)

  function EntryId(e: Entry): Id { e.instance }

  /** The issuer keeps its serials in a vector searched from the front. */
  class FenceIssuer {
    var serials: seq<Entry>
    var epoch: nat
    var boot: nat

    ghost predicate Valid() reads this { Distinct(Map(EntryId, serials)) }

    ghost function View(): Fences
      reads this
    {
      Fences(epoch, boot, SerialMap(serials))
    }

    constructor (epoch: nat, boot: nat)
      ensures Valid() && View() == Reset(epoch, boot)
    {
      this.serials := [];
      this.epoch := epoch;
      this.boot := boot;
    }

    method ResetTo(epoch: nat, boot: nat)
      modifies this
      ensures Valid() && View() == Reset(epoch, boot)
    {
      this.epoch := epoch;
      this.boot := boot;
      serials := [];
    }

    method AdvanceEpoch(epoch: nat, boot: nat) returns (status: Reason)
      requires Valid()
      modifies this
      ensures Valid()
      ensures epoch < old(this.epoch) ==> status == EpochRegressed && View() == old(View())
      ensures epoch >= old(this.epoch) ==> status == Nominal && View() == Reset(epoch, boot)
    {
      if epoch < this.epoch { return EpochRegressed; }
      this.epoch := epoch;
      this.boot := boot;
      serials := [];
      return Nominal;
    }

    method Find(instance: Id) returns (k: nat)
      requires Valid()
      ensures k <= |serials|
      ensures instance in View().serials <==> k < |serials|
      ensures k < |serials| ==> serials[k].instance == instance && View().serials[instance] == serials[k].serial
    {
      SerialMapKeys(serials);
      k := 0;
      while k < |serials|
        invariant 0 <= k <= |serials|
        invariant forall j :: 0 <= j < k ==> serials[j].instance != instance
      {
        if serials[k].instance == instance {
          SerialMapAt(serials, k);
          return;
        }
        k := k + 1;
      }
    }

    method IssueToken(instance: Id) returns (token: Result<Token>)
      requires Valid()
      modifies this
      ensures Valid()
      ensures var r := Issue(old(View()), instance);
        if r.Ok? then token == Ok(r.value.token) && View() == r.value.fences
        else token == Err(r.code) && View() == old(View())
    {
      if instance == "" { return Err(InvalidIdentity); }
      if epoch == 0 || boot == 0 { return Err(AuthorityNotGranted); }
      var k := Find(instance);
      if k == |serials| {
        AppendSerial(serials, instance);
        serials := serials + [Entry(instance, 1)];
        return Ok(Token(epoch, boot, 1));
      }
      if serials[k].serial >= U64_MAX { return Err(ArithmeticOverflow); }
      var next := serials[k].serial + 1;
      UpdateSerial(serials, k, next);
      serials := serials[k := Entry(instance, next)];
      return Ok(Token(epoch, boot, next));
    }

    method Validate(instance: Id, token: Token) returns (ok: bool)
      requires Valid()
      ensures ok <==> Validates(View(), instance, token)
    {
      if token.serial == 0 { return false; }
      if token.epoch != epoch || token.boot != boot { return false; }
      var k := Find(instance);
      if k == |serials| { return false; }
      return serials[k].serial == token.serial;
    }
  }

  ghost function SerialMap(serials: seq<Entry>): map<Id, nat> {
    if serials == [] then map[]
    else SerialMap(serials[..|serials| - 1])[serials[|serials| - 1].instance := serials[|serials| - 1].serial]
  }

  lemma {:induction false} SerialMapKeys(serials: seq<Entry>)
    ensures SerialMap(serials).Keys == set e | e in serials :: e.instance
  {
    if serials != [] {
      var n := |serials| - 1;
      SerialMapKeys(serials[..n]);
      assert serials == serials[..n] + [serials[n]];
    }
  }

  lemma {:induction false} SerialMapAt(serials: seq<Entry>, j: nat)
    requires Distinct(Map(EntryId, serials)) && j < |serials|
    ensures serials[j].instance in SerialMap(serials)
    ensures SerialMap(serials)[serials[j].instance] == serials[j].serial
  {
    var n := |serials| - 1;
    if j < n {
      assert Map(EntryId, serials[..n]) == Map(EntryId, serials)[..n];
      SerialMapAt(serials[..n], j);
      assert Map(EntryId, serials)[j] != Map(EntryId, serials)[n];
    }
  }

  lemma AppendSerial(serials: seq<Entry>, instance: Id)
    requires Distinct(Map(EntryId, serials)) && instance !in SerialMap(serials)
    ensures Distinct(Map(EntryId, serials + [Entry(instance, 1)]))
    ensures SerialMap(serials + [Entry(instance, 1)]) == SerialMap(serials)[instance := 1]
  {
    SerialMapKeys(serials);
    var r := serials + [Entry(instance, 1)];
    assert r[..|serials|] == serials;
    assert Map(EntryId, r) == Map(EntryId, serials) + [instance];
    forall i | 0 <= i < |serials| ensures Map(EntryId, r)[i] != instance {
      assert serials[i] in serials;
    }
  }

  lemma {:induction false} UpdateSerial(serials: seq<Entry>, k: nat, serial: nat)
    requires Distinct(Map(EntryId, serials)) && k < |serials|
    ensures Distinct(Map(EntryId, serials[k := Entry(serials[k].instance, serial)]))
    ensures SerialMap(serials[k := Entry(serials[k].instance, serial)])
            == SerialMap(serials)[serials[k].instance := serial]
  {
    var n := |serials| - 1;
    var r := serials[k := Entry(serials[k].instance, serial)];
    assert Map(EntryId, r) == Map(EntryId, serials);
    if k < n {
      assert Map(EntryId, serials)[..n] == Map(EntryId, serials[..n]);
      assert Map(EntryId, serials)[k] != Map(EntryId, serials)[n];
      UpdateSerial(serials[..n], k, serial);
      assert r[..n] == serials[..n][k := Entry(serials[k].instance, serial)];
    } else {
      assert r[..n] == serials[..n];
    }
  }
}
