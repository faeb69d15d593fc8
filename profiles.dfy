/** Profile classification and discovery of WorkProfileModule.java:
    `getUserId`, `isWorkProfile`, `getWorkProfileUser` and `hasWorkProfile`. */
module Profiles {
  import opened Values
  import opened Android
  import Seqs

  /** `getUserId`: the identifier of the handle, or 0 when it cannot be resolved. */
  function UserId(user: UserHandle): (id: int)
    ensures user.identifier.Returns? ==> id == user.identifier.value
    ensures user.identifier.Throws? ==> id == 0
  {
    match user.identifier
    case Returns(n) => n
    case Throws(_) => 0
  }

  /** `isWorkProfile`: id 0 is personal, otherwise the managed-profile probe is
      trusted, and a probe that throws makes any non-zero id a work profile. */
  function IsWorkProfile(plat: Platform, user: UserHandle): (work: bool)
    ensures UserId(user) == 0 ==> !work
    ensures user.identifier.Throws? ==> !work
    ensures !plat.userManager || plat.sdk < LOLLIPOP ==> !work
    ensures plat.userManager && plat.sdk >= LOLLIPOP && UserId(user) != 0 ==>
              (work <==> user.managedProbe != Returns(false))
  {
    if !plat.userManager then false
    else
      var id := UserId(user);
      if id == 0 then false
      else if plat.sdk >= LOLLIPOP then
        match user.managedProbe
        case Returns(managed) => managed
        case Throws(_) => id != 0
      else false
  }

  /** The value `getWorkProfileUser` returns: the first profile classified as
      work, or none when there is no user manager, the profile list cannot be
      read, or no profile is a work profile. */
  function WorkProfileUserOf(plat: Platform): (r: Option<UserHandle>)
    ensures r.Some? ==>
              && plat.userManager && plat.profiles.Returns?
              && IsWorkProfile(plat, r.value)
              && exists k :: 0 <= k < |plat.profiles.value| && plat.profiles.value[k] == r.value
                   && forall j :: 0 <= j < k ==> !IsWorkProfile(plat, plat.profiles.value[j])
    ensures r.None? ==>
              || !plat.userManager || plat.profiles.Throws?
              || forall u :: u in plat.profiles.value ==> !IsWorkProfile(plat, u)
  {
    if !plat.userManager then None
    else match plat.profiles
      case Throws(_) => None
      case Returns(users) =>
        var k := Seqs.FirstIndex(users, u => IsWorkProfile(plat, u));
        if k < |users| then Some(users[k]) else None
  }

  /** `getWorkProfileUser`: scans the profiles and returns at the first work profile. */
  method GetWorkProfileUser(plat: Platform) returns (r: Option<UserHandle>)
    ensures r == WorkProfileUserOf(plat)
  {
    if !plat.userManager {
      return None;
    }
    match plat.profiles {
      case Throws(_) =>
        return None;
      case Returns(users) =>
        var i := 0;
        while i < |users|
          invariant 0 <= i <= |users|
          invariant forall j :: 0 <= j < i ==> !IsWorkProfile(plat, users[j])
        {
          if IsWorkProfile(plat, users[i]) {
            assert Seqs.FirstIndex(users, u => IsWorkProfile(plat, u)) == i;
            return Some(users[i]);
          }
          i := i + 1;
        }
        assert Seqs.FirstIndex(users, u => IsWorkProfile(plat, u)) == |users|;
        return None;
    }
  }

  /** The promise outcome of `hasWorkProfile`. */
  function HasWorkProfileOf(plat: Platform): (r: Response<bool>)
    ensures plat.sdk < LOLLIPOP || !plat.userManager ==> r == Resolved(false)
    ensures r.Rejected? <==> plat.sdk >= LOLLIPOP && plat.userManager && plat.profiles.Throws?
    ensures r.Rejected? ==> plat.profiles.Throws? && r.code == "ERROR" && r.message == plat.profiles.message
    ensures r == Resolved(true) <==>
              && plat.sdk >= LOLLIPOP && plat.userManager && plat.profiles.Returns?
              && exists u :: u in plat.profiles.value && IsWorkProfile(plat, u)
  {
    if plat.sdk < LOLLIPOP then Resolved(false)
    else if !plat.userManager then Resolved(false)
    else match plat.profiles
      case Throws(m) => Rejected("ERROR", m)
      case Returns(users) => Resolved(exists u :: u in users && IsWorkProfile(plat, u))
  }

  /** `hasWorkProfile`: resolves true at the first work profile found. */
  method HasWorkProfile(plat: Platform) returns (r: Response<bool>)
    ensures r == HasWorkProfileOf(plat)
  {
    if plat.sdk < LOLLIPOP {
      return Resolved(false);
    }
    if !plat.userManager {
      return Resolved(false);
    }
    match plat.profiles {
      case Throws(m) =>
        return Rejected("ERROR", m);
      case Returns(users) =>
        var i := 0;
        while i < |users|
          invariant 0 <= i <= |users|
          invariant forall j :: 0 <= j < i ==> !IsWorkProfile(plat, users[j])
        {
          if IsWorkProfile(plat, users[i]) {
            return Resolved(true);
          }
          i := i + 1;
        }
        return Resolved(false);
    }
  }

  /** `hasWorkProfile` resolves true exactly when `getWorkProfileUser` finds a
      profile, on every SDK level (below Lollipop no profile is classified work). */
  lemma HasWorkProfileIffWorkProfileUser(plat: Platform)
    ensures HasWorkProfileOf(plat) == Resolved(true) <==> WorkProfileUserOf(plat).Some?
  {
    if WorkProfileUserOf(plat).Some? {
      var u := WorkProfileUserOf(plat).value;
      assert u in plat.profiles.value;
    }
  }
}
