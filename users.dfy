/**
 * The backend's user service: accounts for elderly users and for their family
 * members, the profile each account gets, the relationships that link an
 * elderly user's profile to a family member's profile, and the permissions a
 * relationship grants.
 *
 * The four tables (`users`, `elderly_profiles`, `family_profiles`,
 * `family_relationships`) are sequences in insertion order, so "the first
 * row" of a query is the first matching element. Identifiers (uuid4 values
 * in the database) and the clock are parameters; dates are day numbers and
 * times are microseconds.
 */
module Users {
  import opened Common

  datatype UserType = Elderly | FamilyMember

  datatype RelationshipType = Child | Grandchild | Spouse | Sibling | Relative | Caregiver

  datatype User = User(
    id: string,
    userType: UserType,
    fullName: string,
    email: Option<string>,
    phone: Option<string>,
    dateOfBirth: Option<int>,
    gender: Option<string>,
    address: Option<string>,
    isActive: bool,
    createdAt: int)

  datatype ElderlyProfile = ElderlyProfile(
    id: string,
    userId: string,
    medicalConditions: seq<string>,
    currentMedications: map<string, string>,
    allergies: seq<string>,
    emergencyContact: Option<string>,
    doctorInfo: map<string, string>,
    careLevel: string,
    mobilityStatus: Option<string>,
    cognitiveStatus: Option<string>,
    createdAt: int,
    updatedAt: int)

  datatype FamilyProfile = FamilyProfile(
    id: string,
    userId: string,
    occupation: Option<string>,
    workplace: Option<string>,
    isPrimaryCaregiver: bool,
    careResponsibilities: seq<string>,
    availabilitySchedule: map<string, string>,
    createdAt: int,
    updatedAt: int)

  /** A row of `family_relationships`: `elderlyId` and `familyMemberId` are profile ids. */
  datatype Relationship = Relationship(
    id: string,
    elderlyId: string,
    familyMemberId: string,
    relationshipType: RelationshipType,
    canViewHealthData: bool,
    canReceiveNotifications: bool,
    canManageMedications: bool,
    canScheduleAppointments: bool,
    createdAt: int,
    isActive: bool)

  /** The first position of `x` in `s`, or -1 (`query.filter(...).first()`). */
  function FirstIndex<T(==)>(s: seq<T>, x: T): (i: int)
    ensures -1 <= i < |s|
    ensures i >= 0 ==> s[i] == x && forall k :: 0 <= k < i ==> s[k] != x
    ensures i == -1 <==> forall k :: 0 <= k < |s| ==> s[k] != x
  {
    if s == [] then -1
    else if s[0] == x then 0
    else var j := FirstIndex(s[1..], x); if j == -1 then -1 else j + 1
  }

  /** How often `x` occurs in `s`. */
  function Occurrences(s: seq<string>, x: string): (n: nat)
    ensures n <= |s|
    ensures n == 0 <==> forall k :: 0 <= k < |s| ==> s[k] != x
  {
    if s == [] then 0
    else Occurrences(s[..|s| - 1], x) + (if s[|s| - 1] == x then 1 else 0)
  }

  lemma OccurrencesAppend(s: seq<string>, y: string, x: string)
    ensures Occurrences(s + [y], x) == Occurrences(s, x) + (if y == x then 1 else 0)
  {
    assert (s + [y])[..|s|] == s;
  }

  // ---------------------------------------------------------------------
  // create_user: the duplicate-contact check

  /**
   * SQL `column = value` as SQLAlchemy renders `column == value`: a Python
   * `None` on the right becomes `IS NULL`.
   */
  predicate SqlEquals(column: Option<string>, value: Option<string>) {
    if value.None? then column.None? else column == value
  }

  /** `u` holds one of the given contact values (the unique columns `email` and `phone`; NULLs never clash). */
  predicate SharesContact(u: User, email: Option<string>, phone: Option<string>) {
    (email.Some? && u.email == email) || (phone.Some? && u.phone == phone)
  }

  /** The email or phone is already registered to a user. */
  predicate ContactTaken(users: seq<User>, email: Option<string>, phone: Option<string>) {
    exists i :: 0 <= i < |users| && SharesContact(users[i], email, phone)
  }

  /**
   * `create_user` as written: when an email or a phone is given, it refuses
   * if some user matches `email == email OR phone == phone` in SQL, which for
   * a contact left as `None` matches every user without that contact; the
   * insert itself fails when a unique contact is taken.
   */
  predicate CreateRejectedAsWritten(users: seq<User>, email: Option<string>, phone: Option<string>) {
    ((Truthy(email) || Truthy(phone)) &&
     exists i :: 0 <= i < |users| && (SqlEquals(users[i].email, email) || SqlEquals(users[i].phone, phone)))
    || ContactTaken(users, email, phone)
  }

  /**
   * `create_user` with the lookup restricted to the contacts actually given:
   * it refuses if a user holds the given email or the given phone; the insert
   * fails when a unique contact is taken.
   */
  predicate CreateRejected(users: seq<User>, email: Option<string>, phone: Option<string>) {
    ((Truthy(email) || Truthy(phone)) &&
     exists i :: 0 <= i < |users| &&
       ((Truthy(email) && users[i].email == email) || (Truthy(phone) && users[i].phone == phone)))
    || ContactTaken(users, email, phone)
  }

  /** The corrected check refuses a new account exactly when its email or phone belongs to an existing user. */
  lemma CreateRejectedIffTaken(users: seq<User>, email: Option<string>, phone: Option<string>)
    ensures CreateRejected(users, email, phone) <==> ContactTaken(users, email, phone)
  {
    if CreateRejected(users, email, phone) && !ContactTaken(users, email, phone) {
      var i :| 0 <= i < |users| &&
        ((Truthy(email) && users[i].email == email) || (Truthy(phone) && users[i].phone == phone));
      assert SharesContact(users[i], email, phone);
    }
  }

  /**
   * As written, a sign-up that gives only one contact is refused whenever some
   * existing user lacks the other contact, whatever that user's own contacts are.
   */
  lemma MissingContactMatchesAsWritten(users: seq<User>, email: Option<string>, phone: Option<string>, i: int)
    requires Truthy(email) || Truthy(phone)
    requires 0 <= i < |users|
    requires (email.None? && users[i].email.None?) || (phone.None? && users[i].phone.None?)
    ensures CreateRejectedAsWritten(users, email, phone)
  {
    assert SqlEquals(users[i].email, email) || SqlEquals(users[i].phone, phone);
  }

  /**
   * A concrete case: with one user registered by phone "0901" only, a new
   * user registering by phone "0902" only is refused as written, although
   * neither contact is taken.
   */
  lemma PhoneOnlySignUpRejectedAsWritten()
    ensures var users := [NewUser("u1", Elderly, "Lan", None, Some("0901"), None, None, None, 0)];
            CreateRejectedAsWritten(users, None, Some("0902")) &&
            !ContactTaken(users, None, Some("0902")) &&
            !CreateRejected(users, None, Some("0902"))
  {
    var users := [NewUser("u1", Elderly, "Lan", None, Some("0901"), None, None, None, 0)];
    MissingContactMatchesAsWritten(users, None, Some("0902"), 0);
    assert "0901" != "0902" by { assert "0901"[3] != "0902"[3]; }
    CreateRejectedIffTaken(users, None, Some("0902"));
  }

  // ---------------------------------------------------------------------
  // create_user: the new rows

  /** The user row `create_user` inserts; the column defaults make it active. */
  function NewUser(id: string, userType: UserType, fullName: string, email: Option<string>,
                   phone: Option<string>, dateOfBirth: Option<int>, gender: Option<string>,
                   address: Option<string>, now: int): User
  {
    User(id, userType, fullName, email, phone, dateOfBirth, gender, address, true, now)
  }

  /** An elderly profile with the column defaults: empty lists and dictionaries, care level "independent". */
  function NewElderlyProfile(id: string, userId: string, now: int): ElderlyProfile {
    ElderlyProfile(id, userId, [], map[], [], None, map[], "independent", None, None, now, now)
  }

  /** A family profile with the column defaults: not the primary caregiver, no responsibilities. */
  function NewFamilyProfile(id: string, userId: string, now: int): FamilyProfile {
    FamilyProfile(id, userId, None, None, false, [], map[], now, now)
  }

  /** The owning user of each elderly profile, in table order. */
  function ElderlyOwners(ps: seq<ElderlyProfile>): (r: seq<string>)
    ensures |r| == |ps| && forall k :: 0 <= k < |ps| ==> r[k] == ps[k].userId
  {
    Project(ps, (p: ElderlyProfile) => p.userId)
  }

  /** The owning user of each family profile, in table order. */
  function FamilyOwners(ps: seq<FamilyProfile>): (r: seq<string>)
    ensures |r| == |ps| && forall k :: 0 <= k < |ps| ==> r[k] == ps[k].userId
  {
    Project(ps, (p: FamilyProfile) => p.userId)
  }

  predicate HasUserId(users: seq<User>, id: string) {
    exists i :: 0 <= i < |users| && users[i].id == id
  }

  /** Every profile belongs to a user. */
  predicate ProfilesOwned(users: seq<User>, owners: seq<string>) {
    forall k :: 0 <= k < |owners| ==> HasUserId(users, owners[k])
  }

  /** Each user has exactly one profile: an elderly one for an elderly user, a family one otherwise. */
  predicate OneProfileEach(users: seq<User>, elderlyOwners: seq<string>, familyOwners: seq<string>) {
    forall i :: 0 <= i < |users| ==>
      Occurrences(elderlyOwners, users[i].id) == (if users[i].userType == Elderly then 1 else 0) &&
      Occurrences(familyOwners, users[i].id) == (if users[i].userType == Elderly then 0 else 1)
  }

  /**
   * Adding a user with a fresh id together with the one profile of its type
   * keeps every user at exactly one profile.
   */
  lemma NewUserKeepsOneProfileEach(users: seq<User>, elderlyOwners: seq<string>, familyOwners: seq<string>, u: User)
    requires ProfilesOwned(users, elderlyOwners) && ProfilesOwned(users, familyOwners)
    requires OneProfileEach(users, elderlyOwners, familyOwners)
    requires !HasUserId(users, u.id)
    ensures u.userType == Elderly ==> OneProfileEach(users + [u], elderlyOwners + [u.id], familyOwners)
    ensures u.userType != Elderly ==> OneProfileEach(users + [u], elderlyOwners, familyOwners + [u.id])
    ensures ProfilesOwned(users + [u], elderlyOwners + [u.id]) && ProfilesOwned(users + [u], familyOwners + [u.id])
    ensures ProfilesOwned(users + [u], elderlyOwners) && ProfilesOwned(users + [u], familyOwners)
    ensures Occurrences(elderlyOwners, u.id) == 0 && Occurrences(familyOwners, u.id) == 0
  {
    var users' := users + [u];
    forall i | 0 <= i < |users'|
      ensures Occurrences(elderlyOwners + [u.id], users'[i].id) == Occurrences(elderlyOwners, users'[i].id) + (if i == |users| then 1 else 0)
      ensures Occurrences(familyOwners + [u.id], users'[i].id) == Occurrences(familyOwners, users'[i].id) + (if i == |users| then 1 else 0)
      ensures i < |users| ==> users'[i] == users[i]
    {
      OccurrencesAppend(elderlyOwners, u.id, users'[i].id);
      OccurrencesAppend(familyOwners, u.id, users'[i].id);
      if i < |users| {
        assert users'[i] == users[i];
        assert users[i].id != u.id;
      } else {
        forall k | 0 <= k < |elderlyOwners| ensures elderlyOwners[k] != u.id {
          assert HasUserId(users, elderlyOwners[k]);
        }
        forall k | 0 <= k < |familyOwners| ensures familyOwners[k] != u.id {
          assert HasUserId(users, familyOwners[k]);
        }
      }
    }
    forall k | 0 <= k < |elderlyOwners| + 1 ensures HasUserId(users', (elderlyOwners + [u.id])[k]) {
      if k < |elderlyOwners| {
        var j :| 0 <= j < |users| && users[j].id == elderlyOwners[k];
        assert users'[j] == users[j];
      } else {
        assert users'[|users|] == u;
      }
    }
    forall k | 0 <= k < |familyOwners| + 1 ensures HasUserId(users', (familyOwners + [u.id])[k]) {
      if k < |familyOwners| {
        var j :| 0 <= j < |users| && users[j].id == familyOwners[k];
        assert users'[j] == users[j];
      } else {
        assert users'[|users|] == u;
      }
    }
    forall k | 0 <= k < |elderlyOwners| ensures HasUserId(users', elderlyOwners[k]) {
      assert (elderlyOwners + [u.id])[k] == elderlyOwners[k];
    }
    forall k | 0 <= k < |familyOwners| ensures HasUserId(users', familyOwners[k]) {
      assert (familyOwners + [u.id])[k] == familyOwners[k];
    }
  }

  // ---------------------------------------------------------------------
  // Relationships and their permissions

  /** The boolean columns of a relationship. */
  datatype Column = ViewHealthData | ReceiveNotifications | ManageMedications | ScheduleAppointments | IsActive

  /** A column's name: the key a permissions dictionary uses for it. */
  function Key(c: Column): string {
    match c
    case ViewHealthData => "can_view_health_data"
    case ReceiveNotifications => "can_receive_notifications"
    case ManageMedications => "can_manage_medications"
    case ScheduleAppointments => "can_schedule_appointments"
    case IsActive => "is_active"
  }

  lemma KeyInjective(c: Column, d: Column)
    ensures Key(c) == Key(d) ==> c == d
  {
    assert Key(ReceiveNotifications)[4] != Key(ScheduleAppointments)[4];
  }

  /** The boolean column `key` names, if it names one. */
  function ColumnOf(key: string): (r: Option<Column>)
    ensures r.Some? ==> Key(r.value) == key
    ensures r.None? ==> forall c :: Key(c) != key
  {
    if key == Key(ViewHealthData) then Some(ViewHealthData)
    else if key == Key(ReceiveNotifications) then Some(ReceiveNotifications)
    else if key == Key(ManageMedications) then Some(ManageMedications)
    else if key == Key(ScheduleAppointments) then Some(ScheduleAppointments)
    else if key == Key(IsActive) then Some(IsActive)
    else None
  }

  function Flag(r: Relationship, c: Column): bool {
    match c
    case ViewHealthData => r.canViewHealthData
    case ReceiveNotifications => r.canReceiveNotifications
    case ManageMedications => r.canManageMedications
    case ScheduleAppointments => r.canScheduleAppointments
    case IsActive => r.isActive
  }

  /** `r` and `s` are the same link: same id, profiles, type and creation time. */
  predicate SameLink(r: Relationship, s: Relationship) {
    r.id == s.id && r.elderlyId == s.elderlyId && r.familyMemberId == s.familyMemberId &&
    r.relationshipType == s.relationshipType && r.createdAt == s.createdAt
  }

  /** `r` with column `c` set to `v`. */
  function WithFlag(r: Relationship, c: Column, v: bool): (s: Relationship)
    ensures forall d :: Flag(s, d) == if d == c then v else Flag(r, d)
    ensures SameLink(s, r)
  {
    match c
    case ViewHealthData => r.(canViewHealthData := v)
    case ReceiveNotifications => r.(canReceiveNotifications := v)
    case ManageMedications => r.(canManageMedications := v)
    case ScheduleAppointments => r.(canScheduleAppointments := v)
    case IsActive => r.(isActive := v)
  }

  /** Every key of a permissions dictionary (its items in order) names a boolean column. */
  predicate AllFlagKeys(permissions: seq<(string, bool)>) {
    forall i :: 0 <= i < |permissions| ==> ColumnOf(permissions[i].0).Some?
  }

  /** The value a dictionary built from `items` holds for `key`: the last one given. */
  function Lookup(items: seq<(string, bool)>, key: string): (r: Option<bool>)
    ensures r.None? <==> forall i :: 0 <= i < |items| ==> items[i].0 != key
    ensures r.Some? ==> (key, r.value) in items
  {
    if items == [] then None
    else if items[|items| - 1].0 == key then Some(items[|items| - 1].1)
    else Lookup(items[..|items| - 1], key)
  }

  /** `setattr(relationship, key, value)` for a boolean column; any other key leaves it as it is. */
  function SetFlag(r: Relationship, key: string, value: bool): Relationship {
    match ColumnOf(key)
    case None => r
    case Some(c) => WithFlag(r, c, value)
  }

  /** The items applied with `SetFlag` in order. */
  function SetFlags(r: Relationship, items: seq<(string, bool)>): Relationship {
    if items == [] then r
    else var last := items[|items| - 1]; SetFlag(SetFlags(r, items[..|items| - 1]), last.0, last.1)
  }

  /** One `setattr` changes the column its key names, if it names one, and nothing else. */
  lemma SetFlagEffect(r: Relationship, key: string, value: bool)
    ensures forall c :: Flag(SetFlag(r, key, value), c) == if key == Key(c) then value else Flag(r, c)
    ensures SameLink(SetFlag(r, key, value), r)
  {
    forall c ensures Flag(SetFlag(r, key, value), c) == if key == Key(c) then value else Flag(r, c) {
      if ColumnOf(key).Some? {
        KeyInjective(ColumnOf(key).value, c);
      }
    }
  }

  /**
   * Applying a permissions dictionary sets each boolean column to the last
   * value given for it, keeps the other boolean columns, and keeps the link
   * itself (its id, profiles, type and creation time).
   */
  lemma {:induction false} SetFlagsSpec(r: Relationship, items: seq<(string, bool)>)
    ensures forall c :: Flag(SetFlags(r, items), c) == Or(Lookup(items, Key(c)), Flag(r, c))
    ensures SameLink(SetFlags(r, items), r)
  {
    if items != [] {
      var init := items[..|items| - 1];
      var last := items[|items| - 1];
      SetFlagsSpec(r, init);
      SetFlagEffect(SetFlags(r, init), last.0, last.1);
    }
  }

  /** The permissions a relationship has when none are supplied (the column defaults). */
  function DefaultFlag(c: Column): bool {
    c != ManageMedications && c != ScheduleAppointments
  }

  /**
   * The relationship `create_family_relationship` inserts: the defaults
   * (view health data and receive notifications allowed, managing medications
   * and scheduling appointments not, active) updated with the supplied
   * permissions.
   */
  function NewRelationship(id: string, elderlyId: string, familyMemberId: string, relationshipType: RelationshipType,
                           permissions: seq<(string, bool)>, now: int): Relationship
  {
    SetFlags(Relationship(id, elderlyId, familyMemberId, relationshipType, true, true, false, false, now, true),
             permissions)
  }

  /**
   * A new relationship's boolean columns are the supplied values where given
   * and the defaults where not; it links the two given profiles.
   */
  lemma NewRelationshipPermissions(id: string, elderlyId: string, familyMemberId: string,
                                   relationshipType: RelationshipType, permissions: seq<(string, bool)>, now: int)
    ensures var r := NewRelationship(id, elderlyId, familyMemberId, relationshipType, permissions, now);
            (forall c :: Flag(r, c) == Or(Lookup(permissions, Key(c)), DefaultFlag(c))) &&
            r.id == id && r.elderlyId == elderlyId && r.familyMemberId == familyMemberId &&
            r.relationshipType == relationshipType && r.createdAt == now
  {
    var base := Relationship(id, elderlyId, familyMemberId, relationshipType, true, true, false, false, now, true);
    SetFlagsSpec(base, permissions);
    assert forall c :: Flag(base, c) == DefaultFlag(c);
  }

  function Pairs(rels: seq<Relationship>): (r: seq<(string, string)>)
    ensures |r| == |rels| && forall k :: 0 <= k < |rels| ==> r[k] == (rels[k].elderlyId, rels[k].familyMemberId)
  {
    seq(|rels|, k requires 0 <= k < |rels| => (rels[k].elderlyId, rels[k].familyMemberId))
  }

  /** No two relationships link the same elderly profile to the same family profile. */
  predicate UniquePairs(rels: seq<Relationship>) {
    forall i, j :: 0 <= i < j < |rels| ==>
      rels[i].elderlyId != rels[j].elderlyId || rels[i].familyMemberId != rels[j].familyMemberId
  }

  predicate HasUserOfType(users: seq<User>, id: string, t: UserType) {
    exists i :: 0 <= i < |users| && users[i].id == id && users[i].userType == t
  }

  /**
   * `create_family_relationship`: the relationship to insert, or `None` when
   * the first user is not an elderly user, the second is not a family member,
   * either has no profile, their first profiles are already linked, or the
   * permissions name a key that is not a boolean column (the record
   * constructor or the insert then raises).
   */
  function RelationshipFor(users: seq<User>, eps: seq<ElderlyProfile>, fps: seq<FamilyProfile>,
                           rels: seq<Relationship>, id: string, elderlyUserId: string, familyMemberId: string,
                           relationshipType: RelationshipType, permissions: seq<(string, bool)>, now: int)
    : (r: Option<Relationship>)
  {
    if !HasUserOfType(users, elderlyUserId, Elderly) || !HasUserOfType(users, familyMemberId, FamilyMember) then None
    else
      var e := FirstIndex(ElderlyOwners(eps), elderlyUserId);
      var f := FirstIndex(FamilyOwners(fps), familyMemberId);
      if e < 0 || f < 0 then None
      else if FirstIndex(Pairs(rels), (eps[e].id, fps[f].id)) >= 0 then None
      else if !AllFlagKeys(permissions) then None
      else Some(NewRelationship(id, eps[e].id, fps[f].id, relationshipType, permissions, now))
  }

  /**
   * A relationship is created only between an elderly user and a family
   * member, links a profile of each, repeats no existing link, and carries
   * only boolean-column keys.
   */
  lemma RelationshipForSound(users: seq<User>, eps: seq<ElderlyProfile>, fps: seq<FamilyProfile>,
                             rels: seq<Relationship>, id: string, elderlyUserId: string, familyMemberId: string,
                             relationshipType: RelationshipType, permissions: seq<(string, bool)>, now: int)
    requires RelationshipFor(users, eps, fps, rels, id, elderlyUserId, familyMemberId, relationshipType, permissions, now).Some?
    ensures var r := RelationshipFor(users, eps, fps, rels, id, elderlyUserId, familyMemberId, relationshipType,
                                     permissions, now).value;
            HasUserOfType(users, elderlyUserId, Elderly) && HasUserOfType(users, familyMemberId, FamilyMember) &&
            (exists e :: 0 <= e < |eps| && eps[e].userId == elderlyUserId && eps[e].id == r.elderlyId) &&
            (exists f :: 0 <= f < |fps| && fps[f].userId == familyMemberId && fps[f].id == r.familyMemberId) &&
            (forall k :: 0 <= k < |rels| ==>
               rels[k].elderlyId != r.elderlyId || rels[k].familyMemberId != r.familyMemberId) &&
            AllFlagKeys(permissions) &&
            r == NewRelationship(id, r.elderlyId, r.familyMemberId, relationshipType, permissions, now)
  {
    var e := FirstIndex(ElderlyOwners(eps), elderlyUserId);
    var f := FirstIndex(FamilyOwners(fps), familyMemberId);
    assert eps[e].userId == elderlyUserId;
    assert fps[f].userId == familyMemberId;
    NewRelationshipPermissions(id, eps[e].id, fps[f].id, relationshipType, permissions, now);
    forall k | 0 <= k < |rels|
      ensures rels[k].elderlyId != eps[e].id || rels[k].familyMemberId != fps[f].id
    {
      assert Pairs(rels)[k] != (eps[e].id, fps[f].id);
    }
  }

  /**
   * Conversely, an elderly user and a family member who both have a profile,
   * whose profiles are not linked yet, get a relationship for any permissions
   * that name boolean columns only.
   */
  lemma RelationshipForComplete(users: seq<User>, eps: seq<ElderlyProfile>, fps: seq<FamilyProfile>,
                                rels: seq<Relationship>, id: string, elderlyUserId: string, familyMemberId: string,
                                relationshipType: RelationshipType, permissions: seq<(string, bool)>, now: int,
                                e: int, f: int)
    requires HasUserOfType(users, elderlyUserId, Elderly) && HasUserOfType(users, familyMemberId, FamilyMember)
    requires 0 <= e < |eps| && eps[e].userId == elderlyUserId
    requires 0 <= f < |fps| && fps[f].userId == familyMemberId
    requires forall k, e', f' :: (0 <= k < |rels| && 0 <= e' < |eps| && 0 <= f' < |fps| &&
                                  eps[e'].userId == elderlyUserId && fps[f'].userId == familyMemberId) ==>
               (rels[k].elderlyId != eps[e'].id || rels[k].familyMemberId != fps[f'].id)
    requires AllFlagKeys(permissions)
    ensures RelationshipFor(users, eps, fps, rels, id, elderlyUserId, familyMemberId, relationshipType,
                            permissions, now).Some?
  {
    assert ElderlyOwners(eps)[e] == elderlyUserId;
    assert FamilyOwners(fps)[f] == familyMemberId;
    var e0 := FirstIndex(ElderlyOwners(eps), elderlyUserId);
    var f0 := FirstIndex(FamilyOwners(fps), familyMemberId);
    assert eps[e0].userId == elderlyUserId && fps[f0].userId == familyMemberId;
  }

  /** Creating a relationship keeps every pair of linked profiles unique. */
  lemma RelationshipForKeepsPairsUnique(users: seq<User>, eps: seq<ElderlyProfile>, fps: seq<FamilyProfile>,
                                        rels: seq<Relationship>, id: string, elderlyUserId: string,
                                        familyMemberId: string, relationshipType: RelationshipType,
                                        permissions: seq<(string, bool)>, now: int)
    requires UniquePairs(rels)
    requires RelationshipFor(users, eps, fps, rels, id, elderlyUserId, familyMemberId, relationshipType, permissions, now).Some?
    ensures UniquePairs(rels + [RelationshipFor(users, eps, fps, rels, id, elderlyUserId, familyMemberId,
                                                relationshipType, permissions, now).value])
  {
    RelationshipForSound(users, eps, fps, rels, id, elderlyUserId, familyMemberId, relationshipType, permissions, now);
  }

  /** Once a relationship links two users' profiles, asking for it again is refused. */
  lemma SecondRelationshipRejected(users: seq<User>, eps: seq<ElderlyProfile>, fps: seq<FamilyProfile>,
                                   rels: seq<Relationship>, id: string, elderlyUserId: string,
                                   familyMemberId: string, relationshipType: RelationshipType,
                                   permissions: seq<(string, bool)>, now: int,
                                   id2: string, relationshipType2: RelationshipType,
                                   permissions2: seq<(string, bool)>, now2: int)
    requires RelationshipFor(users, eps, fps, rels, id, elderlyUserId, familyMemberId, relationshipType, permissions, now).Some?
    ensures var r := RelationshipFor(users, eps, fps, rels, id, elderlyUserId, familyMemberId, relationshipType,
                                     permissions, now).value;
            RelationshipFor(users, eps, fps, rels + [r], id2, elderlyUserId, familyMemberId, relationshipType2,
                            permissions2, now2) == None
  {
    var r := RelationshipFor(users, eps, fps, rels, id, elderlyUserId, familyMemberId, relationshipType,
                             permissions, now).value;
    var e := FirstIndex(ElderlyOwners(eps), elderlyUserId);
    var f := FirstIndex(FamilyOwners(fps), familyMemberId);
    NewRelationshipPermissions(id, eps[e].id, fps[f].id, relationshipType, permissions, now);
    assert Pairs(rels + [r])[|rels|] == (eps[e].id, fps[f].id);
  }

  /**
   * The relationship `update_relationship_permissions` changes: the one
   * linking the first profiles of the two users, or -1 when either has no
   * profile or no relationship links them.
   */
  function RelationshipIndex(eps: seq<ElderlyProfile>, fps: seq<FamilyProfile>, rels: seq<Relationship>,
                             elderlyUserId: string, familyMemberId: string): (i: int)
    ensures -1 <= i < |rels|
    ensures i >= 0 ==>
              (exists e :: 0 <= e < |eps| && eps[e].userId == elderlyUserId && eps[e].id == rels[i].elderlyId) &&
              (exists f :: 0 <= f < |fps| && fps[f].userId == familyMemberId && fps[f].id == rels[i].familyMemberId)
  {
    var e := FirstIndex(ElderlyOwners(eps), elderlyUserId);
    var f := FirstIndex(FamilyOwners(fps), familyMemberId);
    if e < 0 || f < 0 then -1
    else
      var i := FirstIndex(Pairs(rels), (eps[e].id, fps[f].id));
      assert i >= 0 ==> eps[e].userId == elderlyUserId && fps[f].userId == familyMemberId &&
                        Pairs(rels)[i] == (eps[e].id, fps[f].id);
      i
  }

  // ---------------------------------------------------------------------
  // update_elderly_profile

  /** A column of an elderly profile and the value to set, or a key that is no column. */
  datatype ProfileField =
    | Id(id: string)
    | UserId(userId: string)
    | MedicalConditions(conditions: seq<string>)
    | CurrentMedications(medications: map<string, string>)
    | Allergies(allergies: seq<string>)
    | EmergencyContact(contact: string)
    | DoctorInfo(info: map<string, string>)
    | CareLevel(level: string)
    | MobilityStatus(status: string)
    | CognitiveStatus(status: string)
    | CreatedAt(createdAt: int)
    | UpdatedAt(updatedAt: int)
    | NotAColumn(key: string)

  /** One entry of the update dictionary; `None` is an entry whose value is `None`. */
  type ProfileUpdate = Option<ProfileField>

  function Named<T>(v: Option<T>, field: T -> ProfileField): ProfileUpdate {
    if v.Some? then Some(field(v.value)) else None
  }

  /** The update dictionary: the five named arguments in order, then the extra keywords. */
  function ElderlyUpdates(medicalConditions: Option<seq<string>>, currentMedications: Option<map<string, string>>,
                          allergies: Option<seq<string>>, emergencyContact: Option<string>,
                          doctorInfo: Option<map<string, string>>, extra: seq<ProfileUpdate>): seq<ProfileUpdate>
  {
    [Named(medicalConditions, (c: seq<string>) => MedicalConditions(c))] +
    ([Named(currentMedications, (m: map<string, string>) => CurrentMedications(m))] +
     ([Named(allergies, (a: seq<string>) => Allergies(a))] +
      ([Named(emergencyContact, (c: string) => EmergencyContact(c))] +
       ([Named(doctorInfo, (d: map<string, string>) => DoctorInfo(d))] + extra))))
  }

  /** The entry leaves the profile's id, owner and two times alone. */
  predicate KeepsIdentity(u: ProfileUpdate) {
    u.None? || !(u.value.Id? || u.value.UserId? || u.value.CreatedAt? || u.value.UpdatedAt?)
  }

  /** One step of the loop: a `None` value or a key that is no column is skipped. */
  function ApplyProfileUpdate(p: ElderlyProfile, u: ProfileUpdate): (q: ElderlyProfile)
    ensures u.None? || u.value.NotAColumn? ==> q == p
    ensures KeepsIdentity(u) ==>
              q.id == p.id && q.userId == p.userId && q.createdAt == p.createdAt && q.updatedAt == p.updatedAt
  {
    match u
    case None => p
    case Some(Id(v)) => p.(id := v)
    case Some(UserId(v)) => p.(userId := v)
    case Some(CreatedAt(t)) => p.(createdAt := t)
    case Some(UpdatedAt(t)) => p.(updatedAt := t)
    case Some(MedicalConditions(c)) => p.(medicalConditions := c)
    case Some(CurrentMedications(m)) => p.(currentMedications := m)
    case Some(Allergies(a)) => p.(allergies := a)
    case Some(EmergencyContact(c)) => p.(emergencyContact := Some(c))
    case Some(DoctorInfo(d)) => p.(doctorInfo := d)
    case Some(CareLevel(l)) => p.(careLevel := l)
    case Some(MobilityStatus(s)) => p.(mobilityStatus := Some(s))
    case Some(CognitiveStatus(s)) => p.(cognitiveStatus := Some(s))
    case Some(NotAColumn(_)) => p
  }

  /** The entries applied in turn; the id, owner and creation time change only when an entry names them. */
  function ApplyProfileUpdates(p: ElderlyProfile, us: seq<ProfileUpdate>): (q: ElderlyProfile)
    ensures (forall k :: 0 <= k < |us| ==> KeepsIdentity(us[k])) ==>
              q.id == p.id && q.userId == p.userId && q.createdAt == p.createdAt
    ensures q.userId == p.userId || exists k :: 0 <= k < |us| && us[k] == Some(UserId(q.userId))
  {
    if us == [] then p
    else
      var prev := ApplyProfileUpdates(p, us[..|us| - 1]);
      var q := ApplyProfileUpdate(prev, us[|us| - 1]);
      assert q.userId == p.userId || exists k :: 0 <= k < |us| && us[k] == Some(UserId(q.userId)) by {
        if q.userId != prev.userId {
          assert us[|us| - 1] == Some(UserId(q.userId));
        } else if q.userId != p.userId {
          var k :| 0 <= k < |us| - 1 && us[..|us| - 1][k] == Some(UserId(prev.userId));
          assert us[k] == Some(UserId(q.userId));
        }
      }
      q
  }

  /** Entries whose value is `None`, and keys that are no column, change nothing. */
  lemma {:induction false} SkippedUpdatesChangeNothing(p: ElderlyProfile, us: seq<ProfileUpdate>)
    requires forall i :: 0 <= i < |us| ==> us[i].None? || us[i].value.NotAColumn?
    ensures ApplyProfileUpdates(p, us) == p
  {
    if us != [] {
      SkippedUpdatesChangeNothing(p, us[..|us| - 1]);
    }
  }

  lemma {:induction false} ApplyProfileUpdatesAppend(p: ElderlyProfile, a: seq<ProfileUpdate>, b: seq<ProfileUpdate>)
    ensures ApplyProfileUpdates(p, a + b) == ApplyProfileUpdates(ApplyProfileUpdates(p, a), b)
  {
    if b == [] {
      assert a + b == a;
    } else {
      assert (a + b)[..|a + b| - 1] == a + b[..|b| - 1];
      ApplyProfileUpdatesAppend(p, a, b[..|b| - 1]);
    }
  }

  lemma ApplyProfileUpdatesCons(p: ElderlyProfile, u: ProfileUpdate, rest: seq<ProfileUpdate>)
    ensures ApplyProfileUpdates(p, [u] + rest) == ApplyProfileUpdates(ApplyProfileUpdate(p, u), rest)
  {
    ApplyProfileUpdatesAppend(p, [u], rest);
    assert [u][..0] == [];
  }

  /**
   * The named arguments of `update_elderly_profile`: each given one replaces
   * its column, each left as `None` keeps the stored value; the extra keywords
   * are applied after them.
   */
  lemma NamedArgumentsSpec(p: ElderlyProfile, medicalConditions: Option<seq<string>>,
                           currentMedications: Option<map<string, string>>, allergies: Option<seq<string>>,
                           emergencyContact: Option<string>, doctorInfo: Option<map<string, string>>,
                           extra: seq<ProfileUpdate>)
    ensures ApplyProfileUpdates(p, ElderlyUpdates(medicalConditions, currentMedications, allergies,
                                                  emergencyContact, doctorInfo, extra)) ==
            ApplyProfileUpdates(p.(medicalConditions := Or(medicalConditions, p.medicalConditions),
                                   currentMedications := Or(currentMedications, p.currentMedications),
                                   allergies := Or(allergies, p.allergies),
                                   emergencyContact := if emergencyContact.Some? then emergencyContact
                                                       else p.emergencyContact,
                                   doctorInfo := Or(doctorInfo, p.doctorInfo)),
                                extra)
  {
    var u1 := Named(medicalConditions, (c: seq<string>) => MedicalConditions(c));
    var u2 := Named(currentMedications, (m: map<string, string>) => CurrentMedications(m));
    var u3 := Named(allergies, (a: seq<string>) => Allergies(a));
    var u4 := Named(emergencyContact, (c: string) => EmergencyContact(c));
    var u5 := Named(doctorInfo, (d: map<string, string>) => DoctorInfo(d));
    var p1 := ApplyProfileUpdate(p, u1);
    var p2 := ApplyProfileUpdate(p1, u2);
    var p3 := ApplyProfileUpdate(p2, u3);
    var p4 := ApplyProfileUpdate(p3, u4);
    var p5 := ApplyProfileUpdate(p4, u5);
    assert p1 == p.(medicalConditions := Or(medicalConditions, p.medicalConditions));
    assert p2 == p1.(currentMedications := Or(currentMedications, p.currentMedications));
    assert p3 == p2.(allergies := Or(allergies, p.allergies));
    assert p4 == p3.(emergencyContact := if emergencyContact.Some? then emergencyContact else p.emergencyContact);
    assert p5 == p4.(doctorInfo := Or(doctorInfo, p.doctorInfo));
    ApplyProfileUpdatesCons(p, u1, [u2] + ([u3] + ([u4] + ([u5] + extra))));
    ApplyProfileUpdatesCons(p1, u2, [u3] + ([u4] + ([u5] + extra)));
    ApplyProfileUpdatesCons(p2, u3, [u4] + ([u5] + extra));
    ApplyProfileUpdatesCons(p3, u4, [u5] + extra);
    ApplyProfileUpdatesCons(p4, u5, extra);
  }

  /** The entry does not move the profile to another user. */
  predicate KeepsOwner(u: ProfileUpdate) {
    u.None? || !u.value.UserId?
  }

  /** The five named arguments never name the owner, so only an extra keyword can move the profile. */
  lemma ElderlyUpdatesKeepOwner(p: ElderlyProfile, medicalConditions: Option<seq<string>>,
                                currentMedications: Option<map<string, string>>, allergies: Option<seq<string>>,
                                emergencyContact: Option<string>, doctorInfo: Option<map<string, string>>,
                                extra: seq<ProfileUpdate>)
    requires forall k :: 0 <= k < |extra| ==> KeepsOwner(extra[k])
    ensures ApplyProfileUpdates(p, ElderlyUpdates(medicalConditions, currentMedications, allergies,
                                                  emergencyContact, doctorInfo, extra)).userId == p.userId
  {
  }

  /** The loop of `update_elderly_profile`: `setattr` for each entry that has a value and names a column. */
  method ApplyUpdates(p: ElderlyProfile, updates: seq<ProfileUpdate>) returns (q: ElderlyProfile)
    ensures q == ApplyProfileUpdates(p, updates)
  {
    q := p;
    for k := 0 to |updates|
      invariant q == ApplyProfileUpdates(p, updates[..k])
    {
      assert updates[..k + 1][..k] == updates[..k];
      q := ApplyProfileUpdate(q, updates[k]);
    }
    assert updates[..|updates|] == updates;
  }

  // ---------------------------------------------------------------------
  // The invariant of the four tables

  /** Every profile belongs to a user, every user has exactly one profile, and links are unique. */
  predicate Consistent(users: seq<User>, eps: seq<ElderlyProfile>, fps: seq<FamilyProfile>, rels: seq<Relationship>) {
    ProfilesOwned(users, ElderlyOwners(eps)) && ProfilesOwned(users, FamilyOwners(fps)) &&
    OneProfileEach(users, ElderlyOwners(eps), FamilyOwners(fps)) && UniquePairs(rels)
  }

  /** An elderly user with a fresh id, added with its elderly profile, keeps the tables consistent. */
  lemma AddElderlyKeepsConsistent(users: seq<User>, eps: seq<ElderlyProfile>, fps: seq<FamilyProfile>,
                                  rels: seq<Relationship>, u: User, p: ElderlyProfile)
    requires Consistent(users, eps, fps, rels)
    requires !HasUserId(users, u.id) && u.userType == Elderly && p.userId == u.id
    ensures Consistent(users + [u], eps + [p], fps, rels)
    ensures Occurrences(ElderlyOwners(eps + [p]), u.id) == 1 && Occurrences(FamilyOwners(fps), u.id) == 0
  {
    NewUserKeepsOneProfileEach(users, ElderlyOwners(eps), FamilyOwners(fps), u);
    assert ElderlyOwners(eps + [p]) == ElderlyOwners(eps) + [u.id];
    OccurrencesAppend(ElderlyOwners(eps), u.id, u.id);
  }

  /** A family member with a fresh id, added with its family profile, keeps the tables consistent. */
  lemma AddFamilyMemberKeepsConsistent(users: seq<User>, eps: seq<ElderlyProfile>, fps: seq<FamilyProfile>,
                                       rels: seq<Relationship>, u: User, p: FamilyProfile)
    requires Consistent(users, eps, fps, rels)
    requires !HasUserId(users, u.id) && u.userType == FamilyMember && p.userId == u.id
    ensures Consistent(users + [u], eps, fps + [p], rels)
    ensures Occurrences(ElderlyOwners(eps), u.id) == 0 && Occurrences(FamilyOwners(fps + [p]), u.id) == 1
  {
    NewUserKeepsOneProfileEach(users, ElderlyOwners(eps), FamilyOwners(fps), u);
    assert FamilyOwners(fps + [p]) == FamilyOwners(fps) + [u.id];
    OccurrencesAppend(FamilyOwners(fps), u.id, u.id);
  }

  /** Rewriting an elderly profile without moving it to another user keeps the tables consistent. */
  lemma UpdateProfileKeepsConsistent(users: seq<User>, eps: seq<ElderlyProfile>, fps: seq<FamilyProfile>,
                                     rels: seq<Relationship>, i: int, q: ElderlyProfile)
    requires Consistent(users, eps, fps, rels)
    requires 0 <= i < |eps| && q.userId == eps[i].userId
    ensures Consistent(users, eps[i := q], fps, rels)
  {
    assert ElderlyOwners(eps[i := q]) == ElderlyOwners(eps);
  }

  /** Rewriting a relationship's boolean columns keeps the tables consistent. */
  lemma UpdateLinkKeepsConsistent(users: seq<User>, eps: seq<ElderlyProfile>, fps: seq<FamilyProfile>,
                                  rels: seq<Relationship>, i: int, q: Relationship)
    requires Consistent(users, eps, fps, rels)
    requires 0 <= i < |rels| && SameLink(q, rels[i])
    ensures Consistent(users, eps, fps, rels[i := q])
  {
  }

  // ---------------------------------------------------------------------
  // The service

  /** The four tables the user service reads and writes. */
  class UserService {
    var users: seq<User>
    var elderlyProfiles: seq<ElderlyProfile>
    var familyProfiles: seq<FamilyProfile>
    var relationships: seq<Relationship>

    ghost predicate Valid()
      reads this
    {
      Consistent(users, elderlyProfiles, familyProfiles, relationships)
    }

    constructor ()
      ensures Valid()
      ensures users == [] && elderlyProfiles == [] && familyProfiles == [] && relationships == []
    {
      users := [];
      elderlyProfiles := [];
      familyProfiles := [];
      relationships := [];
    }

    /**
     * `create_user`, with the duplicate lookup restricted to the contacts
     * given: `None` and nothing inserted when the email or phone is taken;
     * otherwise the user and exactly one profile of its type.
     */
    method CreateUser(id: string, profileId: string, userType: UserType, fullName: string,
                      email: Option<string>, phone: Option<string>, dateOfBirth: Option<int>,
                      gender: Option<string>, address: Option<string>, now: int) returns (r: Option<User>)
      requires Valid()
      requires !HasUserId(users, id)
      modifies this
      ensures Valid()
      ensures r.None? <==> ContactTaken(old(users), email, phone)
      ensures r.None? ==> users == old(users) && elderlyProfiles == old(elderlyProfiles) &&
                          familyProfiles == old(familyProfiles)
      ensures r.Some? ==>
                r.value == NewUser(id, userType, fullName, email, phone, dateOfBirth, gender, address, now) &&
                users == old(users) + [r.value] &&
                (userType == Elderly ==> elderlyProfiles == old(elderlyProfiles) + [NewElderlyProfile(profileId, id, now)] &&
                                         familyProfiles == old(familyProfiles)) &&
                (userType == FamilyMember ==> familyProfiles == old(familyProfiles) + [NewFamilyProfile(profileId, id, now)] &&
                                              elderlyProfiles == old(elderlyProfiles)) &&
                Occurrences(ElderlyOwners(elderlyProfiles), id) == (if userType == Elderly then 1 else 0) &&
                Occurrences(FamilyOwners(familyProfiles), id) == (if userType == Elderly then 0 else 1)
      ensures relationships == old(relationships)
    {
      CreateRejectedIffTaken(users, email, phone);
      if CreateRejected(users, email, phone) {
        return None;
      }
      var u := NewUser(id, userType, fullName, email, phone, dateOfBirth, gender, address, now);
      if userType == Elderly {
        var p := NewElderlyProfile(profileId, id, now);
        AddElderlyKeepsConsistent(users, elderlyProfiles, familyProfiles, relationships, u, p);
        elderlyProfiles := elderlyProfiles + [p];
      } else {
        var p := NewFamilyProfile(profileId, id, now);
        AddFamilyMemberKeepsConsistent(users, elderlyProfiles, familyProfiles, relationships, u, p);
        familyProfiles := familyProfiles + [p];
      }
      users := users + [u];
      r := Some(u);
    }

    /**
     * `create_family_relationship`: false, and nothing inserted, unless the
     * first user is an elderly user and the second a family member, both have
     * a profile, their profiles are not linked yet, and the permissions name
     * boolean columns only.
     */
    method CreateFamilyRelationship(id: string, elderlyUserId: string, familyMemberId: string,
                                    relationshipType: RelationshipType, permissions: seq<(string, bool)>, now: int)
      returns (ok: bool)
      requires Valid()
      modifies this
      ensures Valid()
      ensures var r := RelationshipFor(old(users), old(elderlyProfiles), old(familyProfiles), old(relationships),
                                       id, elderlyUserId, familyMemberId, relationshipType, permissions, now);
              (ok <==> r.Some?) &&
              (ok ==> relationships == old(relationships) + [r.value]) &&
              (!ok ==> relationships == old(relationships))
      ensures ok ==> HasUserOfType(users, elderlyUserId, Elderly) && HasUserOfType(users, familyMemberId, FamilyMember)
      ensures users == old(users) && elderlyProfiles == old(elderlyProfiles) && familyProfiles == old(familyProfiles)
    {
      var r := RelationshipFor(users, elderlyProfiles, familyProfiles, relationships,
                               id, elderlyUserId, familyMemberId, relationshipType, permissions, now);
      if r.None? {
        return false;
      }
      RelationshipForKeepsPairsUnique(users, elderlyProfiles, familyProfiles, relationships,
                                      id, elderlyUserId, familyMemberId, relationshipType, permissions, now);
      relationships := relationships + [r.value];
      ok := true;
    }

    /**
     * `update_relationship_permissions`: false when either user has no
     * profile or no relationship links them; otherwise each item is set on
     * the relationship in turn, and keys that are no boolean column are
     * skipped.
     */
    method UpdateRelationshipPermissions(elderlyUserId: string, familyMemberId: string,
                                         permissions: seq<(string, bool)>) returns (ok: bool)
      requires Valid()
      modifies this
      ensures Valid()
      ensures var i := RelationshipIndex(old(elderlyProfiles), old(familyProfiles), old(relationships),
                                         elderlyUserId, familyMemberId);
              (ok <==> i >= 0) &&
              (ok ==> relationships == old(relationships)[i := SetFlags(old(relationships)[i], permissions)]) &&
              (!ok ==> relationships == old(relationships))
      ensures users == old(users) && elderlyProfiles == old(elderlyProfiles) && familyProfiles == old(familyProfiles)
    {
      var i := RelationshipIndex(elderlyProfiles, familyProfiles, relationships, elderlyUserId, familyMemberId);
      if i < 0 {
        return false;
      }
      var rel := relationships[i];
      for k := 0 to |permissions|
        invariant rel == SetFlags(relationships[i], permissions[..k])
      {
        assert permissions[..k + 1][..k] == permissions[..k];
        rel := SetFlag(rel, permissions[k].0, permissions[k].1);
      }
      assert permissions[..|permissions|] == permissions;
      SetFlagsSpec(relationships[i], permissions);
      UpdateLinkKeepsConsistent(users, elderlyProfiles, familyProfiles, relationships, i, rel);
      relationships := relationships[i := rel];
      ok := true;
    }

    /**
     * `update_elderly_profile`: false when the user has no elderly profile;
     * otherwise the update dictionary is applied to the first one in turn,
     * skipping `None` values and keys that are no column, and its update time
     * is set. No extra keyword can be `user_id`: that is the method's first
     * parameter, and Python refuses a call that passes it twice.
     */
    method UpdateElderlyProfile(userId: string, medicalConditions: Option<seq<string>>,
                                currentMedications: Option<map<string, string>>, allergies: Option<seq<string>>,
                                emergencyContact: Option<string>, doctorInfo: Option<map<string, string>>,
                                extra: seq<ProfileUpdate>, now: int) returns (ok: bool)
      requires Valid()
      requires forall k :: 0 <= k < |extra| ==> KeepsOwner(extra[k])
      modifies this
      ensures Valid()
      ensures var i := FirstIndex(ElderlyOwners(old(elderlyProfiles)), userId);
              (ok <==> i >= 0) &&
              (ok ==> elderlyProfiles == old(elderlyProfiles)[i := ApplyProfileUpdates(
                         old(elderlyProfiles)[i],
                         ElderlyUpdates(medicalConditions, currentMedications, allergies, emergencyContact,
                                        doctorInfo, extra)).(updatedAt := now)]) &&
              (!ok ==> elderlyProfiles == old(elderlyProfiles))
      ensures users == old(users) && familyProfiles == old(familyProfiles) && relationships == old(relationships)
    {
      var i := FirstIndex(ElderlyOwners(elderlyProfiles), userId);
      if i < 0 {
        return false;
      }
      var updates := ElderlyUpdates(medicalConditions, currentMedications, allergies, emergencyContact,
                                    doctorInfo, extra);
      var profile := ApplyUpdates(elderlyProfiles[i], updates);
      ElderlyUpdatesKeepOwner(elderlyProfiles[i], medicalConditions, currentMedications, allergies,
                              emergencyContact, doctorInfo, extra);
      UpdateProfileKeepsConsistent(users, elderlyProfiles, familyProfiles, relationships, i,
                                   profile.(updatedAt := now));
      elderlyProfiles := elderlyProfiles[i := profile.(updatedAt := now)];
      ok := true;
    }
  }

  /**
   * Registering an elderly user and a family member and linking them:
   * the link is created with the default permissions, and asking for it a
   * second time is refused.
   */
  method LinkScenario(s: UserService, elderlyId: string, elderlyProfileId: string,
                      familyId: string, familyProfileId: string, relationshipId: string, now: int)
    returns (first: bool, second: bool)
    requires s.users == [] && s.elderlyProfiles == [] && s.familyProfiles == [] && s.relationships == []
    requires elderlyId != familyId
    modifies s
    ensures first && !second
    ensures |s.relationships| == 1 && forall c :: Flag(s.relationships[0], c) == DefaultFlag(c)
  {
    assert s.Valid();
    var e := s.CreateUser(elderlyId, elderlyProfileId, Elderly, "Elder", None, None, None, None, None, now);
    assert s.users[0].id == elderlyId;
    var f := s.CreateUser(familyId, familyProfileId, FamilyMember, "Child", None, None, None, None, None, now);
    ghost var users, eps, fps := s.users, s.elderlyProfiles, s.familyProfiles;
    assert users[0].id == elderlyId && users[0].userType == Elderly;
    assert users[1].id == familyId && users[1].userType == FamilyMember;
    assert HasUserOfType(users, elderlyId, Elderly) && HasUserOfType(users, familyId, FamilyMember);
    assert eps[0].userId == elderlyId && fps[0].userId == familyId;
    RelationshipForComplete(users, eps, fps, [], relationshipId, elderlyId, familyId, Child, [], now, 0, 0);
    SecondRelationshipRejected(users, eps, fps, [], relationshipId, elderlyId, familyId, Child, [], now,
                               relationshipId, Child, [], now);
    first := s.CreateFamilyRelationship(relationshipId, elderlyId, familyId, Child, [], now);
    NewRelationshipPermissions(relationshipId, eps[0].id, fps[0].id, Child, [], now);
    second := s.CreateFamilyRelationship(relationshipId, elderlyId, familyId, Child, [], now);
  }
}
