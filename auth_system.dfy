/**
  The usage-gating state machine of `AuthSystem`: the in-memory turn counter,
  the entitlement test, and the transitions that move the counter between the
  browser's local storage (guests) and the per-user document of the remote
  `users` collection (signed-in users).

  Every transition is first stated as a pure function over a snapshot of the
  object and its two stores (`AuthState`); the class `AuthSystem` then performs
  it step by step on its fields, and each of its methods is proved to produce
  exactly the snapshot the function describes. The lemmas are about the
  functions.
 */
module Auth {
  import opened Wrappers
  import opened JsHost
  import opened AuthHelpers

  /** Local-storage key of the guest count, and of the backup written when the
      remote update fails. */
  const GuestKey := "andrea_guest_conversations"
  const BackupKey := "andrea_backup_count"

  /** `maxFreeConversations`, fixed at construction. */
  const MaxFreeConversations := 3

  const NotInitializedMessage := "Firebase no está inicializado"
  const RegisterInvalidEmailMessage := "Correo inválido"
  const RegisterShortPasswordMessage := "Contraseña muy corta"

  /** The remote store's code for an update of a document that does not exist. */
  const NotFoundCode := "not-found"

  datatype User = User(uid: string, email: string)

  /** A field of a document in the remote `users` collection. `ServerTime`
      stands for a server-assigned timestamp, whose value is not modelled. */
  datatype Value = Num(n: Count) | Flag(b: bool) | Text(s: string) | ServerTime

  type Doc = map<string, Value>
  type Users = map<string, Doc>
  type Storage = map<string, string>

  /** The outcome of one call to the remote document store. */
  datatype Step = Succeeds | Fails(code: string)

  /** The identity provider's answer to a sign-up or sign-in request. */
  datatype SignIn = Accepted(user: User) | Rejected(code: string)

  /** What `register` and `login` resolve to. */
  datatype AuthResult = Success(user: User) | Failure(message: string)

  /** A snapshot of an `AuthSystem` and of the two stores it reads and writes. */
  datatype AuthState = AuthState(
    user: Option<User>,
    count: Count,
    isPremium: bool,
    authInitialized: bool,
    local: Storage,
    users: Users)

  // ---------------------------------------------------------------------
  // Reading the stores

  /** The guest count as `loadLocalConversationCount` reads it: an absent or
      empty key gives 0, anything else goes through `parseInt`. */
  function StoredCount(local: Storage): (c: Count)
    ensures GuestKey !in local || local[GuestKey] == "" ==> c == Some(0)
    ensures GuestKey in local && local[GuestKey] != "" ==> c == ParseInt(local[GuestKey])
  {
    if GuestKey in local && local[GuestKey] != "" then ParseInt(local[GuestKey]) else Some(0)
  }

  /** `data.conversationCount || 0`: a missing, zero or NaN field reads as 0. */
  function ReadCount(doc: Doc): (c: Count)
    ensures c.Some?
    ensures "conversationCount" in doc && doc["conversationCount"].Num? && doc["conversationCount"].n.Some?
      ==> c == doc["conversationCount"].n
    ensures !("conversationCount" in doc && doc["conversationCount"].Num? && doc["conversationCount"].n.Some?)
      ==> c == Some(0)
  {
    if "conversationCount" in doc && doc["conversationCount"].Num? && doc["conversationCount"].n.Some?
    then doc["conversationCount"].n
    else Some(0)
  }

  /** `data.premium || false`. */
  predicate ReadPremium(doc: Doc) {
    "premium" in doc && doc["premium"] == Flag(true)
  }

  /** The document that sign-up and first sign-in create. */
  function NewUserDoc(email: string): (d: Doc)
    ensures ReadCount(d) == Some(0) && !ReadPremium(d)
    ensures "conversationCount" in d && d["conversationCount"] == Num(Some(0))
    ensures "premium" in d && d["premium"] == Flag(false)
  {
    map[
      "email" := Text(email),
      "conversationCount" := Num(Some(0)),
      "premium" := Flag(false),
      "createdAt" := ServerTime,
      "lastLogin" := ServerTime,
      "level" := Text("registered")]
  }

  /** The store's relative increment of one field: added to a number, or
      written as is when the field is missing or not a number. */
  function IncrementField(doc: Doc, field: string, delta: Count): (d: Doc)
    ensures d.Keys == doc.Keys + {field}
    ensures forall f :: f in doc && f != field ==> d[f] == doc[f]
    ensures field in doc && doc[field].Num? ==> d[field] == Num(Add(doc[field].n, delta))
  {
    doc[field := if field in doc && doc[field].Num? then Num(Add(doc[field].n, delta)) else Num(delta)]
  }

  /** A document after the increment's update: the count goes up by one (or
      becomes 1 when it is missing or not a number), `lastActivity` is
      stamped, and every other field, the premium flag included, is kept. */
  function CountedDoc(doc: Doc): (d: Doc)
    ensures d.Keys == doc.Keys + {"conversationCount", "lastActivity"}
    ensures forall f :: f in doc && f != "conversationCount" && f != "lastActivity" ==> d[f] == doc[f]
    ensures d["lastActivity"] == ServerTime
    ensures d["conversationCount"] ==
      (if "conversationCount" in doc && doc["conversationCount"].Num?
       then Num(Inc(doc["conversationCount"].n)) else Num(Some(1)))
    ensures ReadPremium(d) == ReadPremium(doc)
  {
    IncrementField(doc, "conversationCount", Some(1))["lastActivity" := ServerTime]
  }

  /** A document after `login`'s update: `lastLogin` is stamped and every
      other field is kept, so the count and premium flag read the same. */
  function LoggedInDoc(doc: Doc): (d: Doc)
    ensures d.Keys == doc.Keys + {"lastLogin"}
    ensures forall f :: f in doc && f != "lastLogin" ==> d[f] == doc[f]
    ensures d["lastLogin"] == ServerTime
    ensures ReadCount(d) == ReadCount(doc) && ReadPremium(d) == ReadPremium(doc)
  {
    doc["lastLogin" := ServerTime]
  }

  /** A document after the upgrade's update: premium, with the plan and its
      start stamped; every other field is kept, so the count reads the same. */
  function PremiumDoc(doc: Doc, plan: string): (d: Doc)
    ensures d.Keys == doc.Keys + {"premium", "premiumSince", "premiumPlan"}
    ensures forall f :: f in doc && f != "premium" && f != "premiumSince" && f != "premiumPlan" ==> d[f] == doc[f]
    ensures ReadPremium(d) && d["premiumPlan"] == Text(plan)
    ensures ReadCount(d) == ReadCount(doc)
  {
    doc["premium" := Flag(true)]["premiumSince" := ServerTime]["premiumPlan" := Text(plan)]
  }

  /** An `update` of the user's document goes through only when the call
      succeeds and the document exists. */
  predicate Updates(users: Users, uid: string, step: Step) {
    step.Succeeds? && uid in users
  }

  /** The error code an `update` fails with. */
  function UpdateFailureCode(step: Step): string {
    if step.Fails? then step.code else NotFoundCode
  }

  // ---------------------------------------------------------------------
  // Entitlement

  /** `canChat()`: a signed-in user or a premium flag always may; a guest may
      while the count is below the maximum (never when the count is NaN). */
  predicate Entitled(s: AuthState)
    ensures s.user.Some? || s.isPremium ==> Entitled(s)
    ensures s.user.None? && !s.isPremium ==>
      (Entitled(s) <==> s.count.Some? && s.count.value < MaxFreeConversations)
  {
    s.user.Some? || s.isPremium || Below(s.count, MaxFreeConversations)
  }

  /** Whether `incrementConversationCount` takes the signed-in path. */
  predicate SignedInPath(s: AuthState) {
    s.user.Some? && s.authInitialized
  }

  // ---------------------------------------------------------------------
  // Transitions

  /**
    `incrementConversationCount()`: the in-memory count goes up by one; a
    signed-in user's document gets a relative increment, or, when that update
    fails, the new count is written under the backup key; a guest's new count
    is written under the guest key and the limit modal is raised once it
    reaches the maximum. The second component says whether the modal is raised.
   */
  function IncrementStep(s: AuthState, step: Step): (r: (AuthState, bool))
    ensures r.0.count == Inc(s.count)
    ensures r.0.user == s.user && r.0.isPremium == s.isPremium && r.0.authInitialized == s.authInitialized
    ensures !SignedInPath(s) ==>
      r.0.local == s.local[GuestKey := NumberToString(r.0.count)] && r.0.users == s.users
    ensures r.1 <==> !SignedInPath(s) && r.0.count.Some? && r.0.count.value >= MaxFreeConversations
    ensures SignedInPath(s) ==> (GuestKey in r.0.local <==> GuestKey in s.local)
    ensures SignedInPath(s) && GuestKey in s.local ==> r.0.local[GuestKey] == s.local[GuestKey]
    ensures SignedInPath(s) && Updates(s.users, s.user.value.uid, step) ==>
      var uid := s.user.value.uid;
      r.0.local == s.local && r.0.users == s.users[uid := CountedDoc(s.users[uid])]
    ensures SignedInPath(s) && !Updates(s.users, s.user.value.uid, step) ==>
      r.0.local == s.local[BackupKey := NumberToString(r.0.count)] && r.0.users == s.users
  {
    var count := Inc(s.count);
    if SignedInPath(s) then
      var uid := s.user.value.uid;
      if Updates(s.users, uid, step) then
        (s.(count := count, users := s.users[uid := CountedDoc(s.users[uid])]), false)
      else
        (s.(count := count, local := s.local[BackupKey := NumberToString(count)]), false)
    else
      var modal := count.Some? && count.value >= MaxFreeConversations;
      (s.(count := count, local := s.local[GuestKey := NumberToString(count)]), modal)
  }

  /** `loadLocalConversationCount()`. */
  function LoadLocalStep(s: AuthState): (r: AuthState)
    ensures r == s.(count := StoredCount(s.local))
  {
    s.(count := StoredCount(s.local))
  }

  /**
    `loadUserData()`: with an existing document the count and premium flag
    are read from it; a missing document is created (and the in-memory count
    is left as it was); a failing call falls back to the guest count.
   */
  function LoadUserDataStep(s: AuthState, read: Step, create: Step): (r: AuthState)
    ensures r.user == s.user && r.authInitialized == s.authInitialized && r.local == s.local
    ensures !SignedInPath(s) ==> r == s
    ensures SignedInPath(s) && read.Succeeds? && s.user.value.uid in s.users ==>
      r == s.(count := ReadCount(s.users[s.user.value.uid]), isPremium := ReadPremium(s.users[s.user.value.uid]))
    ensures SignedInPath(s) && read.Succeeds? && s.user.value.uid !in s.users && create.Succeeds? ==>
      r == s.(users := s.users[s.user.value.uid := NewUserDoc(s.user.value.email)])
    ensures SignedInPath(s) && (read.Fails? || (s.user.value.uid !in s.users && create.Fails?)) ==>
      r == LoadLocalStep(s)
  {
    if !SignedInPath(s) then s
    else
      var uid := s.user.value.uid;
      if read.Fails? then LoadLocalStep(s)
      else if uid in s.users then
        s.(count := ReadCount(s.users[uid]), isPremium := ReadPremium(s.users[uid]))
      else if create.Fails? then LoadLocalStep(s)
      else s.(users := s.users[uid := NewUserDoc(s.user.value.email)])
  }

  /**
    The `onAuthStateChanged` callback. Signing in sets the user and loads the
    user's data; signing out clears the user and reloads the guest count, and
    leaves the premium flag as it was.
   */
  function AuthChangedStep(s: AuthState, u: Option<User>, read: Step, create: Step): (r: AuthState)
    requires s.authInitialized
    ensures r.user == u
    ensures u.None? ==> r == s.(user := None, count := StoredCount(s.local))
    ensures u.None? ==> r.isPremium == s.isPremium
    ensures u.Some? ==> r == LoadUserDataStep(s.(user := u), read, create)
  {
    if u.Some? then LoadUserDataStep(s.(user := u), read, create)
    else LoadLocalStep(s.(user := None))
  }

  /**
    `register(email, password)`. The e-mail and password are checked before
    the provider is asked; on sign-up the user's document is written with a
    count of 0, the stored guest count (if any) is added to it by a relative
    increment, and the guest key is removed. The in-memory state is left to
    the auth-state callback.
   */
  function RegisterStep(s: AuthState, email: string, password: string, signUp: SignIn, create: Step, migrate: Step)
    : (r: (AuthState, AuthResult))
    ensures r.0.user == s.user && r.0.count == s.count && r.0.isPremium == s.isPremium
    ensures !s.authInitialized ==> r == (s, Failure(NotInitializedMessage))
    ensures s.authInitialized && !ValidateEmail(email) ==> r == (s, Failure(RegisterInvalidEmailMessage))
    ensures s.authInitialized && ValidateEmail(email) && |password| < MinPasswordLength ==>
      r == (s, Failure(RegisterShortPasswordMessage))
    ensures r.1.Success? ==>
      && s.authInitialized && ValidateEmail(email) && |password| >= MinPasswordLength
      && signUp == Accepted(r.1.user)
      && r.0.users == s.users[r.1.user.uid := AccountDoc(s.local, email)]
      && r.0.local == (if HasGuestCount(s.local) then s.local - {GuestKey} else s.local)
      && StoredCount(r.0.local) == Some(0)
    ensures r.1.Failure? ==>
      && r.0.local == s.local
      && (r.0.users == s.users
          || (signUp.Accepted? && r.0.users == s.users[signUp.user.uid := NewUserDoc(email)]))
    ensures s.authInitialized && ValidateEmail(email) && |password| >= MinPasswordLength ==>
      && (signUp.Rejected? ==> r == (s, Failure(ErrorMessage(signUp.code))))
      && (signUp.Accepted? && create.Fails? ==> r == (s, Failure(ErrorMessage(create.code))))
      && (signUp.Accepted? && create.Succeeds? && HasGuestCount(s.local) && migrate.Fails? ==>
            r == (s.(users := s.users[signUp.user.uid := NewUserDoc(email)]), Failure(ErrorMessage(migrate.code))))
  {
    if !s.authInitialized then (s, Failure(NotInitializedMessage))
    else if !ValidateEmail(email) then (s, Failure(RegisterInvalidEmailMessage))
    else if |password| < MinPasswordLength then (s, Failure(RegisterShortPasswordMessage))
    else match signUp
      case Rejected(code) => (s, Failure(ErrorMessage(code)))
      case Accepted(u) => CreateAccount(s, email, u, create, migrate)
  }

  /** `localStorage.getItem(GuestKey)` is truthy: present and not empty. */
  predicate HasGuestCount(local: Storage) {
    GuestKey in local && local[GuestKey] != ""
  }

  /**
    The part of `register` after the provider has accepted the sign-up: the
    document is written, then the stored guest count is migrated into it.
    A failed migration leaves the new document in place with a count of 0
    and keeps the guest key.
   */
  function CreateAccount(s: AuthState, email: string, u: User, create: Step, migrate: Step)
    : (r: (AuthState, AuthResult))
    ensures r.0.user == s.user && r.0.count == s.count && r.0.isPremium == s.isPremium
    ensures r.1.Success? ==>
      && r.1.user == u
      && r.0.users == s.users[u.uid := AccountDoc(s.local, email)]
      && r.0.local == (if HasGuestCount(s.local) then s.local - {GuestKey} else s.local)
    ensures create.Fails? ==> r == (s, Failure(ErrorMessage(create.code)))
    ensures create.Succeeds? && HasGuestCount(s.local) && migrate.Fails? ==>
      r == (s.(users := s.users[u.uid := NewUserDoc(email)]), Failure(ErrorMessage(migrate.code)))
    ensures r.1.Success? <==> create.Succeeds? && (HasGuestCount(s.local) ==> migrate.Succeeds?)
  {
    if create.Fails? then (s, Failure(ErrorMessage(create.code)))
    // the update targets the document just written, so only the call itself can fail
    else if HasGuestCount(s.local) && migrate.Fails? then
      (s.(users := s.users[u.uid := NewUserDoc(email)]), Failure(ErrorMessage(migrate.code)))
    else
      var local := if HasGuestCount(s.local) then s.local - {GuestKey} else s.local;
      (s.(users := s.users[u.uid := AccountDoc(s.local, email)], local := local), Success(u))
  }

  /**
    The document a successful sign-up leaves behind: the new document, plus
    the stored guest count when there is one. It reads as the stored count
    (0 when nothing was stored, or when the stored text is not a number),
    and it is not premium.
   */
  function AccountDoc(local: Storage, email: string): (d: Doc)
    ensures ReadCount(d) == (if StoredCount(local).Some? then StoredCount(local) else Some(0))
    ensures !ReadPremium(d)
  {
    var doc := NewUserDoc(email);
    if HasGuestCount(local) then
      var d := IncrementField(doc, "conversationCount", ParseInt(local[GuestKey]));
      assert d["conversationCount"] == Num(Add(Some(0), ParseInt(local[GuestKey])));
      assert d["premium"] == Flag(false);
      d
    else doc
  }

  /**
    `login(email, password)`: the credentials go to the provider only (its
    answer is `signIn`); on success the document's `lastLogin` is touched,
    and a failing touch (including a missing document) makes the whole call
    fail. The in-memory state is left to the auth-state callback.
   */
  function LoginStep(s: AuthState, signIn: SignIn, touch: Step): (r: (AuthState, AuthResult))
    ensures r.0 == s.(users := r.0.users)
    ensures r.0.users.Keys == s.users.Keys
    ensures r.1.Success? <==> s.authInitialized && signIn.Accepted? && Updates(s.users, signIn.user.uid, touch)
    ensures r.1.Success? ==> r.1.user == signIn.user
    ensures r.1.Success? ==>
      r.0.users == s.users[signIn.user.uid := LoggedInDoc(s.users[signIn.user.uid])]
    ensures r.1.Failure? ==> r.0 == s
    ensures !s.authInitialized ==> r == (s, Failure(NotInitializedMessage))
    ensures s.authInitialized && signIn.Rejected? ==> r == (s, Failure(ErrorMessage(signIn.code)))
    ensures s.authInitialized && signIn.Accepted? && !Updates(s.users, signIn.user.uid, touch) ==>
      r == (s, Failure(ErrorMessage(UpdateFailureCode(touch))))
  {
    if !s.authInitialized then (s, Failure(NotInitializedMessage))
    else match signIn
      case Rejected(code) => (s, Failure(ErrorMessage(code)))
      case Accepted(u) =>
        if Updates(s.users, u.uid, touch) then
          (s.(users := s.users[u.uid := LoggedInDoc(s.users[u.uid])]), Success(u))
        else
          (s, Failure(ErrorMessage(UpdateFailureCode(touch))))
  }

  /**
    `upgradeToPremium(plan)`, as one step once the simulated payment is over:
    the premium flag is set whoever is (or is not) signed in; a signed-in
    user's document is updated as well, a failure of that update being
    ignored.
   */
  function UpgradeStep(s: AuthState, plan: string, write: Step): (r: AuthState)
    ensures r.isPremium
    ensures r == s.(isPremium := true, users := r.users)
    ensures !(SignedInPath(s) && Updates(s.users, s.user.value.uid, write)) ==> r.users == s.users
    ensures SignedInPath(s) && Updates(s.users, s.user.value.uid, write) ==>
      r.users == s.users[s.user.value.uid := PremiumDoc(s.users[s.user.value.uid], plan)]
  {
    var upgraded := s.(isPremium := true);
    if SignedInPath(s) && Updates(s.users, s.user.value.uid, write) then
      var uid := s.user.value.uid;
      upgraded.(users := s.users[uid := PremiumDoc(s.users[uid], plan)])
    else upgraded
  }

  // ---------------------------------------------------------------------
  // Properties of the transitions

  /** Every path of the increment raises the in-memory count by exactly one
      and never changes who is signed in, or the premium flag. */
  lemma {:induction false} IncrementRaisesByOne(s: AuthState, step: Step, n: int)
    requires s.count == Some(n)
    ensures IncrementStep(s, step).0.count == Some(n + 1)
    ensures IncrementStep(s, step).0.user == s.user && IncrementStep(s, step).0.isPremium == s.isPremium
  {
  }

  /** A guest's increment is read back by `loadLocalConversationCount`: the
      stored text parses to the new count, NaN included. */
  lemma GuestIncrementReloads(s: AuthState, step: Step)
    requires !SignedInPath(s)
    ensures var t := IncrementStep(s, step).0; StoredCount(t.local) == t.count == Inc(s.count)
  {
    var t := IncrementStep(s, step).0;
    NumberRoundTrip(t.count);
    assert t.local[GuestKey] == NumberToString(t.count);
    assert NumberToString(t.count) != "";
  }

  /** When the remote update fails, the backup key holds text that parses back
      to the new count. */
  lemma BackupHoldsNewCount(s: AuthState, step: Step)
    requires SignedInPath(s) && !Updates(s.users, s.user.value.uid, step)
    ensures var t := IncrementStep(s, step).0; ParseInt(t.local[BackupKey]) == t.count
  {
    NumberRoundTrip(IncrementStep(s, step).0.count);
  }

  /** Loading the guest count twice gives the same state as loading it once. */
  lemma LoadLocalIdempotent(s: AuthState)
    ensures LoadLocalStep(LoadLocalStep(s)) == LoadLocalStep(s)
  {
  }

  /** A fresh guest gets exactly three turns: the counter reads 1, 2, 3, the
      limit modal is raised on the third, and the fourth is refused. */
  lemma FreshGuestQuota(s: AuthState, a: Step, b: Step, c: Step)
    requires s.user.None? && !s.isPremium && s.count == Some(0)
    ensures var (s1, m1) := IncrementStep(s, a);
            var (s2, m2) := IncrementStep(s1, b);
            var (s3, m3) := IncrementStep(s2, c);
            && Entitled(s) && Entitled(s1) && Entitled(s2) && !Entitled(s3)
            && s1.count == Some(1) && s2.count == Some(2) && s3.count == Some(3)
            && !m1 && !m2 && m3
  {
  }

  /** Once a guest who is not premium is refused, further increments keep
      them refused. */
  lemma RefusedGuestStaysRefused(s: AuthState, step: Step)
    requires s.user.None? && !s.isPremium && !Entitled(s)
    ensures !Entitled(IncrementStep(s, step).0)
  {
  }

  /** Registration that fails its own checks answers the same whatever the
      provider and the store would have said: they are never asked, and
      nothing changes. */
  lemma RegisterChecksPrecedeProvider(
    s: AuthState, email: string, password: string,
    signUp1: SignIn, create1: Step, migrate1: Step,
    signUp2: SignIn, create2: Step, migrate2: Step)
    requires !s.authInitialized || !ValidateEmail(email) || |password| < MinPasswordLength
    ensures RegisterStep(s, email, password, signUp1, create1, migrate1)
         == RegisterStep(s, email, password, signUp2, create2, migrate2)
    ensures RegisterStep(s, email, password, signUp1, create1, migrate1).0 == s
    ensures RegisterStep(s, email, password, signUp1, create1, migrate1).1.Failure?
  {
  }

  /** A successful sign-up with a stored guest count adds that count to the
      new document by a relative increment and removes the guest key. */
  lemma RegisterAddsStoredCount(s: AuthState, email: string, password: string, u: User)
    requires s.authInitialized && ValidateEmail(email) && |password| >= MinPasswordLength
    requires HasGuestCount(s.local)
    ensures var (t, res) := RegisterStep(s, email, password, Accepted(u), Succeeds, Succeeds);
            && res == Success(u)
            && t.local == s.local - {GuestKey}
            && u.uid in t.users
            && t.users[u.uid] == IncrementField(NewUserDoc(email), "conversationCount", ParseInt(s.local[GuestKey]))
  {
    var r := CreateAccount(s, email, u, Succeeds, Succeeds);
    assert RegisterStep(s, email, password, Accepted(u), Succeeds, Succeeds) == r;
    assert r.1 == Success(u);
    assert AccountDoc(s.local, email)
        == IncrementField(NewUserDoc(email), "conversationCount", ParseInt(s.local[GuestKey]));
  }

  /**
    Migration: a guest who has used `n` turns (so the guest key holds the
    text of `n`) and then registers gets a document whose count is `n`, the
    guest key is cleared, and after the auth-state callback signs the new
    user in, the count is `n` and chatting is allowed even past the limit.
   */
  lemma RegisterMigratesGuestCount(
    s: AuthState, n: int, email: string, password: string, u: User, create: Step)
    requires s.authInitialized && ValidateEmail(email) && |password| >= MinPasswordLength
    requires GuestKey in s.local && s.local[GuestKey] == NumberToString(Some(n))
    ensures var (t, res) := RegisterStep(s, email, password, Accepted(u), Succeeds, Succeeds);
            && res == Success(u)
            && u.uid in t.users && ReadCount(t.users[u.uid]) == Some(n)
            && GuestKey !in t.local
            && var signedIn := AuthChangedStep(t, Some(u), Succeeds, create);
               signedIn.count == Some(n) && Entitled(signedIn)
  {
    StoredNumeralReads(s.local, n);
    var (t, res) := RegisterStep(s, email, password, Accepted(u), Succeeds, Succeeds);
    assert CreateAccount(s, email, u, Succeeds, Succeeds).1.Success?;
    assert res == Success(u) && t.users[u.uid] == AccountDoc(s.local, email);
    SignInReadsDocument(t, u, create);
  }

  /** The numeral of `n` under the guest key is a stored count of `n`. */
  lemma StoredNumeralReads(local: Storage, n: int)
    requires GuestKey in local && local[GuestKey] == NumberToString(Some(n))
    ensures HasGuestCount(local) && StoredCount(local) == Some(n)
  {
    var text := local[GuestKey];
    assert text != "" by {
      if n < 0 {
        assert text == "-" + NatToString(-n);
      } else {
        assert text == NatToString(n);
      }
    }
    NumberRoundTrip(Some(n));
    assert ParseInt(text) == Some(n);
  }

  /** Signing in a user whose document exists loads its count and lets them chat. */
  lemma SignInReadsDocument(t: AuthState, u: User, create: Step)
    requires t.authInitialized && u.uid in t.users
    ensures var signedIn := AuthChangedStep(t, Some(u), Succeeds, create);
            signedIn.count == ReadCount(t.users[u.uid]) && Entitled(signedIn)
  {
  }

  /** A guest with nothing stored registers into a document with count 0. */
  lemma RegisterWithoutGuestCount(s: AuthState, email: string, password: string, u: User, migrate: Step)
    requires s.authInitialized && ValidateEmail(email) && |password| >= MinPasswordLength
    requires GuestKey !in s.local
    ensures var (t, res) := RegisterStep(s, email, password, Accepted(u), Succeeds, migrate);
            res == Success(u) && ReadCount(t.users[u.uid]) == Some(0) && t.local == s.local
  {
  }

  /** An upgrade of a signed-in user survives signing out and in again: the
      remote document, not the in-memory flag, restores it, even on a fresh
      page whose in-memory flag is false. */
  lemma UpgradePersists(s: AuthState, plan: string, later: AuthState, create: Step)
    requires SignedInPath(s) && s.user.value.uid in s.users
    requires later.authInitialized && later.users == UpgradeStep(s, plan, Succeeds).users
    ensures AuthChangedStep(later, s.user, Succeeds, create).isPremium
  {
  }

  /** Signing out does not take the premium flag away, so a former premium
      user keeps chatting as a guest whatever the stored count. */
  lemma PremiumSurvivesSignOut(s: AuthState, read: Step, create: Step)
    requires s.authInitialized && s.isPremium
    ensures var t := AuthChangedStep(s, None, read, create); t.user.None? && t.isPremium && Entitled(t)
  {
  }

  /** A guest can buy premium: the flag is set, no document is written, and
      the quota no longer applies. */
  lemma GuestUpgrade(s: AuthState, plan: string, write: Step)
    requires s.user.None?
    ensures var t := UpgradeStep(s, plan, write); t.users == s.users && Entitled(t)
  {
  }

  /** An unparseable guest count loads as NaN, and a NaN count refuses a guest. */
  lemma UnparseableGuestCountRefuses(s: AuthState)
    requires s.user.None? && !s.isPremium
    requires GuestKey in s.local && s.local[GuestKey] == "abc"
    ensures var t := LoadLocalStep(s); t.count == None && !Entitled(t)
  {
    assert TrimStart("abc") == "abc";
    assert !IsDecDigit('a');
  }

  /** The state a new object starts in: a guest with a count of 0. */
  function Initial(firebaseReady: bool, storage: Storage, collection: Users): (s: AuthState)
    ensures s.user.None? && s.count == Some(0) && !s.isPremium
    ensures s.authInitialized == firebaseReady && s.local == storage && s.users == collection
  {
    AuthState(None, Some(0), false, firebaseReady, storage, collection)
  }

  /**
    Without the provider the auth-state callback is never registered, so the
    stored guest count is never read: every page load starts the quota from 0,
    and the first turn overwrites whatever count was stored with 1.
   */
  lemma UnconfiguredPageIgnoresStoredCount(storage: Storage, collection: Users, step: Step)
    ensures Entitled(Initial(false, storage, collection))
    ensures var t := IncrementStep(Initial(false, storage, collection), step).0;
            t.count == Some(1) && StoredCount(t.local) == Some(1) && Entitled(t)
  {
    var t := IncrementStep(Initial(false, storage, collection), step).0;
    NumberRoundTrip(Some(1));
    assert t.local[GuestKey] == NumberToString(Some(1));
  }

  // ---------------------------------------------------------------------
  // The object

  class AuthSystem {
    var user: Option<User>
    var conversationCount: Count
    var isPremium: bool
    /** Whether the provider library was found and initialised. */
    const authInitialized: bool
    /** The browser's local storage. */
    var local: Storage
    /** The remote `users` collection, keyed by user id. */
    var users: Users

    /** The guest quota, the same for every object. */
    const maxFreeConversations := MaxFreeConversations

    function State(): AuthState
      reads this
    {
      AuthState(user, conversationCount, isPremium, authInitialized, local, users)
    }

    /** A new object starts as a guest with a count of 0; the stored guest
        count is only read when the auth-state callback first runs. */
    constructor (firebaseReady: bool, storage: Storage, collection: Users)
      ensures State() == Initial(firebaseReady, storage, collection)
    {
      user := None;
      conversationCount := Some(0);
      isPremium := false;
      authInitialized := firebaseReady;
      local := storage;
      users := collection;
    }

    /** `canChat()`: the quota rule on the object's current state. */
    predicate CanChat()
      reads this
    {
      Entitled(State())
    }

    method LoadLocalConversationCount()
      modifies this
      ensures State() == LoadLocalStep(old(State()))
    {
      var saved := if GuestKey in local then Some(local[GuestKey]) else None;
      conversationCount := if saved.Some? && saved.value != "" then ParseInt(saved.value) else Some(0);
    }

    method IncrementConversationCount(step: Step) returns (limitModal: bool)
      modifies this
      ensures (State(), limitModal) == IncrementStep(old(State()), step)
    {
      conversationCount := Inc(conversationCount);
      limitModal := false;
      if user.Some? && authInitialized {
        var uid := user.value.uid;
        if step.Succeeds? && uid in users {
          var doc := IncrementField(users[uid], "conversationCount", Some(1));
          users := users[uid := doc["lastActivity" := ServerTime]];
        } else {
          local := local[BackupKey := NumberToString(conversationCount)];
        }
      } else {
        local := local[GuestKey := NumberToString(conversationCount)];
        if conversationCount.Some? && conversationCount.value >= maxFreeConversations {
          limitModal := true;
        }
      }
    }

    method LoadUserData(read: Step, create: Step)
      modifies this
      ensures State() == LoadUserDataStep(old(State()), read, create)
    {
      if !authInitialized || user.None? {
        return;
      }
      var uid := user.value.uid;
      if read.Fails? {
        LoadLocalConversationCount();
      } else if uid in users {
        var data := users[uid];
        conversationCount := ReadCount(data);
        isPremium := ReadPremium(data);
      } else if create.Fails? {
        LoadLocalConversationCount();
      } else {
        users := users[uid := NewUserDoc(user.value.email)];
      }
    }

    /** The callback registered with `onAuthStateChanged`; it is registered
        only when the provider was initialised. */
    method OnAuthStateChanged(u: Option<User>, read: Step, create: Step)
      requires authInitialized
      modifies this
      ensures State() == AuthChangedStep(old(State()), u, read, create)
    {
      if u.Some? {
        user := u;
        LoadUserData(read, create);
      } else {
        user := None;
        LoadLocalConversationCount();
      }
    }

    method Register(email: string, password: string, signUp: SignIn, create: Step, migrate: Step)
      returns (result: AuthResult)
      modifies this
      ensures (State(), result) == RegisterStep(old(State()), email, password, signUp, create, migrate)
    {
      if !authInitialized {
        return Failure(NotInitializedMessage);
      }
      if !ValidateEmail(email) {
        return Failure(RegisterInvalidEmailMessage);
      }
      if |password| < MinPasswordLength {
        return Failure(RegisterShortPasswordMessage);
      }
      if signUp.Rejected? {
        return Failure(ErrorMessage(signUp.code));
      }
      result := CreateAccountOnFields(email, signUp.user, create, migrate);
    }

    /** The part of `register` after the provider has accepted the sign-up. */
    method CreateAccountOnFields(email: string, u: User, create: Step, migrate: Step)
      returns (result: AuthResult)
      modifies this
      ensures (State(), result) == CreateAccount(old(State()), email, u, create, migrate)
    {
      if create.Fails? {
        return Failure(ErrorMessage(create.code));
      }
      ghost var s := State();
      users := users[u.uid := NewUserDoc(email)];
      if GuestKey in local && local[GuestKey] != "" {
        var localCount := local[GuestKey];
        if !(migrate.Succeeds? && u.uid in users) {
          assert State() == s.(users := s.users[u.uid := NewUserDoc(email)]);
          return Failure(ErrorMessage(UpdateFailureCode(migrate)));
        }
        users := users[u.uid := IncrementField(users[u.uid], "conversationCount", ParseInt(localCount))];
        assert users == s.users[u.uid := AccountDoc(s.local, email)];
        local := local - {GuestKey};
      }
      assert State() == CreateAccount(s, email, u, create, migrate).0;
      result := Success(u);
    }

    method Login(signIn: SignIn, touch: Step) returns (result: AuthResult)
      modifies this
      ensures (State(), result) == LoginStep(old(State()), signIn, touch)
    {
      if !authInitialized {
        return Failure(NotInitializedMessage);
      }
      if signIn.Rejected? {
        return Failure(ErrorMessage(signIn.code));
      }
      var u := signIn.user;
      if !(touch.Succeeds? && u.uid in users) {
        return Failure(ErrorMessage(UpdateFailureCode(touch)));
      }
      users := users[u.uid := users[u.uid]["lastLogin" := ServerTime]];
      result := Success(u);
    }

    method UpgradeToPremium(plan: string, write: Step)
      modifies this
      ensures State() == UpgradeStep(old(State()), plan, write)
    {
      isPremium := true;
      if user.Some? && authInitialized && write.Succeeds? && user.value.uid in users {
        var uid := user.value.uid;
        users := users[uid := users[uid]["premium" := Flag(true)]["premiumSince" := ServerTime]["premiumPlan" := Text(plan)]];
      }
    }

    /** The registration form's submit handler: its checks, then `register`. */
    method SubmitRegister(
      emailField: string, password: string, confirm: string,
      signUp: SignIn, create: Step, migrate: Step)
      returns (outcome: Submission)
      modifies this
      ensures RegisterFormCheck(emailField, password, confirm).Reject? ==>
        outcome == NotSubmitted(RegisterFormCheck(emailField, password, confirm).message)
        && State() == old(State())
      ensures RegisterFormCheck(emailField, password, confirm).Proceed? ==>
        var email := RegisterFormCheck(emailField, password, confirm).email;
        outcome.Submitted?
        && (State(), outcome.result) == RegisterStep(old(State()), email, password, signUp, create, migrate)
    {
      var check := RegisterFormCheck(emailField, password, confirm);
      if check.Reject? {
        return NotSubmitted(check.message);
      }
      var result := Register(check.email, password, signUp, create, migrate);
      outcome := Submitted(result);
    }

    /** The sign-in form's submit handler: its checks, then `login`. */
    method SubmitLogin(emailField: string, password: string, signIn: SignIn, touch: Step)
      returns (outcome: Submission)
      modifies this
      ensures LoginFormCheck(emailField, password).Reject? ==>
        outcome == NotSubmitted(LoginFormCheck(emailField, password).message)
        && State() == old(State())
      ensures LoginFormCheck(emailField, password).Proceed? ==>
        outcome.Submitted? && (State(), outcome.result) == LoginStep(old(State()), signIn, touch)
    {
      var check := LoginFormCheck(emailField, password);
      if check.Reject? {
        return NotSubmitted(check.message);
      }
      var result := Login(signIn, touch);
      outcome := Submitted(result);
    }
  }

  /** A form submission: stopped by the form's own checks with the message it
      shows, or passed on with the call's result. */
  datatype Submission = NotSubmitted(message: string) | Submitted(result: AuthResult)
}
