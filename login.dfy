/**
 * The handle-claiming form: its three pieces of state (username, isValid,
 * loading), the three events that change them (an edit of the input, the
 * completion of a debounced lookup, the submission) and the two document
 * store collections the submission writes in one batch.
 */
module Login {
  import opened Wrappers
  import opened Models
  import opened Username

  /** The profile returned by the identity provider. */
  datatype AuthUser = AuthUser(uid: string, displayName: string, photoURL: string)

  /** The body of a usernames document: the uid that holds the handle. */
  datatype UsernameData = UsernameData(uid: string)

  /** The users collection (keyed by uid) and the usernames collection (keyed by handle). */
  datatype Db = Db(users: map<string, UserData>, usernames: map<string, UsernameData>)

  /** `getDoc` on users/<uid>. */
  function GetUser(db: Db, uid: string): (snap: DocumentSnapshot<UserData>)
    ensures snap.id == uid && (snap.data.Some? <==> uid in db.users)
  {
    DocumentSnapshot(uid, if uid in db.users then Some(db.users[uid]) else None)
  }

  /** `getDoc` on usernames/<name>. */
  function GetUsername(db: Db, name: string): (snap: DocumentSnapshot<UsernameData>)
    ensures snap.id == name && (snap.data.Some? <==> name in db.usernames)
  {
    DocumentSnapshot(name, if name in db.usernames then Some(db.usernames[name]) else None)
  }

  /** One `batch.set` of a write batch. */
  datatype Write = SetUser(uid: string, userData: UserData) | SetUsername(name: string, usernameData: UsernameData)

  function ApplyWrite(db: Db, w: Write): Db {
    match w
    case SetUser(uid, data) => db.(users := db.users[uid := data])
    case SetUsername(name, data) => db.(usernames := db.usernames[name := data])
  }

  /** The store after a batch is committed: its writes in order. */
  function ApplyBatch(db: Db, batch: seq<Write>): Db
    decreases |batch|
  {
    if batch == [] then db else ApplyBatch(ApplyWrite(db, batch[0]), batch[1..])
  }

  /** The store, with commit as its only operation. */
  class Firestore {
    var db: Db

    constructor (db: Db)
      ensures this.db == db
    {
      this.db := db;
    }

    method Commit(batch: seq<Write>)
      modifies this
      ensures db == ApplyBatch(old(db), batch)
    {
      db := ApplyBatch(db, batch);
    }
  }

  // ---------------------------------------------------------------------
  // The submission
  // ---------------------------------------------------------------------

  const DefaultTierlistNames := TierlistNames(
    "Unwatchable", "Awful", "Bad", "Good", "Great", "Excellent", "Masterpiece")

  /** The profile a new user starts with. */
  function NewUser(fUser: AuthUser, username: string): (u: User)
    ensures u.uid == fUser.uid && u.username == username
    ensures UserFromFirestore(DocumentSnapshot(fUser.uid, Some(UserToFirestore(u)))) == Some(u)
  {
    User(fUser.uid, username, fUser.displayName, fUser.photoURL,
         Preferences(Tierlist, DefaultTierlistNames), "")
  }

  /** The batch a submission commits: the profile, then the reservation. */
  function SubmitBatch(fUser: AuthUser, username: string): (batch: seq<Write>)
    ensures |batch| == 2
    ensures batch[0].SetUser? && batch[0].uid == fUser.uid && batch[0].userData.username == username
    ensures batch[1] == SetUsername(username, UsernameData(fUser.uid))
  {
    [SetUser(fUser.uid, UserToFirestore(NewUser(fUser, username))),
     SetUsername(username, UsernameData(fUser.uid))]
  }

  /** A submission writes users/<uid> and usernames/<handle> and nothing else:
      the profile body holds the handle, the provider's name and photo, the
      tier-list display with its seven default names and an empty bio; the
      reservation holds the uid. */
  lemma SubmitWritesTwoDocuments(db: Db, fUser: AuthUser, username: string)
    ensures ApplyBatch(db, SubmitBatch(fUser, username)) == Db(
      db.users[fUser.uid := UserData(fUser.displayName, username, fUser.photoURL,
        Preferences(Tierlist, TierlistNames("Unwatchable", "Awful", "Bad", "Good", "Great", "Excellent", "Masterpiece")),
        "")],
      db.usernames[username := UsernameData(fUser.uid)])
  {
    var batch := SubmitBatch(fUser, username);
    var db1 := ApplyWrite(db, batch[0]);
    assert ApplyBatch(db, batch) == ApplyBatch(db1, batch[1..]);
    assert ApplyBatch(db1, batch[1..]) == ApplyBatch(ApplyWrite(db1, batch[1]), []);
  }

  /** After a submission the new profile reads back as the default user, and
      the handle reads as taken by that uid. */
  lemma SubmittedProfileReadsBack(db: Db, fUser: AuthUser, username: string)
    ensures var after := ApplyBatch(db, SubmitBatch(fUser, username));
      UserFromFirestore(GetUser(after, fUser.uid)) == Some(NewUser(fUser, username)) &&
      GetUsername(after, username).data == Some(UsernameData(fUser.uid))
  {
    SubmitWritesTwoDocuments(db, fUser, username);
    UserRoundTrip(NewUser(fUser, username));
  }

  /** Profiles and reservations point at each other: every reservation names a
      profile holding that handle, and every profile's handle is reserved for it. */
  predicate Linked(db: Db) {
    (forall name :: name in db.usernames ==>
       db.usernames[name].uid in db.users && db.users[db.usernames[name].uid].username == name) &&
    (forall uid :: uid in db.users ==>
       db.users[uid].username in db.usernames && db.usernames[db.users[uid].username].uid == uid)
  }

  /** In a linked store no two profiles hold the same handle. */
  lemma LinkedHandlesUnique(db: Db, u: string, v: string)
    requires Linked(db) && u in db.users && v in db.users
    requires db.users[u].username == db.users[v].username
    ensures u == v
  {
  }

  /** A first submission with a handle nobody holds keeps the store linked. */
  lemma SubmitKeepsLinked(db: Db, fUser: AuthUser, username: string)
    requires Linked(db)
    requires fUser.uid !in db.users && username !in db.usernames
    ensures Linked(ApplyBatch(db, SubmitBatch(fUser, username)))
  {
    SubmitWritesTwoDocuments(db, fUser, username);
  }

  /** The commit does not look at the usernames collection: submitting a handle
      that another uid holds replaces that reservation, and the other uid's
      profile is left holding a handle that is no longer reserved for it. */
  lemma SubmitOverwritesTakenHandle(db: Db, fUser: AuthUser, username: string)
    requires Linked(db)
    requires username in db.usernames && db.usernames[username].uid != fUser.uid
    ensures var after := ApplyBatch(db, SubmitBatch(fUser, username));
      GetUsername(after, username).data == Some(UsernameData(fUser.uid)) && !Linked(after)
  {
    SubmitWritesTwoDocuments(db, fUser, username);
    var owner := db.usernames[username].uid;
    var after := ApplyBatch(db, SubmitBatch(fUser, username));
    assert after.users[owner].username == username;
    assert after.usernames[username].uid != owner;
  }

  // ---------------------------------------------------------------------
  // The form
  // ---------------------------------------------------------------------

  const ChooseLabel := "CHOOSE"
  const LookingUpLabel := "LOOKING UP..."
  const NotAvailableLabel := "USERNAME NOT AVAILABLE"

  class UsernameForm {
    var username: string
    var isValid: bool
    var loading: bool

    /** What every event keeps: the handle is lowercase and is either shorter
        than three characters or well formed, and a pending lookup is only
        ever for a well-formed handle. */
    predicate WellFormed()
      reads this
    {
      NoUpper(username) &&
      (|username| < MinLength || RegexTest(username)) &&
      (loading ==> RegexTest(username))
    }

    /** WellFormed, and the form only offers to choose a well-formed handle. */
    predicate Valid()
      reads this
    {
      WellFormed() && (isValid ==> RegexTest(username))
    }

    constructor ()
      ensures username == "" && !isValid && !loading
      ensures Valid()
    {
      username, isValid, loading := "", false, false;
    }

    /** An edit of the input. The value is lowercased; a value shorter than
        three characters is taken and ends any lookup, a value the pattern
        accepts is taken and starts a lookup, and any other value is ignored.
        A value that is taken also clears whatever a stale lookup left behind. */
    method OnChange(value: string)
      requires WellFormed()
      modifies this
      ensures WellFormed()
      ensures var val := ToLower(value);
        |val| < MinLength || RegexTest(val) || old(Valid()) ==> Valid()
      ensures var val := ToLower(value);
        if |val| < MinLength then username == val && !loading && !isValid
        else if RegexTest(val) then username == val && loading && !isValid
        else username == old(username) && loading == old(loading) && isValid == old(isValid)
    {
      var val := ToLower(value);
      if |val| < MinLength {
        username := val;
        loading := false;
        isValid := false;
      }
      var matches := CheckPattern(val);
      if matches {
        username := val;
        loading := true;
        isValid := false;
      }
    }

    /** The completion of one debounced lookup of `candidate`. A candidate
        shorter than three characters is not looked up and changes nothing;
        otherwise usernames/<candidate> is read and the form becomes valid
        exactly when that document does not exist. The read issued is returned. */
    method CheckUsername(candidate: string, store: Firestore) returns (lookup: Option<string>)
      requires WellFormed()
      modifies this
      ensures lookup == if |candidate| >= MinLength then Some(candidate) else None
      ensures username == old(username)
      ensures |candidate| < MinLength ==> isValid == old(isValid) && loading == old(loading)
      ensures |candidate| >= MinLength ==>
        isValid == (candidate !in store.db.usernames) && !loading
      ensures WellFormed()
      ensures old(Valid()) && candidate == username ==> Valid()
    {
      lookup := None;
      if |candidate| >= MinLength {
        var snap := GetUsername(store.db, candidate);
        lookup := Some(candidate);
        isValid := snap.data.None?;
        loading := false;
      }
    }

    /** The submit button is disabled exactly when its label is not CHOOSE. */
    function SubmitDisabled(): (disabled: bool)
      reads this
      ensures disabled <==> ButtonLabel() != ChooseLabel
    {
      !isValid
    }

    /** CHOOSE when valid, else LOOKING UP... while a lookup is pending, else
        USERNAME NOT AVAILABLE. */
    function ButtonLabel(): (text: string)
      reads this
      ensures text == ChooseLabel <==> isValid
      ensures text == LookingUpLabel <==> !isValid && loading
      ensures text == NotAvailableLabel <==> !isValid && !loading
    {
      if isValid then ChooseLabel else if loading then LookingUpLabel else NotAvailableLabel
    }

    /** The submission: one batch that writes the default profile under the
        provider's uid and the reservation of the current handle. Afterwards
        the profile reads back as the default user and the handle as held by
        that uid. */
    method OnSubmit(fUser: AuthUser, store: Firestore)
      modifies store
      ensures store.db == ApplyBatch(old(store.db), SubmitBatch(fUser, username))
      ensures UserFromFirestore(GetUser(store.db, fUser.uid)) == Some(NewUser(fUser, username))
      ensures GetUsername(store.db, username).data == Some(UsernameData(fUser.uid))
    {
      var data := NewUser(fUser, username);
      var batch: seq<Write> := [];
      batch := batch + [SetUser(fUser.uid, UserToFirestore(data))];
      batch := batch + [SetUsername(username, UsernameData(fUser.uid))];
      store.Commit(batch);
      SubmittedProfileReadsBack(old(store.db), fUser, username);
    }
  }
}
