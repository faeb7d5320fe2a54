/**
 * The session store (src/context/AuthContext.js): the signed-in user, a loading flag that
 * clears once the saved session has been looked at, and the saved `userAuth` record.
 */
module AuthContext {
  import opened Common

  /** The user record `{type, username, isAuthenticated}` kept in memory and saved. */
  datatype User = User(userType: string, username: string, isAuthenticated: bool)

  /** The saved `userAuth` entry: absent, not valid JSON, or a parsed record. */
  datatype Slot = Empty | Unparseable | Stored(record: User)

  /** The values the context derives from `user`. */
  datatype Flags = Flags(isAuthenticated: bool, isAdmin: bool, isUser: bool)

  /** `!!user`, `user?.type === 'admin'` and `user?.type === 'user'`. */
  function FlagsOf(user: Option<User>): (f: Flags)
    ensures f.isAuthenticated <==> user.Some?
    ensures f.isAdmin <==> user.Some? && user.value.userType == "admin"
    ensures f.isUser <==> user.Some? && user.value.userType == "user"
  {
    Flags(user.Some?, user.Some? && user.value.userType == "admin", user.Some? && user.value.userType == "user")
  }

  /** A user is never both admin and plain user, and either role implies being signed in. */
  lemma RolesExclusive(user: Option<User>)
    ensures !(FlagsOf(user).isAdmin && FlagsOf(user).isUser)
    ensures FlagsOf(user).isAdmin || FlagsOf(user).isUser ==> FlagsOf(user).isAuthenticated
  {
  }

  /** The user after the restore effect: the saved record if it parses and says it is authenticated. */
  function RestoredUser(slot: Slot, current: Option<User>): (u: Option<User>)
    ensures slot.Stored? && slot.record.isAuthenticated ==> u == Some(slot.record)
    ensures !(slot.Stored? && slot.record.isAuthenticated) ==> u == current
  {
    match slot
    case Stored(record) => if record.isAuthenticated then Some(record) else current
    case _ => current
  }

  /** The saved entry after the restore effect: an unparseable one is removed, any other kept. */
  function RestoredSlot(slot: Slot): (r: Slot)
    ensures !r.Unparseable?
    ensures !slot.Unparseable? ==> r == slot
  {
    if slot.Unparseable? then Empty else slot
  }

  /** What `login` saves is restored as the same user after a reload. */
  lemma LoginSurvivesReload(userType: string, username: string)
    ensures var u := User(userType, username, true);
      RestoredUser(Stored(u), None) == Some(u) && FlagsOf(Some(u)).isAuthenticated
  {
  }

  /** After `logout` nothing is saved, so a reload restores no user. */
  lemma LogoutSurvivesReload()
    ensures RestoredUser(RestoredSlot(Empty), None) == None
    ensures !FlagsOf(RestoredUser(Empty, None)).isAuthenticated
  {
  }

  /** Restoring twice is the same as restoring once. */
  lemma RestoreIdempotent(slot: Slot, current: Option<User>)
    ensures RestoredSlot(RestoredSlot(slot)) == RestoredSlot(slot)
    ensures RestoredUser(RestoredSlot(slot), RestoredUser(slot, current)) == RestoredUser(slot, current)
  {
  }

  /** `AuthProvider`: the `user` and `isLoading` state and the saved entry it reads and writes. */
  class AuthProvider {
    var user: Option<User>
    var isLoading: bool
    var slot: Slot

    /** The first render: no user, loading, the saved entry as found. */
    constructor(saved: Slot)
      ensures user == None && isLoading && slot == saved
    {
      user := None;
      isLoading := true;
      slot := saved;
    }

    /** The mount effect: adopt an authenticated saved record, drop an unparseable one, stop loading. */
    method Restore()
      modifies this
      ensures user == RestoredUser(old(slot), old(user))
      ensures slot == RestoredSlot(old(slot))
      ensures !isLoading
    {
      match slot {
        case Empty =>
        case Unparseable =>
          slot := Empty;
        case Stored(record) =>
          if record.isAuthenticated {
            user := Some(record);
          }
      }
      isLoading := false;
    }

    /** `login`: the new user is signed in, and the same record is saved. */
    method Login(userType: string, username: string)
      modifies this
      ensures user == Some(User(userType, username, true))
      ensures slot == Stored(User(userType, username, true))
      ensures isLoading == old(isLoading)
      ensures FlagsOf(user).isAuthenticated
    {
      var userData := User(userType, username, true);
      user := Some(userData);
      slot := Stored(userData);
    }

    /** `logout`: no user, nothing saved, whatever came before. */
    method Logout()
      modifies this
      ensures user == None && slot == Empty
      ensures isLoading == old(isLoading)
      ensures !FlagsOf(user).isAuthenticated && !FlagsOf(user).isAdmin && !FlagsOf(user).isUser
    {
      user := None;
      slot := Empty;
    }
  }
}
