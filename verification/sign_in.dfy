/**
 * The sign-in form (src/components/auth/SignIn.js): the two typed fields, the loading flag,
 * the error line, and the credential rule that decides between the admin role, the user
 * role and an error.
 */
module SignIn {
  import opened Common
  import opened AuthContext

  const AdminUsername := "admin"
  const AdminPassword := "admin123"
  const AdminDisplayName := "Administrator"
  const MissingFieldsError := "Please enter both username and password"

  /** The outcome of a submit: an `onLogin(type, name)` call, or an error message. */
  datatype Decision = LogIn(userType: string, displayName: string) | Reject(message: string)

  /** The credential rule of `handleSubmit`. */
  function Decide(username: string, password: string): (d: Decision)
    ensures d.LogIn? <==> username != "" && password != ""
    ensures d.Reject? ==> d.message == MissingFieldsError
    ensures d.LogIn? ==> d.userType == "admin" || d.userType == "user"
  {
    if username == AdminUsername && password == AdminPassword then LogIn("admin", AdminDisplayName)
    else if username != "" && password != "" then LogIn("user", username)
    else Reject(MissingFieldsError)
  }

  /** Only the exact admin credentials give the admin role, shown as "Administrator". */
  lemma AdminOnlyWithAdminCredentials(username: string, password: string)
    ensures Decide(username, password) == LogIn("admin", "Administrator")
      <==> username == "admin" && password == "admin123"
  {
  }

  /** Every other pair of non-empty fields signs in as a plain user under the typed name. */
  lemma OtherPairsAreUsers(username: string, password: string)
    requires username != "" && password != ""
    requires !(username == "admin" && password == "admin123")
    ensures Decide(username, password) == LogIn("user", username)
  {
  }

  /** The admin name with a wrong password is an ordinary user called "admin". */
  lemma WrongAdminPasswordIsUser(password: string)
    requires password != "" && password != "admin123"
    ensures Decide("admin", password) == LogIn("user", "admin")
  {
  }

  datatype Field = Username | Password

  /** The sign-in form state. */
  class SignInForm {
    var username: string
    var password: string
    var isLoading: bool
    var error: string

    constructor()
      ensures username == "" && password == "" && !isLoading && error == ""
    {
      username := "";
      password := "";
      isLoading := false;
      error := "";
    }

    /**
     * `handleSubmit` with its delay elapsed: either the session is saved and `onLogin`
     * (the store's `login`) is called, or the error is set; in both cases loading ends.
     */
    method Submit(auth: AuthProvider) returns (loggedIn: bool)
      modifies this, auth
      ensures loggedIn <==> username != "" && password != ""
      ensures loggedIn != (error != "")
      ensures !isLoading
      ensures username == old(username) && password == old(password)
      ensures loggedIn ==> error == ""
      ensures loggedIn ==> (var d := Decide(username, password);
        && auth.user == Some(User(d.userType, d.displayName, true))
        && auth.slot == Stored(User(d.userType, d.displayName, true)))
      ensures !loggedIn ==> error == MissingFieldsError
      ensures !loggedIn ==> auth.user == old(auth.user) && auth.slot == old(auth.slot)
      ensures auth.isLoading == old(auth.isLoading)
    {
      isLoading := true;
      error := "";
      match Decide(username, password) {
        case LogIn(userType, displayName) =>
          auth.slot := Stored(User(userType, displayName, true));
          auth.Login(userType, displayName);
          loggedIn := true;
        case Reject(message) =>
          error := message;
          loggedIn := false;
      }
      isLoading := false;
    }

    /** `handleInputChange`: the named field takes the typed value and any error is cleared. */
    method InputChanged(field: Field, value: string)
      modifies this
      ensures field == Username ==> username == value && password == old(password)
      ensures field == Password ==> password == value && username == old(username)
      ensures error == "" && isLoading == old(isLoading)
    {
      match field {
        case Username => username := value;
        case Password => password := value;
      }
      if error != "" {
        error := "";
      }
    }
  }
}
