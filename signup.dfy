/** The sign-up form: the checks made before an account is created, and the
    account it asks the store to create. */
module Signup {
  import opened Wrappers
  import opened Models
  import opened UserStore

  const RequiredAlert := "Email and password are required fields"
  const MismatchAlert := "Passwords dont match"
  const TakenAlert := "Email is already taken"

  /** What the form does: show an alert, or go on to the login page. */
  datatype Outcome = Alert(message: string) | ToLogin

  /** The account built from the form: the optional fields are kept as
      typed, even when empty, and the order list starts empty. */
  function NewUser(id: string, email: string, password: string, firstName: string, lastName: string,
                   phone: string, address: string, genre: string): (u: User)
    ensures u.id == id && u.email == email && u.password == password
    ensures u.orders == Some([]) && u.phone == Some(phone) && u.address == Some(address)
    ensures u.firstName == firstName && u.lastName == lastName && u.favouriteGenre == Some(genre)
  {
    User(id, email, firstName, lastName, Some(phone), Some(address), Some([]), password, Some(genre))
  }

  /** The check that stops the form before the store is asked, if any. */
  function FormAlert(email: string, password: string, repeatPassword: string): (r: Option<string>)
    ensures r == Some(RequiredAlert) <==> email == "" || password == ""
    ensures r == Some(MismatchAlert) <==> email != "" && password != "" && password != repeatPassword
    ensures r.None? <==> email != "" && password != "" && password == repeatPassword
  {
    if email == "" || password == "" then Some(RequiredAlert)
    else if password != repeatPassword then Some(MismatchAlert)
    else None
  }

  class SignupComponent {
    var email: string
    var password: string
    var repeatPassword: string
    var firstName: string
    var lastName: string
    var phone: string
    var address: string
    var genre: string

    constructor ()
      ensures email == "" && password == "" && repeatPassword == ""
      ensures firstName == "" && lastName == "" && phone == "" && address == "" && genre == ""
    {
      email := "";
      password := "";
      repeatPassword := "";
      firstName := "";
      lastName := "";
      phone := "";
      address := "";
      genre := "";
    }

    function Account(id: string): User
      reads this
    {
      NewUser(id, email, password, firstName, lastName, phone, address, genre)
    }

    /** `doSignup`; `newId` is the UUID drawn for the account. A form that
        fails a check leaves the store untouched; otherwise the store adds
        the account unless its email is taken, and the page goes to the
        login page exactly when it did. */
    method DoSignup(store: Store, newId: string) returns (outcome: Outcome)
      modifies store
      ensures FormAlert(email, password, repeatPassword).Some? ==>
        && outcome == Alert(FormAlert(email, password, repeatPassword).value)
        && store.stored == old(store.stored) && store.active == old(store.active)
      ensures FormAlert(email, password, repeatPassword).None? ==>
        var added := AddUser(old(store.Users()), Account(newId));
        && store.stored == Some(added.GetOr(old(store.Users())))
        && store.active == old(store.active)
        && (outcome == ToLogin <==> added.Some?)
        && (added.None? ==> outcome == Alert(TakenAlert))
    {
      if email == "" || password == "" {
        return Alert(RequiredAlert);
      }
      if password != repeatPassword {
        return Alert(MismatchAlert);
      }
      var result := store.CreateUser(NewUser(newId, email, password, firstName, lastName, phone, address, genre));
      outcome := if result then ToLogin else Alert(TakenAlert);
    }
  }
}
