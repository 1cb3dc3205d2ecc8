/** The user/order store (`UserService`): a list of users, each with its own
    list of orders, and the email of the logged-in ("active") user, both kept
    in browser storage. Every operation reads the whole list, changes one
    record and writes the whole list back.

    The pure functions below say what each operation does to the list; the
    `Store` class performs the operations the way the service does, one loop
    over the users at a time, and is proved to agree with them. A function
    result `None` means "the service returned false and wrote nothing". */
module UserStore {
  import opened Wrappers
  import opened Seqs
  import opened Models

  const DefaultEmail := "user@example.com"

  /** The demo user seeded into an empty store; `id` is the UUID drawn for it. */
  function DefaultUser(id: string): User {
    User(id, DefaultEmail, "Jhon", "Doe", Some("+381061123123"), Some("Danijelova 32"),
         Some([]), "user123", Some("Komedija"))
  }

  /** What `retrieveUsers` returns for the stored list (`None`: no 'users' key). */
  function Seeded(stored: Option<seq<User>>, seedId: string): seq<User> {
    match stored
    case None => [DefaultUser(seedId)]
    case Some(users) => users
  }

  /** No two users share an email. The service does not enforce this on every
      path; the lemmas below say which operations keep it. */
  ghost predicate UniqueEmails(users: seq<User>) {
    forall i, j :: 0 <= i < j < |users| ==> users[i].email != users[j].email
  }

  /** The test the mutators apply to each user: `user.email == active`. */
  function OwnedBy(active: Option<string>): User -> bool {
    (u: User) => active == Some(u.email)
  }

  function HasEmail(email: string): User -> bool {
    (u: User) => u.email == email
  }

  function HasCredentials(email: string, password: string): User -> bool {
    (u: User) => u.email == email && u.password == password
  }

  function HasId(id: int): Order -> bool {
    (o: Order) => o.id == id
  }

  // ---------------------------------------------------------------- users

  /** `createUser`: refused when the email is taken, else appended at the end. */
  function AddUser(users: seq<User>, model: User): (r: Option<seq<User>>)
    ensures r.Some? <==> forall i :: 0 <= i < |users| ==> users[i].email != model.email
    ensures r.Some? ==> r.value == users + [model]
  {
    if FirstIndex(users, HasEmail(model.email)).Some? then None else Some(users + [model])
  }

  /** `login`: the first user whose email and password both match exactly. */
  function LoginIndex(users: seq<User>, email: string, password: string): Option<nat> {
    FirstIndex(users, HasCredentials(email, password))
  }

  /** The 'active' key is absent or empty: `getActiveUser` answers `null`
      before it reads the user list. */
  predicate NoSession(active: Option<string>) {
    active.None? || active.value == ""
  }

  /** `getActiveUser`: nobody when the session key is absent or empty,
      otherwise the first user with that email. */
  function ActiveUser(users: seq<User>, active: Option<string>): (r: Option<User>)
    ensures r.Some? ==> r.value in users && active == Some(r.value.email) && r.value.email != ""
    ensures r.None? <==> (active.None? || active.value == ""
      || forall i :: 0 <= i < |users| ==> active != Some(users[i].email))
  {
    if active.None? || active.value == "" then None
    else match FirstIndex(users, OwnedBy(active))
      case None => None
      case Some(i) => Some(users[i])
  }

  /** The position of the record the mutators change: the first user owned by
      the session key. */
  function ActiveIndex(users: seq<User>, active: Option<string>): Option<nat> {
    FirstIndex(users, OwnedBy(active))
  }

  datatype ProfileField = Password | Email | FirstName | LastName | Phone | Address

  /** The value of an editable profile field (`None`: an absent optional field). */
  function FieldValue(u: User, f: ProfileField): Option<string> {
    match f
    case Password => Some(u.password)
    case Email => Some(u.email)
    case FirstName => Some(u.firstName)
    case LastName => Some(u.lastName)
    case Phone => u.phone
    case Address => u.address
  }

  /** `user[field] = value` for one editable field. */
  function WithField(u: User, f: ProfileField, v: string): (r: User)
    ensures FieldValue(r, f) == Some(v)
    ensures forall g :: g != f ==> FieldValue(r, g) == FieldValue(u, g)
    ensures r.id == u.id && r.orders == u.orders && r.favouriteGenre == u.favouriteGenre
  {
    match f
    case Password => u.(password := v)
    case Email => u.(email := v)
    case FirstName => u.(firstName := v)
    case LastName => u.(lastName := v)
    case Phone => u.(phone := Some(v))
    case Address => u.(address := Some(v))
  }

  /** `changePassword`, `changeEmail`, `changeFirstName`, `changeLastName`,
      `changePhone`, `changeAddress`: one field of the first owned user. */
  function ChangedField(users: seq<User>, active: Option<string>, f: ProfileField, v: string): (r: Option<seq<User>>)
    ensures r.None? <==> forall i :: 0 <= i < |users| ==> active != Some(users[i].email)
    ensures r.Some? ==> var i := ActiveIndex(users, active).value;
      |r.value| == |users| && r.value[i] == WithField(users[i], f, v)
      && forall j :: 0 <= j < |users| && j != i ==> r.value[j] == users[j]
  {
    match ActiveIndex(users, active)
    case None => None
    case Some(i) => Some(users[i := WithField(users[i], f, v)])
  }

  /** `updateUser`: the first owned record is replaced by `updated` as a whole. */
  function ReplacedUser(users: seq<User>, active: Option<string>, updated: User): (r: Option<seq<User>>)
    ensures r.None? <==> forall i :: 0 <= i < |users| ==> active != Some(users[i].email)
    ensures r.Some? ==> var i := ActiveIndex(users, active).value;
      |r.value| == |users| && r.value[i] == updated
      && forall j :: 0 <= j < |users| && j != i ==> r.value[j] == users[j]
  {
    match ActiveIndex(users, active)
    case None => None
    case Some(i) => Some(users[i := updated])
  }

  // --------------------------------------------------------------- orders

  /** `user.orders ??= []; user.orders.push(order)` */
  function WithOrder(u: User, order: Order): (r: User)
    ensures r.orders.Some? && r.orders.value == u.orders.GetOr([]) + [order]
    ensures r.(orders := u.orders) == u
  {
    u.(orders := Some(u.orders.GetOr([]) + [order]))
  }

  /** `createOrder`: appends to the first owned user's order list. */
  function AddedOrder(users: seq<User>, active: Option<string>, order: Order): (r: Option<seq<User>>)
    ensures r.None? <==> forall i :: 0 <= i < |users| ==> active != Some(users[i].email)
    ensures r.Some? ==> var i := ActiveIndex(users, active).value;
      |r.value| == |users| && r.value[i] == WithOrder(users[i], order)
      && forall j :: 0 <= j < |users| && j != i ==> r.value[j] == users[j]
  {
    match ActiveIndex(users, active)
    case None => None
    case Some(i) => Some(users[i := WithOrder(users[i], order)])
  }

  /** `order.rating = rating; if (reviewText) order.review = reviewText` */
  function Rated(o: Order, rating: int, reviewText: Option<string>): (r: Order)
    ensures r.rating == Some(rating)
    ensures r.review == if reviewText.Some? && reviewText.value != "" then reviewText else o.review
    ensures r.(rating := o.rating, review := o.review) == o
  {
    o.(rating := Some(rating),
       review := if reviewText.Some? && reviewText.value != "" then reviewText else o.review)
  }

  /** Sets the status of every order carrying the id. */
  function StatusOfAll(orders: seq<Order>, id: int, status: OrderStatus): (r: seq<Order>)
    ensures |r| == |orders|
    ensures forall k :: 0 <= k < |orders| && orders[k].id == id ==> r[k] == orders[k].(status := status)
    ensures forall k :: 0 <= k < |orders| && orders[k].id != id ==> r[k] == orders[k]
  {
    seq(|orders|, k requires 0 <= k < |orders| =>
      if orders[k].id == id then orders[k].(status := status) else orders[k])
  }

  /** The user holds an order with the id in its order list and passes `owner`. */
  predicate HoldsOrder(u: User, owner: User -> bool, id: int) {
    owner(u) && u.orders.Some? && FirstIndex(u.orders.value, HasId(id)).Some?
  }

  /** The first order with the id among users from position `from` on that pass
      `owner`, skipping users without an order list: (user index, order index). */
  function FindOrder(users: seq<User>, owner: User -> bool, id: int, from: nat): (r: Option<(nat, nat)>)
    requires from <= |users|
    ensures r.Some? ==> (from <= r.value.0 < |users| && HoldsOrder(users[r.value.0], owner, id)
      && Some(r.value.1) == FirstIndex(users[r.value.0].orders.value, HasId(id)))
    ensures r.Some? ==> forall j :: from <= j < r.value.0 ==> !HoldsOrder(users[j], owner, id)
    ensures r.None? <==> forall j :: from <= j < |users| ==> !HoldsOrder(users[j], owner, id)
    decreases |users| - from
  {
    if from == |users| then None
    else if HoldsOrder(users[from], owner, id) then
      Some((from, FirstIndex(users[from].orders.value, HasId(id)).value))
    else FindOrder(users, owner, id, from + 1)
  }

  /** The search stops at the first user holding the id. */
  lemma FindOrderAt(users: seq<User>, owner: User -> bool, id: int, i: nat)
    requires i < |users| && HoldsOrder(users[i], owner, id)
    requires forall j :: 0 <= j < i ==> !HoldsOrder(users[j], owner, id)
    ensures FindOrder(users, owner, id, 0) == Some((i, FirstIndex(users[i].orders.value, HasId(id)).value))
  {
    var r := FindOrder(users, owner, id, 0);
    assert r.Some? by {
      assert HoldsOrder(users[i], owner, id);
    }
  }

  /** The inner loop of the order searches: the first order carrying the id. */
  method FirstOrderWithId(orders: seq<Order>, id: int) returns (k: Option<nat>)
    ensures k == FirstIndex(orders, HasId(id))
  {
    var m := 0;
    while m < |orders|
      invariant 0 <= m <= |orders|
      invariant forall j :: 0 <= j < m ==> !HasId(id)(orders[j])
    {
      if orders[m].id == id {
        FirstIndexAt(orders, HasId(id), m);
        return Some(m);
      }
      m := m + 1;
    }
    return None;
  }

  /** Replaces order `k` of user `i` by `f` of it. */
  function UpdateOrderAt(users: seq<User>, i: nat, k: nat, o: Order): (r: seq<User>)
    requires i < |users| && users[i].orders.Some? && k < |users[i].orders.value|
    ensures |r| == |users| && r[i].orders.Some? && r[i].orders.value == users[i].orders.value[k := o]
    ensures r[i].(orders := users[i].orders) == users[i]
    ensures forall j :: 0 <= j < |users| && j != i ==> r[j] == users[j]
  {
    users[i := users[i].(orders := Some(users[i].orders.value[k := o]))]
  }

  /** `updateOrderRating`: rates the first order with the id among the owned
      users' orders. */
  function RatedOrder(users: seq<User>, active: Option<string>, id: int, rating: int, reviewText: Option<string>): (r: Option<seq<User>>)
    ensures r.None? <==> forall j :: 0 <= j < |users| ==> !HoldsOrder(users[j], OwnedBy(active), id)
  {
    match FindOrder(users, OwnedBy(active), id, 0)
    case None => None
    case Some((i, k)) => Some(UpdateOrderAt(users, i, k, Rated(users[i].orders.value[k], rating, reviewText)))
  }

  /** `updateOrderRating` rates the first order with the id in the first owned
      user holding one, and changes nothing else. */
  lemma RatedOrderAt(users: seq<User>, active: Option<string>, id: int, rating: int, reviewText: Option<string>, i: nat)
    requires i < |users| && HoldsOrder(users[i], OwnedBy(active), id)
    requires forall j :: 0 <= j < i ==> !HoldsOrder(users[j], OwnedBy(active), id)
    ensures var k := FirstIndex(users[i].orders.value, HasId(id)).value;
      RatedOrder(users, active, id, rating, reviewText)
        == Some(UpdateOrderAt(users, i, k, Rated(users[i].orders.value[k], rating, reviewText)))
  {
    FindOrderAt(users, OwnedBy(active), id, i);
  }

  /** `updateOrderStatus`: needs a logged-in user; sets the status of the first
      order with the id among the owned users' orders. */
  function StatusOfFirst(users: seq<User>, active: Option<string>, id: int, status: OrderStatus): (r: Option<seq<User>>)
    ensures r.Some? ==> ActiveUser(users, active).Some?
    ensures ActiveUser(users, active).Some? ==>
      (r.None? <==> forall j :: 0 <= j < |users| ==> !HoldsOrder(users[j], OwnedBy(active), id))
  {
    if ActiveUser(users, active).None? then None
    else match FindOrder(users, OwnedBy(active), id, 0)
      case None => None
      case Some((i, k)) => Some(UpdateOrderAt(users, i, k, users[i].orders.value[k].(status := status)))
  }

  /** `updateOrderStatus` changes the order the search stops at. */
  lemma StatusOfFirstAt(users: seq<User>, active: Option<string>, id: int, status: OrderStatus, i: nat)
    requires ActiveUser(users, active).Some?
    requires i < |users| && HoldsOrder(users[i], OwnedBy(active), id)
    requires forall j :: 0 <= j < i ==> !HoldsOrder(users[j], OwnedBy(active), id)
    ensures var k := FirstIndex(users[i].orders.value, HasId(id)).value;
      StatusOfFirst(users, active, id, status) == Some(UpdateOrderAt(users, i, k, users[i].orders.value[k].(status := status)))
  {
    FindOrderAt(users, OwnedBy(active), id, i);
  }

  /** The user passes `OwnedBy(active)` and has an order list. */
  function OwnedWithOrders(active: Option<string>): User -> bool {
    (u: User) => active == Some(u.email) && u.orders.Some?
  }

  /** `changeOrderStatus`: needs a logged-in user; in the first owned user that
      has an order list, sets the status of every order with the id. It
      succeeds whether or not any order carries the id. */
  function StatusOfAllMatching(users: seq<User>, active: Option<string>, status: OrderStatus, id: int): (r: Option<seq<User>>)
    ensures r.Some? <==> (ActiveUser(users, active).Some?
      && exists i :: 0 <= i < |users| && OwnedWithOrders(active)(users[i]))
    ensures r.Some? ==> var i := FirstIndex(users, OwnedWithOrders(active)).value;
      && |r.value| == |users|
      && r.value[i].orders == Some(StatusOfAll(users[i].orders.value, id, status))
      && r.value[i].(orders := users[i].orders) == users[i]
      && forall j :: 0 <= j < |users| && j != i ==> r.value[j] == users[j]
  {
    if ActiveUser(users, active).None? then None
    else match FirstIndex(users, OwnedWithOrders(active))
      case None => None
      case Some(i) => Some(users[i := users[i].(orders := Some(StatusOfAll(users[i].orders.value, id, status)))])
  }

  /** `changeOrderStatus` changes the orders of the first owned user that has
      an order list, and no other user. */
  lemma StatusOfAllMatchingAt(users: seq<User>, active: Option<string>, status: OrderStatus, id: int, i: nat)
    requires ActiveUser(users, active).Some?
    requires i < |users| && OwnedWithOrders(active)(users[i])
    requires forall j :: 0 <= j < i ==> !OwnedWithOrders(active)(users[j])
    ensures StatusOfAllMatching(users, active, status, id)
      == Some(users[i := users[i].(orders := Some(StatusOfAll(users[i].orders.value, id, status)))])
  {
    FirstIndexAt(users, OwnedWithOrders(active), i);
  }

  // ---------------------------------------------------------------- lemmas

  /** Signing up with a fresh email keeps emails unique. */
  lemma AddUserKeepsUnique(users: seq<User>, model: User)
    requires UniqueEmails(users) && AddUser(users, model).Some?
    ensures UniqueEmails(AddUser(users, model).value)
  {
    var r := AddUser(users, model).value;
    forall i, j | 0 <= i < j < |r| ensures r[i].email != r[j].email {
      if j == |users| {
        assert r[i] == users[i];
      }
    }
  }

  /** A user who has just signed up can log in with the same credentials, and
      it is the new record that matches. */
  lemma LoginAfterSignup(users: seq<User>, model: User)
    requires AddUser(users, model).Some?
    ensures LoginIndex(AddUser(users, model).value, model.email, model.password) == Some(|users|)
  {
    var r := AddUser(users, model).value;
    FirstIndexAt(r, HasCredentials(model.email, model.password), |users|);
  }

  /** With unique emails, after a successful login with a non-empty email the
      active user is the one that logged in. */
  lemma ActiveAfterLogin(users: seq<User>, email: string, password: string)
    requires UniqueEmails(users) && email != ""
    requires LoginIndex(users, email, password).Some?
    ensures ActiveUser(users, Some(email)) == Some(users[LoginIndex(users, email, password).value])
  {
    var i := LoginIndex(users, email, password).value;
    FirstIndexAt(users, OwnedBy(Some(email)), i);
  }

  /** Logging in with the empty email can succeed, yet nobody is then active:
      `getActiveUser` treats an empty session key as no session. */
  lemma EmptyEmailLoginHasNoActiveUser(users: seq<User>, password: string)
    requires LoginIndex(users, "", password).Some?
    ensures ActiveUser(users, Some("")) == None
  {
  }

  /** Changing any field but the email keeps the list of emails. */
  lemma ChangedFieldKeepsEmails(users: seq<User>, active: Option<string>, f: ProfileField, v: string)
    requires f != Email && ChangedField(users, active, f, v).Some?
    ensures var r := ChangedField(users, active, f, v).value;
      |r| == |users| && forall j :: 0 <= j < |users| ==> r[j].email == users[j].email
  {
    var r := ChangedField(users, active, f, v).value;
    var i := ActiveIndex(users, active).value;
    assert FieldValue(r[i], Email) == FieldValue(users[i], Email);
  }

  /** Neither `changeEmail` nor `updateUser` moves the session key: once the
      active user's email is changed to another value nobody is active any
      more (with unique emails). */
  lemma EmailChangeLosesSession(users: seq<User>, active: Option<string>, newEmail: string)
    requires UniqueEmails(users) && ActiveUser(users, active).Some?
    requires Some(newEmail) != active
    ensures ChangedField(users, active, Email, newEmail).Some?
    ensures ActiveUser(ChangedField(users, active, Email, newEmail).value, active) == None
  {
    var i := ActiveIndex(users, active).value;
    var r := ChangedField(users, active, Email, newEmail).value;
    assert FieldValue(r[i], Email) == Some(newEmail);
    forall j | 0 <= j < |r| ensures active != Some(r[j].email) {
      if j != i {
        assert users[i].email != users[j].email;
      }
    }
  }

  lemma UpdateUserLosesSession(users: seq<User>, active: Option<string>, updated: User)
    requires UniqueEmails(users) && ActiveUser(users, active).Some?
    requires Some(updated.email) != active
    ensures ReplacedUser(users, active, updated).Some?
    ensures ActiveUser(ReplacedUser(users, active, updated).value, active) == None
  {
    var i := ActiveIndex(users, active).value;
    var r := ReplacedUser(users, active, updated).value;
    forall j | 0 <= j < |r| ensures active != Some(r[j].email) {
      if j != i {
        assert users[i].email != users[j].email;
      }
    }
  }

  /** After `createOrder` the active user's order list ends with the new order. */
  lemma ActiveUserSeesNewOrder(users: seq<User>, active: Option<string>, order: Order)
    requires ActiveUser(users, active).Some?
    ensures AddedOrder(users, active, order).Some?
    ensures var u := ActiveUser(AddedOrder(users, active, order).value, active);
      u.Some? && u.value.orders.Some? && u.value.orders.value == ActiveUser(users, active).value.orders.GetOr([]) + [order]
  {
    var i := ActiveIndex(users, active).value;
    var r := AddedOrder(users, active, order).value;
    assert r[i].email == users[i].email;
    forall j | 0 <= j < i ensures !OwnedBy(active)(r[j]) {
      assert r[j] == users[j];
    }
    FirstIndexAt(r, OwnedBy(active), i);
  }

  /** Rating with an empty review text sets the rating and keeps the old review. */
  lemma EmptyReviewKeepsReview(users: seq<User>, active: Option<string>, id: int, rating: int)
    requires RatedOrder(users, active, id, rating, Some("")).Some?
    ensures var loc := FindOrder(users, OwnedBy(active), id, 0).value;
      var o := users[loc.0].orders.value[loc.1];
      var r := RatedOrder(users, active, id, rating, Some("")).value;
      r[loc.0].orders.value[loc.1] == o.(rating := Some(rating))
  {
  }

  /** Order ids are unique within each order list. */
  ghost predicate UniqueOrderIds(users: seq<User>) {
    forall i :: 0 <= i < |users| && users[i].orders.Some? ==>
      forall k, m :: 0 <= k < m < |users[i].orders.value| ==>
        users[i].orders.value[k].id != users[i].orders.value[m].id
  }

  lemma StatusOfAllSingle(orders: seq<Order>, id: int, status: OrderStatus, k: nat)
    requires k < |orders| && orders[k].id == id
    requires forall m :: 0 <= m < |orders| && m != k ==> orders[m].id != id
    ensures StatusOfAll(orders, id, status) == orders[k := orders[k].(status := status)]
  {
  }

  /** The two status operations agree when emails and order ids are unique and
      the order exists. */
  lemma StatusOperationsAgree(users: seq<User>, active: Option<string>, id: int, status: OrderStatus)
    requires UniqueEmails(users) && UniqueOrderIds(users)
    requires StatusOfFirst(users, active, id, status).Some?
    ensures StatusOfAllMatching(users, active, status, id) == StatusOfFirst(users, active, id, status)
  {
    var loc := FindOrder(users, OwnedBy(active), id, 0).value;
    var i, k := loc.0, loc.1;
    var os := users[i].orders.value;
    forall j | 0 <= j < i ensures !OwnedWithOrders(active)(users[j]) {
      assert users[j].email != users[i].email;
    }
    FirstIndexAt(users, OwnedWithOrders(active), i);
    forall m | 0 <= m < |os| && m != k ensures os[m].id != id {
      if m < k {
        assert os[m].id != os[k].id;
      } else {
        assert os[k].id != os[m].id;
      }
    }
    StatusOfAllSingle(os, id, status, k);
  }

  /** `changeOrderStatus` reports success even when no order has the id; it
      then leaves the list as it was. */
  lemma StatusOfAllMatchingNoMatch(users: seq<User>, active: Option<string>, status: OrderStatus, id: int)
    requires StatusOfAllMatching(users, active, status, id).Some?
    requires forall j :: 0 <= j < |users| && users[j].orders.Some? ==>
      forall k :: 0 <= k < |users[j].orders.value| ==> users[j].orders.value[k].id != id
    ensures StatusOfAllMatching(users, active, status, id) == Some(users)
  {
    var i := FirstIndex(users, OwnedWithOrders(active)).value;
    var os := users[i].orders.value;
    assert forall k :: 0 <= k < |os| ==> StatusOfAll(os, id, status)[k] == os[k];
    assert StatusOfAll(os, id, status) == os;
    assert users[i].(orders := Some(os)) == users[i];
    assert users[i := users[i]] == users;
  }

  // ------------------------------------------------------------ the store

  /** The service with its two storage keys: `stored` is the 'users' key
      (`None` while nothing was written) and `active` the 'active' key.
      `seedId` is the UUID drawn when the demo user is seeded. */
  class Store {
    var stored: Option<seq<User>>
    var active: Option<string>
    const seedId: string

    constructor (stored: Option<seq<User>>, active: Option<string>, seedId: string)
      ensures this.stored == stored && this.active == active && this.seedId == seedId
    {
      this.stored := stored;
      this.active := active;
      this.seedId := seedId;
    }

    /** The list every operation starts from. */
    function Users(): seq<User>
      reads this
    {
      Seeded(stored, seedId)
    }

    /** `retrieveUsers`: seeds the demo user when nothing is stored. */
    method RetrieveUsers() returns (users: seq<User>)
      modifies this
      ensures old(stored).None? ==> users == [DefaultUser(seedId)]
      ensures old(stored).Some? ==> users == old(stored).value
      ensures users == old(Users())
      ensures stored == Some(users) && active == old(active)
    {
      if stored.None? {
        stored := Some([DefaultUser(seedId)]);
      }
      users := stored.value;
    }

    method CreateUser(model: User) returns (ok: bool)
      modifies this
      ensures ok <==> forall i :: 0 <= i < |old(Users())| ==> old(Users())[i].email != model.email
      ensures stored == Some(if ok then old(Users()) + [model] else old(Users()))
      ensures active == old(active)
    {
      var users := RetrieveUsers();
      var i := 0;
      while i < |users|
        invariant 0 <= i <= |users|
        invariant forall j :: 0 <= j < i ==> users[j].email != model.email
      {
        if users[i].email == model.email {
          return false;
        }
        i := i + 1;
      }
      users := users + [model];
      stored := Some(users);
      return true;
    }

    method Login(email: string, password: string) returns (ok: bool)
      modifies this
      ensures ok <==> LoginIndex(old(Users()), email, password).Some?
      ensures active == if ok then Some(email) else old(active)
      ensures stored == Some(old(Users()))
    {
      var users := RetrieveUsers();
      var i := 0;
      while i < |users|
        invariant 0 <= i <= |users|
        invariant forall j :: 0 <= j < i ==> !HasCredentials(email, password)(users[j])
      {
        if users[i].email == email && users[i].password == password {
          active := Some(users[i].email);
          return true;
        }
        i := i + 1;
      }
      return false;
    }

    /** The logout button: removes the 'active' key. */
    method Logout()
      modifies this
      ensures active == None && stored == old(stored)
    {
      active := None;
    }

    /** `getActiveUser`: without a session key it answers at once and
        storage is left alone; otherwise it reads the (seeded) list. */
    method GetActiveUser() returns (user: Option<User>)
      modifies this
      ensures user == ActiveUser(old(Users()), active)
      ensures stored == (if NoSession(active) then old(stored) else Some(old(Users())))
      ensures active == old(active)
    {
      if active.None? || active.value == "" {
        return None;
      }
      var users := RetrieveUsers();
      var i := 0;
      while i < |users|
        invariant 0 <= i <= |users|
        invariant forall j :: 0 <= j < i ==> !OwnedBy(active)(users[j])
      {
        if Some(users[i].email) == active {
          return Some(users[i]);
        }
        i := i + 1;
      }
      return None;
    }

    /** `changePassword`, `changeEmail`, `changeFirstName`, `changeLastName`,
        `changePhone` and `changeAddress`, told apart by `field`. */
    method ChangeField(field: ProfileField, value: string) returns (ok: bool)
      modifies this
      ensures ok <==> ChangedField(old(Users()), active, field, value).Some?
      ensures stored == Some(ChangedField(old(Users()), active, field, value).GetOr(old(Users())))
      ensures active == old(active)
    {
      var users := RetrieveUsers();
      var i := 0;
      while i < |users|
        invariant 0 <= i <= |users|
        invariant forall j :: 0 <= j < i ==> !OwnedBy(active)(users[j])
        invariant stored == Some(users) && users == old(Users()) && active == old(active)
      {
        if Some(users[i].email) == active {
          users := users[i := WithField(users[i], field, value)];
          stored := Some(users);
          return true;
        }
        i := i + 1;
      }
      return false;
    }

    method CreateOrder(order: Order) returns (ok: bool)
      modifies this
      ensures ok <==> AddedOrder(old(Users()), active, order).Some?
      ensures stored == Some(AddedOrder(old(Users()), active, order).GetOr(old(Users())))
      ensures active == old(active)
    {
      var users := RetrieveUsers();
      var i := 0;
      while i < |users|
        invariant 0 <= i <= |users|
        invariant forall j :: 0 <= j < i ==> !OwnedBy(active)(users[j])
        invariant stored == Some(users) && users == old(Users()) && active == old(active)
      {
        if Some(users[i].email) == active {
          var orders := if users[i].orders.None? then [] else users[i].orders.value;
          users := users[i := users[i].(orders := Some(orders + [order]))];
          stored := Some(users);
          return true;
        }
        i := i + 1;
      }
      return false;
    }

    method ChangeOrderStatus(status: OrderStatus, id: int) returns (ok: bool)
      modifies this
      ensures ok <==> StatusOfAllMatching(old(Users()), active, status, id).Some?
      ensures stored == if NoSession(active) then old(stored)
        else Some(StatusOfAllMatching(old(Users()), active, status, id).GetOr(old(Users())))
      ensures active == old(active)
    {
      var current := GetActiveUser();
      if current.None? {
        return false;
      }
      ghost var email := current.value.email;
      assert active == Some(email);
      var users := RetrieveUsers();
      var i := 0;
      while i < |users|
        invariant 0 <= i <= |users|
        invariant forall j :: 0 <= j < i ==> !OwnedWithOrders(active)(users[j])
        invariant stored == Some(users) && users == old(Users()) && active == old(active)
      {
        if users[i].email == current.value.email {
          if users[i].orders.Some? {
            var os := users[i].orders.value;
            var orders := os;
            var k := 0;
            while k < |orders|
              invariant 0 <= k <= |orders| == |os|
              invariant forall m :: 0 <= m < k ==> orders[m] == StatusOfAll(os, id, status)[m]
              invariant forall m :: k <= m < |os| ==> orders[m] == os[m]
            {
              if orders[k].id == id {
                orders := orders[k := orders[k].(status := status)];
              }
              k := k + 1;
            }
            assert orders == StatusOfAll(os, id, status);
            FirstIndexAt(users, OwnedWithOrders(active), i);
            users := users[i := users[i].(orders := Some(orders))];
            stored := Some(users);
            return true;
          }
        }
        i := i + 1;
      }
      return false;
    }

    method UpdateOrderRating(orderId: int, rating: int, reviewText: Option<string>) returns (ok: bool)
      modifies this
      ensures ok <==> RatedOrder(old(Users()), active, orderId, rating, reviewText).Some?
      ensures stored == Some(RatedOrder(old(Users()), active, orderId, rating, reviewText).GetOr(old(Users())))
      ensures active == old(active)
    {
      var users := RetrieveUsers();
      var i := 0;
      while i < |users|
        invariant 0 <= i <= |users|
        invariant forall j :: 0 <= j < i ==> !HoldsOrder(users[j], OwnedBy(active), orderId)
        invariant stored == Some(users) && users == old(Users()) && active == old(active)
      {
        if Some(users[i].email) == active && users[i].orders.Some? {
          var k := FirstOrderWithId(users[i].orders.value, orderId);
          if k.Some? {
            FindOrderAt(users, OwnedBy(active), orderId, i);
            users := UpdateOrderAt(users, i, k.value, Rated(users[i].orders.value[k.value], rating, reviewText));
            stored := Some(users);
            return true;
          }
        }
        i := i + 1;
      }
      return false;
    }

    method UpdateOrderStatus(id: int, status: OrderStatus) returns (ok: bool)
      modifies this
      ensures ok <==> StatusOfFirst(old(Users()), active, id, status).Some?
      ensures stored == if NoSession(active) then old(stored)
        else Some(StatusOfFirst(old(Users()), active, id, status).GetOr(old(Users())))
      ensures active == old(active)
    {
      var current := GetActiveUser();
      if current.None? {
        return false;
      }
      ghost var email := current.value.email;
      assert active == Some(email);
      var users := RetrieveUsers();
      var i := 0;
      while i < |users|
        invariant 0 <= i <= |users|
        invariant forall j :: 0 <= j < i ==> !HoldsOrder(users[j], OwnedBy(active), id)
        invariant stored == Some(users) && users == old(Users()) && active == old(active)
      {
        if users[i].email == current.value.email && users[i].orders.Some? {
          var k := FirstOrderWithId(users[i].orders.value, id);
          if k.Some? {
            StatusOfFirstAt(users, active, id, status, i);
            users := UpdateOrderAt(users, i, k.value, users[i].orders.value[k.value].(status := status));
            stored := Some(users);
            return true;
          }
        }
        i := i + 1;
      }
      return false;
    }

    method UpdateUser(updated: User) returns (ok: bool)
      modifies this
      ensures ok <==> ReplacedUser(old(Users()), active, updated).Some?
      ensures stored == Some(ReplacedUser(old(Users()), active, updated).GetOr(old(Users())))
      ensures active == old(active)
    {
      var users := RetrieveUsers();
      var i := 0;
      while i < |users|
        invariant 0 <= i <= |users|
        invariant forall j :: 0 <= j < i ==> !OwnedBy(active)(users[j])
        invariant stored == Some(users) && users == old(Users()) && active == old(active)
      {
        if Some(users[i].email) == active {
          users := users[i := updated];
          stored := Some(users);
          return true;
        }
        i := i + 1;
      }
      return false;
    }
  }
}
