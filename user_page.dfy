/** The profile page of the logged-in user: the order statistics, the review
    dialog for an order, editing one profile field at a time and cancelling
    an order. Every change goes through the store; the page keeps its own
    copy of the user. */
module UserPage {
  import opened Wrappers
  import opened Seqs
  import opened Text
  import opened Models
  import opened UserStore

  // -------------------------------------------------------------- counters

  /** `order.rating && order.rating > 3`: a rating of 0 is falsy. */
  function Liked(): Order -> bool {
    (o: Order) => o.rating.Some? && o.rating.value != 0 && o.rating.value > 3
  }

  /** `order.rating !== null && order.rating > 3` */
  function Positive(): Order -> bool {
    (o: Order) => o.rating.Some? && o.rating.value > 3
  }

  function OrdersCount(user: Option<User>): (n: nat)
    ensures user.Some? && user.value.orders.Some? ==> n == |user.value.orders.value|
    ensures user.None? || user.value.orders.None? ==> n == 0
  {
    if user.Some? && user.value.orders.Some? then |user.value.orders.value| else 0
  }

  /** `getLikedCount`: 0 without a user or without an order list. */
  function LikedCount(user: Option<User>): (n: nat)
    ensures n <= OrdersCount(user)
    ensures user.None? || user.value.orders.None? ==> n == 0
  {
    if user.Some? && user.value.orders.Some? then Count(user.value.orders.value, Liked()) else 0
  }

  /** `getPositiveRatingsCount` */
  function PositiveRatingsCount(user: Option<User>): (n: nat)
    ensures n <= OrdersCount(user)
    ensures user.None? || user.value.orders.None? ==> n == 0
  {
    if user.Some? && user.value.orders.Some? then Count(user.value.orders.value, Positive()) else 0
  }

  /** The two counters are the same number: a rating above 3 is never 0. */
  lemma LikedIsPositive(user: Option<User>)
    ensures LikedCount(user) == PositiveRatingsCount(user)
    ensures LikedCount(user) == 0 <==>
      (user.None? || user.value.orders.None?
       || forall k :: 0 <= k < |user.value.orders.value| ==> !Positive()(user.value.orders.value[k]))
  {
    if user.Some? && user.value.orders.Some? {
      CountExt(user.value.orders.value, Liked(), Positive());
    }
  }

  // ---------------------------------------------------------- rating labels

  /** `getRatingText` */
  function RatingText(rating: int): (s: string)
    ensures s != "" <==> 1 <= rating <= 5
  {
    match rating
    case 1 => "Veoma loš"
    case 2 => "Loš"
    case 3 => "Prosečan"
    case 4 => "Dobar"
    case 5 => "Odličan"
    case _ => ""
  }

  /** Different stars get different labels. */
  lemma RatingTextInjective(a: int, b: int)
    requires 1 <= a <= 5 && 1 <= b <= 5 && a != b
    ensures RatingText(a) != RatingText(b)
  {
    assert RatingText(1)[0] == 'V' && RatingText(2)[1] == 'o' && RatingText(3)[0] == 'P';
    assert RatingText(4)[0] == 'D' && RatingText(5)[0] == 'O';
  }

  // ---------------------------------------------------------------- reviews

  const ThanksAlert := "Hvala na vašoj oceni!"
  const SaveFailedAlert := "Došlo je do greške prilikom čuvanja ocene. Molimo pokušajte ponovo."

  /** The page's own copy of a rated order: the trimmed review is set even
      when it is empty. */
  function LocallyRated(o: Order, rating: int, review: string): (r: Order)
    ensures r.rating == Some(rating) && r.review == Some(review)
    ensures r.(rating := o.rating, review := o.review) == o
  {
    o.(rating := Some(rating), review := Some(review))
  }

  /** The page's copy agrees with what the store saves unless the review is
      empty: then the store keeps the old review and the page shows "". */
  lemma LocalCopyAgreesIff(o: Order, rating: int, review: string)
    ensures LocallyRated(o, rating, review) == Rated(o, rating, Some(review))
      <==> review != "" || o.review == Some("")
  {
    if review == "" && o.review != Some("") {
      assert LocallyRated(o, rating, review).review != Rated(o, rating, Some(review)).review;
    }
  }

  /** `user.orders[findIndex(o => o.id === order.id)] = order`: the first
      order with the same id is replaced; nothing changes without one. */
  function ReplaceFirst(orders: seq<Order>, order: Order): (r: seq<Order>)
    ensures |r| == |orders|
    ensures FirstIndex(orders, HasId(order.id)).None? ==> r == orders
    ensures FirstIndex(orders, HasId(order.id)).Some? ==>
      var k := FirstIndex(orders, HasId(order.id)).value;
      r[k] == order && forall j :: 0 <= j < |orders| && j != k ==> r[j] == orders[j]
  {
    match FirstIndex(orders, HasId(order.id))
    case None => orders
    case Some(k) => orders[k := order]
  }

  /** After the replacement the first order with that id is `order`. */
  lemma ReplaceFirstFinds(orders: seq<Order>, order: Order)
    requires exists k :: 0 <= k < |orders| && orders[k].id == order.id
    ensures FirstIndex(ReplaceFirst(orders, order), HasId(order.id)) == FirstIndex(orders, HasId(order.id))
    ensures ReplaceFirst(orders, order)[FirstIndex(orders, HasId(order.id)).value] == order
  {
    var k :| 0 <= k < |orders| && orders[k].id == order.id;
    assert HasId(order.id)(orders[k]);
    var i := FirstIndex(orders, HasId(order.id)).value;
    var r := ReplaceFirst(orders, order);
    assert HasId(order.id)(r[i]);
    FirstIndexAt(r, HasId(order.id), i);
  }

  /** The user with one order replaced, as the page keeps it. */
  function WithReplacedOrder(user: Option<User>, order: Order): (r: Option<User>)
    ensures r.Some? <==> user.Some?
    ensures user.Some? && user.value.orders.Some? ==>
      r.value == user.value.(orders := Some(ReplaceFirst(user.value.orders.value, order)))
    ensures user.Some? && user.value.orders.None? ==> r == user
  {
    if user.Some? && user.value.orders.Some? then
      Some(user.value.(orders := Some(ReplaceFirst(user.value.orders.value, order))))
    else user
  }

  class UserComponent {
    var user: Option<User>
    var isUserInfoModalOpen: bool
    var isReviewModalOpen: bool
    /** The field being edited; `None` stands for ''. */
    var editField: Option<ProfileField>
    var editValue: string
    var isEditing: bool
    var selectedOrder: Option<Order>
    var reviewRating: int
    var reviewText: string
    var hoverRating: int

    /** The page shows the active user; without one it navigates home and
        `user` stays `None`. */
    constructor (store: Store)
      modifies store
      ensures user == ActiveUser(old(store.Users()), store.active)
      ensures store.stored == (if NoSession(store.active) then old(store.stored) else Some(old(store.Users())))
      ensures store.active == old(store.active)
      ensures !isReviewModalOpen && selectedOrder == None && reviewRating == 0 && reviewText == ""
      ensures editField == None && !isEditing
      ensures ReviewReset() && EditReset() && !isUserInfoModalOpen
    {
      var active := store.GetActiveUser();
      user := active;
      isUserInfoModalOpen := false;
      isReviewModalOpen := false;
      editField := None;
      editValue := "";
      isEditing := false;
      selectedOrder := None;
      reviewRating := 0;
      reviewText := "";
      hoverRating := 0;
    }

    /** The review dialog is closed and its form cleared. */
    predicate ReviewReset()
      reads this
    {
      !isReviewModalOpen && selectedOrder == None && reviewRating == 0 && reviewText == "" && hoverRating == 0
    }

    method CloseReviewModal()
      modifies this`isReviewModalOpen, this`selectedOrder, this`reviewRating, this`reviewText, this`hoverRating
      ensures ReviewReset()
    {
      isReviewModalOpen := false;
      selectedOrder := None;
      reviewRating := 0;
      reviewText := "";
      hoverRating := 0;
    }

    method OpenReviewModal(order: Order)
      modifies this`selectedOrder, this`isReviewModalOpen
      ensures selectedOrder == Some(order) && isReviewModalOpen
    {
      selectedOrder := Some(order);
      isReviewModalOpen := true;
    }

    method SetRating(rating: int)
      modifies this`reviewRating
      ensures reviewRating == rating
    {
      reviewRating := rating;
    }

    /** `submitReview`; `alert` is the message shown, `None` when nothing is
        submitted (no order selected, or no star chosen). On success the
        store rates the order, the page's copy of the user gets the rated
        order and the dialog is reset; on failure only the alert changes. */
    method SubmitReview(store: Store) returns (alert: Option<string>)
      modifies this`user, this`isReviewModalOpen, this`selectedOrder, this`reviewRating, this`reviewText, this`hoverRating
      modifies store
      ensures old(selectedOrder).None? || old(reviewRating) <= 0 ==>
        && alert.None? && store.stored == old(store.stored) && store.active == old(store.active)
        && user == old(user) && selectedOrder == old(selectedOrder) && isReviewModalOpen == old(isReviewModalOpen)
        && reviewRating == old(reviewRating) && reviewText == old(reviewText) && hoverRating == old(hoverRating)
      ensures old(selectedOrder).Some? && old(reviewRating) > 0 ==>
        var rated := RatedOrder(old(store.Users()), store.active, old(selectedOrder).value.id,
                                old(reviewRating), Some(Trim(old(reviewText))));
        && store.stored == Some(rated.GetOr(old(store.Users())))
        && store.active == old(store.active)
        && (rated.Some? ==>
              && alert == Some(ThanksAlert)
              && user == WithReplacedOrder(old(user),
                   LocallyRated(old(selectedOrder).value, old(reviewRating), Trim(old(reviewText))))
              && ReviewReset())
        && (rated.None? ==>
              && alert == Some(SaveFailedAlert) && user == old(user)
              && selectedOrder == old(selectedOrder) && isReviewModalOpen == old(isReviewModalOpen)
              && reviewRating == old(reviewRating) && reviewText == old(reviewText)
              && hoverRating == old(hoverRating))
    {
      if selectedOrder.None? || reviewRating <= 0 {
        return None;
      }
      var review := Trim(reviewText);
      ghost var users0 := store.Users();
      var success := store.UpdateOrderRating(selectedOrder.value.id, reviewRating, Some(review));
      ghost var rated := RatedOrder(users0, store.active, selectedOrder.value.id, reviewRating, Some(review));
      assert success <==> rated.Some?;
      assert store.stored == Some(rated.GetOr(users0));
      if !success {
        return Some(SaveFailedAlert);
      }
      var order := LocallyRated(selectedOrder.value, reviewRating, review);
      selectedOrder := Some(order);
      ReplaceUserOrder(order);
      CloseReviewModal();
      alert := Some(ThanksAlert);
    }

    /** The page's copy of the user gets `order` in place of the first order
        with its id, when the user and an order list are loaded. */
    method ReplaceUserOrder(order: Order)
      modifies this`user
      ensures user == WithReplacedOrder(old(user), order)
    {
      if user.Some? && user.value.orders.Some? {
        var orders := user.value.orders.value;
        var orderIndex := FirstIndex(orders, HasId(order.id));
        if orderIndex.Some? {
          user := Some(user.value.(orders := Some(orders[orderIndex.value := order])));
        }
      }
    }

    method StartEdit(field: ProfileField, value: string)
      modifies this`editField, this`editValue, this`isEditing
      ensures editField == Some(field) && editValue == value && isEditing
    {
      editField := Some(field);
      editValue := value;
      isEditing := true;
    }

    /** The edit state is cleared. */
    predicate EditReset()
      reads this
    {
      !isEditing && editField == None && editValue == ""
    }

    method CancelEdit()
      modifies this`editField, this`editValue, this`isEditing
      ensures EditReset()
    {
      isEditing := false;
      editField := None;
      editValue := "";
    }

    /** `saveEdit`: without a user or a field nothing happens; otherwise the
        field gets the edited value, the whole user is written through
        `updateUser` (whatever it answers) and the edit state is cleared. */
    method SaveEdit(store: Store)
      modifies this`user, this`editField, this`editValue, this`isEditing, store
      ensures old(user).None? || old(editField).None? ==>
        && user == old(user) && editField == old(editField) && editValue == old(editValue)
        && isEditing == old(isEditing) && store.stored == old(store.stored) && store.active == old(store.active)
      ensures old(user).Some? && old(editField).Some? ==>
        var edited := WithField(old(user).value, old(editField).value, old(editValue));
        && user == Some(edited)
        && store.stored == Some(ReplacedUser(old(store.Users()), old(store.active), edited).GetOr(old(store.Users())))
        && store.active == old(store.active)
        && EditReset()
    {
      if user.None? || editField.None? {
        return;
      }
      user := Some(WithField(user.value, editField.value, editValue));
      var _ := store.UpdateUser(user.value);
      isEditing := false;
      editField := None;
      editValue := "";
    }

    /** `doCancel`: the store marks the order canceled, then the page reads
        the active user again. */
    method DoCancel(store: Store, order: Order)
      modifies this`user, store
      ensures var canceled := StatusOfAllMatching(old(store.Users()), old(store.active), Canceled, order.id);
        && store.stored == (if NoSession(store.active) then old(store.stored)
                            else Some(canceled.GetOr(old(store.Users()))))
        && store.active == old(store.active)
        && user == ActiveUser(canceled.GetOr(old(store.Users())), store.active)
    {
      var _ := store.ChangeOrderStatus(Canceled, order.id);
      user := store.GetActiveUser();
    }
  }
}
