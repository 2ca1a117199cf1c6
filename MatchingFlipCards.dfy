/**
 * The swipe card stack: the drag-release decision (distance or velocity past
 * a threshold), the like/pass choice from the drag's direction, the live
 * LIKE/PASS stamp, the button-driven swipe, and removal of the front card.
 * Offsets are in pixels and velocities in pixels per second.
 */
module MatchingFlipCards {
  import opened Wrappers

  datatype Profile = Profile(
    id: int,
    name: string,
    age: int,
    major: string,
    interests: seq<string>,
    bio: string,
    image: string)

  datatype Action = Like | Pass

  datatype Direction = Left | Right

  /** Distance a drag must exceed to commit. */
  const SwipeThreshold := 100
  /** Speed a drag must exceed at release to commit as a flick. */
  const SwipeVelocityThreshold := 500
  /** Distance past which the live stamp shows. */
  const IndicatorThreshold := 50
  /** How many cards of the stack are rendered. */
  const RenderedCount := 3

  function Abs(x: int): nat
  {
    if x < 0 then -x else x
  }

  /** `handleDragEnd`'s test: the drag went far enough or fast enough, both strictly. */
  function Commits(offsetX: int, velocityX: int): (r: bool)
    ensures r <==> offsetX > SwipeThreshold || offsetX < -SwipeThreshold
                   || velocityX > SwipeVelocityThreshold || velocityX < -SwipeVelocityThreshold
  {
    Abs(offsetX) > SwipeThreshold || Abs(velocityX) > SwipeVelocityThreshold
  }

  /** `onDragEnd`'s choice of action: only the sign of the offset counts. */
  function ActionFor(offsetX: int): (r: Action)
    ensures r == Like <==> offsetX > 0
  {
    if offsetX > 0 then Like else Pass
  }

  /** What releasing the top card decides: an action, or `None` when the card snaps back. */
  function DragDecision(offsetX: int, velocityX: int): (r: Option<Action>)
    ensures r.Some? <==> Commits(offsetX, velocityX)
    ensures r == Some(Like) <==> Commits(offsetX, velocityX) && offsetX > 0
    ensures r == Some(Pass) <==> Commits(offsetX, velocityX) && offsetX <= 0
  {
    if Commits(offsetX, velocityX) then Some(ActionFor(offsetX)) else None
  }

  /**
   * The boundaries: exactly 100 px or exactly 500 px/s does not commit, and a
   * fast flick is a pass unless the card has moved right, whichever way the
   * flick went.
   */
  lemma DragDecisionBoundaries()
    ensures DragDecision(100, 0) == None && DragDecision(-100, 0) == None
    ensures DragDecision(0, 500) == None && DragDecision(0, -500) == None
    ensures DragDecision(101, 0) == Some(Like) && DragDecision(-101, 0) == Some(Pass)
    ensures DragDecision(0, 501) == Some(Pass)
    ensures DragDecision(-30, 800) == Some(Pass) && DragDecision(30, -800) == Some(Like)
  {
  }

  /** `onDrag`'s live stamp: right past +50, left past -50, none in between. */
  function Indicator(offsetX: int): (r: Option<Direction>)
    ensures r == Some(Right) <==> offsetX > IndicatorThreshold
    ensures r == Some(Left) <==> offsetX < -IndicatorThreshold
    ensures r == None <==> -IndicatorThreshold <= offsetX <= IndicatorThreshold
  {
    if offsetX > IndicatorThreshold then Some(Right)
    else if offsetX < -IndicatorThreshold then Some(Left)
    else None
  }

  /** The direction a button press sends the card. */
  function ButtonDirection(action: Action): (r: Direction)
    ensures r == Right <==> action == Like
  {
    if action == Like then Right else Left
  }

  /**
   * The stamp never contradicts the decision: whenever a stamp shows, a
   * release at that offset that commits does what the stamp says, and a
   * release that commits on distance alone always had a stamp showing.
   */
  lemma IndicatorAgreesWithDecision(offsetX: int, velocityX: int)
    ensures Indicator(offsetX).Some? && Commits(offsetX, velocityX) ==>
      DragDecision(offsetX, velocityX) == Some(if Indicator(offsetX) == Some(Right) then Like else Pass)
    ensures Abs(offsetX) > SwipeThreshold ==>
      Indicator(offsetX) == Some(ButtonDirection(DragDecision(offsetX, velocityX).value))
  {
  }

  /** `prev.slice(1)`: everything after the front card; nothing when the stack is empty. */
  function Drop(cards: seq<Profile>): (r: seq<Profile>)
    ensures |r| == if cards == [] then 0 else |cards| - 1
    ensures forall i :: 0 <= i < |r| ==> r[i] == cards[i + 1]
  {
    if cards == [] then [] else cards[1..]
  }

  /** Putting the front card back in front undoes `Drop`. */
  lemma DropRemovesOnlyTheFront(cards: seq<Profile>)
    requires cards != []
    ensures [cards[0]] + Drop(cards) == cards
  {
  }

  /** `cards.slice(0, 3)`: the cards that are rendered, front first. */
  function RenderedStack(cards: seq<Profile>): (r: seq<Profile>)
    ensures |r| <= RenderedCount && |r| <= |cards|
    ensures |r| == RenderedCount || r == cards
    ensures forall i :: 0 <= i < |r| ==> r[i] == cards[i]
  {
    if |cards| <= RenderedCount then cards else cards[..RenderedCount]
  }

  /** Only the rendered card at index 0 takes drags and shows the buttons. */
  predicate IsTop(index: nat)
  {
    index == 0
  }

  /** The stack and the drag direction, with the ghost history that explains them. */
  class CardStack {
    var cards: seq<Profile>
    var dragDirection: Option<Direction>
    /** The profiles the stack started with. */
    ghost const initial: seq<Profile>
    /** How many front cards have been removed so far. */
    ghost var removed: nat

    /** The stack is always a suffix of the initial profiles: only the front ever leaves, nothing is reordered. */
    ghost predicate Valid()
      reads this
    {
      removed <= |initial| && cards == initial[removed..]
    }

    constructor (profiles: seq<Profile>)
      ensures Valid() && initial == profiles && removed == 0
      ensures cards == profiles && dragDirection == None
    {
      cards := profiles;
      dragDirection := None;
      initial := profiles;
      removed := 0;
    }

    /** `removeCard(action)`: drops the front card. The action is only logged. */
    method RemoveCard(action: Action)
      requires Valid()
      modifies this
      ensures Valid()
      ensures cards == Drop(old(cards)) && dragDirection == old(dragDirection)
      ensures removed == if old(cards) == [] then old(removed) else old(removed) + 1
    {
      if cards != [] {
        removed := removed + 1;
      }
      cards := Drop(cards);
    }

    /** `onDrag` on the rendered card at `index`: the top card shows the live stamp. */
    method Drag(index: nat, offsetX: int)
      requires Valid()
      modifies this
      ensures Valid() && cards == old(cards) && removed == old(removed)
      ensures dragDirection == if IsTop(index) then Indicator(offsetX) else old(dragDirection)
    {
      if IsTop(index) {
        dragDirection := Indicator(offsetX);
      }
    }

    /**
     * `onDragEnd` on the rendered card at `index`, then `handleDragEnd`: the
     * top card is removed when the release commits; either way the stamp is
     * cleared. A card other than the top one ignores the event.
     */
    method DragEnd(index: nat, offsetX: int, velocityX: int)
      requires Valid()
      modifies this
      ensures Valid()
      ensures IsTop(index) ==>
        && cards == (if Commits(offsetX, velocityX) then Drop(old(cards)) else old(cards))
        && dragDirection == None
      ensures !IsTop(index) ==> cards == old(cards) && dragDirection == old(dragDirection)
    {
      if IsTop(index) {
        if Commits(offsetX, velocityX) {
          RemoveCard(ActionFor(offsetX));
        }
        dragDirection := None;
      }
    }

    /** `handleButtonClick(action)` as the click happens: the card is sent right for like, left for pass. */
    method ButtonClick(action: Action)
      requires Valid()
      modifies this
      ensures Valid() && cards == old(cards) && removed == old(removed)
      ensures dragDirection == Some(ButtonDirection(action))
    {
      dragDirection := Some(ButtonDirection(action));
    }

    /** The callback `handleButtonClick` schedules: removes the front card and clears the direction. */
    method SettleTimerFired(action: Action)
      requires Valid()
      modifies this
      ensures Valid()
      ensures cards == Drop(old(cards)) && dragDirection == None
    {
      RemoveCard(action);
      dragDirection := None;
    }
  }

  /** A stack A, B, C; the top card is dragged 150 px right and released: it is liked and B, C remain. */
  method DragScenario(a: Profile, b: Profile, c: Profile) returns (decision: Option<Action>, after: seq<Profile>)
    ensures decision == Some(Like)
    ensures after == [b, c]
  {
    var stack := new CardStack([a, b, c]);
    stack.Drag(0, 150);
    decision := DragDecision(150, 0);
    stack.DragEnd(0, 150, 0);
    after := stack.cards;
  }

  /** Pressing "pass" twice before the first timer fires removes two cards, never more than there are. */
  method DoubleClickScenario(a: Profile) returns (after: seq<Profile>, direction: Option<Direction>)
    ensures after == [] && direction == None
  {
    var stack := new CardStack([a]);
    stack.ButtonClick(Pass);
    stack.ButtonClick(Pass);
    stack.SettleTimerFired(Pass);
    stack.SettleTimerFired(Pass);
    after, direction := stack.cards, stack.dragDirection;
  }

  /**
   * Two button clicks before the first 300 ms callback fires schedule two
   * removals, and each removes the then-front card: on A, B, C both A and B
   * go.
   */
  method DoubleClickRemovesTwo(a: Profile, b: Profile, c: Profile) returns (after: seq<Profile>, direction: Option<Direction>)
    ensures after == [c] && direction == None
  {
    var stack := new CardStack([a, b, c]);
    stack.ButtonClick(Like);
    stack.ButtonClick(Like);
    stack.SettleTimerFired(Like);
    stack.SettleTimerFired(Like);
    after, direction := stack.cards, stack.dragDirection;
  }
}
