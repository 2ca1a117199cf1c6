/** A project-idea card's "wish" counter: one optimistic vote per session. */
module ProjectIdeaCard {

  class WishCounter {
    /** `project.wishes`, the count the card was given. */
    const projectWishes: int
    var wishes: int
    var hasWished: bool

    /** The count shown is the given count plus this session's one vote, if cast. */
    predicate Valid()
      reads this
    {
      wishes == projectWishes + (if hasWished then 1 else 0)
    }

    constructor (projectWishes: int)
      ensures Valid()
      ensures this.projectWishes == projectWishes && wishes == projectWishes && !hasWished
    {
      this.projectWishes := projectWishes;
      wishes := projectWishes;
      hasWished := false;
    }

    /** `handleWish`: the first call adds one vote and locks; later calls change nothing. */
    method Wish()
      requires Valid()
      modifies this
      ensures Valid() && hasWished
      ensures wishes == if old(hasWished) then old(wishes) else old(wishes) + 1
    {
      if !hasWished {
        wishes := wishes + 1;
        hasWished := true;
      }
    }
  }

  /** Pressing the button a second time leaves the count where the first press put it: one above the given count. */
  method WishTwice(projectWishes: int) returns (afterFirst: int, afterSecond: int)
    ensures afterFirst == afterSecond == projectWishes + 1
  {
    var card := new WishCounter(projectWishes);
    card.Wish();
    afterFirst := card.wishes;
    card.Wish();
    afterSecond := card.wishes;
  }
}
