/** The card viewer: a question/answer face that flips, with a lock held while the flip animates,
    and two review buttons that only report an outcome once the answer is showing. */
module FlashcardViewer {
  import opened DummyData

  /** What a button press hands to the page: nothing, or one review outcome. */
  datatype Emitted = Nothing | Outcome(known: bool)

  class Viewer {
    const flashcard: Flashcard
    var isFlipped: bool
    var isAnimating: bool

    /** A viewer opens on the question side with no animation running. */
    constructor (card: Flashcard)
      ensures flashcard == card && !isFlipped && !isAnimating
    {
      flashcard := card;
      isFlipped := false;
      isAnimating := false;
    }

    /** Clicking the card: ignored while a flip animates; otherwise turns the card over
        and starts the animation. */
    method HandleFlip()
      modifies this
      ensures old(isAnimating) ==> isFlipped == old(isFlipped) && isAnimating
      ensures !old(isAnimating) ==> isFlipped == !old(isFlipped) && isAnimating
    {
      if !isAnimating {
        isAnimating := true;
        isFlipped := !isFlipped;
      }
    }

    /** A review button. On the question side it only reveals the answer and reports nothing;
        on the answer side it reports the pressed outcome once and turns back to the question.
        The animation lock is not consulted. */
    method HandleReview(known: bool) returns (e: Emitted)
      modifies this
      ensures e.Outcome? <==> old(isFlipped)
      ensures e.Outcome? ==> e.known == known
      ensures old(isFlipped) ==> !isFlipped
      ensures !old(isFlipped) ==> isFlipped
      ensures isAnimating == old(isAnimating)
    {
      if !isFlipped {
        isFlipped := true;
        return Nothing;
      }
      e := Outcome(known);
      isFlipped := false;
    }

    /** The end of a flip animation releases the lock and leaves the face as it is. */
    method OnAnimationComplete()
      modifies this
      ensures !isAnimating && isFlipped == old(isFlipped)
    {
      isAnimating := false;
    }

    /** The text in the middle of the card: the answer when flipped, the question otherwise. */
    function FaceText(): (t: string)
      reads this
      ensures isFlipped ==> t == flashcard.answer
      ensures !isFlipped ==> t == flashcard.question
    {
      if isFlipped then flashcard.answer else flashcard.question
    }
  }

  /** A press on the question side followed by a press on the answer side reports exactly the
      second press's outcome, and the viewer is back on the question side. */
  method TwoPresses(card: Flashcard, first: bool, second: bool) returns (e1: Emitted, e2: Emitted)
    ensures e1 == Nothing && e2 == Outcome(second)
  {
    var v := new Viewer(card);
    e1 := v.HandleReview(first);
    e2 := v.HandleReview(second);
    assert !v.isFlipped;
  }
}
