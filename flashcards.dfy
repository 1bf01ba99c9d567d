/**
 * The local state logic of the vocabulary deck page (src/pages/Flashcards.jsx):
 * the list updates after the server answers, the study cursor, and the mastery
 * badge. Server responses are arguments; `None` (or `false`) stands for a
 * request that failed.
 */
module Flashcards {
  import opened Js

  /** A card as the server returns it. */
  datatype Card = Card(id: string, word: string, definition: string, example: string,
                       pronunciation: string, mastery: int)

  /** The "Add New Word" form. */
  datatype CardForm = CardForm(word: string, definition: string, example: string, pronunciation: string)

  const EmptyForm := CardForm("", "", "", "")

  /** `cards.filter(c => c._id !== id)`. */
  function WithoutId(cards: seq<Card>, id: string): (r: seq<Card>)
    ensures |r| <= |cards|
    ensures forall c :: c in r ==> c.id != id
  {
    if cards == [] then []
    else (if cards[0].id != id then [cards[0]] else []) + WithoutId(cards[1..], id)
  }

  /** Exactly the cards with that id are dropped, each other card kept as often as it occurs. */
  lemma {:induction false} WithoutIdCounts(cards: seq<Card>, id: string)
    ensures forall c :: multiset(WithoutId(cards, id))[c] == if c.id == id then 0 else multiset(cards)[c]
  {
    if cards != [] {
      WithoutIdCounts(cards[1..], id);
      assert cards == [cards[0]] + cards[1..];
    }
  }

  /** Filtering works piecewise, so the kept cards stay in their original order. */
  lemma {:induction false} WithoutIdAppend(a: seq<Card>, b: seq<Card>, id: string)
    ensures WithoutId(a + b, id) == WithoutId(a, id) + WithoutId(b, id)
  {
    if a == [] {
      assert a + b == b;
    } else {
      var head := if a[0].id != id then [a[0]] else [];
      assert (a + b)[0] == a[0];
      assert (a + b)[1..] == a[1..] + b;
      assert WithoutId(a + b, id) == head + WithoutId(a[1..] + b, id);
      assert WithoutId(a, id) == head + WithoutId(a[1..], id);
      WithoutIdAppend(a[1..], b, id);
      assert head + (WithoutId(a[1..], id) + WithoutId(b, id))
          == (head + WithoutId(a[1..], id)) + WithoutId(b, id);
    }
  }

  /** `cards.findIndex(c => c._id === id)`: the first position holding `id`, or -1. */
  function FindIndex(cards: seq<Card>, id: string): (r: int)
    ensures -1 <= r < |cards|
    ensures r >= 0 ==> cards[r].id == id && forall j :: 0 <= j < r ==> cards[j].id != id
    ensures r == -1 <==> forall j :: 0 <= j < |cards| ==> cards[j].id != id
  {
    if cards == [] then -1
    else if cards[0].id == id then 0
    else
      var k := FindIndex(cards[1..], id);
      assert forall j :: 1 <= j < |cards| ==> cards[j] == cards[1..][j - 1];
      if k == -1 then -1 else k + 1
  }

  /** The three mastery levels the badge shows. */
  datatype Tier = Mastered | Reviewing | New

  /** The badge's level: the two ternaries of the badge test the same conditions. */
  function MasteryTier(mastery: int): (t: Tier)
    ensures t == Mastered <==> mastery == 3
    ensures t == Reviewing <==> mastery == 2
    ensures t == New <==> mastery != 2 && mastery != 3
  {
    if mastery == 3 then Mastered else if mastery == 2 then Reviewing else New
  }

  /** The badge text: each tier has its own word, so the word names the tier. */
  function TierLabel(t: Tier): (l: string)
    ensures l == "Mastered" <==> t == Mastered
    ensures l == "Reviewing" <==> t == Reviewing
    ensures l == "New" <==> t == New
  {
    match t
    case Mastered => "Mastered"
    case Reviewing => "Reviewing"
    case New => "New"
  }

  /** The badge colour. */
  datatype BadgeColour = Green | Yellow | Red

  /** Each tier has its own colour, so the colour names the tier. */
  function TierColour(t: Tier): (c: BadgeColour)
    ensures c == Green <==> t == Mastered
    ensures c == Yellow <==> t == Reviewing
    ensures c == Red <==> t == New
  {
    match t
    case Mastered => Green
    case Reviewing => Yellow
    case New => Red
  }

  /** The badge text and colour for a stored mastery value. */
  function MasteryBadge(mastery: int): (b: (string, BadgeColour))
    ensures mastery == 3 <==> b == ("Mastered", Green)
    ensures mastery == 2 <==> b == ("Reviewing", Yellow)
    ensures mastery != 2 && mastery != 3 <==> b == ("New", Red)
    ensures b.0 == "Mastered" <==> b.1 == Green
  {
    var t := MasteryTier(mastery);
    (TierLabel(t), TierColour(t))
  }

  /** The page's state. */
  class FlashcardsPage {
    var cards: seq<Card>
    var form: CardForm
    var showForm: bool
    var studyMode: bool
    var currentCardIndex: nat
    var isFlipped: bool

    /** Study mode is rendered (`studyMode && cards.length > 0`). */
    predicate RendersStudyView()
      reads this
    {
      studyMode && |cards| > 0
    }

    /** "Study Now" is enabled (`disabled={cards.length === 0}`). */
    predicate StudyNowEnabled()
      reads this
    {
      |cards| != 0
    }

    /** In study mode the cursor points at a card, so `cards[currentCardIndex]` is defined. */
    ghost predicate StudyIndexInRange()
      reads this
    {
      studyMode ==> currentCardIndex < |cards|
    }

    constructor()
      ensures cards == [] && form == EmptyForm && !showForm
      ensures !studyMode && currentCardIndex == 0 && !isFlipped
      ensures StudyIndexInRange()
    {
      cards, form, showForm := [], EmptyForm, false;
      studyMode, currentCardIndex, isFlipped := false, 0, false;
    }

    /** `fetchCards` on mount: the deck becomes the server's list. */
    method FetchCards(response: Option<seq<Card>>)
      modifies this`cards
      ensures cards == if response.Some? then response.value else old(cards)
      ensures old(!studyMode) ==> StudyIndexInRange()
    {
      if response.Some? {
        cards := response.value;
      }
    }

    /** `handleAdd`: on success the new card comes first, the form is emptied and hidden. */
    method HandleAdd(response: Option<Card>)
      modifies this`cards, this`form, this`showForm
      ensures response.Some? ==> cards == [response.value] + old(cards) && form == EmptyForm && !showForm
      ensures response.None? ==> cards == old(cards) && form == old(form) && showForm == old(showForm)
      ensures old(StudyIndexInRange()) ==> StudyIndexInRange()
    {
      if response.Some? {
        cards := [response.value] + cards;
        form := EmptyForm;
        showForm := false;
      }
    }

    /** `handleDelete`: after the user confirms and the server deletes, drop every card with that id. */
    method HandleDelete(id: string, confirmed: bool, deleted: bool)
      modifies this`cards
      ensures cards == if confirmed && deleted then WithoutId(old(cards), id) else old(cards)
      ensures old(!studyMode) ==> StudyIndexInRange()
    {
      if !confirmed {
        return;
      }
      if deleted {
        cards := WithoutId(cards, id);
      }
    }

    /**
     * `handleMastery`: on success the first card with that id becomes the
     * server's copy (no card changes when none has it: the assignment at index
     * -1 makes a property, not an element); in study mode the cursor advances.
     */
    method HandleMastery(id: string, level: int, response: Option<Card>)
      modifies this`cards, this`currentCardIndex, this`studyMode, this`isFlipped
      ensures var i := FindIndex(old(cards), id);
              cards == if response.Some? && i >= 0 then old(cards)[i := response.value] else old(cards)
      ensures |cards| == |old(cards)|
      ensures forall j :: 0 <= j < |cards| && (response.None? || j != FindIndex(old(cards), id)) ==>
                cards[j] == old(cards)[j]
      ensures response.Some? && old(studyMode) ==>
                && !isFlipped
                && (old(currentCardIndex) < |old(cards)| - 1 ==> currentCardIndex == old(currentCardIndex) + 1 && studyMode)
                && (old(currentCardIndex) >= |old(cards)| - 1 ==> currentCardIndex == 0 && !studyMode)
      ensures response.None? || !old(studyMode) ==>
                currentCardIndex == old(currentCardIndex) && studyMode == old(studyMode) && isFlipped == old(isFlipped)
      ensures old(StudyIndexInRange()) ==> StudyIndexInRange()
    {
      if response.None? {
        return;
      }
      var updated := cards;
      var index := FindIndex(updated, id);
      if index >= 0 {
        updated := updated[index := response.value];
      }
      cards := updated;
      if studyMode {
        NextCard();
      }
    }

    /** `nextCard`: unflip; advance, or at the last card go back to 0 and leave study mode. */
    method NextCard()
      modifies this`currentCardIndex, this`studyMode, this`isFlipped
      ensures !isFlipped
      ensures old(currentCardIndex) < |cards| - 1 ==> currentCardIndex == old(currentCardIndex) + 1 && studyMode == old(studyMode)
      ensures old(currentCardIndex) >= |cards| - 1 ==> currentCardIndex == 0 && !studyMode
      ensures |cards| > 0 && old(currentCardIndex) < |cards| ==> currentCardIndex < |cards|
      ensures old(StudyIndexInRange()) ==> StudyIndexInRange()
    {
      isFlipped := false;
      if currentCardIndex < |cards| - 1 {
        currentCardIndex := currentCardIndex + 1;
      } else {
        studyMode := false;
        currentCardIndex := 0;
      }
    }

    /** "Add Word" / "Cancel" shows or hides the form. */
    method ToggleForm()
      modifies this`showForm
      ensures showForm == !old(showForm)
    {
      showForm := !showForm;
    }

    /** Clicking the card turns it over. */
    method Flip()
      modifies this`isFlipped
      ensures isFlipped == !old(isFlipped)
    {
      isFlipped := !isFlipped;
    }

    /** "Exit Study": leave study mode; the cursor is kept. */
    method ExitStudy()
      modifies this`studyMode
      ensures !studyMode
      ensures StudyIndexInRange()
    {
      studyMode := false;
    }

    /** "Study Now" as written: enter study mode without touching the cursor. */
    method StudyNowAsWritten()
      requires StudyNowEnabled()
      modifies this`studyMode
      ensures studyMode && RendersStudyView()
    {
      studyMode := true;
    }

    /** "Study Now" with the cursor reset: the study view always has a card to show. */
    method StudyNow()
      requires StudyNowEnabled()
      modifies this`studyMode, this`currentCardIndex
      ensures studyMode && currentCardIndex == 0
      ensures RendersStudyView() && StudyIndexInRange()
    {
      studyMode := true;
      currentCardIndex := 0;
    }
  }

  /**
   * The cursor survives "Exit Study", so a deletion in the list view can leave
   * it past the end; "Study Now" as written then renders a study view whose
   * `cards[currentCardIndex]` is undefined.
   */
  method StaleIndexScenario() returns (page: FlashcardsPage)
    ensures page.RendersStudyView() && page.currentCardIndex >= |page.cards|
  {
    var a := Card("a", "apple", "a fruit", "", "", 0);
    var b := Card("b", "book", "pages", "", "", 0);
    page := new FlashcardsPage();
    page.FetchCards(Some([a, b]));
    page.StudyNowAsWritten();
    page.Flip();
    page.HandleMastery("a", 2, Some(a.(mastery := 2)));
    assert page.currentCardIndex == 1;
    page.ExitStudy();
    page.HandleDelete("b", true, true);
    assert page.cards == [a.(mastery := 2)];
    page.StudyNowAsWritten();
  }

  /** With the corrected "Study Now", the same steps end with the cursor on a card. */
  method StaleIndexScenarioCorrected() returns (page: FlashcardsPage)
    ensures page.RendersStudyView() && page.currentCardIndex < |page.cards|
  {
    var a := Card("a", "apple", "a fruit", "", "", 0);
    var b := Card("b", "book", "pages", "", "", 0);
    page := new FlashcardsPage();
    page.FetchCards(Some([a, b]));
    page.StudyNow();
    page.Flip();
    page.HandleMastery("a", 2, Some(a.(mastery := 2)));
    page.ExitStudy();
    page.HandleDelete("b", true, true);
    assert page.cards == [a.(mastery := 2)];
    page.StudyNow();
  }
}
