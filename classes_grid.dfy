/** The class cards of the public class list
    (components/classes/classes-grid.tsx): seat arithmetic, the availability
    line, the enrol button, the charter price note and the grade line. */
module ClassesGrid {
  import opened Types
  import Text
  import Numbers

  /** `max_spots - spots_taken` (components/classes/classes-grid.tsx:40). */
  function SpotsRemaining(c: ClassRow): (n: int)
    ensures n + c.spotsTaken == c.maxSpots
  {
    c.maxSpots - c.spotsTaken
  }

  predicate IsFull(c: ClassRow) {
    SpotsRemaining(c) <= 0
  }

  predicate IsLowSpots(c: ClassRow) {
    SpotsRemaining(c) > 0 && SpotsRemaining(c) <= 3
  }

  /** A class is full exactly when its taken spots reach the maximum, the
      same test registerForClass refuses with "Class is full"; a full class
      is never also low on spots. */
  lemma {:induction false} FullMatchesCapacityGuard(c: ClassRow)
    ensures IsFull(c) <==> c.spotsTaken >= c.maxSpots
    ensures !(IsFull(c) && IsLowSpots(c))
    ensures IsLowSpots(c) <==> 1 <= c.maxSpots - c.spotsTaken <= 3
  {
  }

  /** The availability line (components/classes/classes-grid.tsx:105-111). */
  datatype Availability = ClassFull | OnlyLeft(n: int) | Available(n: int)

  function AvailabilityLine(c: ClassRow): (a: Availability)
    ensures a.ClassFull? <==> IsFull(c)
    ensures a.OnlyLeft? <==> IsLowSpots(c)
    ensures a.Available? <==> SpotsRemaining(c) > 3
    ensures !a.ClassFull? ==> a.n == SpotsRemaining(c) && a.n > 0
  {
    if IsFull(c) then ClassFull
    else if IsLowSpots(c) then OnlyLeft(SpotsRemaining(c))
    else Available(SpotsRemaining(c))
  }

  /** The text of the availability line. */
  function AvailabilityText(a: Availability): string {
    match a
    case ClassFull => "Class Full"
    case OnlyLeft(n) => "Only " + Numbers.IntText(n) + " spots left!"
    case Available(n) => Numbers.IntText(n) + " spots available"
  }

  /** The card's button (components/classes/classes-grid.tsx:124-125). */
  datatype EnrollButton = EnrollButton(disabled: bool, caption: string)

  function Button(c: ClassRow): (b: EnrollButton)
    ensures b.disabled <==> IsFull(c)
    ensures b.disabled <==> AvailabilityLine(c).ClassFull?
    ensures b.caption == (if b.disabled then "Join Waitlist" else "Enroll Now")
  {
    var full := IsFull(c);
    EnrollButton(full, if full then "Join Waitlist" else "Enroll Now")
  }

  /** What `{charter_price && charter_price !== price && (...)}` puts
      after the price (components/classes/classes-grid.tsx:119): nothing
      for a null price or one equal to the price, the "($p charter)" note
      for any other nonzero price, and the digit "0" for a zero price,
      because the expression's value is then the number 0, which React
      prints. */
  datatype CharterFooter = NoNote | StrayZero | Note(charterPrice: real)

  function CharterNote(c: ClassRow): (r: CharterFooter)
    ensures r == StrayZero <==> c.charterPrice == Some(0.0)
    ensures r.Note? <==> c.charterPrice.Some? && c.charterPrice.value != 0.0 && c.charterPrice.value != c.price
    ensures r.Note? ==> c.charterPrice == Some(r.charterPrice)
    ensures r == NoNote <==> c.charterPrice.None? || (c.charterPrice.value != 0.0 && c.charterPrice.value == c.price)
  {
    if c.charterPrice.None? then NoNote
    else if c.charterPrice.value == 0.0 then StrayZero
    else if c.charterPrice.value != c.price then Note(c.charterPrice.value)
    else NoNote
  }

  /** `grade_levels?.join(", ") || "All grades"`
      (components/classes/classes-grid.tsx:65). */
  function GradesText(c: ClassRow): (s: string)
    ensures c.gradeLevels.None? || c.gradeLevels.value == [] ==> s == "All grades"
    ensures c.gradeLevels.Some? && |c.gradeLevels.value| > 0 && c.gradeLevels.value[0] != "" ==>
              s == Text.Join(c.gradeLevels.value, ", ")
  {
    var joined := if c.gradeLevels.Some? then Text.Join(c.gradeLevels.value, ", ") else "";
    if joined == "" then "All grades" else joined
  }

  /** The grid: the empty state, or one card per class in order
      (components/classes/classes-grid.tsx:13-35). */
  datatype Grid = EmptyState | Cards(cards: seq<(Availability, EnrollButton)>)

  function Render(classes: seq<ClassRow>): (g: Grid)
    ensures g.EmptyState? <==> classes == []
    ensures g.Cards? ==> |g.cards| == |classes|
                         && forall i :: 0 <= i < |classes| ==> g.cards[i] == (AvailabilityLine(classes[i]), Button(classes[i]))
  {
    if classes == [] then EmptyState
    else Cards(seq(|classes|, i requires 0 <= i < |classes| => (AvailabilityLine(classes[i]), Button(classes[i]))))
  }
}
