/** The interactive lessons page (app/lessons/page.tsx): an anchor id per
    grade band, derived from its heading, and per lesson either a link to
    the lesson or a disabled "Coming Soon" button. */
module Lessons {
  import Text

  /** `c.toLowerCase()` then `/[^a-z0-9]/ -> "-"`, for one character. */
  function AnchorChar(c: char): (r: char)
    ensures Text.IsLowerAlnum(r) || r == '-'
    ensures Text.IsLowerAlnum(Text.LowerChar(c)) ==> r == Text.LowerChar(c)
    ensures !Text.IsLowerAlnum(Text.LowerChar(c)) ==> r == '-'
  {
    var l := Text.LowerChar(c);
    if Text.IsLowerAlnum(l) then l else '-'
  }

  /** The grade band's anchor id (app/lessons/page.tsx:214): the heading
      lowercased, each character outside a-z and 0-9 replaced one for one
      by "-". */
  function AnchorId(heading: string): (id: string)
    ensures |id| == |heading|
    ensures forall i :: 0 <= i < |id| ==> id[i] == AnchorChar(heading[i])
  {
    seq(|heading|, i requires 0 <= i < |heading| => AnchorChar(heading[i]))
  }

  /** The id is made of [a-z0-9-] only, and deriving it again changes
      nothing. */
  lemma {:induction false} AnchorIdShape(heading: string)
    ensures forall i :: 0 <= i < |AnchorId(heading)| ==> Text.IsLowerAlnum(AnchorId(heading)[i]) || AnchorId(heading)[i] == '-'
    ensures AnchorId(AnchorId(heading)) == AnchorId(heading)
  {
    var id := AnchorId(heading);
    forall i | 0 <= i < |id|
      ensures AnchorChar(id[i]) == id[i]
    {
      assert Text.IsLowerAlnum(id[i]) || id[i] == '-';
    }
  }

  /** A heading already made of lowercase letters and digits is its own id. */
  lemma {:induction false} LowerAlnumHeadingIsItsId(heading: string)
    requires forall i :: 0 <= i < |heading| ==> Text.IsLowerAlnum(heading[i])
    ensures AnchorId(heading) == heading
  {
  }

  datatype Lesson = Lesson(title: string, status: string, link: string)
  datatype GradeBand = GradeBand(gradeLevel: string, lessons: seq<Lesson>)

  /** The band headings, in page order; they use an en dash, U+2013. */
  function GradeHeadings(): seq<string> {
    ["TK\U{2013}K", "Grades 1\U{2013}3", "Grades 4\U{2013}5", "Grades 6\U{2013}8", "Grades 9\U{2013}12"]
  }

  /** The page's data (app/lessons/page.tsx:11-142), reduced to what the
      page branches on. */
  function LessonsByGrade(): (bands: seq<GradeBand>)
    ensures |bands| == |GradeHeadings()|
    ensures forall i :: 0 <= i < |bands| ==> bands[i].gradeLevel == GradeHeadings()[i]
  {
    [GradeBand("TK\U{2013}K", [Lesson("Pattern Party", "coming-soon", "/lessons/pattern-party.html"),
                             Lesson("Story Sequencer", "coming-soon", "/lessons/story-sequencer.html")]),
     GradeBand("Grades 1\U{2013}3", [Lesson("Learn to Code with Art", "available", "/lessons/kids-coding-lesson.html"),
                                   Lesson("Bouncing Smileys", "available", "/lessons/bouncing-smileys-lesson.html")]),
     GradeBand("Grades 4\U{2013}5", [Lesson("Interactive Story Game", "coming-soon", "/lessons/story-game.html"),
                                   Lesson("Maze Runner", "coming-soon", "/lessons/maze-runner.html")]),
     GradeBand("Grades 6\U{2013}8", [Lesson("Python Drawing Turtle", "coming-soon", "/lessons/python-turtle.html"),
                                   Lesson("Text Adventure Game", "coming-soon", "/lessons/python-adventure.html")]),
     GradeBand("Grades 9\U{2013}12", [Lesson("Build Your Own Arcade Game", "available", "/lessons/arcade-game-tutorial.html"),
                                    Lesson("Web Portfolio Builder", "coming-soon", "/lessons/web-portfolio.html")])]
  }

  /** The five band headings get five different ids, so every anchor on
      the page reaches its own band. */
  lemma {:induction false} GradeIdsDistinct()
    ensures AnchorId(GradeHeadings()[0]) == "tk-k"
    ensures AnchorId(GradeHeadings()[1]) == "grades-1-3"
    ensures AnchorId(GradeHeadings()[4]) == "grades-9-12"
    ensures forall i, j :: 0 <= i < j < |GradeHeadings()| ==>
              AnchorId(GradeHeadings()[i]) != AnchorId(GradeHeadings()[j])
  {
    HeadingAnchors();
    var ids := ["tk-k", "grades-1-3", "grades-4-5", "grades-6-8", "grades-9-12"];
    assert forall i :: 0 <= i < 5 ==> AnchorId(GradeHeadings()[i]) == ids[i];
    assert forall i, j :: 0 <= i < j < 5 ==> ids[i] != ids[j] by {
      assert ids[1][7] == '1' && ids[2][7] == '4' && ids[3][7] == '6';
    }
  }

  /** The id of each band heading, one character at a time. */
  lemma {:induction false} HeadingAnchors()
    ensures AnchorId("TK\U{2013}K") == "tk-k"
    ensures AnchorId("Grades 1\U{2013}3") == "grades-1-3"
    ensures AnchorId("Grades 4\U{2013}5") == "grades-4-5"
    ensures AnchorId("Grades 6\U{2013}8") == "grades-6-8"
    ensures AnchorId("Grades 9\U{2013}12") == "grades-9-12"
  {
  }

  /** The badge and the button of a lesson card
      (app/lessons/page.tsx:251-259, 287-303). */
  datatype Card = Card(badge: string, action: Action)
  datatype Action = StartLesson(href: string) | ComingSoonButton

  function LessonCard(l: Lesson): (c: Card)
    ensures c.action.StartLesson? <==> l.status == "available"
    ensures c.action.StartLesson? ==> c.action.href == l.link
    ensures c.badge == "Coming Soon" <==> c.action == ComingSoonButton
  {
    if l.status == "available" then Card("\U{2713} Available Now", StartLesson(l.link))
    else Card("Coming Soon", ComingSoonButton)
  }
}
