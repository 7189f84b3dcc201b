/**
 * The text a PDF page is embedded under: the page's own text, then, when the
 * page has example customer questions, a heading and one bullet line per
 * question, all joined with new-lines.
 */
module EmbeddingText {
  import opened Wrappers
  import opened Text

  const PageHeading := "[페이지 내용]"
  const QuestionsHeading := "[고객 질문 예시]"

  /** `customerQuestions && customerQuestions.length > 0` */
  predicate HasQuestions(questions: Option<seq<string>>) {
    questions.Some? && |questions.value| > 0
  }

  function Bullets(questions: seq<string>): (lines: seq<string>)
    ensures |lines| == |questions|
    ensures forall i :: 0 <= i < |questions| ==> lines[i] == "- " + questions[i]
  {
    seq(|questions|, i requires 0 <= i < |questions| => "- " + questions[i])
  }

  /**
   * The lines of the embedding text when neither the page text nor any question
   * holds a new-line: the page heading, the page text, and with questions the
   * questions heading and one bullet per question, in input order.
   */
  function Lines(pageText: string, questions: Option<seq<string>>): seq<string> {
    [PageHeading, pageText] + if HasQuestions(questions) then [QuestionsHeading] + Bullets(questions.value) else []
  }

  /** What `buildPageEmbeddingText` returns. */
  function PageEmbeddingText(pageText: string, questions: Option<seq<string>>): string {
    Join(Lines(pageText, questions), "\n")
  }

  /** `buildPageEmbeddingText`: the `parts` array grown by `push`, then joined. */
  method BuildPageEmbeddingText(pageText: string, questions: Option<seq<string>>) returns (text: string)
    ensures text == PageEmbeddingText(pageText, questions)
  {
    var parts := [PageHeading + "\n" + pageText];
    if questions.Some? && |questions.value| > 0 {
      parts := parts + [QuestionsHeading];
      for i := 0 to |questions.value|
        invariant parts == [PageHeading + "\n" + pageText, QuestionsHeading] + Bullets(questions.value[..i])
      {
        assert Bullets(questions.value[..i + 1]) == Bullets(questions.value[..i]) + ["- " + questions.value[i]];
        parts := parts + ["- " + questions.value[i]];
      }
      assert questions.value[..|questions.value|] == questions.value;
    }
    text := Join(parts, "\n");
    FirstPartSplits(pageText, parts, Lines(pageText, questions));
  }

  /** Joining with the first part written as heading, new-line, page text is joining the lines. */
  lemma FirstPartSplits(pageText: string, parts: seq<string>, lines: seq<string>)
    requires |parts| >= 1 && parts[0] == PageHeading + "\n" + pageText
    requires lines == [PageHeading, pageText] + parts[1..]
    ensures Join(parts, "\n") == Join(lines, "\n")
  {
    assert lines[1..] == [pageText] + parts[1..];
    if |parts| > 1 {
      assert lines[1..][1..] == parts[1..];
    }
  }

  /** Without questions (none given, or an empty list) the text is the page heading and the page text. */
  lemma NoQuestionsText(pageText: string, questions: Option<seq<string>>)
    requires !HasQuestions(questions)
    ensures PageEmbeddingText(pageText, questions) == PageHeading + "\n" + pageText
  {
    var lines := Lines(pageText, questions);
    assert lines == [PageHeading, pageText];
    assert lines[1..] == [pageText];
    assert Join(lines[1..], "\n") == pageText;
  }

  /** Joining a heading and the rest puts the heading and a new-line in front. */
  lemma JoinCons(first: string, rest: seq<string>)
    requires |rest| > 0
    ensures Join([first] + rest, "\n") == first + "\n" + Join(rest, "\n")
  {
    assert ([first] + rest)[1..] == rest;
  }

  /**
   * With questions, the text is the page part, then the questions heading,
   * then `"\n- " + q` for each question in order.
   */
  lemma {:induction false} WithQuestionsText(pageText: string, questions: seq<string>)
    requires |questions| > 0
    ensures PageEmbeddingText(pageText, Some(questions))
      == PageHeading + "\n" + pageText + "\n" + QuestionsHeading + BulletTail(questions)
  {
    var bullets := Bullets(questions);
    var lines := Lines(pageText, Some(questions));
    assert lines == [PageHeading] + ([pageText] + ([QuestionsHeading] + bullets));
    JoinCons(PageHeading, [pageText] + ([QuestionsHeading] + bullets));
    JoinCons(pageText, [QuestionsHeading] + bullets);
    JoinCons(QuestionsHeading, bullets);
    JoinBullets(questions);
  }

  /** `"\n- " + q` for every question, in order. */
  function BulletTail(questions: seq<string>): string
    decreases |questions|
  {
    if |questions| == 0 then "" else "\n- " + questions[0] + BulletTail(questions[1..])
  }

  lemma {:induction false} JoinBullets(questions: seq<string>)
    requires |questions| > 0
    ensures "\n" + Join(Bullets(questions), "\n") == BulletTail(questions)
    decreases |questions|
  {
    var bullets := Bullets(questions);
    if |questions| > 1 {
      assert bullets == [bullets[0]] + Bullets(questions[1..]);
      JoinCons(bullets[0], Bullets(questions[1..]));
      JoinBullets(questions[1..]);
    } else {
      assert BulletTail(questions[1..]) == "";
    }
  }

  /** The text always starts with the page heading, a new-line and the page text. */
  lemma StartsWithPage(pageText: string, questions: Option<seq<string>>)
    ensures IsPrefix(PageHeading + "\n" + pageText, PageEmbeddingText(pageText, questions))
  {
    var head := PageHeading + "\n" + pageText;
    if HasQuestions(questions) {
      WithQuestionsText(pageText, questions.value);
      var rest := "\n" + QuestionsHeading + BulletTail(questions.value);
      assert PageEmbeddingText(pageText, questions) == head + rest;
      assert (head + rest)[..|head|] == head;
    } else {
      NoQuestionsText(pageText, questions);
    }
  }

  /**
   * When neither the page text nor any question holds a new-line, splitting the
   * text at new-lines gives back the lines exactly: two page lines, then the
   * questions heading and as many bullet lines as there are questions.
   */
  lemma LinesOfText(pageText: string, questions: Option<seq<string>>)
    requires '\n' !in pageText
    requires questions.Some? ==> forall i :: 0 <= i < |questions.value| ==> '\n' !in questions.value[i]
    ensures Split(PageEmbeddingText(pageText, questions), '\n') == Lines(pageText, questions)
    ensures |Lines(pageText, questions)| == if HasQuestions(questions) then 3 + |questions.value| else 2
  {
    var lines := Lines(pageText, questions);
    forall i | 0 <= i < |lines| ensures '\n' !in lines[i] {
      if i >= 3 {
        assert lines[i] == "- " + questions.value[i - 3];
      }
    }
    JoinSplit(lines, '\n');
  }
}
