/**
 * Keyword relevance scoring of bills (app/legiscan/relevance.py): ten points
 * per listed keyword found, case-insensitively, in the title and
 * description, capped at 100 per topic; the overall score is the floor of
 * the mean of the two topic scores.
 */
module Relevance {
  import opened Wrappers
  import opened PyValue
  import Text
  import PyMath

  /** A RelevanceScorer: its two keyword lists. */
  datatype Scorer = Scorer(healthKeywords: seq<string>, localGovtKeywords: seq<string>)

  /** RelevanceScorer(): the keyword lists __init__ sets. */
  const DefaultScorer := Scorer(HealthKeywords, LocalGovtKeywords)

  const HealthKeywords: seq<string> := [
    "health", "healthcare", "public health", "medicaid", "medicare", "hospital",
    "physician", "vaccine", "immunization", "disease", "epidemic", "public health emergency",
    "mental health", "substance abuse", "addiction", "opioid", "healthcare workforce"]

  const LocalGovtKeywords: seq<string> := [
    "municipal", "county", "local government", "city council", "zoning",
    "property tax", "infrastructure", "public works", "community development",
    "ordinance", "school district", "special district", "county commissioner"]

  const Cap := 100

  /** `keyword.lower() in text.lower()`. */
  predicate Mentions(text: string, keyword: string)
  {
    Text.Contains(Text.Lower(text), Text.Lower(keyword))
  }

  /** How many of the keywords the text mentions. */
  function Found(keywords: seq<string>, text: string): (n: nat)
    ensures n <= |keywords|
  {
    if |keywords| == 0 then 0
    else Found(keywords[..|keywords| - 1], text) + (if Mentions(text, keywords[|keywords| - 1]) then 1 else 0)
  }

  /** min(100, sum(10 for keyword in keywords if keyword.lower() in text.lower())). */
  function TopicScore(keywords: seq<string>, text: string): int
  {
    if 10 * Found(keywords, text) < Cap then 10 * Found(keywords, text) else Cap
  }

  datatype Scores = Scores(health: int, localGovt: int, overall: int)

  /** The scores of one combined text. */
  function ScoresOf(scorer: Scorer, text: string): Scores
  {
    var h := TopicScore(scorer.healthKeywords, text);
    var l := TopicScore(scorer.localGovtKeywords, text);
    Scores(h, l, (h + l) / 2)
  }

  /** f"{bill_data.get('title', '')} {bill_data.get('description', '')}". */
  function CombinedText(bill: seq<(string, Value)>): string
  {
    Str(GetOr(bill, "title", PyStr(""))) + " " + Str(GetOr(bill, "description", PyStr("")))
  }

  /** calculate_relevance: all zero for an empty dict, otherwise the scores of the combined text. */
  function CalculateRelevance(scorer: Scorer, bill: seq<(string, Value)>): (r: Scores)
    ensures bill == [] ==> r == Scores(0, 0, 0)
    ensures 0 <= r.health <= 100 && 0 <= r.localGovt <= 100 && 0 <= r.overall <= 100
    ensures r.health % 10 == 0 && r.localGovt % 10 == 0
    ensures r.overall == (r.health + r.localGovt) / 2
  {
    if bill == [] then Scores(0, 0, 0) else ScoresOf(scorer, CombinedText(bill))
  }

  /** A keyword found in a text is found in any text that contains it. */
  lemma {:induction false} MentionsGrows(small: string, big: string, keyword: string)
    requires Text.Contains(big, small) && Mentions(small, keyword)
    ensures Mentions(big, keyword)
  {
    Text.LowerPreservesContains(big, small);
    Text.ContainsTransitive(Text.Lower(big), Text.Lower(small), Text.Lower(keyword));
  }

  lemma {:induction false} FoundGrows(keywords: seq<string>, small: string, big: string)
    requires Text.Contains(big, small)
    ensures Found(keywords, small) <= Found(keywords, big)
    decreases |keywords|
  {
    if |keywords| > 0 {
      FoundGrows(keywords[..|keywords| - 1], small, big);
      if Mentions(small, keywords[|keywords| - 1]) {
        MentionsGrows(small, big, keywords[|keywords| - 1]);
      }
    }
  }

  /** Scores are monotone: a text that contains another scores at least as much on each topic and overall. */
  lemma {:induction false} ScoresMonotone(scorer: Scorer, small: string, big: string)
    requires Text.Contains(big, small)
    ensures ScoresOf(scorer, small).health <= ScoresOf(scorer, big).health
    ensures ScoresOf(scorer, small).localGovt <= ScoresOf(scorer, big).localGovt
    ensures ScoresOf(scorer, small).overall <= ScoresOf(scorer, big).overall
  {
    FoundGrows(scorer.healthKeywords, small, big);
    FoundGrows(scorer.localGovtKeywords, small, big);
  }

  /** A topic score counts ten per keyword until the cap. */
  lemma {:induction false} TopicScoreCounts(keywords: seq<string>, text: string)
    ensures TopicScore(keywords, text) == PyMath.Min(100, 10 * Found(keywords, text))
    ensures Found(keywords, text) >= 10 <==> TopicScore(keywords, text) == 100
  {
  }

  /** LegislationPriority: the scores stored for one bill. */
  class Priority {
    var legislationId: int
    var publicHealthRelevance: int
    var localGovtRelevance: int
    var overallPriority: int
    var autoCategorized: bool
    /** auto_categories as (health, local_govt) flags; None when never set. */
    var autoCategories: Option<(bool, bool)>

    constructor (id: int, health: int, localGovt: int, overall: int, categories: (bool, bool))
      ensures legislationId == id && publicHealthRelevance == health && localGovtRelevance == localGovt
      ensures overallPriority == overall && autoCategorized && autoCategories == Some(categories)
    {
      legislationId := id;
      publicHealthRelevance := health;
      localGovtRelevance := localGovt;
      overallPriority := overall;
      autoCategorized := true;
      autoCategories := Some(categories);
    }
  }

  /** The Legislation row as calculate_bill_relevance reads it; a NULL description is None. */
  class Bill {
    var id: int
    var title: string
    var description: Option<string>
    var priority: Priority?
  }

  /** The database session: what was added to it. */
  class Session {
    var added: seq<Priority>
  }

  /** f"{bill_obj.title} {bill_obj.description}": a NULL description reads "None". */
  function BillText(title: string, description: Option<string>): string
  {
    title + " " + description.GetOr("None")
  }

  /** The health score counted by the loop of calculate_bill_relevance, before the cap. */
  method HealthPoints(keywords: seq<string>, text: string) returns (points: int)
    ensures points == 10 * Found(keywords, text)
  {
    points := 0;
    for i := 0 to |keywords|
      invariant points == 10 * Found(keywords[..i], text)
    {
      assert keywords[..i + 1][..i] == keywords[..i];
      if Mentions(text, keywords[i]) {
        points := points + 10;
      }
    }
    assert keywords[..|keywords|] == keywords;
  }

  /**
   * calculate_bill_relevance. Without the priority model nothing is written
   * and the result is false. Otherwise an existing priority is updated in
   * place with the scores of the bill's text; a bill without one gets a new
   * priority added to the session, with the auto-category flags set for
   * scores above 30.
   */
  method CalculateBillRelevance(scorer: Scorer, bill: Bill, db: Session, modelAvailable: bool) returns (ok: bool)
    modifies bill.priority, db
    ensures ok == modelAvailable
    ensures !modelAvailable ==> (db.added == old(db.added)
      && (bill.priority != null ==> unchanged(bill.priority)))
    ensures bill.priority == old(bill.priority)
    ensures var s := ScoresOf(scorer, BillText(bill.title, bill.description));
      modelAvailable && bill.priority != null ==>
        bill.priority.publicHealthRelevance == s.health && bill.priority.localGovtRelevance == s.localGovt
        && bill.priority.overallPriority == s.overall && bill.priority.autoCategorized
        && bill.priority.legislationId == old(bill.priority.legislationId)
        && bill.priority.autoCategories == old(bill.priority.autoCategories)
        && db.added == old(db.added)
    ensures var s := ScoresOf(scorer, BillText(bill.title, bill.description));
      modelAvailable && bill.priority == null ==>
        |db.added| == |old(db.added)| + 1 && db.added[..|old(db.added)|] == old(db.added)
        && fresh(db.added[|old(db.added)|])
        && db.added[|old(db.added)|].legislationId == bill.id
        && db.added[|old(db.added)|].publicHealthRelevance == s.health
        && db.added[|old(db.added)|].localGovtRelevance == s.localGovt
        && db.added[|old(db.added)|].overallPriority == s.overall
        && db.added[|old(db.added)|].autoCategories == Some((s.health > 30, s.localGovt > 30))
  {
    if !modelAvailable {
      return false;
    }
    var text := BillText(bill.title, bill.description);
    var health := HealthPoints(scorer.healthKeywords, text);
    health := PyMath.Min(100, health);
    var localGovt := TopicScore(scorer.localGovtKeywords, text);
    var overall := (health + localGovt) / 2;
    if bill.priority != null {
      bill.priority.publicHealthRelevance := health;
      bill.priority.localGovtRelevance := localGovt;
      bill.priority.overallPriority := overall;
      bill.priority.autoCategorized := true;
    } else {
      var p := new Priority(bill.id, health, localGovt, overall, (health > 30, localGovt > 30));
      db.added := db.added + [p];
    }
    return true;
  }
}
