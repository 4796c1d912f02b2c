/** The knowledge base behind the voice agent's prompt
    (clean-src/knowledge/KnowledgeBaseManager.ts): keyword-scored lookup of
    a frequently asked question, prompt assembly around it, in-place
    updates, and the file-name filter that lists the industry templates. */
module KnowledgeBaseManager {
  import opened Common
  import opened Types

  /** The query contains the keyword, ignoring the keyword's case (the query
      is lower-cased by the caller). */
  predicate KeywordHit(normalizedQuery: string, keyword: string) {
    Contains(normalizedQuery, Lower(keyword))
  }

  /** `qa.keywords.some(...)`. */
  predicate Matches(qa: QuestionAnswer, normalizedQuery: string) {
    exists i :: 0 <= i < |qa.keywords| && KeywordHit(normalizedQuery, qa.keywords[i])
  }

  /** Number of keywords the query hits. */
  function HitCount(keywords: seq<string>, normalizedQuery: string): (n: nat)
    ensures n <= |keywords|
  {
    if keywords == [] then 0
    else (if KeywordHit(normalizedQuery, keywords[0]) then 1 else 0) + HitCount(keywords[1..], normalizedQuery)
  }

  /** No hits exactly when no keyword occurs in the query. */
  lemma {:induction false} HitCountZeroIff(keywords: seq<string>, normalizedQuery: string)
    ensures HitCount(keywords, normalizedQuery) == 0 <==> forall i :: 0 <= i < |keywords| ==> !KeywordHit(normalizedQuery, keywords[i])
    decreases |keywords|
  {
    if keywords != [] {
      HitCountZeroIff(keywords[1..], normalizedQuery);
      assert forall i :: 1 <= i < |keywords| ==> keywords[i] == keywords[1..][i - 1];
    }
  }

  /** `qa.keywords.filter(...).length`. */
  function Score(qa: QuestionAnswer, normalizedQuery: string): nat {
    HitCount(qa.keywords, normalizedQuery)
  }

  /** An entry scores above zero exactly when it matches the query. */
  lemma ScorePositiveIff(qa: QuestionAnswer, normalizedQuery: string)
    ensures Score(qa, normalizedQuery) > 0 <==> Matches(qa, normalizedQuery)
  {
    HitCountZeroIff(qa.keywords, normalizedQuery);
  }

  /** The entries that match, in their original order. */
  function MatchingEntries(questions: seq<QuestionAnswer>, normalizedQuery: string): (r: seq<QuestionAnswer>)
    ensures forall x :: x in r ==> x in questions && Matches(x, normalizedQuery)
    ensures forall x :: x in questions && Matches(x, normalizedQuery) ==> x in r
  {
    if questions == [] then []
    else
      var rest := MatchingEntries(questions[1..], normalizedQuery);
      assert forall x :: x in questions[1..] ==> x in questions;
      if Matches(questions[0], normalizedQuery) then [questions[0]] + rest else rest
  }

  /** `matches.reduce((best, current) => currentScore > bestScore ? current : best)`,
      started from `best`. */
  function ReduceBest(best: QuestionAnswer, rest: seq<QuestionAnswer>, normalizedQuery: string): QuestionAnswer
    decreases |rest|
  {
    if rest == [] then best
    else ReduceBest(if Score(rest[0], normalizedQuery) > Score(best, normalizedQuery) then rest[0] else best,
                    rest[1..], normalizedQuery)
  }

  /** `best` is the first of the first `k` entries of `l` with the highest
      score among them. */
  predicate FirstBestAmong(l: seq<QuestionAnswer>, k: nat, best: QuestionAnswer, normalizedQuery: string)
    requires k <= |l|
  {
    (forall j :: 0 <= j < k ==> Score(l[j], normalizedQuery) <= Score(best, normalizedQuery))
    && exists i :: 0 <= i < k && l[i] == best
         && forall j :: 0 <= j < i ==> Score(l[j], normalizedQuery) < Score(best, normalizedQuery)
  }

  /** `best` is the first entry of `l` with the highest score. */
  predicate FirstBest(l: seq<QuestionAnswer>, best: QuestionAnswer, normalizedQuery: string) {
    FirstBestAmong(l, |l|, best, normalizedQuery)
  }

  /** One step of the reduce keeps the first best of the longer prefix. */
  lemma FirstBestStep(l: seq<QuestionAnswer>, k: nat, best: QuestionAnswer, q: string)
    requires k < |l| && FirstBestAmong(l, k, best, q)
    ensures FirstBestAmong(l, k + 1, if Score(l[k], q) > Score(best, q) then l[k] else best, q)
  {
    var i :| 0 <= i < k && l[i] == best && forall j :: 0 <= j < i ==> Score(l[j], q) < Score(best, q);
    if Score(l[k], q) > Score(best, q) {
      assert 0 <= k < k + 1 && l[k] == l[k];
    } else {
      assert 0 <= i < k + 1 && l[i] == best;
    }
  }

  /** Folding the entries after position `k` into the first best of the
      entries before it gives the first best of the whole list. */
  lemma {:induction false} ReduceBestIsFirstBest(l: seq<QuestionAnswer>, k: nat, best: QuestionAnswer, q: string)
    requires k <= |l| && FirstBestAmong(l, k, best, q)
    ensures FirstBest(l, ReduceBest(best, l[k..], q), q)
    decreases |l| - k
  {
    if k == |l| {
      assert l[k..] == [];
    } else {
      var next := if Score(l[k], q) > Score(best, q) then l[k] else best;
      assert l[k..][0] == l[k] && l[k..][1..] == l[k + 1..];
      assert ReduceBest(best, l[k..], q) == ReduceBest(next, l[k + 1..], q);
      FirstBestStep(l, k, best, q);
      ReduceBestIsFirstBest(l, k + 1, next, q);
    }
  }

  /** `findAnswer`: the matching entry with the most keyword hits, the
      earliest one among equals; `None` when no entry matches. */
  function FindAnswer(questions: seq<QuestionAnswer>, query: string): Option<QuestionAnswer> {
    var matches := MatchingEntries(questions, Lower(query));
    if matches == [] then None else Some(ReduceBest(matches[0], matches[1..], Lower(query)))
  }

  /** No answer exactly when no entry has a keyword the query contains. */
  lemma FindAnswerNoneIff(questions: seq<QuestionAnswer>, query: string)
    ensures FindAnswer(questions, query).None? <==> forall x :: x in questions ==> !Matches(x, Lower(query))
  {
    var matches := MatchingEntries(questions, Lower(query));
    if matches != [] {
      assert matches[0] in matches;
    }
  }

  /** The answer is a matching entry with the highest score of all entries,
      and it comes first among the matching entries with that score. */
  lemma FindAnswerIsFirstBest(questions: seq<QuestionAnswer>, query: string)
    requires FindAnswer(questions, query).Some?
    ensures var r := FindAnswer(questions, query).value;
      r in questions && Matches(r, Lower(query))
      && (forall x :: x in questions ==> Score(x, Lower(query)) <= Score(r, Lower(query)))
      && FirstBest(MatchingEntries(questions, Lower(query)), r, Lower(query))
  {
    var q := Lower(query);
    var matches := MatchingEntries(questions, q);
    var r := FindAnswer(questions, query).value;
    assert FirstBestAmong(matches, 1, matches[0], q);
    ReduceBestIsFirstBest(matches, 1, matches[0], q);
    assert r in matches;
    forall x | x in questions ensures Score(x, q) <= Score(r, q) {
      ScorePositiveIff(x, q);
      if Matches(x, q) {
        assert x in matches;
      }
    }
  }

  /** `addQuestion`'s new entry. */
  function NewQuestion(question: string, answer: string, keywords: seq<string>, category: Option<string>): QuestionAnswer {
    QuestionAnswer(question, answer, keywords, category)
  }

  /** The fields a caller may pass to `updateKnowledgeBase`. */
  datatype KnowledgeBaseUpdate = KnowledgeBaseUpdate(
    industry: Option<string>,
    systemPrompt: Option<string>,
    companyInfo: Option<CompanyInfo>,
    products: Option<seq<Product>>,
    commonQuestions: Option<seq<QuestionAnswer>>,
    qualificationCriteria: Option<QualificationCriteria>)

  /** `{...current, ...updates}`: supplied fields replace, the rest stay. */
  function MergeKnowledgeBase(kb: KnowledgeBase, u: KnowledgeBaseUpdate): (r: KnowledgeBase)
    ensures r.industry == (if u.industry.Some? then u.industry.value else kb.industry)
    ensures r.systemPrompt == (if u.systemPrompt.Some? then u.systemPrompt.value else kb.systemPrompt)
    ensures r.companyInfo == (if u.companyInfo.Some? then u.companyInfo.value else kb.companyInfo)
    ensures r.products == (if u.products.Some? then u.products.value else kb.products)
    ensures r.commonQuestions == (if u.commonQuestions.Some? then u.commonQuestions.value else kb.commonQuestions)
    ensures r.qualificationCriteria == (if u.qualificationCriteria.Some? then u.qualificationCriteria.value else kb.qualificationCriteria)
  {
    KnowledgeBase(
      match u.industry case Some(v) => v case None => kb.industry,
      match u.systemPrompt case Some(v) => v case None => kb.systemPrompt,
      match u.companyInfo case Some(v) => v case None => kb.companyInfo,
      match u.products case Some(v) => v case None => kb.products,
      match u.commonQuestions case Some(v) => v case None => kb.commonQuestions,
      match u.qualificationCriteria case Some(v) => v case None => kb.qualificationCriteria)
  }

  /** An empty update changes nothing, and merging is idempotent. */
  lemma MergeKnowledgeBaseLaws(kb: KnowledgeBase, u: KnowledgeBaseUpdate)
    ensures MergeKnowledgeBase(kb, KnowledgeBaseUpdate(None, None, None, None, None, None)) == kb
    ensures MergeKnowledgeBase(MergeKnowledgeBase(kb, u), u) == MergeKnowledgeBase(kb, u)
  {
  }

  /** The company block: name and description, then the phone and email
      lines when present. */
  function CompanyContext(c: CompanyInfo): string {
    "\n\nCompany Information:\n- Name: " + c.name + "\n- Description: " + c.description
    + (if Truthy(c.contactInfo.phone) then "\n- Phone: " + c.contactInfo.phone.value else "")
    + (if Truthy(c.contactInfo.email) then "\n- Email: " + c.contactInfo.email.value else "")
  }

  function FaqContext(qa: QuestionAnswer): string {
    "\n\nRelevant Information:\nQ: " + qa.question + "\nA: " + qa.answer
  }

  /** `generateContextualPrompt`: the system prompt, the company block, and
      the best-matching question with its answer when there is one. */
  function GenerateContextualPrompt(kb: KnowledgeBase, userMessage: string): (r: string)
    ensures kb.systemPrompt + CompanyContext(kb.companyInfo) <= r
    ensures FindAnswer(kb.commonQuestions, userMessage).None? ==> r == kb.systemPrompt + CompanyContext(kb.companyInfo)
    ensures FindAnswer(kb.commonQuestions, userMessage).Some? ==>
      r == kb.systemPrompt + CompanyContext(kb.companyInfo) + FaqContext(FindAnswer(kb.commonQuestions, userMessage).value)
  {
    var base := kb.systemPrompt + CompanyContext(kb.companyInfo);
    match FindAnswer(kb.commonQuestions, userMessage)
    case None => base
    case Some(qa) => base + FaqContext(qa)
  }

  /** The prompt starts with the system prompt, and contains the answer
      found for the message. */
  lemma ContextualPromptContents(kb: KnowledgeBase, userMessage: string)
    ensures kb.systemPrompt <= GenerateContextualPrompt(kb, userMessage)
    ensures FindAnswer(kb.commonQuestions, userMessage).Some? ==>
      Contains(GenerateContextualPrompt(kb, userMessage), FindAnswer(kb.commonQuestions, userMessage).value.answer)
  {
    var r := GenerateContextualPrompt(kb, userMessage);
    var base := kb.systemPrompt + CompanyContext(kb.companyInfo);
    assert kb.systemPrompt <= base;
    if FindAnswer(kb.commonQuestions, userMessage).Some? {
      var qa := FindAnswer(kb.commonQuestions, userMessage).value;
      var pre := base + "\n\nRelevant Information:\nQ: " + qa.question + "\nA: ";
      assert r == pre + qa.answer + [];
      OccursAtZero(qa.answer, qa.answer);
      ContainsIff(qa.answer, qa.answer);
      ContainsInConcat(pre, qa.answer, [], qa.answer);
    }
  }

  /** Two messages that match no question give the same prompt. */
  lemma UnmatchedMessagesGiveSamePrompt(kb: KnowledgeBase, m1: string, m2: string)
    requires forall x :: x in kb.commonQuestions ==> !Matches(x, Lower(m1)) && !Matches(x, Lower(m2))
    ensures GenerateContextualPrompt(kb, m1) == GenerateContextualPrompt(kb, m2)
  {
    FindAnswerNoneIff(kb.commonQuestions, m1);
    FindAnswerNoneIff(kb.commonQuestions, m2);
  }

  /** The template names among the files of the templates directory: the
      `.json` files, with the first `.json` removed. */
  function TemplateNames(files: seq<string>): (r: seq<string>)
    ensures |r| <= |files|
  {
    if files == [] then []
    else
      var rest := TemplateNames(files[1..]);
      if EndsWith(files[0], ".json") then [ReplaceFirst(files[0], ".json", "")] + rest else rest
  }

  /** A dot-free name with `.json` appended is a template file, and its
      template name is the name itself. */
  lemma JsonFileName(name: string)
    requires '.' !in name
    ensures EndsWith(name + ".json", ".json")
    ensures ReplaceFirst(name + ".json", ".json", "") == name
  {
    var f := name + ".json";
    assert EndsWith(f, ".json") by {
      assert f[|f| - 5..] == ".json";
    }
    assert OccursAt(f, ".json", |name|) by {
      assert f[|name|..|name| + 5] == ".json";
    }
    forall j | 0 <= j < |name| ensures !OccursAt(f, ".json", j) {
      assert f[j] == name[j] && name[j] in name;
      if j + 5 <= |f| {
        assert f[j..j + 5][0] == f[j] != '.';
      }
    }
    var idx := IndexOf(f, ".json");
    assert idx == Some(|name|);
    assert f[..|name|] == name;
    assert f[|name| + 5..] == [];
  }

  /** The file of each name in the templates directory. */
  function JsonFiles(names: seq<string>): (r: seq<string>)
    ensures |r| == |names|
    ensures forall i :: 0 <= i < |names| ==> r[i] == names[i] + ".json"
  {
    seq(|names|, i requires 0 <= i < |names| => names[i] + ".json")
  }

  /** Listing the files of any dot-free template names gives back those
      names, in order. */
  lemma {:induction false} TemplateNameRoundTrip(names: seq<string>)
    requires forall n :: n in names ==> '.' !in n
    ensures TemplateNames(JsonFiles(names)) == names
  {
    if names != [] {
      var files := JsonFiles(names);
      assert files[1..] == JsonFiles(names[1..]);
      assert names[0] in names;
      JsonFileName(names[0]);
      TemplateNameRoundTrip(names[1..]);
      assert names == [names[0]] + names[1..];
    }
  }

  /** A file not ending in `.json` is skipped wherever it stands. */
  lemma TemplateNamesSkipsOthers(other: string, files: seq<string>)
    requires !EndsWith(other, ".json")
    ensures TemplateNames([other] + files) == TemplateNames(files)
  {
    assert ([other] + files)[1..] == files;
  }

  /** The knowledge base the manager starts with, around the given default
      system prompt. */
  function DefaultKnowledgeBase(systemPrompt: string): KnowledgeBase {
    KnowledgeBase(
      "general",
      systemPrompt,
      CompanyInfo("Demo Company", "AI-powered voice assistant demonstration", None,
                  ContactInfo(Some("(555) 123-4567"), Some("demo@example.com"), None), None),
      [],
      [],
      QualificationCriteria(["budget", "timeline", "decision_maker"], [], 7, 5))
  }

  class KnowledgeBaseStore {
    var current: KnowledgeBase

    constructor(defaultSystemPrompt: string)
      ensures current == DefaultKnowledgeBase(defaultSystemPrompt)
    {
      current := DefaultKnowledgeBase(defaultSystemPrompt);
    }

    /** `updateKnowledgeBase`. */
    method UpdateKnowledgeBase(updates: KnowledgeBaseUpdate)
      modifies this
      ensures current == MergeKnowledgeBase(old(current), updates)
    {
      current := MergeKnowledgeBase(current, updates);
    }

    /** `updateSystemPrompt`: always replaces the prompt; replaces the
        industry only when a non-empty one is given. */
    method UpdateSystemPrompt(prompt: string, industry: Option<string>)
      modifies this
      ensures current.systemPrompt == prompt
      ensures current.industry == (if Truthy(industry) then industry.value else old(current).industry)
      ensures current.companyInfo == old(current).companyInfo && current.products == old(current).products
      ensures current.commonQuestions == old(current).commonQuestions
      ensures current.qualificationCriteria == old(current).qualificationCriteria
    {
      current := current.(systemPrompt := prompt);
      if Truthy(industry) {
        current := current.(industry := industry.value);
      }
    }

    /** `addQuestion`: appends one entry and keeps the others. */
    method AddQuestion(question: string, answer: string, keywords: seq<string>, category: Option<string>)
      modifies this
      ensures current.commonQuestions == old(current).commonQuestions + [NewQuestion(question, answer, keywords, category)]
      ensures current == old(current).(commonQuestions := current.commonQuestions)
    {
      current := current.(commonQuestions := current.commonQuestions + [NewQuestion(question, answer, keywords, category)]);
    }
  }

  /** Once a question is added, a query that hits its keywords finds an answer. */
  lemma AddedQuestionIsFound(questions: seq<QuestionAnswer>, qa: QuestionAnswer, query: string)
    requires Matches(qa, Lower(query))
    ensures FindAnswer(questions + [qa], query).Some?
  {
    assert qa in questions + [qa];
    FindAnswerNoneIff(questions + [qa], query);
  }
}
