/** Record shapes shared by the session, analytics and knowledge-base
    components (clean-src/types/index.ts). Times are integer milliseconds;
    calendar days are integer day numbers counted from the epoch. */
module Types {
  import opened Common

  datatype Role = User | Assistant

  datatype ConversationTurn = ConversationTurn(role: Role, content: string, timestamp: int)

  datatype SessionStatus = Idle | Initializing | Active | Processing | Ended | Error

  datatype Severity = Low | Medium | High | Critical

  datatype ErrorLog = ErrorLog(timestamp: int, error: string, context: Option<string>, severity: Severity)

  datatype Outcome = Qualified | NotQualified | Incomplete

  /** Summary of one finished call. Optional fields are the ones the
      source declares with `?`. */
  datatype CallAnalytics = CallAnalytics(
    sessionId: string,
    startTime: int,
    endTime: Option<int>,
    duration: Option<int>,
    turnCount: int,
    outcome: Option<Outcome>,
    transcript: seq<ConversationTurn>,
    knowledgeGaps: Option<seq<string>>,
    errors: Option<seq<ErrorLog>>)

  datatype ClientInfo = ClientInfo(
    userAgent: Option<string>,
    ipAddress: Option<string>,
    sessionStartTime: int,
    lastActivity: int)

  datatype ContactInfo = ContactInfo(phone: Option<string>, email: Option<string>, address: Option<string>)

  datatype CompanyInfo = CompanyInfo(
    name: string,
    description: string,
    website: Option<string>,
    contactInfo: ContactInfo,
    businessHours: Option<string>)

  datatype Product = Product(
    id: string,
    name: string,
    description: string,
    price: Option<string>,
    features: seq<string>,
    benefits: seq<string>)

  datatype QuestionAnswer = QuestionAnswer(
    question: string,
    answer: string,
    keywords: seq<string>,
    category: Option<string>)

  datatype ScoringRule = ScoringRule(field: string, weight: int, values: map<string, int>)

  datatype QualificationCriteria = QualificationCriteria(
    requiredFields: seq<string>,
    scoringRules: seq<ScoringRule>,
    qualifiedThreshold: int,
    maybeQualifiedThreshold: int)

  datatype KnowledgeBase = KnowledgeBase(
    industry: string,
    systemPrompt: string,
    companyInfo: CompanyInfo,
    products: seq<Product>,
    commonQuestions: seq<QuestionAnswer>,
    qualificationCriteria: QualificationCriteria)

  /** One entry of a `Record<string, number>` topic table, kept in the
      object's key-insertion order. */
  datatype TopicCount = TopicCount(topic: string, count: int)

  datatype DailyStats = DailyStats(
    date: int,
    totalCalls: int,
    qualifiedCalls: int,
    averageDuration: int,
    commonTopics: seq<TopicCount>,
    errorCount: int)

  /** `turn.content.toLowerCase()` of every turn. */
  function LowerContents(conversation: seq<ConversationTurn>): (r: seq<string>)
    ensures |r| == |conversation|
    ensures forall i :: 0 <= i < |r| ==> r[i] == Lower(conversation[i].content)
  {
    if conversation == [] then [] else [Lower(conversation[0].content)] + LowerContents(conversation[1..])
  }

  /** The lower-cased transcript, turns joined by a space, that both the
      outcome heuristic and the topic extraction search. */
  function TranscriptText(conversation: seq<ConversationTurn>): string {
    Join(LowerContents(conversation), " ")
  }
}
