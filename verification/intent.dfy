/** The client's tool vocabulary and its keyword-based fallback classifier. */
module Intent {
  import opened Wrappers
  import opened Text

  /** The five document-analysis tools a query can be routed to. */
  datatype Tool = QA | Simplify | AnalyzeComplications | ValidateDocument | ExtractKeyDates

  /** The wire name of each tool; it is also the name of the server endpoint. */
  function Name(t: Tool): string
  {
    match t
    case QA => "qa"
    case Simplify => "simplify"
    case AnalyzeComplications => "analyze_complications"
    case ValidateDocument => "validate_document"
    case ExtractKeyDates => "extract_key_dates"
  }

  /** The literals of the tool enum offered to the model and accepted back from it. */
  const ToolNames: seq<string> :=
    ["qa", "simplify", "analyze_complications", "validate_document", "extract_key_dates"]

  /** Reads a tool name back; any string outside the enum is rejected. */
  function Parse(s: string): (r: Option<Tool>)
    ensures r.Some? <==> s in ToolNames
    ensures r.Some? ==> Name(r.value) == s
  {
    if s == "qa" then Some(QA)
    else if s == "simplify" then Some(Simplify)
    else if s == "analyze_complications" then Some(AnalyzeComplications)
    else if s == "validate_document" then Some(ValidateDocument)
    else if s == "extract_key_dates" then Some(ExtractKeyDates)
    else None
  }

  /** Every tool's name is in the enum and parses back to that tool. */
  lemma ParseName(t: Tool)
    ensures Name(t) in ToolNames
    ensures Parse(Name(t)) == Some(t)
  {
  }

  /** Distinct tools have distinct names. */
  lemma NameInjective(t: Tool, u: Tool)
    ensures Name(t) == Name(u) ==> t == u
  {
    ParseName(t);
    ParseName(u);
  }

  // The keyword groups, each already in lower case.
  const RiskWords: seq<string> := ["risk", "problem", "contradiction", "issue", "ambiguity"]
  const PlainLanguageWords: seq<string> := ["plain english", "simplify", "explain"]
  const ContractWords: seq<string> := ["is this a contract", "legal document"]
  const DateWords: seq<string> := ["date", "deadline", "milestone", "expire", "renewal"]

  /** The keywords that point to a tool; the default tool has none. */
  function Keywords(t: Tool): seq<string>
  {
    match t
    case AnalyzeComplications => RiskWords
    case Simplify => PlainLanguageWords
    case ValidateDocument => ContractWords
    case ExtractKeyDates => DateWords
    case QA => []
  }

  /** The position of a tool's group in the order the classifier tries them;
      the default comes last. */
  function Rank(t: Tool): nat
  {
    match t
    case AnalyzeComplications => 0
    case Simplify => 1
    case ValidateDocument => 2
    case ExtractKeyDates => 3
    case QA => 4
  }

  /** Some word of `words` is a substring of `s` (Python's `any(w in s for w in words)`). */
  predicate MentionsAny(s: string, words: seq<string>)
  {
    exists k :: 0 <= k < |words| && Contains(s, words[k])
  }

  /** The query, once lower-cased, contains one of the keywords of tool `t`. */
  predicate Signals(question: string, t: Tool)
  {
    MentionsAny(Lower(question), Keywords(t))
  }

  /** The fallback classifier: the first keyword group, in rank order, with a
      keyword inside the lower-cased query decides; with none, the query is a
      plain question. */
  function ClassifyIntent(question: string): (t: Tool)
    ensures t != QA ==> Signals(question, t)
    ensures forall u: Tool :: Rank(u) < Rank(t) ==> !Signals(question, u)
  {
    var q := Lower(question);
    if MentionsAny(q, RiskWords) then AnalyzeComplications
    else if MentionsAny(q, PlainLanguageWords) then Simplify
    else if MentionsAny(q, ContractWords) then ValidateDocument
    else if MentionsAny(q, DateWords) then ExtractKeyDates
    else QA
  }

  /** The classifier's contract pins its answer down: any tool that is signalled
      (or is the default) and outranks every other signalled tool is the one it returns. */
  lemma ClassifyIntentUnique(question: string, t: Tool)
    requires t != QA ==> Signals(question, t)
    requires forall u: Tool :: Rank(u) < Rank(t) ==> !Signals(question, u)
    ensures ClassifyIntent(question) == t
  {
    var c := ClassifyIntent(question);
    if Rank(c) < Rank(t) {
      assert !Signals(question, c);
      assert c == QA;
    } else if Rank(t) < Rank(c) {
      assert !Signals(question, t);
      assert t == QA;
    }
  }

  /** The answer depends only on the lower-cased query. */
  lemma ClassifyIntentIgnoresCase(question: string)
    ensures ClassifyIntent(Lower(question)) == ClassifyIntent(question)
  {
    LowerIdempotent(question);
  }

  /** Two queries that agree up to the case of their letters are routed alike. */
  lemma ClassifyIntentSameLetters(q1: string, q2: string)
    requires |q1| == |q2|
    requires forall i :: 0 <= i < |q1| ==> LowerChar(q1[i]) == LowerChar(q2[i])
    ensures ClassifyIntent(q1) == ClassifyIntent(q2)
  {
    assert Lower(q1) == Lower(q2);
  }

  /** A risk word anywhere in the query wins over every other keyword. */
  lemma RiskWordWins(question: string, k: nat)
    requires k < |RiskWords|
    requires Contains(Lower(question), RiskWords[k])
    ensures ClassifyIntent(question) == AnalyzeComplications
  {
  }

  /** Each tool other than the default is returned only when its group matches and
      no group ranked before it does. */
  lemma ClassifyIntentPriority(question: string)
    ensures ClassifyIntent(question) == Simplify ==>
              Signals(question, Simplify) && !Signals(question, AnalyzeComplications)
    ensures ClassifyIntent(question) == ValidateDocument ==>
              Signals(question, ValidateDocument)
              && !Signals(question, AnalyzeComplications) && !Signals(question, Simplify)
    ensures ClassifyIntent(question) == ExtractKeyDates ==>
              Signals(question, ExtractKeyDates) && !Signals(question, AnalyzeComplications)
              && !Signals(question, Simplify) && !Signals(question, ValidateDocument)
  {
  }

  /** The default answer is given exactly when no keyword of any group occurs. */
  lemma ClassifyIntentDefault(question: string)
    ensures ClassifyIntent(question) == QA <==> forall t: Tool :: !Signals(question, t)
  {
  }

  /** Matching is by substring, not by word: "update" contains "date". */
  lemma SubstringNotWord(q: string)
    requires q == "update"
    ensures ClassifyIntent(q) == ExtractKeyDates
  {
    LowerOfLower(q);
    assert OccursAt(q, DateWords[0], 2);
    forall w | w in RiskWords + PlainLanguageWords + ContractWords
      ensures !Contains(q, w)
    {
      FirstLetterAbsent(q, w);
    }
  }

  /** Upper-case keywords count, and a risk word beats a plain-language word. */
  lemma RiskBeatsExplain(q: string)
    requires q == "EXPLAIN RISK"
    ensures ClassifyIntent(q) == AnalyzeComplications
  {
    assert Lower(q) == "explain risk";
    assert OccursAt(Lower(q), RiskWords[0], 8);
    RiskWordWins(q, 0);
  }
}
