/**
 * The data contracts shared by the two assessment tracks (types.ts).
 * Display-only fields (question text, category descriptions) are not modelled.
 */
module Types {

  datatype Option<+T> = None | Some(value: T)

  /** Which of the two questionnaires produced a result. */
  datatype AssessmentType = ExecutiveTrack | NfpTrack

  /** 'csuite' | 'senior_leader' | 'chief_risk_officer' | 'head_of_compliance' | 'internal_audit_director' */
  datatype ExecutiveUserRole = CSuite | SeniorLeader | ChiefRiskOfficer | HeadOfCompliance | InternalAuditDirector

  /** 'executive' | 'manager' | 'program_manager' | 'finance_officer' | 'partnership_coordinator' */
  datatype NfpUserRole = NfpExecutive | Manager | ProgramManager | FinanceOfficer | PartnershipCoordinator

  /** The six values of the level union; 'Unknown' is what an unclassifiable score gets. */
  datatype Level = Initial | Managed | Defined | QuantitativelyManaged | Optimized | Unknown

  /**
   * A question of the Executive bank. `csuiteOnly` is the optional `role: 'csuite'` tag
   * (the only value the tag can take); `industry` is empty when the question has no
   * industry tag; neither `industry` nor `country` is read by any filter.
   */
  datatype ExecutiveQuestion = ExecutiveQuestion(
    id: int,
    category: string,
    csuiteOnly: bool,
    industry: seq<string>,
    country: Option<string>)

  /**
   * Executive answers: a question id maps to `boolean | null`; an absent key is
   * `undefined` (unanswered).
   */
  type ExecutiveAnswers = map<int, Option<bool>>

  /**
   * The Executive result. `categoryMaxScores` is declared by the result type but never
   * set by the scoring code, so it is always `None` (undefined) in this model.
   */
  datatype ExecutiveResult = ExecutiveResult(
    totalScore: nat,
    maxScore: nat,
    level: Level,
    interpretation: string,
    categoryScores: map<string, nat>,
    categoryMaxScores: Option<map<string, nat>>)

  /** An NFP element; `executiveOnly` is the optional `role: 'executive'` tag. */
  datatype NfpElement = NfpElement(id: string, executiveOnly: bool)

  datatype NfpCategory = NfpCategory(
    id: string,
    title: string,
    elements: seq<NfpElement>,
    country: Option<string>)

  /** NFP answers: element id to boolean; an absent key is unanswered. */
  type NfpAnswers = map<string, bool>

  datatype NfpCategoryResult = NfpCategoryResult(
    categoryId: string,
    title: string,
    rawScore: nat,
    totalElements: nat,
    percentage: real)

  datatype NfpResult = NfpResult(
    categoryResults: seq<NfpCategoryResult>,
    totalScore: nat,
    totalPossibleElements: nat,
    grandPercentage: real,
    level: Level,
    interpretation: string)

  /** One entry of a score-range table: the inclusive range [min, max] and what it means. */
  datatype Band = Band(min: int, max: int, level: Level, interpretation: string)
}
