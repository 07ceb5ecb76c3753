/** The rule catalogue: fifteen pure functions of one frozen context. */
module Rules {
  import opened Common
  import BizNo

  datatype Category =
    | Personnel | StudentPersonnel | Equipment | Material | Activity | Allowance
    | OutsourcedRnd | IntlJointRnd | Indirect

  datatype Severity = Pass | Info | Warn | Fail

  datatype VendorStatus = Active | Suspended | Closed | Unregistered | Unverified

  type Won = a: int | a > 0 witness 1

  /** The fields of an expense that the rules judge. */
  datatype Claim = Claim(project: nat, category: Category, bizNo: Option<string>, amount: Won, spentAt: int)

  datatype Extraction = Extraction(totalAmount: Option<int>, issuedAt: Option<int>, bizNo: Option<string>,
      confidence: Option<real>)

  /** What is known besides the expense itself and the database reads: inputs from outside. */
  datatype Surroundings = Surroundings(
    projectStart: int, projectEnd: int, evidenceCount: nat, aiAvailable: bool,
    extraction: Option<Extraction>, extractionFailed: bool, suggestion: Option<Category>,
    vendorStatus: Option<VendorStatus>, nonworkingDay: Option<bool>)

  datatype Context = Context(
    expense: nat, claim: Claim, budget: Option<nat>, approved: int, duplicates: seq<nat>, around: Surroundings)

  datatype Code =
    | EVD001 | EVD002 | EVD003 | EVD004 | PRD001 | PRD002 | BGT001 | BGT002
    | VND001 | VND002 | VND003 | DUP001 | DAY001 | AI001 | CAT001 | SYS001

  datatype Detail = Nothing | Figures(budget: int, approved: int, amount: int) | Others(ids: seq<nat>)

  datatype Result = Result(code: Code, severity: Severity, detail: Detail)

  const PERIOD_ENDING_SOON_DAYS := 30
  const LOW_CONFIDENCE_THRESHOLD := 0.7

  function Plain(code: Code, severity: Severity): Option<Result> {
    Some(Result(code, severity, Nothing))
  }

  /** One rule of the catalogue; None where its premise is missing. */
  function Rule(code: Code, c: Context): Option<Result> {
    var x := c.around;
    match code
    case EVD001 => Plain(code, if x.evidenceCount == 0 then Fail else Pass)
    case EVD002 =>
      if x.extraction.None? || x.extraction.value.totalAmount.None? then None
      else Plain(code, if x.extraction.value.totalAmount.value != c.claim.amount then Fail else Pass)
    case EVD003 =>
      if x.extraction.None? || x.extraction.value.issuedAt.None? then None
      else Plain(code, if x.extraction.value.issuedAt.value != c.claim.spentAt then Warn else Pass)
    case EVD004 =>
      if x.extraction.None? || !Truthy(x.extraction.value.bizNo) || !Truthy(c.claim.bizNo) then None
      else Plain(code, if x.extraction.value.bizNo != c.claim.bizNo then Fail else Pass)
    case PRD001 => Plain(code, if x.projectStart <= c.claim.spentAt <= x.projectEnd then Pass else Fail)
    case PRD002 =>
      if x.projectEnd - PERIOD_ENDING_SOON_DAYS <= c.claim.spentAt <= x.projectEnd then Plain(code, Info) else None
    case BGT001 => Some(BudgetRule(c))
    case BGT002 =>
      if c.budget.None? || c.budget.value == 0 then None
      else
        var after := c.approved + c.claim.amount;
        if after <= c.budget.value && 10 * after > 8 * c.budget.value then Plain(code, Warn) else None
    case VND001 =>
      if !Truthy(c.claim.bizNo) then Plain(code, Warn)
      else Plain(code, if BizNo.ValidChecksum(c.claim.bizNo.value) then Pass else Fail)
    case VND002 =>
      if x.vendorStatus.None? || x.vendorStatus.value.Unverified? then None
      else
        var status := x.vendorStatus.value;
        Plain(code, if status.Closed? || status.Unregistered? then Fail else if status.Suspended? then Warn else Pass)
    case VND003 => if x.vendorStatus == Some(Unverified) then Plain(code, Warn) else None
    case DUP001 => Some(DuplicateRule(c))
    case DAY001 => if x.nonworkingDay == Some(true) then Plain(code, Warn) else None
    case AI001 =>
      if !x.aiAvailable then Plain(code, Warn)
      else if x.extractionFailed || (x.evidenceCount > 0 && x.extraction.None?) then Plain(code, Warn)
      else if x.extraction.None? then None
      else
        var confidence := x.extraction.value.confidence;
        Plain(code, if confidence.Some? && confidence.value < LOW_CONFIDENCE_THRESHOLD then Warn else Pass)
    case CAT001 =>
      if x.suggestion.None? then None
      else Plain(code, if x.suggestion.value != c.claim.category then Warn else Pass)
    case SYS001 => None
  }

  function BudgetRule(c: Context): Result {
    if c.budget.None? then Result(BGT001, Fail, Nothing)
    else if c.approved + c.claim.amount > c.budget.value then
      Result(BGT001, Fail, Figures(c.budget.value, c.approved, c.claim.amount))
    else Result(BGT001, Pass, Nothing)
  }

  function DuplicateRule(c: Context): Result {
    if c.duplicates != [] then Result(DUP001, Warn, Others(c.duplicates)) else Result(DUP001, Pass, Nothing)
  }

  const ALL_RULES: seq<Code> :=
    [EVD001, EVD002, EVD003, EVD004, PRD001, PRD002, BGT001, BGT002,
     VND001, VND002, VND003, DUP001, DAY001, AI001, CAT001]

  /** The results of the listed rules in order, without the Nones. */
  function Evaluate(codes: seq<Code>, c: Context): seq<Result> {
    if codes == [] then []
    else
      var rest := Evaluate(codes[1..], c);
      match Rule(codes[0], c)
      case None => rest
      case Some(r) => [r] + rest
  }

  function RunAll(c: Context): seq<Result> {
    Evaluate(ALL_RULES, c)
  }

  lemma {:induction false} EvaluateHas(codes: seq<Code>, c: Context, r: Result)
    ensures r in Evaluate(codes, c) <==> r.code in codes && Rule(r.code, c) == Some(r)
  {
    if codes != [] {
      EvaluateHas(codes[1..], c, r);
      assert codes == [codes[0]] + codes[1..];
    }
  }

  lemma CatalogueIsComplete(k: Code)
    ensures k in ALL_RULES <==> k != SYS001
  {
  }

  /** A result set holds exactly what the catalogued rules answer: no rule answers twice or differently. */
  lemma RunAllHas(c: Context, r: Result)
    ensures r in RunAll(c) <==> r.code != SYS001 && Rule(r.code, c) == Some(r)
  {
    CatalogueIsComplete(r.code);
    EvaluateHas(ALL_RULES, c, r);
  }

  predicate DistinctCodes(codes: seq<Code>) {
    forall i, j :: 0 <= i < j < |codes| ==> codes[i] != codes[j]
  }

  predicate OnePerCode(rs: seq<Result>) {
    forall i, j :: 0 <= i < j < |rs| ==> rs[i].code != rs[j].code
  }

  lemma {:induction false} EvaluateOnce(codes: seq<Code>, c: Context)
    requires DistinctCodes(codes)
    ensures OnePerCode(Evaluate(codes, c))
  {
    if codes != [] {
      EvaluateOnce(codes[1..], c);
      forall r | r in Evaluate(codes[1..], c) ensures r.code != codes[0] {
        EvaluateHas(codes[1..], c, r);
      }
      RuleKeepsCode(codes[0], c);
    }
  }

  lemma RuleKeepsCode(code: Code, c: Context)
    ensures Rule(code, c).Some? ==> Rule(code, c).value.code == code
  {
  }

  function Position(code: Code): nat {
    match code
    case EVD001 => 0 case EVD002 => 1 case EVD003 => 2 case EVD004 => 3 case PRD001 => 4
    case PRD002 => 5 case BGT001 => 6 case BGT002 => 7 case VND001 => 8 case VND002 => 9
    case VND003 => 10 case DUP001 => 11 case DAY001 => 12 case AI001 => 13 case CAT001 => 14
    case SYS001 => 15
  }

  lemma CatalogueIsDistinct()
    ensures DistinctCodes(ALL_RULES)
  {
    assert forall i :: 0 <= i < |ALL_RULES| ==> Position(ALL_RULES[i]) == i;
  }

  /** No rule of the catalogue answers twice. */
  lemma RunAllOnce(c: Context)
    ensures OnePerCode(RunAll(c))
  {
    CatalogueIsDistinct();
    EvaluateOnce(ALL_RULES, c);
  }

  predicate HasFail(rs: seq<Result>) {
    exists i :: 0 <= i < |rs| && rs[i].severity == Fail
  }

  /** The budget rule fails exactly when the category has no budget or the claim would exceed it. */
  lemma BudgetVerdict(c: Context)
    ensures (exists r :: r in RunAll(c) && r.code == BGT001 && r.severity == Fail) <==>
            c.budget.None? || c.approved + c.claim.amount > c.budget.value
  {
    RunAllHas(c, BudgetRule(c));
    forall r | r in RunAll(c) && r.code == BGT001 ensures r == BudgetRule(c) {
      RunAllHas(c, r);
    }
  }

  /** A budget FAIL against a registered budget states the budget, the sum approved so far and the amount. */
  lemma BudgetFigures(c: Context, r: Result)
    requires r in RunAll(c) && r.code == BGT001 && r.severity == Fail && c.budget.Some?
    ensures r.detail.Figures? && r.detail.budget == c.budget.value && r.detail.approved == c.approved
    ensures r.detail.amount == c.claim.amount
  {
    RunAllHas(c, r);
  }

  /** The duplicate rule warns exactly when duplicates were found, and names them. */
  lemma DuplicateVerdict(c: Context, ids: seq<nat>)
    ensures Result(DUP001, Warn, Others(ids)) in RunAll(c) <==> ids == c.duplicates && ids != []
  {
    RunAllHas(c, Result(DUP001, Warn, Others(ids)));
  }

  // ---------------------------------------------------------------- the catalogue written out

  /** Some stored result of a rule has a severity. */
  ghost predicate Says(rs: seq<Result>, code: Code, severity: Severity) {
    exists i :: 0 <= i < |rs| && rs[i].code == code && rs[i].severity == severity
  }

  lemma SaysByRule(c: Context, code: Code, severity: Severity)
    ensures Says(RunAll(c), code, severity) <==>
            code != SYS001 && Rule(code, c).Some? && Rule(code, c).value.severity == severity
  {
    RuleKeepsCode(code, c);
    SaysIsMember(RunAll(c), code, severity);
    if code != SYS001 && Rule(code, c).Some? && Rule(code, c).value.severity == severity {
      RunAllHas(c, Rule(code, c).value);
    }
    forall r | r in RunAll(c) && r.code == code && r.severity == severity ensures Rule(code, c) == Some(r)
        && code != SYS001 {
      RunAllHas(c, r);
    }
  }

  lemma SaysIsMember(rs: seq<Result>, code: Code, severity: Severity)
    ensures Says(rs, code, severity) <==> exists r :: r in rs && r.code == code && r.severity == severity
  {
    if r :| r in rs && r.code == code && r.severity == severity {
      var i :| 0 <= i < |rs| && rs[i] == r;
    }
  }

  /** Evidence: missing, or its extracted amount, day or number differs from the claim. */
  lemma EvidenceInWords(c: Context)
    ensures var x, rs := c.around.extraction, RunAll(c);
            && (Says(rs, EVD001, Fail) <==> c.around.evidenceCount == 0)
            && (Says(rs, EVD001, Pass) <==> c.around.evidenceCount > 0)
            && (Says(rs, EVD002, Fail) <==>
                x.Some? && x.value.totalAmount.Some? && x.value.totalAmount.value != c.claim.amount)
            && (Says(rs, EVD002, Pass) <==> x.Some? && x.value.totalAmount == Some(c.claim.amount))
            && (Says(rs, EVD003, Warn) <==>
                x.Some? && x.value.issuedAt.Some? && x.value.issuedAt.value != c.claim.spentAt)
            && (Says(rs, EVD003, Pass) <==> x.Some? && x.value.issuedAt == Some(c.claim.spentAt))
            && (Says(rs, EVD004, Fail) <==>
                  && x.Some? && x.value.bizNo.Some? && x.value.bizNo.value != ""
                  && c.claim.bizNo.Some? && c.claim.bizNo.value != "" && x.value.bizNo.value != c.claim.bizNo.value)
            && (Says(rs, EVD004, Pass) <==>
                  x.Some? && x.value.bizNo.Some? && x.value.bizNo.value != "" && x.value.bizNo == c.claim.bizNo)
  {
    SaysByRule(c, EVD001, Fail);
    SaysByRule(c, EVD001, Pass);
    SaysByRule(c, EVD002, Fail);
    SaysByRule(c, EVD002, Pass);
    SaysByRule(c, EVD003, Warn);
    SaysByRule(c, EVD003, Pass);
    SaysByRule(c, EVD004, Fail);
    SaysByRule(c, EVD004, Pass);
  }

  /** Period: outside the project, or within its last thirty days. */
  lemma PeriodInWords(c: Context)
    ensures var first, last, day, rs := c.around.projectStart, c.around.projectEnd, c.claim.spentAt, RunAll(c);
            && (Says(rs, PRD001, Fail) <==> day < first || last < day)
            && (Says(rs, PRD001, Pass) <==> first <= day && day <= last)
            && (Says(rs, PRD002, Info) <==> last - 30 <= day && day <= last)
  {
    SaysByRule(c, PRD001, Fail);
    SaysByRule(c, PRD001, Pass);
    SaysByRule(c, PRD002, Info);
  }

  /** Budget: none or exceeded, or more than four fifths used up by this claim. */
  lemma BudgetInWords(c: Context)
    ensures var b, after, rs := c.budget, c.approved + c.claim.amount, RunAll(c);
            && (Says(rs, BGT001, Fail) <==> b.None? || after > b.value)
            && (Says(rs, BGT001, Pass) <==> b.Some? && after <= b.value)
            && (Says(rs, BGT002, Warn) <==> b.Some? && b.value > 0 && after <= b.value && 5 * after > 4 * b.value)
  {
    SaysByRule(c, BGT001, Fail);
    SaysByRule(c, BGT001, Pass);
    SaysByRule(c, BGT002, Warn);
  }

  /** The number is ten digits whose weighted sum, carry and last digit add up to a multiple of ten. */
  predicate NumberPasses(s: string) {
    && |s| == 10 && (forall i :: 0 <= i < 10 ==> '0' <= s[i] <= '9')
    && (BizNo.At(s, 0) + 3 * BizNo.At(s, 1) + 7 * BizNo.At(s, 2) + BizNo.At(s, 3) + 3 * BizNo.At(s, 4) + 7 * BizNo.At(s,
        5)
         + BizNo.At(s, 6) + 3 * BizNo.At(s, 7) + 5 * BizNo.At(s, 8) + (5 * BizNo.At(s, 8)) / 10 + BizNo.At(s,
             9)) % 10 == 0
  }

  lemma ChecksumIsNumberPasses(s: string)
    ensures BizNo.ValidChecksum(s) <==> NumberPasses(s)
  {
    BizNo.ChecksumInFull(s);
  }

  /** Vendor number: missing, or wrong. */
  lemma NumberInWords(c: Context)
    ensures var n, rs := c.claim.bizNo, RunAll(c);
            && (Says(rs, VND001, Warn) <==> n == None || n == Some(""))
            && (Says(rs, VND001, Fail) <==> n.Some? && n.value != "" && !NumberPasses(n.value))
            && (Says(rs, VND001, Pass) <==> n.Some? && n.value != "" && NumberPasses(n.value))
  {
    if c.claim.bizNo.Some? {
      ChecksumIsNumberPasses(c.claim.bizNo.value);
    }
    SaysByRule(c, VND001, Warn);
    SaysByRule(c, VND001, Fail);
    SaysByRule(c, VND001, Pass);
  }

  /** Vendor status: closed or unknown to the tax office, suspended, operating, or not verified. */
  lemma VendorInWords(c: Context)
    ensures var v, rs := c.around.vendorStatus, RunAll(c);
            && (Says(rs, VND002, Fail) <==> v == Some(Closed) || v == Some(Unregistered))
            && (Says(rs, VND002, Warn) <==> v == Some(Suspended))
            && (Says(rs, VND002, Pass) <==> v == Some(Active))
            && (Says(rs, VND003, Warn) <==> v == Some(Unverified))
  {
    SaysByRule(c, VND002, Fail);
    SaysByRule(c, VND002, Warn);
    SaysByRule(c, VND002, Pass);
    SaysByRule(c, VND003, Warn);
  }

  /** Duplicates, days off, the extraction and the category. */
  lemma OthersInWords(c: Context)
    ensures var x, rs := c.around, RunAll(c);
            && (Says(rs, DUP001, Warn) <==> c.duplicates != [])
            && (Says(rs, DUP001, Pass) <==> c.duplicates == [])
            && (Says(rs, DAY001, Warn) <==> x.nonworkingDay == Some(true))
            && (Says(rs, AI001, Warn) <==>
                  || !x.aiAvailable || x.extractionFailed || (x.evidenceCount > 0 && x.extraction.None?)
                  || (x.extraction.Some? && x.extraction.value.confidence.Some?
                      && x.extraction.value.confidence.value < 0.7))
            && (Says(rs, AI001, Pass) <==>
                  && x.aiAvailable && !x.extractionFailed && x.extraction.Some?
                  && (x.extraction.value.confidence.Some? ==> x.extraction.value.confidence.value >= 0.7))
            && (Says(rs, CAT001, Warn) <==> x.suggestion.Some? && x.suggestion.value != c.claim.category)
            && (Says(rs, CAT001, Pass) <==> x.suggestion == Some(c.claim.category))
  {
    SaysByRule(c, DUP001, Warn);
    SaysByRule(c, DUP001, Pass);
    SaysByRule(c, DAY001, Warn);
    SaysByRule(c, AI001, Warn);
    SaysByRule(c, AI001, Pass);
    SaysByRule(c, CAT001, Warn);
    SaysByRule(c, CAT001, Pass);
  }

  lemma FailHasCode(rs: seq<Result>)
    ensures (exists i :: 0 <= i < |rs| && rs[i].severity == Fail) <==> exists code :: Says(rs, code, Fail)
  {
    if i :| 0 <= i < |rs| && rs[i].severity == Fail {
      assert Says(rs, rs[i].code, Fail);
    }
  }

  lemma OnlyTheseFail(c: Context, code: Code)
    requires Says(RunAll(c), code, Fail)
    ensures code == EVD001 || code == EVD002 || code == EVD004 || code == PRD001 || code == BGT001 || code == VND001
            || code == VND002
  {
    SaysByRule(c, code, Fail);
  }

  /** A result set holds a FAIL if and only if one of these conditions on the context holds. */
  lemma FailInWords(c: Context)
    ensures (exists i :: 0 <= i < |RunAll(c)| && RunAll(c)[i].severity == Fail) <==>
            var x, n := c.around.extraction, c.claim.bizNo;
            || c.around.evidenceCount == 0
            || (x.Some? && x.value.totalAmount.Some? && x.value.totalAmount.value != c.claim.amount)
            || (x.Some? && x.value.bizNo.Some? && x.value.bizNo.value != "" && n.Some? && n.value != ""
                && x.value.bizNo != n)
            || c.claim.spentAt < c.around.projectStart || c.around.projectEnd < c.claim.spentAt
            || c.budget.None? || c.approved + c.claim.amount > c.budget.value
            || (n.Some? && n.value != "" && !NumberPasses(n.value))
            || c.around.vendorStatus == Some(Closed) || c.around.vendorStatus == Some(Unregistered)
  {
    var rs := RunAll(c);
    FailHasCode(rs);
    EvidenceInWords(c);
    PeriodInWords(c);
    BudgetInWords(c);
    NumberInWords(c);
    VendorInWords(c);
    if code :| Says(rs, code, Fail) {
      OnlyTheseFail(c, code);
    }
  }
}
